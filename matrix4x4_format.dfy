/** The column-aligned printers of a matrix (src/matrix4x4/format.rs).
    Both first turn every element into its `to_string` text and measure
    it, then write four lines `| f0 f1 f2 f3 |` where each field is the
    text right-aligned in a field of the measured width and followed by
    one space. `format_uniform_columns` uses one width for every column
    (the longest of all 16 texts), `format_align_rows` one width per
    column (the longest text of that column). */
module Mat4Format {
  import opened Decimal
  import opened Text
  import opened Mat4

  /** A 4×4 grid of element texts, the shape of `buffers`. */
  predicate IsGrid(g: seq<seq<string>>)
  {
    |g| == 4 && forall r | 0 <= r < 4 :: |g[r]| == 4
  }

  /** The texts `self[(r, c)].to_string()` of all 16 elements, by row. */
  function Cells(m: Matrix4x4): (g: seq<seq<string>>)
    ensures IsGrid(g)
    ensures forall r, c | 0 <= r < 4 && 0 <= c < 4 :: g[r][c] == IntToString(m.Get(r, c))
  {
    seq(4, r requires 0 <= r < 4 => seq(4, c requires 0 <= c < 4 => IntToString(m.Get(r, c))))
  }

  /** A grid holding the text of every element is `Cells(m)`. */
  lemma GridOfCells(m: Matrix4x4, g: seq<seq<string>>)
    requires |g| == 4 && forall r | 0 <= r < 4 :: |g[r]| == 4
    requires forall r, c | 0 <= r < 4 && 0 <= c < 4 :: g[r][c] == IntToString(m.Get(r, c))
    ensures g == Cells(m)
  {
    forall r | 0 <= r < 4
      ensures g[r] == Cells(m)[r]
    {
    }
  }

  /** `{:>w$}`: the text right-aligned in a field of w characters, filled
      with spaces on the left; a longer text is written whole, never cut. */
  function PadLeft(s: string, w: nat): (p: string)
    ensures |p| == if |s| >= w then |s| else w
    ensures p == Spaces(|p| - |s|) + s
  {
    if |s| >= w then s else Spaces(w - |s|) + s
  }

  /** `write!(result, "{:>1$} ", text, w)`: the padded text and one space. */
  function Field(s: string, w: nat): string
  {
    PadLeft(s, w) + " "
  }

  /** Line r after its first n fields: `"| "` and then the fields of
      columns 0 .. n-1 with their widths. */
  function LinePrefix(g: seq<seq<string>>, widths: seq<nat>, r: nat, n: nat): string
    requires IsGrid(g) && |widths| == 4 && r < 4 && n <= 4
  {
    if n == 0 then "| " else LinePrefix(g, widths, r, n - 1) + Field(g[r][n - 1], widths[n - 1])
  }

  /** Line r in full: the four fields closed by `"|\n"`. */
  function Line(g: seq<seq<string>>, widths: seq<nat>, r: nat): string
    requires IsGrid(g) && |widths| == 4 && r < 4
  {
    LinePrefix(g, widths, r, 4) + "|\n"
  }

  /** What the second loop of either printer has written after n rows. */
  function Layout(g: seq<seq<string>>, widths: seq<nat>, n: nat): string
    requires IsGrid(g) && |widths| == 4 && n <= 4
    decreases g, 6 * n
  {
    if n == 0 then "" else Written(g, widths, n - 1, 4) + "|\n"
  }

  /** What it has written after n rows and then `"| "` and c fields of
      row r. */
  function Written(g: seq<seq<string>>, widths: seq<nat>, r: nat, c: nat): string
    requires IsGrid(g) && |widths| == 4 && r < 4 && c <= 4
    decreases g, 6 * r + c + 1
  {
    if c == 0 then Layout(g, widths, r) + "| " else Written(g, widths, r, c - 1) + Field(g[r][c - 1], widths[c - 1])
  }

  /** The longest element text among the first n elements in the order
      the first loop visits them (row by row, that is storage order); 0
      when n is 0, as `max_len` starts. */
  function MaxLen(m: Matrix4x4, n: nat): nat
    requires n <= 16
    decreases m, n
  {
    if n == 0 then 0
    else
      var len := |IntToString(m.raw_data[n - 1])|;
      if len > MaxLen(m, n - 1) then len else MaxLen(m, n - 1)
  }

  /** No text among the first n is longer than their maximum. */
  lemma {:induction false} MaxLenBound(m: Matrix4x4, n: nat)
    requires n <= 16
    ensures forall k | 0 <= k < n :: |IntToString(m.raw_data[k])| <= MaxLen(m, n)
  {
    if n > 0 {
      MaxLenBound(m, n - 1);
    }
  }

  /** One of the first n texts, when there is one, is exactly as long as
      their maximum. */
  lemma {:induction false} MaxLenAttained(m: Matrix4x4, n: nat)
    requires 0 < n <= 16
    ensures exists k | 0 <= k < n :: |IntToString(m.raw_data[k])| == MaxLen(m, n)
  {
    if n > 1 && MaxLen(m, n) == MaxLen(m, n - 1) {
      MaxLenAttained(m, n - 1);
    } else {
      assert |IntToString(m.raw_data[n - 1])| == MaxLen(m, n);
    }
  }

  /** The width `format_uniform_columns` uses for every column: the
      longest of the 16 element texts. */
  function UniformWidth(m: Matrix4x4): (w: nat)
    ensures forall r, c | 0 <= r < 4 && 0 <= c < 4 :: |Cells(m)[r][c]| <= w
    ensures exists r, c | 0 <= r < 4 && 0 <= c < 4 :: |Cells(m)[r][c]| == w
  {
    var w := MaxLen(m, 16);
    MaxLenBound(m, 16);
    MaxLenAttained(m, 16);
    forall r, c | 0 <= r < 4 && 0 <= c < 4
      ensures |Cells(m)[r][c]| <= w
    {
      assert m.Get(r, c) == m.raw_data[r * 4 + c];
    }
    var k :| 0 <= k < 16 && |IntToString(m.raw_data[k])| == w;
    assert k / 4 * 4 + k % 4 == k;
    assert |Cells(m)[k / 4][k % 4]| == w;
    w
  }

  function UniformWidths(m: Matrix4x4): (widths: seq<nat>)
    ensures |widths| == 4
    ensures forall c | 0 <= c < 4 :: widths[c] == UniformWidth(m)
  {
    var w := UniformWidth(m);
    [w, w, w, w]
  }

  /** The longest text among the first n elements of column c; 0 when n
      is 0, as `columns_max_lengths[c]` starts. */
  function ColumnWidth(m: Matrix4x4, c: nat, n: nat): nat
    requires c < 4 && n <= 4
    decreases m, n
  {
    if n == 0 then 0
    else
      var len := |IntToString(m.Get(n - 1, c))|;
      if len > ColumnWidth(m, c, n - 1) then len else ColumnWidth(m, c, n - 1)
  }

  /** No text among the first n of column c is longer than their
      maximum. */
  lemma {:induction false} ColumnWidthBound(m: Matrix4x4, c: nat, n: nat)
    requires c < 4 && n <= 4
    ensures forall r | 0 <= r < n :: |IntToString(m.Get(r, c))| <= ColumnWidth(m, c, n)
  {
    if n > 0 {
      ColumnWidthBound(m, c, n - 1);
    }
  }

  /** One of the first n texts of column c, when there is one, is exactly
      as long as their maximum. */
  lemma {:induction false} ColumnWidthAttained(m: Matrix4x4, c: nat, n: nat)
    requires c < 4 && 0 < n <= 4
    ensures exists r | 0 <= r < n :: |IntToString(m.Get(r, c))| == ColumnWidth(m, c, n)
  {
    if n > 1 && ColumnWidth(m, c, n) == ColumnWidth(m, c, n - 1) {
      ColumnWidthAttained(m, c, n - 1);
    } else {
      assert |IntToString(m.Get(n - 1, c))| == ColumnWidth(m, c, n);
    }
  }

  /** The widths `format_align_rows` uses, one per column. */
  function ColumnWidths(m: Matrix4x4): (widths: seq<nat>)
    ensures |widths| == 4
    ensures forall c | 0 <= c < 4 :: widths[c] == ColumnWidth(m, c, 4)
  {
    [ColumnWidth(m, 0, 4), ColumnWidth(m, 1, 4), ColumnWidth(m, 2, 4), ColumnWidth(m, 3, 4)]
  }

  /** The second loop shared by both printers: for each row `"| "`, the
      four fields of `buffers` with `widths`, then `"|\n"`. */
  method WriteRows(buffers: seq<seq<string>>, widths: seq<nat>) returns (result: string)
    requires IsGrid(buffers) && |widths| == 4
    ensures result == Layout(buffers, widths, 4)
  {
    result := "";
    for r := 0 to 4
      invariant result == Layout(buffers, widths, r)
    {
      result := result + "| ";
      for c := 0 to 4
        invariant result == Written(buffers, widths, r, c)
      {
        result := result + Field(buffers[r][c], widths[c]);
      }
      result := result + "|\n";
    }
  }

  /** One pass of the first loop of `format_uniform_columns` over row r:
      the texts of the row's four elements, with `max_len` raised to the
      longest of them. */
  method CollectRowUniform(m: Matrix4x4, r: nat, max_in: nat) returns (row_buffers: seq<string>, max_len: nat)
    requires r < 4 && max_in == MaxLen(m, r * 4)
    ensures |row_buffers| == 4
    ensures forall c | 0 <= c < 4 :: row_buffers[c] == IntToString(m.Get(r, c))
    ensures max_len == MaxLen(m, r * 4 + 4)
  {
    max_len := max_in;
    row_buffers := [];
    for c := 0 to 4
      invariant |row_buffers| == c
      invariant forall c' | 0 <= c' < c :: row_buffers[c'] == IntToString(m.Get(r, c'))
      invariant max_len == MaxLen(m, r * 4 + c)
    {
      var s := ToString(m.Index((r, c)));
      var current_len := |s|;
      if current_len > max_len {
        max_len := current_len;
      }
      row_buffers := row_buffers + [s];
    }
  }

  /** `format_uniform_columns`: collect the 16 texts row by row while
      keeping the longest length in `max_len`, then write the rows with
      that width for every column. */
  method FormatUniformColumns(m: Matrix4x4) returns (result: string)
    ensures result == Layout(Cells(m), UniformWidths(m), 4)
  {
    var buffers: seq<seq<string>> := [];
    var max_len: nat := 0;
    for r := 0 to 4
      invariant |buffers| == r
      invariant forall r' | 0 <= r' < r :: |buffers[r']| == 4
      invariant forall r', c' | 0 <= r' < r && 0 <= c' < 4 :: buffers[r'][c'] == IntToString(m.Get(r', c'))
      invariant max_len == MaxLen(m, r * 4)
    {
      var row_buffers;
      row_buffers, max_len := CollectRowUniform(m, r, max_len);
      buffers := buffers + [row_buffers];
    }
    GridOfCells(m, buffers);
    result := WriteRows(buffers, [max_len, max_len, max_len, max_len]);
  }

  /** One pass of the first loop of `format_align_rows` over row r: the
      texts of the row's four elements, with each column's maximum raised
      to cover this row. */
  method CollectRowAligned(m: Matrix4x4, r: nat, widths_in: seq<nat>) returns (row_buffers: seq<string>, widths: seq<nat>)
    requires r < 4 && |widths_in| == 4
    requires forall c | 0 <= c < 4 :: widths_in[c] == ColumnWidth(m, c, r)
    ensures |row_buffers| == 4
    ensures forall c | 0 <= c < 4 :: row_buffers[c] == IntToString(m.Get(r, c))
    ensures |widths| == 4
    ensures forall c | 0 <= c < 4 :: widths[c] == ColumnWidth(m, c, r + 1)
  {
    widths := widths_in;
    row_buffers := [];
    for c := 0 to 4
      invariant |row_buffers| == c
      invariant forall c' | 0 <= c' < c :: row_buffers[c'] == IntToString(m.Get(r, c'))
      invariant |widths| == 4
      invariant forall c' | 0 <= c' < c :: widths[c'] == ColumnWidth(m, c', r + 1)
      invariant forall c' | c <= c' < 4 :: widths[c'] == widths_in[c']
    {
      var s := ToString(m.Index((r, c)));
      var current_len := |s|;
      if current_len > widths[c] {
        widths := widths[c := current_len];
      }
      row_buffers := row_buffers + [s];
    }
  }

  /** `format_align_rows`: collect the 16 texts row by row while keeping
      the longest length of each column in `columns_max_lengths`, then
      write the rows with those widths. */
  method FormatAlignRows(m: Matrix4x4) returns (result: string)
    ensures result == Layout(Cells(m), ColumnWidths(m), 4)
  {
    var buffers: seq<seq<string>> := [];
    var columns_max_lengths: seq<nat> := [0, 0, 0, 0];
    for r := 0 to 4
      invariant |buffers| == r
      invariant forall r' | 0 <= r' < r :: |buffers[r']| == 4
      invariant forall r', c' | 0 <= r' < r && 0 <= c' < 4 :: buffers[r'][c'] == IntToString(m.Get(r', c'))
      invariant |columns_max_lengths| == 4
      invariant forall c' | 0 <= c' < 4 :: columns_max_lengths[c'] == ColumnWidth(m, c', r)
    {
      var row_buffers;
      row_buffers, columns_max_lengths := CollectRowAligned(m, r, columns_max_lengths);
      buffers := buffers + [row_buffers];
    }
    GridOfCells(m, buffers);
    assert columns_max_lengths == ColumnWidths(m);
    result := WriteRows(buffers, columns_max_lengths);
  }
}
