/** What the two printers of src/matrix4x4/format.rs promise about the
    text they write: four lines framed by `| ` and `|\n`, the fields of a
    row in column order, every field as wide as its column so that all
    lines have the same length, and the element text recoverable from its
    field. */
module Mat4FormatProps {
  import opened Decimal
  import opened Text
  import opened Mat4
  import opened Mat4Format

  /** Every width is at least as long as the text of its column, in every
      row: the fields are then padded and never overflow. */
  predicate Covers(g: seq<seq<string>>, widths: seq<nat>)
    requires IsGrid(g) && |widths| == 4
  {
    forall r, c | 0 <= r < 4 && 0 <= c < 4 :: |g[r][c]| <= widths[c]
  }

  /** No text of the grid holds a line break. */
  predicate SingleLine(g: seq<seq<string>>)
    requires IsGrid(g)
  {
    forall r, c | 0 <= r < 4 && 0 <= c < 4 :: Count(g[r][c], '\n') == 0
  }

  // ----- the text as lines -----

  /** Concatenation regrouped, stated over plain strings so that the
      solver does not have to unfold the printers' functions to use it. */
  lemma AppendAssociative(a: string, b: string, c: string)
    ensures (a + b) + c == a + (b + c)
  {
  }

  lemma {:induction false} WrittenSplits(g: seq<seq<string>>, widths: seq<nat>, r: nat, c: nat)
    requires IsGrid(g) && |widths| == 4 && r < 4 && c <= 4
    ensures Written(g, widths, r, c) == Layout(g, widths, r) + LinePrefix(g, widths, r, c)
    decreases c
  {
    if c > 0 {
      WrittenSplits(g, widths, r, c - 1);
      var done, prefix, field := Layout(g, widths, r), LinePrefix(g, widths, r, c - 1), Field(g[r][c - 1], widths[c - 1]);
      AppendAssociative(done, prefix, field);
    }
  }

  /** Each pass of the outer writing loop appends exactly one line. */
  lemma LayoutStep(g: seq<seq<string>>, widths: seq<nat>, n: nat)
    requires IsGrid(g) && |widths| == 4 && n < 4
    ensures Layout(g, widths, n + 1) == Layout(g, widths, n) + Line(g, widths, n)
  {
    WrittenSplits(g, widths, n, 4);
    AppendAssociative(Layout(g, widths, n), LinePrefix(g, widths, n, 4), "|\n");
  }

  /** The whole text is the four lines, row 0 first. */
  lemma LayoutIsLines(g: seq<seq<string>>, widths: seq<nat>)
    requires IsGrid(g) && |widths| == 4
    ensures Layout(g, widths, 4)
         == Line(g, widths, 0) + Line(g, widths, 1) + Line(g, widths, 2) + Line(g, widths, 3)
  {
    LayoutStep(g, widths, 0);
    LayoutStep(g, widths, 1);
    LayoutStep(g, widths, 2);
    LayoutStep(g, widths, 3);
    assert Layout(g, widths, 0) + Line(g, widths, 0) == Line(g, widths, 0);
  }

  /** Line r is `"| "`, the four fields of row r in column order, and
      `"|\n"`. */
  lemma LineFields(g: seq<seq<string>>, widths: seq<nat>, r: nat)
    requires IsGrid(g) && |widths| == 4 && r < 4
    ensures Line(g, widths, r)
         == "| " + Field(g[r][0], widths[0]) + Field(g[r][1], widths[1])
                 + Field(g[r][2], widths[2]) + Field(g[r][3], widths[3]) + "|\n"
  {
    assert LinePrefix(g, widths, r, 1) == "| " + Field(g[r][0], widths[0]);
    assert LinePrefix(g, widths, r, 2) == LinePrefix(g, widths, r, 1) + Field(g[r][1], widths[1]);
    assert LinePrefix(g, widths, r, 3) == LinePrefix(g, widths, r, 2) + Field(g[r][2], widths[2]);
  }

  /** Every line starts with `"| "` and ends with `"|\n"`. */
  lemma LineFramed(g: seq<seq<string>>, widths: seq<nat>, r: nat)
    requires IsGrid(g) && |widths| == 4 && r < 4
    ensures |Line(g, widths, r)| >= 4
    ensures Line(g, widths, r)[..2] == "| "
    ensures Line(g, widths, r)[|Line(g, widths, r)| - 2..] == "|\n"
  {
    var prefix := LinePrefix(g, widths, r, 4);
    LinePrefixStart(g, widths, r, 4);
    assert (prefix + "|\n")[..2] == prefix[..2];
    assert (prefix + "|\n")[|prefix|..] == "|\n";
  }

  lemma {:induction false} LinePrefixStart(g: seq<seq<string>>, widths: seq<nat>, r: nat, n: nat)
    requires IsGrid(g) && |widths| == 4 && r < 4 && n <= 4
    ensures |LinePrefix(g, widths, r, n)| >= 2 && LinePrefix(g, widths, r, n)[..2] == "| "
    decreases n
  {
    if n > 0 {
      LinePrefixStart(g, widths, r, n - 1);
      assert (LinePrefix(g, widths, r, n - 1) + Field(g[r][n - 1], widths[n - 1]))[..2] == LinePrefix(g, widths, r, n - 1)[..2];
    }
  }

  // ----- line breaks -----

  lemma FieldSingleLine(s: string, w: nat)
    requires Count(s, '\n') == 0
    ensures Count(Field(s, w), '\n') == 0
  {
    var p := PadLeft(s, w);
    CountAbsent(Spaces(|p| - |s|), '\n');
    CountAppend(Spaces(|p| - |s|), s, '\n');
    CountAppend(p, " ", '\n');
  }

  lemma {:induction false} LinePrefixSingleLine(g: seq<seq<string>>, widths: seq<nat>, r: nat, n: nat)
    requires IsGrid(g) && |widths| == 4 && r < 4 && n <= 4 && SingleLine(g)
    ensures Count(LinePrefix(g, widths, r, n), '\n') == 0
    decreases n
  {
    if n == 0 {
      CountAbsent("| ", '\n');
    } else {
      LinePrefixSingleLine(g, widths, r, n - 1);
      FieldSingleLine(g[r][n - 1], widths[n - 1]);
      CountAppend(LinePrefix(g, widths, r, n - 1), Field(g[r][n - 1], widths[n - 1]), '\n');
    }
  }

  /** Each line holds exactly one line break, its last character. */
  lemma LineBreaks(g: seq<seq<string>>, widths: seq<nat>, r: nat)
    requires IsGrid(g) && |widths| == 4 && r < 4 && SingleLine(g)
    ensures Count(Line(g, widths, r), '\n') == 1
  {
    LinePrefixSingleLine(g, widths, r, 4);
    CountAppend(LinePrefix(g, widths, r, 4), "|\n", '\n');
    assert Count("|\n", '\n') == Count("|", '\n') + 1 by {
      assert "|\n"[..1] == "|";
    }
    CountAbsent("|", '\n');
  }

  /** The text has exactly four line breaks: it is four lines. */
  lemma {:induction false} LayoutLineCount(g: seq<seq<string>>, widths: seq<nat>, n: nat)
    requires IsGrid(g) && |widths| == 4 && n <= 4 && SingleLine(g)
    ensures Count(Layout(g, widths, n), '\n') == n
    decreases n
  {
    if n > 0 {
      LayoutLineCount(g, widths, n - 1);
      LayoutStep(g, widths, n - 1);
      LineBreaks(g, widths, n - 1);
      CountAppend(Layout(g, widths, n - 1), Line(g, widths, n - 1), '\n');
    }
  }

  lemma CellsSingleLine(m: Matrix4x4)
    ensures SingleLine(Cells(m))
  {
    forall r, c | 0 <= r < 4 && 0 <= c < 4
      ensures Count(Cells(m)[r][c], '\n') == 0
    {
      TextSingleLine(m.Get(r, c));
    }
  }

  /** Both printers write exactly four lines. */
  lemma PrintsFourLines(m: Matrix4x4)
    ensures Count(Layout(Cells(m), UniformWidths(m), 4), '\n') == 4
    ensures Count(Layout(Cells(m), ColumnWidths(m), 4), '\n') == 4
  {
    CellsSingleLine(m);
    LayoutLineCount(Cells(m), UniformWidths(m), 4);
    LayoutLineCount(Cells(m), ColumnWidths(m), 4);
  }

  // ----- widths and lengths -----

  /** A field whose width covers its text is exactly that width plus the
      separating space. */
  lemma FieldLength(s: string, w: nat)
    requires |s| <= w
    ensures |Field(s, w)| == w + 1
  {
  }

  lemma {:induction false} LinePrefixLength(g: seq<seq<string>>, widths: seq<nat>, r: nat, n: nat)
    requires IsGrid(g) && |widths| == 4 && r < 4 && n <= 4 && Covers(g, widths)
    ensures |LinePrefix(g, widths, r, n)| == 2 + n + Sum(widths, n)
    decreases n
  {
    if n > 0 {
      LinePrefixLength(g, widths, r, n - 1);
      FieldLength(g[r][n - 1], widths[n - 1]);
    }
  }

  /** The first n widths added up. */
  function Sum(widths: seq<nat>, n: nat): nat
    requires n <= |widths|
  {
    if n == 0 then 0 else Sum(widths, n - 1) + widths[n - 1]
  }

  /** With covering widths a line is as long as the four widths, a space
      after each field and the four frame characters: the same length
      for every row, so the columns line up. */
  lemma LineLength(g: seq<seq<string>>, widths: seq<nat>, r: nat)
    requires IsGrid(g) && |widths| == 4 && r < 4 && Covers(g, widths)
    ensures |Line(g, widths, r)| == widths[0] + widths[1] + widths[2] + widths[3] + 8
  {
    LinePrefixLength(g, widths, r, 4);
    assert Sum(widths, 1) == widths[0];
    assert Sum(widths, 2) == widths[0] + widths[1];
    assert Sum(widths, 3) == widths[0] + widths[1] + widths[2];
  }

  lemma LayoutLength(g: seq<seq<string>>, widths: seq<nat>)
    requires IsGrid(g) && |widths| == 4 && Covers(g, widths)
    ensures |Layout(g, widths, 4)| == 4 * (widths[0] + widths[1] + widths[2] + widths[3] + 8)
  {
    LayoutIsLines(g, widths);
    LineLength(g, widths, 0);
    LineLength(g, widths, 1);
    LineLength(g, widths, 2);
    LineLength(g, widths, 3);
  }

  lemma UniformCovers(m: Matrix4x4)
    ensures Covers(Cells(m), UniformWidths(m))
  {
  }

  /** `columns_max_lengths[c]` is the longest text of column c: no text
      of the column is longer, and one is exactly that long. */
  lemma ColumnWidthsAreMaxima(m: Matrix4x4)
    ensures Covers(Cells(m), ColumnWidths(m))
    ensures forall c | 0 <= c < 4 :: exists r | 0 <= r < 4 :: |Cells(m)[r][c]| == ColumnWidths(m)[c]
  {
    forall c | 0 <= c < 4
      ensures forall r | 0 <= r < 4 :: |Cells(m)[r][c]| <= ColumnWidths(m)[c]
      ensures exists r | 0 <= r < 4 :: |Cells(m)[r][c]| == ColumnWidths(m)[c]
    {
      ColumnWidthBound(m, c, 4);
      ColumnWidthAttained(m, c, 4);
      var r :| 0 <= r < 4 && |IntToString(m.Get(r, c))| == ColumnWidth(m, c, 4);
      assert |Cells(m)[r][c]| == ColumnWidths(m)[c];
    }
  }

  /** In `format_uniform_columns` every line is `2 + 4·(max_len + 1) + 2`
      characters long. */
  lemma UniformLineLength(m: Matrix4x4, r: nat)
    requires r < 4
    ensures |Line(Cells(m), UniformWidths(m), r)| == 2 + 4 * (UniformWidth(m) + 1) + 2
  {
    UniformCovers(m);
    LineLength(Cells(m), UniformWidths(m), r);
  }

  /** In `format_align_rows` every line has the same length, fixed by the
      four column widths. */
  lemma AlignedLineLength(m: Matrix4x4, r: nat)
    requires r < 4
    ensures |Line(Cells(m), ColumnWidths(m), r)|
         == ColumnWidth(m, 0, 4) + ColumnWidth(m, 1, 4) + ColumnWidth(m, 2, 4) + ColumnWidth(m, 3, 4) + 8
  {
    ColumnWidthsAreMaxima(m);
    LineLength(Cells(m), ColumnWidths(m), r);
  }

  /** No column is wider than the uniform width, and the widest column is
      exactly that wide. */
  lemma ColumnsWithinUniform(m: Matrix4x4)
    ensures forall c | 0 <= c < 4 :: ColumnWidth(m, c, 4) <= UniformWidth(m)
    ensures exists c | 0 <= c < 4 :: ColumnWidth(m, c, 4) == UniformWidth(m)
  {
    ColumnWidthsAreMaxima(m);
    var g := Cells(m);
    forall c | 0 <= c < 4
      ensures ColumnWidth(m, c, 4) <= UniformWidth(m)
    {
      var r :| 0 <= r < 4 && |g[r][c]| == ColumnWidths(m)[c];
    }
    var r, c :| 0 <= r < 4 && 0 <= c < 4 && |g[r][c]| == UniformWidth(m);
    assert ColumnWidth(m, c, 4) == UniformWidth(m) by {
      assert |g[r][c]| <= ColumnWidths(m)[c];
    }
  }

  /** The two printers use the same widths exactly when all columns are
      equally wide: then each is as wide as the widest text of all. */
  lemma EqualColumnsAreUniform(m: Matrix4x4)
    ensures ColumnWidths(m) == UniformWidths(m)
        <==> forall c | 0 <= c < 4 :: ColumnWidths(m)[c] == ColumnWidths(m)[0]
  {
    var ws := ColumnWidths(m);
    if forall c | 0 <= c < 4 :: ws[c] == ws[0] {
      ColumnsWithinUniform(m);
      var c :| 0 <= c < 4 && ColumnWidth(m, c, 4) == UniformWidth(m);
      assert ws[c] == UniformWidth(m);
    }
  }

  /** Texts of equal length mean the column widths add up to four times
      the uniform width, and since none exceeds it, all equal it. */
  lemma SameLengthEqualColumns(m: Matrix4x4)
    requires |Layout(Cells(m), ColumnWidths(m), 4)| == |Layout(Cells(m), UniformWidths(m), 4)|
    ensures ColumnWidths(m) == UniformWidths(m)
  {
    var u := UniformWidth(m);
    var w0, w1, w2, w3 := ColumnWidth(m, 0, 4), ColumnWidth(m, 1, 4), ColumnWidth(m, 2, 4), ColumnWidth(m, 3, 4);
    UniformTextLength(m);
    AlignedTextLength(m);
    assert w0 + w1 + w2 + w3 == 4 * u;
    ColumnsWithinUniform(m);
    assert w0 <= u && w1 <= u && w2 <= u && w3 <= u;
    NoneBelowAverage([w0, w1, w2, w3], u);
  }

  /** Four widths, none above u, that add up to 4·u are all u. */
  lemma NoneBelowAverage(ws: seq<nat>, u: nat)
    requires |ws| == 4 && ws[0] <= u && ws[1] <= u && ws[2] <= u && ws[3] <= u
    requires ws[0] + ws[1] + ws[2] + ws[3] == 4 * u
    ensures ws == [u, u, u, u]
  {
  }

  lemma UniformTextLength(m: Matrix4x4)
    ensures |Layout(Cells(m), UniformWidths(m), 4)| == 4 * (4 * UniformWidth(m) + 8)
  {
    UniformCovers(m);
    LayoutLength(Cells(m), UniformWidths(m));
  }

  lemma AlignedTextLength(m: Matrix4x4)
    ensures |Layout(Cells(m), ColumnWidths(m), 4)|
         == 4 * (ColumnWidth(m, 0, 4) + ColumnWidth(m, 1, 4) + ColumnWidth(m, 2, 4) + ColumnWidth(m, 3, 4) + 8)
  {
    ColumnWidthsAreMaxima(m);
    LayoutLength(Cells(m), ColumnWidths(m));
  }

  /** The two printers write the same text exactly when they use the
      same widths, that is (by `EqualColumnsAreUniform`) when all four
      columns are equally wide. */
  lemma PrintersAgree(m: Matrix4x4)
    ensures Layout(Cells(m), ColumnWidths(m), 4) == Layout(Cells(m), UniformWidths(m), 4)
        <==> ColumnWidths(m) == UniformWidths(m)
  {
    var aligned, uniform := Layout(Cells(m), ColumnWidths(m), 4), Layout(Cells(m), UniformWidths(m), 4);
    if aligned == uniform {
      assert |aligned| == |uniform|;
      SameLengthEqualColumns(m);
    }
  }

  // ----- reading a field back -----

  /** Stripping the padding from an element's field gives back exactly the
      element's text (which, by `IntToStringRoundTrip`, determines the
      element). */
  lemma FieldRecoversElement(x: int, w: nat)
    ensures TrimStart(PadLeft(IntToString(x), w)) == IntToString(x)
  {
    var s := IntToString(x);
    IntToStringShape(x);
    TrimStartOfPadded(|PadLeft(s, w)| - |s|, s);
  }
}
