/** The 4×4 matrix (src/matrix4x4/mod.rs): row-major storage, element
    access, `from_array`, `transpose`, the exact constructors (zero,
    identity, scaling, translation), `Default`, `PartialEq` and the simple
    `Display`. */
module Mat4 {
  import opened Decimal
  import opened Text

  /** The `[T; 16]` storage of a matrix; element type `T` is `int`. */
  type Raw16 = s: seq<int> | |s| == 16 witness [0, 0, 0, 0, 0, 0, 0, 0, 0, 0, 0, 0, 0, 0, 0, 0]

  /** A row `[T; 4]` and the `[[T; 4]; 4]` argument of `from_array`. */
  type Row = s: seq<int> | |s| == 4 witness [0, 0, 0, 0]
  type Rows = a: seq<Row> | |a| == 4 witness var z: Row := [0, 0, 0, 0]; [z, z, z, z]

  /** `Matrix4x4<T>` is a `Clone` value. Element (row, column) lives at
      `raw_data[row * 4 + column]`. */
  datatype Matrix4x4 = Matrix4x4(raw_data: Raw16) {

    /** `get(row, column)`: entry `column` of row `row`. The code only
        indexes the flat storage, so the one thing that panics is a flat
        index `row * 4 + column` of 16 or more, and a column of 4 or more
        runs on into the next rows: `get(0, 5)` reads element (1, 1). */
    function Get(row: nat, column: nat): int
      requires row * 4 + column < 16
    {
      raw_data[row * 4 + column]
    }

    /** `self[(row, column)]` (`Index<(usize, usize)>`): the same element
        as `get`, with the same flat bound. */
    function Index(index: (nat, nat)): (e: int)
      requires index.0 * 4 + index.1 < 16
      ensures e == Get(index.0, index.1)
    {
      raw_data[index.0 * 4 + index.1]
    }

    /** The storage read as the `[[T; 4]; 4]` rows that `from_array`
        takes: row r is the slice `[r * 4 .. r * 4 + 4]`. */
    function AsRows(): Rows
    {
      [raw_data[0..4], raw_data[4..8], raw_data[8..12], raw_data[12..16]]
    }
  }

  /** `get(row, column)` reads entry `column` of row `row` of the row
      view; a column of 4 or more runs on into the following rows. */
  lemma GetReadsRows(m: Matrix4x4, row: nat, column: nat)
    requires row * 4 + column < 16
    ensures column < 4 ==> row < 4 && m.Get(row, column) == m.AsRows()[row][column]
    ensures column >= 4 ==> row + column / 4 < 4 && m.Get(row, column) == m.AsRows()[row + column / 4][column % 4]
  {
    assert row * 4 + column == (row + column / 4) * 4 + column % 4;
  }

  /** `from_array` and the row view are inverse: building a matrix from
      rows and reading its rows gives the rows back, and every matrix is
      built from its own rows. */
  lemma RowsRoundTrip(m: Matrix4x4, arr: Rows)
    ensures FromRows(arr).AsRows() == arr
    ensures FromRows(m.AsRows()) == m
  {
    var rows := FromRows(arr).AsRows();
    forall r | 0 <= r < 4
      ensures rows[r] == arr[r]
    {
      forall c | 0 <= c < 4
        ensures rows[r][c] == arr[r][c]
      {
        GetReadsRows(FromRows(arr), r, c);
      }
    }
    forall r, c | 0 <= r < 4 && 0 <= c < 4
      ensures FromRows(m.AsRows()).Get(r, c) == m.Get(r, c)
    {
      GetReadsRows(m, r, c);
    }
    Extensionality(FromRows(m.AsRows()), m);
  }

  /** Two matrices that agree on all 16 elements are equal. */
  lemma Extensionality(a: Matrix4x4, b: Matrix4x4)
    requires forall r, c | 0 <= r < 4 && 0 <= c < 4 :: a.Get(r, c) == b.Get(r, c)
    ensures a == b
  {
    forall k | 0 <= k < 16
      ensures a.raw_data[k] == b.raw_data[k]
    {
      assert a.Get(k / 4, k % 4) == b.Get(k / 4, k % 4);
    }
  }

  /** Extensionality with the 16 agreements listed one by one, for
      concrete matrices. */
  lemma EqualByEntries(a: Matrix4x4, b: Matrix4x4)
    requires a.Get(0, 0) == b.Get(0, 0) && a.Get(0, 1) == b.Get(0, 1) && a.Get(0, 2) == b.Get(0, 2) && a.Get(0, 3) == b.Get(0, 3)
    requires a.Get(1, 0) == b.Get(1, 0) && a.Get(1, 1) == b.Get(1, 1) && a.Get(1, 2) == b.Get(1, 2) && a.Get(1, 3) == b.Get(1, 3)
    requires a.Get(2, 0) == b.Get(2, 0) && a.Get(2, 1) == b.Get(2, 1) && a.Get(2, 2) == b.Get(2, 2) && a.Get(2, 3) == b.Get(2, 3)
    requires a.Get(3, 0) == b.Get(3, 0) && a.Get(3, 1) == b.Get(3, 1) && a.Get(3, 2) == b.Get(3, 2) && a.Get(3, 3) == b.Get(3, 3)
    ensures a == b
  {
    Extensionality(a, b);
  }

  /** The matrix whose rows are `arr`. */
  function FromRows(arr: Rows): (m: Matrix4x4)
    ensures forall r, c | 0 <= r < 4 && 0 <= c < 4 :: m.Get(r, c) == arr[r][c]
  {
    Matrix4x4(seq(16, k requires 0 <= k < 16 => arr[k / 4][k % 4]))
  }

  /** `from_array`: fills a local `[T; 16]` (initially all `T::default()`)
      row by row, element (r, c) at index `r * 4 + c`. */
  method FromArray(arr: Rows) returns (m: Matrix4x4)
    ensures m == FromRows(arr)
    ensures forall r, c | 0 <= r < 4 && 0 <= c < 4 :: m.raw_data[r * 4 + c] == arr[r][c]
  {
    var raw_data: seq<int> := seq(16, _ => 0);
    for r := 0 to 4
      invariant |raw_data| == 16
      invariant forall k | 0 <= k < r * 4 :: raw_data[k] == arr[k / 4][k % 4]
    {
      for c := 0 to 4
        invariant |raw_data| == 16
        invariant forall k | 0 <= k < r * 4 + c :: raw_data[k] == arr[k / 4][k % 4]
      {
        raw_data := raw_data[r * 4 + c := arr[r][c]];
      }
    }
    m := Matrix4x4(raw_data);
  }

  /** Rows and columns exchanged. */
  function Transposed(m: Matrix4x4): (t: Matrix4x4)
    ensures forall r, c | 0 <= r < 4 && 0 <= c < 4 :: t.Get(c, r) == m.Get(r, c)
  {
    Matrix4x4(seq(16, k requires 0 <= k < 16 => m.raw_data[(k % 4) * 4 + k / 4]))
  }

  /** `transpose`: a new matrix, filled column-outer, row-inner, with
      `new[c * 4 + r] = old[r * 4 + c]`; the receiver is a borrowed value
      and is not changed. */
  method Transpose(m: Matrix4x4) returns (t: Matrix4x4)
    ensures t == Transposed(m)
  {
    var new_raw_data: seq<int> := seq(16, _ => 0);
    for c := 0 to 4
      invariant |new_raw_data| == 16
      invariant forall k | 0 <= k < c * 4 :: new_raw_data[k] == m.raw_data[(k % 4) * 4 + k / 4]
    {
      for r := 0 to 4
        invariant |new_raw_data| == 16
        invariant forall k | 0 <= k < c * 4 + r :: new_raw_data[k] == m.raw_data[(k % 4) * 4 + k / 4]
      {
        new_raw_data := new_raw_data[c * 4 + r := m.raw_data[r * 4 + c]];
      }
    }
    t := Matrix4x4(new_raw_data);
  }

  /** Transposing twice gives back the original matrix. */
  lemma TransposeInvolutive(m: Matrix4x4)
    ensures Transposed(Transposed(m)) == m
  {
    Extensionality(Transposed(Transposed(m)), m);
  }

  /** `zero_matrix`: all 16 elements are `T::zero()`. */
  function ZeroMatrix(): (m: Matrix4x4)
    ensures forall r, c | 0 <= r < 4 && 0 <= c < 4 :: m.Get(r, c) == 0
  {
    Matrix4x4(seq(16, _ => 0))
  }

  /** `Default`: all 16 elements are `T::default()`, which is 0 for
      integers, so it is the zero matrix. */
  function Default(): (m: Matrix4x4)
    ensures m == ZeroMatrix()
  {
    Matrix4x4(seq(16, _ => 0))
  }

  /** 1 on the diagonal, 0 elsewhere. */
  function Identity(): (m: Matrix4x4)
    ensures forall r, c | 0 <= r < 4 && 0 <= c < 4 :: m.Get(r, c) == if r == c then 1 else 0
  {
    Matrix4x4(seq(16, k requires 0 <= k < 16 => if k / 4 == k % 4 then 1 else 0))
  }

  /** diag(sx, sy, sz, 1). */
  function Scaling(sx: int, sy: int, sz: int): (m: Matrix4x4)
    ensures forall r, c | 0 <= r < 4 && 0 <= c < 4 && r != c :: m.Get(r, c) == 0
    ensures m.Get(0, 0) == sx && m.Get(1, 1) == sy && m.Get(2, 2) == sz && m.Get(3, 3) == 1
  {
    Matrix4x4(seq(16, k requires 0 <= k < 16 =>
      if k / 4 != k % 4 then 0 else if k == 0 then sx else if k == 5 then sy else if k == 10 then sz else 1))
  }

  /** The identity with column 3 of rows 0..2 replaced by (tx, ty, tz). */
  function Translation(tx: int, ty: int, tz: int): (m: Matrix4x4)
    ensures forall r, c | 0 <= r < 4 && 0 <= c < 4 && !(c == 3 && r < 3) :: m.Get(r, c) == Identity().Get(r, c)
    ensures m.Get(0, 3) == tx && m.Get(1, 3) == ty && m.Get(2, 3) == tz
  {
    Matrix4x4(seq(16, k requires 0 <= k < 16 =>
      if k == 3 then tx else if k == 7 then ty else if k == 11 then tz else if k / 4 == k % 4 then 1 else 0))
  }

  /** A `let mut` binding of a matrix, the receiver of the `&mut self`
      operations: its `[T; 16]` storage is written in place. */
  class Matrix4x4Var {
    const raw_data: array<int>

    predicate Valid() { raw_data.Length == 16 }

    /** The matrix value currently held. */
    function Value(): Matrix4x4
      requires Valid()
      reads raw_data
    {
      Matrix4x4(raw_data[..])
    }

    constructor (m: Matrix4x4)
      ensures Valid() && fresh(raw_data)
      ensures Value() == m
    {
      raw_data := new int[16](k requires 0 <= k < 16 => m.raw_data[k]);
    }

    /** `set(row, column, value)` (and a write through `get_mut`): stores
        `value` at flat index `row * 4 + column`, which must be below 16;
        every other element keeps its value. */
    method Set(row: nat, column: nat, value: int)
      requires Valid()
      requires row * 4 + column < 16
      modifies raw_data
      ensures Value().Get(row, column) == value
      ensures forall r, c | 0 <= r < 4 && 0 <= c < 4 && r * 4 + c != row * 4 + column ::
        Value().Get(r, c) == old(Value()).Get(r, c)
    {
      raw_data[row * 4 + column] := value;
    }

    /** `*self = m`: every element is overwritten. */
    method Assign(m: Matrix4x4)
      requires Valid()
      modifies raw_data
      ensures Value() == m
    {
      forall k | 0 <= k < 16 {
        raw_data[k] := m.raw_data[k];
      }
    }
  }

  /** `identity_matrix`: the zero matrix with `set(i, i, one)` for
      i = 0..3. */
  method IdentityMatrix() returns (m: Matrix4x4)
    ensures m == Identity()
  {
    var mat := new Matrix4x4Var(ZeroMatrix());
    for i := 0 to 4
      invariant fresh(mat.raw_data)
      invariant forall r, c | 0 <= r < 4 && 0 <= c < 4 ::
        mat.Value().Get(r, c) == if r == c && r < i then 1 else 0
    {
      mat.Set(i, i, 1);
    }
    m := mat.Value();
    Extensionality(m, Identity());
  }

  /** `new_scaling(sx, sy, sz)`: the zero matrix with the diagonal set to
      sx, sy, sz, one. */
  method NewScaling(sx: int, sy: int, sz: int) returns (m: Matrix4x4)
    ensures m == Scaling(sx, sy, sz)
  {
    var mat := new Matrix4x4Var(ZeroMatrix());
    mat.Set(0, 0, sx);
    mat.Set(1, 1, sy);
    mat.Set(2, 2, sz);
    mat.Set(3, 3, 1);
    m := mat.Value();
    Extensionality(m, Scaling(sx, sy, sz));
  }

  /** `new_uniform_scaling(s)` is `new_scaling(s, s, s)`. */
  method NewUniformScaling(scale: int) returns (m: Matrix4x4)
    ensures m == Scaling(scale, scale, scale)
  {
    m := NewScaling(scale, scale, scale);
  }

  /** `new_translation(tx, ty, tz)`: the identity with (0,3), (1,3), (2,3)
      set to tx, ty, tz. */
  method NewTranslation(tx: int, ty: int, tz: int) returns (m: Matrix4x4)
    ensures m == Translation(tx, ty, tz)
  {
    var id := IdentityMatrix();
    var mat := new Matrix4x4Var(id);
    mat.Set(0, 3, tx);
    mat.Set(1, 3, ty);
    mat.Set(2, 3, tz);
    m := mat.Value();
    Extensionality(m, Translation(tx, ty, tz));
  }

  /** `PartialEq::eq`: visits the elements row by row and returns false at
      the first pair that differs. */
  method Equals(a: Matrix4x4, b: Matrix4x4) returns (eq: bool)
    ensures eq <==> a == b
    ensures eq <==> forall r, c | 0 <= r < 4 && 0 <= c < 4 :: a.Get(r, c) == b.Get(r, c)
  {
    for r := 0 to 4
      invariant forall r', c' | 0 <= r' < r && 0 <= c' < 4 :: a.Get(r', c') == b.Get(r', c')
    {
      for c := 0 to 4
        invariant forall r', c' | 0 <= r' < 4 && 0 <= c' < 4 && r' * 4 + c' < r * 4 + c ::
          a.Get(r', c') == b.Get(r', c')
      {
        if a.Index((r, c)) != b.Index((r, c)) {
          assert a.Get(r, c) != b.Get(r, c);
          return false;
        }
      }
    }
    Extensionality(a, b);
    return true;
  }

  /** One line of `Display`: `| e0, e1, e2, e3 |` and a newline. */
  function DisplayRow(m: Matrix4x4, r: nat): string
    requires r < 4
  {
    "| " + IntToString(m.Index((r, 0))) + ", " + IntToString(m.Index((r, 1))) + ", "
    + IntToString(m.Index((r, 2))) + ", " + IntToString(m.Index((r, 3))) + " |\n"
  }

  /** What `Display` has written after n rows: the leading newline and
      then the first n lines, in row order. */
  function DisplayText(m: Matrix4x4, n: nat): string
    requires n <= 4
  {
    if n == 0 then "\n" else DisplayText(m, n - 1) + DisplayRow(m, n - 1)
  }

  /** `Display::fmt`: a leading newline, then one line per row. */
  method Display(m: Matrix4x4) returns (s: string)
    ensures s == DisplayText(m, 4)
  {
    s := "\n";
    for r := 0 to 4
      invariant s == DisplayText(m, r)
    {
      s := s + DisplayRow(m, r);
    }
  }

  /** Each row of the display is exactly one line: its only line break is
      the one that ends it. */
  lemma DisplayRowIsOneLine(m: Matrix4x4, r: nat)
    requires r < 4
    ensures Count(DisplayRow(m, r), '\n') == 1
    ensures DisplayRow(m, r)[|DisplayRow(m, r)| - 1] == '\n'
  {
    var t0, t1 := IntToString(m.Index((r, 0))), IntToString(m.Index((r, 1)));
    var t2, t3 := IntToString(m.Index((r, 2))), IntToString(m.Index((r, 3)));
    TextSingleLine(m.Index((r, 0)));
    TextSingleLine(m.Index((r, 1)));
    TextSingleLine(m.Index((r, 2)));
    TextSingleLine(m.Index((r, 3)));
    CountAbsent("| ", '\n');
    CountAbsent(", ", '\n');
    assert Count(" |\n", '\n') == 1 by {
      CountAbsent(" |", '\n');
      assert " |\n"[..2] == " |";
    }
    CountAppend("| ", t0, '\n');
    CountAppend("| " + t0, ", ", '\n');
    CountAppend("| " + t0 + ", ", t1, '\n');
    CountAppend("| " + t0 + ", " + t1, ", ", '\n');
    CountAppend("| " + t0 + ", " + t1 + ", ", t2, '\n');
    CountAppend("| " + t0 + ", " + t1 + ", " + t2, ", ", '\n');
    CountAppend("| " + t0 + ", " + t1 + ", " + t2 + ", ", t3, '\n');
    CountAppend("| " + t0 + ", " + t1 + ", " + t2 + ", " + t3, " |\n", '\n');
  }

  /** After n rows the display holds n + 1 line breaks: the leading empty
      line and one per row. */
  lemma {:induction false} DisplayLineCount(m: Matrix4x4, n: nat)
    requires n <= 4
    ensures Count(DisplayText(m, n), '\n') == n + 1
    decreases n
  {
    if n == 0 {
      assert "\n"[..0] == "";
    } else {
      DisplayLineCount(m, n - 1);
      DisplayRowIsOneLine(m, n - 1);
      CountAppend(DisplayText(m, n - 1), DisplayRow(m, n - 1), '\n');
    }
  }

  /** The whole display is an empty line followed by the four rows, top to
      bottom, so it ends with a line break and holds five of them. */
  lemma DisplayIsRows(m: Matrix4x4)
    ensures DisplayText(m, 4) == "\n" + DisplayRow(m, 0) + DisplayRow(m, 1) + DisplayRow(m, 2) + DisplayRow(m, 3)
    ensures Count(DisplayText(m, 4), '\n') == 5
  {
    assert DisplayText(m, 1) == "\n" + DisplayRow(m, 0);
    assert DisplayText(m, 2) == DisplayText(m, 1) + DisplayRow(m, 1);
    assert DisplayText(m, 3) == DisplayText(m, 2) + DisplayRow(m, 2);
    DisplayLineCount(m, 4);
  }
}
