/** The matrix product (src/matrix4x4/mul.rs): `Mul` for every mix of
    owned and borrowed operands, and `MulAssign`. */
module Mat4Mul {
  import opened Mat4

  /** The sum of the first n products a(r, i)·b(i, c), accumulated from 0
      in the order i = 0, 1, ... as the loop does. */
  function RowColumnSum(a: Matrix4x4, b: Matrix4x4, r: nat, c: nat, n: nat): int
    requires r < 4 && c < 4 && n <= 4
  {
    if n == 0 then 0 else RowColumnSum(a, b, r, c, n - 1) + a.Get(r, n - 1) * b.Get(n - 1, c)
  }

  lemma RowColumnSumExpanded(a: Matrix4x4, b: Matrix4x4)
    ensures forall r, c | 0 <= r < 4 && 0 <= c < 4 ::
      RowColumnSum(a, b, r, c, 4)
        == a.Get(r, 0) * b.Get(0, c) + a.Get(r, 1) * b.Get(1, c) + a.Get(r, 2) * b.Get(2, c) + a.Get(r, 3) * b.Get(3, c)
  {
    forall r, c | 0 <= r < 4 && 0 <= c < 4
      ensures RowColumnSum(a, b, r, c, 4)
        == a.Get(r, 0) * b.Get(0, c) + a.Get(r, 1) * b.Get(1, c) + a.Get(r, 2) * b.Get(2, c) + a.Get(r, 3) * b.Get(3, c)
    {
      assert RowColumnSum(a, b, r, c, 1) == a.Get(r, 0) * b.Get(0, c);
      assert RowColumnSum(a, b, r, c, 2) == RowColumnSum(a, b, r, c, 1) + a.Get(r, 1) * b.Get(1, c);
      assert RowColumnSum(a, b, r, c, 3) == RowColumnSum(a, b, r, c, 2) + a.Get(r, 2) * b.Get(2, c);
    }
  }

  /** `a * b`: element (r, c) is the sum over i of a(r, i)·b(i, c). */
  function Product(a: Matrix4x4, b: Matrix4x4): (p: Matrix4x4)
    ensures forall r, c | 0 <= r < 4 && 0 <= c < 4 ::
      p.Get(r, c)
        == a.Get(r, 0) * b.Get(0, c) + a.Get(r, 1) * b.Get(1, c) + a.Get(r, 2) * b.Get(2, c) + a.Get(r, 3) * b.Get(3, c)
  {
    RowColumnSumExpanded(a, b);
    Matrix4x4(seq(16, k requires 0 <= k < 16 => RowColumnSum(a, b, k / 4, k % 4, 4)))
  }

  /** The loop state of `mul`: the elements before flat position `done`
      hold their full sums, the one at `done` holds its first `partial`
      products, and the rest are still `T::default()`. */
  ghost predicate Accumulated(arr: Rows, a: Matrix4x4, b: Matrix4x4, done: nat, partial: nat)
    requires partial <= 4
  {
    forall r, c | 0 <= r < 4 && 0 <= c < 4 ::
      arr[r][c] == if r * 4 + c < done then RowColumnSum(a, b, r, c, 4)
                   else if r * 4 + c == done then RowColumnSum(a, b, r, c, partial)
                   else 0
  }

  /** `Mul::mul` (all nine owned/borrowed combinations share this body):
      accumulate `arr[r][c] += self[(r, i)] * rhs[(i, c)]` into a local
      `[[T; 4]; 4]` of defaults, then `from_array`. Operands are read only. */
  method Mul(a: Matrix4x4, b: Matrix4x4) returns (p: Matrix4x4)
    ensures p == Product(a, b)
  {
    var zero: Row := [0, 0, 0, 0];
    var arr: Rows := [zero, zero, zero, zero];
    for r := 0 to 4
      invariant Accumulated(arr, a, b, r * 4, 0)
    {
      for c := 0 to 4
        invariant Accumulated(arr, a, b, r * 4 + c, 0)
      {
        for i := 0 to 4
          invariant Accumulated(arr, a, b, r * 4 + c, i)
        {
          arr := arr[r := arr[r][c := arr[r][c] + a.Index((r, i)) * b.Index((i, c))]];
        }
      }
    }
    p := FromArray(arr);
    Extensionality(p, Product(a, b));
  }

  /** `a *= b` (`MulAssign`): the product is computed into a fresh local
      array while reading the old `a`, and only then is `*self`
      overwritten. */
  method MulAssign(m: Matrix4x4Var, rhs: Matrix4x4)
    requires m.Valid()
    modifies m.raw_data
    ensures m.Value() == Product(old(m.Value()), rhs)
  {
    var product := Mul(m.Value(), rhs);
    m.Assign(product);
  }

  /** The identity is a left and a right unit of the product. */
  lemma IdentityIsUnit(a: Matrix4x4)
    ensures Product(Identity(), a) == a
    ensures Product(a, Identity()) == a
  {
    Extensionality(Product(Identity(), a), a);
    Extensionality(Product(a, Identity()), a);
  }

  /** The zero matrix annihilates the product on either side. */
  lemma ZeroAnnihilates(a: Matrix4x4)
    ensures Product(ZeroMatrix(), a) == ZeroMatrix()
    ensures Product(a, ZeroMatrix()) == ZeroMatrix()
  {
    var z := ZeroMatrix();
    forall r, c | 0 <= r < 4 && 0 <= c < 4
      ensures Product(z, a).Get(r, c) == 0 && Product(a, z).Get(r, c) == 0
    {
      assert z.Get(r, 0) == z.Get(r, 1) == z.Get(r, 2) == z.Get(r, 3) == 0;
      assert z.Get(0, c) == z.Get(1, c) == z.Get(2, c) == z.Get(3, c) == 0;
    }
    Extensionality(Product(z, a), z);
    Extensionality(Product(a, z), z);
  }

  /** The transpose of a product is the product of the transposes in the
      opposite order. */
  lemma TransposeOfProduct(a: Matrix4x4, b: Matrix4x4)
    ensures Transposed(Product(a, b)) == Product(Transposed(b), Transposed(a))
  {
    var lhs, rhs := Transposed(Product(a, b)), Product(Transposed(b), Transposed(a));
    forall r, c | 0 <= r < 4 && 0 <= c < 4
      ensures lhs.Get(r, c) == rhs.Get(r, c)
    {
      TransposeOfProductEntry(a, b, r, c);
    }
    Extensionality(lhs, rhs);
  }

  lemma TransposeOfProductEntry(a: Matrix4x4, b: Matrix4x4, r: nat, c: nat)
    requires r < 4 && c < 4
    ensures Transposed(Product(a, b)).Get(r, c) == Product(Transposed(b), Transposed(a)).Get(r, c)
  {
    var tb, ta := Transposed(b), Transposed(a);
    var x0, x1, x2, x3 := a.Get(c, 0), a.Get(c, 1), a.Get(c, 2), a.Get(c, 3);
    var y0, y1, y2, y3 := b.Get(0, r), b.Get(1, r), b.Get(2, r), b.Get(3, r);
    assert Transposed(Product(a, b)).Get(r, c) == x0 * y0 + x1 * y1 + x2 * y2 + x3 * y3;
    assert tb.Get(r, 0) == y0 && tb.Get(r, 1) == y1 && tb.Get(r, 2) == y2 && tb.Get(r, 3) == y3;
    assert ta.Get(0, c) == x0 && ta.Get(1, c) == x1 && ta.Get(2, c) == x2 && ta.Get(3, c) == x3;
    assert Product(tb, ta).Get(r, c) == y0 * x0 + y1 * x1 + y2 * x2 + y3 * x3;
  }

  /** Translations compose by adding their offsets. */
  lemma TranslationsCompose(tx: int, ty: int, tz: int, ux: int, uy: int, uz: int)
    ensures Product(Translation(tx, ty, tz), Translation(ux, uy, uz)) == Translation(tx + ux, ty + uy, tz + uz)
  {
    Extensionality(Product(Translation(tx, ty, tz), Translation(ux, uy, uz)), Translation(tx + ux, ty + uy, tz + uz));
  }
}
