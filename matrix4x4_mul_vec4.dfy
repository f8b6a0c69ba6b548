/** The matrix–vector product (src/matrix4x4/mul_vec4.rs): `Mul<Vector4>`
    for an owned and for a borrowed matrix, which share one body. */
module Mat4MulVec4 {
  import Vec4
  import opened Mat4
  import opened Mat4Mul

  /** The sum of the first n products m(r, c)·v[c], accumulated from 0 in
      the order c = 0, 1, ... as the loop does. */
  function RowDotSum(m: Matrix4x4, v: Vec4.Vector4, r: nat, n: nat): int
    requires r < 4 && n <= 4
  {
    if n == 0 then 0 else RowDotSum(m, v, r, n - 1) + m.Get(r, n - 1) * v.Index(n - 1)
  }

  lemma RowDotSumExpanded(m: Matrix4x4, v: Vec4.Vector4)
    ensures forall r | 0 <= r < 4 ::
      RowDotSum(m, v, r, 4)
        == m.Get(r, 0) * v.X() + m.Get(r, 1) * v.Y() + m.Get(r, 2) * v.Z() + m.Get(r, 3) * v.W()
  {
    forall r | 0 <= r < 4
      ensures RowDotSum(m, v, r, 4)
        == m.Get(r, 0) * v.X() + m.Get(r, 1) * v.Y() + m.Get(r, 2) * v.Z() + m.Get(r, 3) * v.W()
    {
      assert RowDotSum(m, v, r, 1) == m.Get(r, 0) * v.X();
      assert RowDotSum(m, v, r, 2) == RowDotSum(m, v, r, 1) + m.Get(r, 1) * v.Y();
      assert RowDotSum(m, v, r, 3) == RowDotSum(m, v, r, 2) + m.Get(r, 2) * v.Z();
    }
  }

  /** `m * v`: component r is the dot product of row r with v. */
  function Transform(m: Matrix4x4, v: Vec4.Vector4): (u: Vec4.Vector4)
    ensures forall r | 0 <= r < 4 ::
      u.Index(r) == m.Get(r, 0) * v.X() + m.Get(r, 1) * v.Y() + m.Get(r, 2) * v.Z() + m.Get(r, 3) * v.W()
  {
    RowDotSumExpanded(m, v);
    Vec4.Vector4(seq(4, r requires 0 <= r < 4 => RowDotSum(m, v, r, 4)))
  }

  /** The loop state of `mul`: the components before `done` hold their full
      sums, the one at `done` its first `partial` products, and the rest
      are still `T::default()`. */
  ghost predicate Accumulated(result: Vec4.Raw4, m: Matrix4x4, v: Vec4.Vector4, done: nat, partial: nat)
    requires partial <= 4
  {
    forall r | 0 <= r < 4 ::
      result[r] == if r < done then RowDotSum(m, v, r, 4)
                   else if r == done then RowDotSum(m, v, r, partial)
                   else 0
  }

  /** `Mul::<Vector4>::mul`: accumulate `result[r] += self[(r, c)] * rhs[c]`
      into a local `[T; 4]` of defaults, then `Vector4::from_array`. The
      matrix and the vector are read only. */
  method MulVec(m: Matrix4x4, v: Vec4.Vector4) returns (u: Vec4.Vector4)
    ensures u == Transform(m, v)
  {
    var result: Vec4.Raw4 := [0, 0, 0, 0];
    for r := 0 to 4
      invariant Accumulated(result, m, v, r, 0)
    {
      for c := 0 to 4
        invariant Accumulated(result, m, v, r, c)
      {
        result := result[r := result[r] + m.Index((r, c)) * v.Index(c)];
      }
    }
    u := Vec4.FromArray(result);
    assert u.raw_data == Transform(m, v).raw_data;
  }

  /** Two vectors that agree on all four components are equal. */
  lemma VectorExtensionality(u: Vec4.Vector4, w: Vec4.Vector4)
    requires u.X() == w.X() && u.Y() == w.Y() && u.Z() == w.Z() && u.W() == w.W()
    ensures u == w
  {
    assert u.raw_data == w.raw_data;
  }

  /** The identity matrix leaves every vector unchanged. */
  lemma IdentityFixes(v: Vec4.Vector4)
    ensures Transform(Identity(), v) == v
  {
    var u, id := Transform(Identity(), v), Identity();
    assert u.Index(0) == id.Get(0, 0) * v.X() + id.Get(0, 1) * v.Y() + id.Get(0, 2) * v.Z() + id.Get(0, 3) * v.W();
    assert u.Index(1) == id.Get(1, 0) * v.X() + id.Get(1, 1) * v.Y() + id.Get(1, 2) * v.Z() + id.Get(1, 3) * v.W();
    assert u.Index(2) == id.Get(2, 0) * v.X() + id.Get(2, 1) * v.Y() + id.Get(2, 2) * v.Z() + id.Get(2, 3) * v.W();
    assert u.Index(3) == id.Get(3, 0) * v.X() + id.Get(3, 1) * v.Y() + id.Get(3, 2) * v.Z() + id.Get(3, 3) * v.W();
    VectorExtensionality(u, v);
  }

  /** A translation moves a point (w = 1) by its offsets and keeps it a
      point. */
  lemma TranslationMovesPoints(tx: int, ty: int, tz: int, x: int, y: int, z: int)
    ensures Transform(Translation(tx, ty, tz), Vec4.NewTranslatable(x, y, z))
         == Vec4.NewTranslatable(x + tx, y + ty, z + tz)
  {
    var t, p := Translation(tx, ty, tz), Vec4.NewTranslatable(x, y, z);
    var u := Transform(t, p);
    assert u.Index(0) == t.Get(0, 0) * x + t.Get(0, 1) * y + t.Get(0, 2) * z + t.Get(0, 3) * 1;
    assert u.Index(1) == t.Get(1, 0) * x + t.Get(1, 1) * y + t.Get(1, 2) * z + t.Get(1, 3) * 1;
    assert u.Index(2) == t.Get(2, 0) * x + t.Get(2, 1) * y + t.Get(2, 2) * z + t.Get(2, 3) * 1;
    assert u.Index(3) == t.Get(3, 0) * x + t.Get(3, 1) * y + t.Get(3, 2) * z + t.Get(3, 3) * 1;
    VectorExtensionality(u, Vec4.NewTranslatable(x + tx, y + ty, z + tz));
  }

  /** A translation leaves a direction (w = 0) unchanged. */
  lemma TranslationFixesDirections(tx: int, ty: int, tz: int, x: int, y: int, z: int)
    ensures Transform(Translation(tx, ty, tz), Vec4.NewXyz(x, y, z)) == Vec4.NewXyz(x, y, z)
  {
    var t, d := Translation(tx, ty, tz), Vec4.NewXyz(x, y, z);
    var u := Transform(t, d);
    assert u.Index(0) == t.Get(0, 0) * x + t.Get(0, 1) * y + t.Get(0, 2) * z + t.Get(0, 3) * 0;
    assert u.Index(1) == t.Get(1, 0) * x + t.Get(1, 1) * y + t.Get(1, 2) * z + t.Get(1, 3) * 0;
    assert u.Index(2) == t.Get(2, 0) * x + t.Get(2, 1) * y + t.Get(2, 2) * z + t.Get(2, 3) * 0;
    assert u.Index(3) == t.Get(3, 0) * x + t.Get(3, 1) * y + t.Get(3, 2) * z + t.Get(3, 3) * 0;
    VectorExtensionality(u, d);
  }

  /** A scaling multiplies x, y and z by its factors and keeps w. */
  lemma ScalingScales(sx: int, sy: int, sz: int, v: Vec4.Vector4)
    ensures Transform(Scaling(sx, sy, sz), v) == Vec4.New(sx * v.X(), sy * v.Y(), sz * v.Z(), v.W())
  {
    var s := Scaling(sx, sy, sz);
    var u := Transform(s, v);
    assert u.Index(0) == s.Get(0, 0) * v.X() + s.Get(0, 1) * v.Y() + s.Get(0, 2) * v.Z() + s.Get(0, 3) * v.W();
    assert u.Index(1) == s.Get(1, 0) * v.X() + s.Get(1, 1) * v.Y() + s.Get(1, 2) * v.Z() + s.Get(1, 3) * v.W();
    assert u.Index(2) == s.Get(2, 0) * v.X() + s.Get(2, 1) * v.Y() + s.Get(2, 2) * v.Z() + s.Get(2, 3) * v.W();
    assert u.Index(3) == s.Get(3, 0) * v.X() + s.Get(3, 1) * v.Y() + s.Get(3, 2) * v.Z() + s.Get(3, 3) * v.W();
    VectorExtensionality(u, Vec4.New(sx * v.X(), sy * v.Y(), sz * v.Z(), v.W()));
  }

  /** Transforming by a product is transforming by the right factor and
      then by the left one. */
  lemma ProductTransforms(a: Matrix4x4, b: Matrix4x4, v: Vec4.Vector4)
    ensures Transform(Product(a, b), v) == Transform(a, Transform(b, v))
  {
    ProductTransformsAt(a, b, v, 0);
    ProductTransformsAt(a, b, v, 1);
    ProductTransformsAt(a, b, v, 2);
    ProductTransformsAt(a, b, v, 3);
    VectorExtensionality(Transform(Product(a, b), v), Transform(a, Transform(b, v)));
  }

  lemma ProductTransformsAt(a: Matrix4x4, b: Matrix4x4, v: Vec4.Vector4, r: nat)
    requires r < 4
    ensures Transform(Product(a, b), v).Index(r) == Transform(a, Transform(b, v)).Index(r)
  {
    var p, w := Product(a, b), Transform(b, v);
    assert w.X() == w.Index(0) && w.Y() == w.Index(1) && w.Z() == w.Index(2) && w.W() == w.Index(3);
    Reassociate(a.Get(r, 0), a.Get(r, 1), a.Get(r, 2), a.Get(r, 3),
                b.Get(0, 0), b.Get(0, 1), b.Get(0, 2), b.Get(0, 3),
                b.Get(1, 0), b.Get(1, 1), b.Get(1, 2), b.Get(1, 3),
                b.Get(2, 0), b.Get(2, 1), b.Get(2, 2), b.Get(2, 3),
                b.Get(3, 0), b.Get(3, 1), b.Get(3, 2), b.Get(3, 3),
                v.X(), v.Y(), v.Z(), v.W());
  }

  /** Σ_c (Σ_i a_i·b_ic)·v_c == Σ_i a_i·(Σ_c b_ic·v_c) for one row a of
      the left factor. */
  lemma Reassociate(a0: int, a1: int, a2: int, a3: int,
                    b00: int, b01: int, b02: int, b03: int,
                    b10: int, b11: int, b12: int, b13: int,
                    b20: int, b21: int, b22: int, b23: int,
                    b30: int, b31: int, b32: int, b33: int,
                    v0: int, v1: int, v2: int, v3: int)
    ensures (a0 * b00 + a1 * b10 + a2 * b20 + a3 * b30) * v0
          + (a0 * b01 + a1 * b11 + a2 * b21 + a3 * b31) * v1
          + (a0 * b02 + a1 * b12 + a2 * b22 + a3 * b32) * v2
          + (a0 * b03 + a1 * b13 + a2 * b23 + a3 * b33) * v3
         == a0 * (b00 * v0 + b01 * v1 + b02 * v2 + b03 * v3)
          + a1 * (b10 * v0 + b11 * v1 + b12 * v2 + b13 * v3)
          + a2 * (b20 * v0 + b21 * v1 + b22 * v2 + b23 * v3)
          + a3 * (b30 * v0 + b31 * v1 + b32 * v2 + b33 * v3)
  {
  }
}
