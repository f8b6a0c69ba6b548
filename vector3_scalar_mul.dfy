/** Multiplication and division of a `Vector3` by a scalar
    (src/vector3/scalar_mul.rs). The element type is `int`; Rust's `as`
    casts of the cross-type instances are the identity on `int`. */
module Vec3ScalarMul {
  import opened Vec3
  import opened Vec3Ops

  /** `v * s` (`Mul<T>`): every component times `s`. */
  function MulScalar(v: Vector3, s: int): (r: Vector3)
    ensures r.X() == v.X() * s && r.Y() == v.Y() * s && r.Z() == v.Z() * s
  {
    Vector3([v.X() * s, v.Y() * s, v.Z() * s])
  }

  /** `s * v` for the same element type: the impl evaluates `rhs * self`. */
  function ScalarMul(s: int, v: Vector3): (r: Vector3)
    ensures r.X() == s * v.X() && r.Y() == s * v.Y() && r.Z() == s * v.Z()
    ensures r == MulScalar(v, s)
  {
    MulScalar(v, s)
  }

  /** `v *= s` (`MulAssign<T>`): the storage is replaced by the products. */
  method MulAssign(v: Vector3Var, s: int)
    requires v.Valid()
    modifies v.raw_data
    ensures v.Value() == MulScalar(old(v.Value()), s)
  {
    var x, y, z := v.raw_data[0], v.raw_data[1], v.raw_data[2];
    v.raw_data[0], v.raw_data[1], v.raw_data[2] := x * s, y * s, z * s;
  }

  /** Rust's `/` on integers: the quotient is truncated toward zero
      (Dafny's own `/` is Euclidean). Division by zero panics. */
  function TruncDiv(a: int, b: int): (q: int)
    requires b != 0
    ensures var r := a - q * b; Abs(r) < Abs(b) && (r == 0 || (r < 0) == (a < 0))
  {
    var q := Abs(a) / Abs(b);
    if (a < 0) == (b < 0) then q else -q
  }

  function Abs(a: int): nat { if a < 0 then -a else a }

  /** `v / s` (`Div<T>`): every component divided by `s`; `s == 0` panics. */
  function DivScalar(v: Vector3, s: int): (r: Vector3)
    requires s != 0
    ensures r.X() == TruncDiv(v.X(), s) && r.Y() == TruncDiv(v.Y(), s) && r.Z() == TruncDiv(v.Z(), s)
  {
    Vector3([TruncDiv(v.X(), s), TruncDiv(v.Y(), s), TruncDiv(v.Z(), s)])
  }

  /** Truncating division is exact on multiples and rounds toward zero,
      so it moves toward zero when the quotient is negative, unlike `/`. */
  lemma {:induction false} TruncDivExact(a: int, b: int)
    requires b != 0
    ensures TruncDiv(a * b, b) == a
  {
    var n, m := Abs(a), Abs(b);
    assert Abs(a * b) == n * m by {
      if a < 0 && b < 0 { assert a * b == (-a) * (-b); }
      else if a < 0 { assert a * b == -((-a) * b); }
      else if b < 0 { assert a * b == -(a * (-b)); }
    }
    DivOfProduct(n, m);
  }

  lemma DivOfProduct(n: nat, m: nat)
    requires m > 0
    ensures (n * m) / m == n
  {
    var q, r := (n * m) / m, (n * m) % m;
    assert n * m == q * m + r && 0 <= r < m;
    assert (n - q) * m == r;
    if q < n {
      MulAtLeast(n - q, m);
    } else if q > n {
      MulAtLeast(q - n, m);
    }
  }

  lemma MulAtLeast(k: int, m: nat)
    requires k >= 1
    ensures k * m >= m
  {
    assert k * m == m + (k - 1) * m;
  }

  /** Dividing by the factor undoes scalar multiplication. */
  lemma DivUndoesMul(v: Vector3, s: int)
    requires s != 0
    ensures DivScalar(MulScalar(v, s), s) == v
  {
    TruncDivExact(v.X(), s);
    TruncDivExact(v.Y(), s);
    TruncDivExact(v.Z(), s);
    assert DivScalar(MulScalar(v, s), s).raw_data == v.raw_data;
  }

  /** The quotient of Rust's `/` is the only one whose remainder is
      smaller than the divisor in magnitude and takes the sign of the
      dividend (or is zero). */
  lemma TruncDivUnique(a: int, b: int, q: int)
    requires b != 0
    requires var r := a - q * b; Abs(r) < Abs(b) && (r == 0 || (r < 0) == (a < 0))
    ensures q == TruncDiv(a, b)
  {
    var p := TruncDiv(a, b);
    var r, s := a - q * b, a - p * b;
    assert (p - q) * b == r - s;
    if p != q {
      MulAtLeast(Abs(p - q), Abs(b));
      assert Abs(p - q) * Abs(b) == Abs(r - s) by {
        AbsOfProduct(p - q, b);
      }
    }
  }

  lemma AbsOfProduct(x: int, y: int)
    ensures Abs(x * y) == Abs(x) * Abs(y)
  {
    if x < 0 && y < 0 { assert x * y == (-x) * (-y); }
    else if x < 0 { assert x * y == -((-x) * y); }
    else if y < 0 { assert x * y == -(x * (-y)); }
  }

  /** A negative quotient is truncated toward zero: −7 / 2 is −3, where
      the Euclidean quotient is −4. */
  lemma TruncDivRoundsTowardZero()
    ensures TruncDiv(-7, 2) == -3 && TruncDiv(7, -2) == -3 && TruncDiv(-7, -2) == 3
    ensures -7 / 2 == -4
  {
  }

  /** Scalar multiplication distributes over vector addition, and over
      addition of scalars. */
  lemma MulDistributes(v: Vector3, w: Vector3, a: int, b: int)
    ensures MulScalar(Add(v, w), a) == Add(MulScalar(v, a), MulScalar(w, a))
    ensures MulScalar(v, a + b) == Add(MulScalar(v, a), MulScalar(v, b))
  {
    var l, r := MulScalar(Add(v, w), a), Add(MulScalar(v, a), MulScalar(w, a));
    assert (v.X() + w.X()) * a == v.X() * a + w.X() * a;
    assert (v.Y() + w.Y()) * a == v.Y() * a + w.Y() * a;
    assert (v.Z() + w.Z()) * a == v.Z() * a + w.Z() * a;
    assert l.raw_data == r.raw_data;
    l, r := MulScalar(v, a + b), Add(MulScalar(v, a), MulScalar(v, b));
    assert v.X() * (a + b) == v.X() * a + v.X() * b;
    assert v.Y() * (a + b) == v.Y() * a + v.Y() * b;
    assert v.Z() * (a + b) == v.Z() * a + v.Z() * b;
    assert l.raw_data == r.raw_data;
  }

  /** Scaling by a product scales twice; scaling by 1 is the identity and
      by −1 is negation. */
  lemma MulScalarCompose(v: Vector3, a: int, b: int)
    ensures MulScalar(MulScalar(v, a), b) == MulScalar(v, a * b)
    ensures MulScalar(v, 1) == v
    ensures MulScalar(v, -1) == Neg(v)
  {
    var l, r := MulScalar(MulScalar(v, a), b), MulScalar(v, a * b);
    assert v.X() * a * b == v.X() * (a * b);
    assert v.Y() * a * b == v.Y() * (a * b);
    assert v.Z() * a * b == v.Z() * (a * b);
    assert l.raw_data == r.raw_data;
    assert MulScalar(v, 1).raw_data == v.raw_data;
    assert MulScalar(v, -1).raw_data == Neg(v).raw_data;
  }
}
