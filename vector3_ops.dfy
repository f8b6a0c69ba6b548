/** Componentwise arithmetic, cross and dot product of `Vector3`
    (src/vector3/ops.rs). */
module Vec3Ops {
  import opened Vec3

  /** `-v`: every component negated. */
  function Neg(v: Vector3): (r: Vector3)
    ensures r.X() == -v.X() && r.Y() == -v.Y() && r.Z() == -v.Z()
  {
    var (x, y, z) := v.GetComponents();
    Vector3([-x, -y, -z])
  }

  /** `a + b`, componentwise. */
  function Add(a: Vector3, b: Vector3): (r: Vector3)
    ensures r.X() == a.X() + b.X() && r.Y() == a.Y() + b.Y() && r.Z() == a.Z() + b.Z()
  {
    Vector3([a.X() + b.X(), a.Y() + b.Y(), a.Z() + b.Z()])
  }

  /** `a - b`, componentwise. */
  function Sub(a: Vector3, b: Vector3): (r: Vector3)
    ensures r.X() == a.X() - b.X() && r.Y() == a.Y() - b.Y() && r.Z() == a.Z() - b.Z()
  {
    Vector3([a.X() - b.X(), a.Y() - b.Y(), a.Z() - b.Z()])
  }

  /** Negation is its own inverse. */
  lemma NegInvolutive(v: Vector3)
    ensures Neg(Neg(v)) == v
  {
    assert Neg(Neg(v)).raw_data == v.raw_data;
  }

  /** Subtraction undoes addition, and is addition of the negation. */
  lemma SubIsAddNeg(a: Vector3, b: Vector3)
    ensures Sub(a, b) == Add(a, Neg(b))
    ensures Sub(Add(a, b), b) == a
    ensures Add(a, b) == Add(b, a)
  {
    assert Sub(a, b).raw_data == Add(a, Neg(b)).raw_data;
    assert Sub(Add(a, b), b).raw_data == a.raw_data;
    assert Add(a, b).raw_data == Add(b, a).raw_data;
  }

  /** `a += b` (`AddAssign`): writes x, then y, then z of the storage. */
  method AddAssign(v: Vector3Var, rhs: Vector3)
    requires v.Valid()
    modifies v.raw_data
    ensures v.Value() == Add(old(v.Value()), rhs)
  {
    v.raw_data[0] := v.raw_data[0] + rhs.X();
    v.raw_data[1] := v.raw_data[1] + rhs.Y();
    v.raw_data[2] := v.raw_data[2] + rhs.Z();
  }

  /** `a -= b` (`SubAssign`): writes x, then y, then z of the storage. */
  method SubAssign(v: Vector3Var, rhs: Vector3)
    requires v.Valid()
    modifies v.raw_data
    ensures v.Value() == Sub(old(v.Value()), rhs)
  {
    v.raw_data[0] := v.raw_data[0] - rhs.X();
    v.raw_data[1] := v.raw_data[1] - rhs.Y();
    v.raw_data[2] := v.raw_data[2] - rhs.Z();
  }

  /** `dot_product`: the sum of the products of matching components. The
      dot product of a vector with itself, its squared length, is never
      negative. */
  function DotProduct(a: Vector3, b: Vector3): (d: int)
    ensures d == a.Index(0) * b.Index(0) + a.Index(1) * b.Index(1) + a.Index(2) * b.Index(2)
    ensures a == b ==> d >= 0
  {
    var (x, y, z) := a.GetComponents();
    var (x2, y2, z2) := b.GetComponents();
    SquareNonNegative(x);
    SquareNonNegative(y);
    SquareNonNegative(z);
    x * x2 + y * y2 + z * z2
  }

  lemma SquareNonNegative(x: int)
    ensures x * x >= 0
  {
    if x < 0 {
      assert x * x == (-x) * (-x);
    }
  }

  /** `cross_product`: (y·z' − z·y', z·x' − x·z', x·y' − y·x'). The result
      is orthogonal to both operands. */
  function CrossProduct(a: Vector3, b: Vector3): (r: Vector3)
    ensures DotProduct(a, r) == 0 && DotProduct(b, r) == 0
  {
    var (x, y, z) := a.GetComponents();
    var (x2, y2, z2) := b.GetComponents();
    Vector3([y * z2 - z * y2, z * x2 - x * z2, x * y2 - y * x2])
  }

  /** `a ^ b` (`BitXor`), an operator spelling of the cross product. */
  function BitXor(a: Vector3, b: Vector3): (r: Vector3)
    ensures r.X() == a.Y() * b.Z() - a.Z() * b.Y()
    ensures r.Y() == a.Z() * b.X() - a.X() * b.Z()
    ensures r.Z() == a.X() * b.Y() - a.Y() * b.X()
  {
    CrossProduct(a, b)
  }

  /** `a % b` (`Rem`), an operator spelling of the dot product. */
  function Rem(a: Vector3, b: Vector3): (d: int)
    ensures d == a.X() * b.X() + a.Y() * b.Y() + a.Z() * b.Z()
  {
    DotProduct(a, b)
  }

  /** The operator spellings compute the named products. */
  lemma OperatorAliases(a: Vector3, b: Vector3)
    ensures BitXor(a, b) == CrossProduct(a, b)
    ensures Rem(a, b) == DotProduct(a, b)
  {
  }

  /** The cross product anti-commutes: a × b == −(b × a). */
  lemma CrossAntiCommutes(a: Vector3, b: Vector3)
    ensures CrossProduct(a, b) == Neg(CrossProduct(b, a))
  {
    assert CrossProduct(a, b).raw_data == Neg(CrossProduct(b, a)).raw_data;
  }

  /** The dot product is symmetric. */
  lemma DotSymmetric(a: Vector3, b: Vector3)
    ensures DotProduct(a, b) == DotProduct(b, a)
  {
  }
}
