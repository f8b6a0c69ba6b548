/** The integer matrix cases of the crate's own tests (src/tests/mat4x4.rs),
    stated about the model. Matrices are written by their row-major
    storage, four entries per row, which is what `from_array` makes of the
    test's rows. */
module Mat4Scenarios {
  import opened Mat4
  import Vec4
  import opened Mat4Mul
  import opened Mat4MulVec4

  /** The operands and expected product of the sparse case. */
  const SparseLeft := Matrix4x4([4, 2, 0, 0,  0, 8, 1, 0,  0, 1, 0, 0,  0, 0, 0, 0])
  const SparseRight := Matrix4x4([4, 2, 1, 0,  2, 0, 4, 0,  9, 4, 2, 0,  0, 0, 0, 0])
  const SparseExpected := Matrix4x4([20, 8, 12, 0,  25, 4, 34, 0,  2, 0, 4, 0,  0, 0, 0, 0])

  /** The operands and expected product of the dense case with non-negative entries. */
  const PositiveLeft := Matrix4x4([5, 9, 6, 8,  7, 4, 2, 7,  0, 3, 1, 0,  8, 2, 6, 9])
  const PositiveRight := Matrix4x4([5, 9, 5, 2,  1, 8, 0, 8,  5, 3, 9, 0,  4, 2, 8, 9])
  const PositiveExpected := Matrix4x4([96, 151, 143, 154,  77, 115, 109, 109,  8, 27, 9, 24,  108, 124, 166, 113])

  /** The operands and expected product of the dense case with negative entries. */
  const SignedLeft := Matrix4x4([-2, 4, -1, -4,  7, 2, 8, -1,  8, -9, -6, 3,  2, 5, 3, 4])
  const SignedRight := Matrix4x4([-7, 3, 7, 7,  -8, 1, -3, -1,  3, 3, 7, 8,  -7, -1, -9, 4])
  const SignedExpected := Matrix4x4([7, -1, 3, -42,  -34, 48, 108, 107,  -23, -6, 14, 29,  -73, 16, -16, 49])

  lemma SparseRow0(p: Matrix4x4)
    requires p == Product(SparseLeft, SparseRight)
    ensures p.Get(0, 0) == SparseExpected.Get(0, 0) && p.Get(0, 1) == SparseExpected.Get(0, 1) && p.Get(0, 2) == SparseExpected.Get(0, 2) && p.Get(0, 3) == SparseExpected.Get(0, 3)
  {
  }

  lemma SparseRow1(p: Matrix4x4)
    requires p == Product(SparseLeft, SparseRight)
    ensures p.Get(1, 0) == SparseExpected.Get(1, 0) && p.Get(1, 1) == SparseExpected.Get(1, 1) && p.Get(1, 2) == SparseExpected.Get(1, 2) && p.Get(1, 3) == SparseExpected.Get(1, 3)
  {
  }

  lemma SparseRow2(p: Matrix4x4)
    requires p == Product(SparseLeft, SparseRight)
    ensures p.Get(2, 0) == SparseExpected.Get(2, 0) && p.Get(2, 1) == SparseExpected.Get(2, 1) && p.Get(2, 2) == SparseExpected.Get(2, 2) && p.Get(2, 3) == SparseExpected.Get(2, 3)
  {
  }

  lemma SparseRow3(p: Matrix4x4)
    requires p == Product(SparseLeft, SparseRight)
    ensures p.Get(3, 0) == SparseExpected.Get(3, 0) && p.Get(3, 1) == SparseExpected.Get(3, 1) && p.Get(3, 2) == SparseExpected.Get(3, 2) && p.Get(3, 3) == SparseExpected.Get(3, 3)
  {
  }

  /** `m1 * m2 == correct` for the sparse case. */
  lemma ProductScenarioSparse()
    ensures Product(SparseLeft, SparseRight) == SparseExpected
  {
    var p := Product(SparseLeft, SparseRight);
    SparseRow0(p);
    SparseRow1(p);
    SparseRow2(p);
    SparseRow3(p);
    EqualByEntries(p, SparseExpected);
  }

  lemma PositiveRow0(p: Matrix4x4)
    requires p == Product(PositiveLeft, PositiveRight)
    ensures p.Get(0, 0) == PositiveExpected.Get(0, 0) && p.Get(0, 1) == PositiveExpected.Get(0, 1) && p.Get(0, 2) == PositiveExpected.Get(0, 2) && p.Get(0, 3) == PositiveExpected.Get(0, 3)
  {
  }

  lemma PositiveRow1(p: Matrix4x4)
    requires p == Product(PositiveLeft, PositiveRight)
    ensures p.Get(1, 0) == PositiveExpected.Get(1, 0) && p.Get(1, 1) == PositiveExpected.Get(1, 1) && p.Get(1, 2) == PositiveExpected.Get(1, 2) && p.Get(1, 3) == PositiveExpected.Get(1, 3)
  {
  }

  lemma PositiveRow2(p: Matrix4x4)
    requires p == Product(PositiveLeft, PositiveRight)
    ensures p.Get(2, 0) == PositiveExpected.Get(2, 0) && p.Get(2, 1) == PositiveExpected.Get(2, 1) && p.Get(2, 2) == PositiveExpected.Get(2, 2) && p.Get(2, 3) == PositiveExpected.Get(2, 3)
  {
  }

  lemma PositiveRow3(p: Matrix4x4)
    requires p == Product(PositiveLeft, PositiveRight)
    ensures p.Get(3, 0) == PositiveExpected.Get(3, 0) && p.Get(3, 1) == PositiveExpected.Get(3, 1) && p.Get(3, 2) == PositiveExpected.Get(3, 2) && p.Get(3, 3) == PositiveExpected.Get(3, 3)
  {
  }

  /** `m1 * m2 == correct` for the dense case with non-negative entries. */
  lemma ProductScenarioPositive()
    ensures Product(PositiveLeft, PositiveRight) == PositiveExpected
  {
    var p := Product(PositiveLeft, PositiveRight);
    PositiveRow0(p);
    PositiveRow1(p);
    PositiveRow2(p);
    PositiveRow3(p);
    EqualByEntries(p, PositiveExpected);
  }

  lemma SignedRow0(p: Matrix4x4)
    requires p == Product(SignedLeft, SignedRight)
    ensures p.Get(0, 0) == SignedExpected.Get(0, 0) && p.Get(0, 1) == SignedExpected.Get(0, 1) && p.Get(0, 2) == SignedExpected.Get(0, 2) && p.Get(0, 3) == SignedExpected.Get(0, 3)
  {
  }

  lemma SignedRow1(p: Matrix4x4)
    requires p == Product(SignedLeft, SignedRight)
    ensures p.Get(1, 0) == SignedExpected.Get(1, 0) && p.Get(1, 1) == SignedExpected.Get(1, 1) && p.Get(1, 2) == SignedExpected.Get(1, 2) && p.Get(1, 3) == SignedExpected.Get(1, 3)
  {
  }

  lemma SignedRow2(p: Matrix4x4)
    requires p == Product(SignedLeft, SignedRight)
    ensures p.Get(2, 0) == SignedExpected.Get(2, 0) && p.Get(2, 1) == SignedExpected.Get(2, 1) && p.Get(2, 2) == SignedExpected.Get(2, 2) && p.Get(2, 3) == SignedExpected.Get(2, 3)
  {
  }

  lemma SignedRow3(p: Matrix4x4)
    requires p == Product(SignedLeft, SignedRight)
    ensures p.Get(3, 0) == SignedExpected.Get(3, 0) && p.Get(3, 1) == SignedExpected.Get(3, 1) && p.Get(3, 2) == SignedExpected.Get(3, 2) && p.Get(3, 3) == SignedExpected.Get(3, 3)
  {
  }

  /** `m1 * m2 == correct` for the dense case with negative entries. */
  lemma ProductScenarioSigned()
    ensures Product(SignedLeft, SignedRight) == SignedExpected
  {
    var p := Product(SignedLeft, SignedRight);
    SignedRow0(p);
    SignedRow1(p);
    SignedRow2(p);
    SignedRow3(p);
    EqualByEntries(p, SignedExpected);
  }

  /** The matrix of the crate's matrix–vector test. */
  const VectorTestMatrix := Matrix4x4([3, 5, 8, 0,  7, 2, 9, 0,  7, 3, 6, 0,  0, 0, 0, 1])

  /** `&mat * Vector4::new_xyz(9, 3, 4) == [74, 105, 96, 0]`: the direction
      stays a direction. */
  lemma TransformScenarioDirection()
    ensures Transform(VectorTestMatrix, Vec4.NewXyz(9, 3, 4)) == Vec4.FromArray([74, 105, 96, 0])
  {
    var u := Transform(VectorTestMatrix, Vec4.NewXyz(9, 3, 4));
    assert u.Index(0) == 74 && u.Index(1) == 105 && u.Index(2) == 96 && u.Index(3) == 0;
    VectorExtensionality(u, Vec4.FromArray([74, 105, 96, 0]));
  }

  /** `mat * Vector4::new(4, 8, 3, 1) == [76, 71, 70, 1]`: the point stays
      a point. */
  lemma TransformScenarioPoint()
    ensures Transform(VectorTestMatrix, Vec4.New(4, 8, 3, 1)) == Vec4.FromArray([76, 71, 70, 1])
  {
    var u := Transform(VectorTestMatrix, Vec4.New(4, 8, 3, 1));
    assert u.Index(0) == 76 && u.Index(1) == 71 && u.Index(2) == 70 && u.Index(3) == 1;
    VectorExtensionality(u, Vec4.FromArray([76, 71, 70, 1]));
  }
}
