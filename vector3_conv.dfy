/** Conversions into `Vector3` (src/vector3/conv.rs). Every element type
    is modelled as `int`, so `U::from` is the identity and an `as` cast is
    a function passed in by the caller. */
module Vec3Conv {
  import opened Vec3
  import opened Vec4

  /** `impl_primitive_conv!`: each component goes through the same cast,
      independently of the others. */
  function ConvertComponents(other: Vector3, cast: int -> int): (r: Vector3)
    ensures r.X() == cast(other.X()) && r.Y() == cast(other.Y()) && r.Z() == cast(other.Z())
  {
    Vector3([cast(other.X()), cast(other.Y()), cast(other.Z())])
  }

  /** Converting with one cast and then another is converting with their
      composition; with a cast that keeps every value (an integer widened
      to a float that holds it exactly) the vector is unchanged. */
  lemma ConvertComponentsCompose(v: Vector3, f: int -> int, g: int -> int)
    ensures ConvertComponents(ConvertComponents(v, f), g) == ConvertComponents(v, x => g(f(x)))
    ensures ConvertComponents(v, x => x) == v
  {
    assert ConvertComponents(ConvertComponents(v, f), g).raw_data
        == ConvertComponents(v, x => g(f(x))).raw_data;
    assert ConvertComponents(v, x => x).raw_data == v.raw_data;
  }

  /** `From<Vector4<T>> for Vector3<U>`: keeps x, y, z and drops w. */
  function FromVector4(other: Vector4): (r: Vector3)
    ensures r.X() == other.X() && r.Y() == other.Y() && r.Z() == other.Z()
  {
    Vector3([other.X(), other.Y(), other.Z()])
  }

  /** w does not take part: two vectors that differ only in w project to
      the same `Vector3`. */
  lemma FromVector4IgnoresW(a: Vector4, b: Vector4)
    ensures FromVector4(a) == FromVector4(b) <==> (a.X() == b.X() && a.Y() == b.Y() && a.Z() == b.Z())
  {
    if a.X() == b.X() && a.Y() == b.Y() && a.Z() == b.Z() {
      assert FromVector4(a).raw_data == FromVector4(b).raw_data;
    }
  }

  /** The integer conversion scenario: `(2, 1, 7)` converts to `(2, 1, 7)`
      componentwise, and the point `(2, -1, 7, 1)` projects to `(2, -1, 7)`. */
  lemma ConversionScenarios()
    ensures ConvertComponents(Vec3.New(2, 1, 7), x => x) == Vec3.New(2, 1, 7)
    ensures FromVector4(NewTranslatable(2, -1, 7)) == Vec3.New(2, -1, 7)
  {
    assert FromVector4(NewTranslatable(2, -1, 7)).raw_data == [2, -1, 7];
    assert ConvertComponents(Vec3.New(2, 1, 7), x => x).raw_data == [2, 1, 7];
  }
}
