/** Lifts of a `Vector3` into a `Vector4` (src/vector4/conv.rs). */
module Vec4Conv {
  import opened Vec3
  import opened Vec4
  import Vec3Conv

  /** `From<&Vector3<T>> for Vector4<U>`, and the by-value
      `impl_vec4_from_vec3!` instances, which build the same value: x, y, z
      are kept and w is `one()`, so the result is a translatable point. The
      source vector is only read. */
  function FromVector3(other: Vector3): (r: Vector4)
    ensures r == NewTranslatable(other.X(), other.Y(), other.Z())
    ensures r.W() == 1
  {
    Vector4([other.X(), other.Y(), other.Z(), 1])
  }

  /** Lifting and then dropping w gives back the original vector; dropping
      w and lifting gives back a `Vector4` exactly when its w was 1. */
  lemma LiftRoundTrip(v: Vector3, u: Vector4)
    ensures Vec3Conv.FromVector4(FromVector3(v)) == v
    ensures FromVector3(Vec3Conv.FromVector4(u)) == u <==> u.W() == 1
  {
    assert Vec3Conv.FromVector4(FromVector3(v)).raw_data == v.raw_data;
    if u.W() == 1 {
      assert FromVector3(Vec3Conv.FromVector4(u)).raw_data == u.raw_data;
    }
  }

  /** A direction lifted with `new_xyz` projects back to the same triple. */
  lemma DirectionRoundTrip(x: int, y: int, z: int)
    ensures Vec3Conv.FromVector4(NewXyz(x, y, z)) == Vec3.New(x, y, z)
  {
    assert Vec3Conv.FromVector4(NewXyz(x, y, z)).raw_data == [x, y, z];
  }
}
