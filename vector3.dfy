/** A three-component vector (src/vector3/mod.rs): storage, constructors,
    accessors, indexing, equality, `Default`, and the in-place setters. */
module Vec3 {

  /** The `[T; 3]` storage of a vector; element type `T` is `int`. */
  type Raw3 = s: seq<int> | |s| == 3 witness [0, 0, 0]

  /** `Vector3<T>` is a `Copy` value, so it is a datatype. Component i
      lives at `raw_data[i]`: x at 0, y at 1, z at 2. */
  datatype Vector3 = Vector3(raw_data: Raw3) {

    function X(): int { raw_data[0] }
    function Y(): int { raw_data[1] }
    function Z(): int { raw_data[2] }

    /** `v[index]`: an index of 3 or more is an out-of-bounds panic. */
    function Index(index: nat): (e: int)
      requires index < 3
      ensures index == 0 ==> e == X()
      ensures index == 1 ==> e == Y()
      ensures index == 2 ==> e == Z()
    {
      raw_data[index]
    }

    /** `get_components`: the triple of the three accessors. */
    function GetComponents(): (t: (int, int, int))
      ensures t.0 == X() && t.1 == Y() && t.2 == Z()
      ensures New(t.0, t.1, t.2) == this
    {
      (raw_data[0], raw_data[1], raw_data[2])
    }
  }

  /** `Vector3::new(x, y, z)`. */
  function New(x: int, y: int, z: int): (v: Vector3)
    ensures v.X() == x && v.Y() == y && v.Z() == z
  {
    Vector3([x, y, z])
  }

  /** `Vector3::from_array([x, y, z])`: the array becomes the storage as is. */
  function FromArray(arr: Raw3): (v: Vector3)
    ensures v == New(arr[0], arr[1], arr[2])
  {
    Vector3(arr)
  }

  /** `Vector3::from_tuple((x, y, z))`. */
  function FromTuple(tuple: (int, int, int)): (v: Vector3)
    ensures v == New(tuple.0, tuple.1, tuple.2)
    ensures v.GetComponents() == tuple
  {
    Vector3([tuple.0, tuple.1, tuple.2])
  }

  /** `Default`: every component is `T::default()`, which is 0 for integers. */
  function Default(): (v: Vector3)
    ensures v.X() == 0 && v.Y() == 0 && v.Z() == 0
    ensures forall i | 0 <= i < 3 :: v.Index(i) == 0
  {
    Vector3([0, 0, 0])
  }

  /** `PartialEq::eq`: compares the storage slot by slot and returns false
      at the first mismatch. */
  method Equals(a: Vector3, b: Vector3) returns (eq: bool)
    ensures eq <==> a == b
    ensures eq <==> (a.X() == b.X() && a.Y() == b.Y() && a.Z() == b.Z())
  {
    for i := 0 to 3
      invariant forall j | 0 <= j < i :: a.raw_data[j] == b.raw_data[j]
    {
      if a.raw_data[i] != b.raw_data[i] {
        return false;
      }
    }
    assert a.raw_data == b.raw_data;
    return true;
  }

  /** A `let mut` binding of a `Vector3`, the receiver of the `&mut self`
      operations: its `[T; 3]` storage is updated in place. */
  class Vector3Var {
    const raw_data: array<int>

    predicate Valid() { raw_data.Length == 3 }

    /** The vector value currently held. */
    function Value(): Vector3
      requires Valid()
      reads raw_data
    {
      Vector3(raw_data[..])
    }

    constructor (v: Vector3)
      ensures Valid() && fresh(raw_data)
      ensures Value() == v
    {
      var a := new int[3];
      a[0], a[1], a[2] := v.X(), v.Y(), v.Z();
      raw_data := a;
    }

    /** `set_x`: only x changes. */
    method SetX(value: int)
      requires Valid()
      modifies raw_data
      ensures Value() == New(value, old(Value()).Y(), old(Value()).Z())
    {
      raw_data[0] := value;
    }

    /** `set_y`: only y changes. */
    method SetY(value: int)
      requires Valid()
      modifies raw_data
      ensures Value() == New(old(Value()).X(), value, old(Value()).Z())
    {
      raw_data[1] := value;
    }

    /** `set_z`: only z changes. */
    method SetZ(value: int)
      requires Valid()
      modifies raw_data
      ensures Value() == New(old(Value()).X(), old(Value()).Y(), value)
    {
      raw_data[2] := value;
    }

    /** `v[index] = value` through `IndexMut` (and through `x_mut`,
        `y_mut`, `z_mut` for index 0, 1, 2): only slot `index` changes;
        an index of 3 or more is an out-of-bounds panic. */
    method IndexSet(index: nat, value: int)
      requires Valid()
      requires index < 3
      modifies raw_data
      ensures Value().Index(index) == value
      ensures forall j | 0 <= j < 3 && j != index :: Value().Index(j) == old(Value()).Index(j)
    {
      raw_data[index] := value;
    }
  }
}
