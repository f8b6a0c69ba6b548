/** A four-component (homogeneous) vector (src/vector4/mod.rs):
    storage, constructors, the direction and point lifts, accessors,
    checked indexing, equality and the in-place setters. */
module Vec4 {

  /** The `[T; 4]` storage of a vector; element type `T` is `int`. */
  type Raw4 = s: seq<int> | |s| == 4 witness [0, 0, 0, 0]

  /** `Vector4<T>` is a `Copy` value. Component i lives at `raw_data[i]`:
      x at 0, y at 1, z at 2, w at 3. */
  datatype Vector4 = Vector4(raw_data: Raw4) {

    function X(): int { raw_data[0] }
    function Y(): int { raw_data[1] }
    function Z(): int { raw_data[2] }
    function W(): int { raw_data[3] }

    /** `v[index]`: an index above 3 panics with "Vector index out of
        bounds" (in debug builds; in release builds the array access
        itself panics). */
    function Index(index: nat): (e: int)
      requires index <= 3
      ensures index == 0 ==> e == X()
      ensures index == 1 ==> e == Y()
      ensures index == 2 ==> e == Z()
      ensures index == 3 ==> e == W()
    {
      raw_data[index]
    }

    /** `get_components`: the quadruple of the four accessors. */
    function GetComponents(): (t: (int, int, int, int))
      ensures t.0 == X() && t.1 == Y() && t.2 == Z() && t.3 == W()
      ensures New(t.0, t.1, t.2, t.3) == this
    {
      (raw_data[0], raw_data[1], raw_data[2], raw_data[3])
    }
  }

  /** `Vector4::new(x, y, z, w)`. */
  function New(x: int, y: int, z: int, w: int): (v: Vector4)
    ensures v.X() == x && v.Y() == y && v.Z() == z && v.W() == w
  {
    Vector4([x, y, z, w])
  }

  /** `Vector4::from_array(arr)`: the array becomes the storage as is. */
  function FromArray(arr: Raw4): (v: Vector4)
    ensures v == New(arr[0], arr[1], arr[2], arr[3])
    ensures forall i | 0 <= i < 4 :: v.Index(i) == arr[i]
  {
    Vector4(arr)
  }

  /** `Vector4::from_tuple((x, y, z, w))`. */
  function FromTuple(tuple: (int, int, int, int)): (v: Vector4)
    ensures v == New(tuple.0, tuple.1, tuple.2, tuple.3)
    ensures v.GetComponents() == tuple
  {
    var (x, y, z, w) := tuple;
    Vector4([x, y, z, w])
  }

  /** `new_xyz`: a direction, w = `T::zero()`. */
  function NewXyz(x: int, y: int, z: int): (v: Vector4)
    ensures v == New(x, y, z, 0)
  {
    Vector4([x, y, z, 0])
  }

  /** `new_translatable`: a point, w = `T::one()`, which translation
      matrices move. */
  function NewTranslatable(x: int, y: int, z: int): (v: Vector4)
    ensures v == New(x, y, z, 1)
  {
    Vector4([x, y, z, 1])
  }

  /** `PartialEq::eq`: compares slot by slot, false at the first mismatch. */
  method Equals(a: Vector4, b: Vector4) returns (eq: bool)
    ensures eq <==> a == b
    ensures eq <==> (a.X() == b.X() && a.Y() == b.Y() && a.Z() == b.Z() && a.W() == b.W())
  {
    for i := 0 to 4
      invariant forall j | 0 <= j < i :: a.raw_data[j] == b.raw_data[j]
    {
      if a.raw_data[i] != b.raw_data[i] {
        return false;
      }
    }
    assert a.raw_data == b.raw_data;
    return true;
  }

  /** A `let mut` binding of a `Vector4`, the receiver of the `&mut self`
      operations: its `[T; 4]` storage is updated in place. */
  class Vector4Var {
    const raw_data: array<int>

    predicate Valid() { raw_data.Length == 4 }

    /** The vector value currently held. */
    function Value(): Vector4
      requires Valid()
      reads raw_data
    {
      Vector4(raw_data[..])
    }

    constructor (v: Vector4)
      ensures Valid() && fresh(raw_data)
      ensures Value() == v
    {
      var a := new int[4];
      a[0], a[1], a[2], a[3] := v.X(), v.Y(), v.Z(), v.W();
      raw_data := a;
    }

    /** `set_x`: only x changes. */
    method SetX(value: int)
      requires Valid()
      modifies raw_data
      ensures Value() == New(value, old(Value()).Y(), old(Value()).Z(), old(Value()).W())
    {
      raw_data[0] := value;
    }

    /** `set_y`: only y changes. */
    method SetY(value: int)
      requires Valid()
      modifies raw_data
      ensures Value() == New(old(Value()).X(), value, old(Value()).Z(), old(Value()).W())
    {
      raw_data[1] := value;
    }

    /** `set_z`: only z changes. */
    method SetZ(value: int)
      requires Valid()
      modifies raw_data
      ensures Value() == New(old(Value()).X(), old(Value()).Y(), value, old(Value()).W())
    {
      raw_data[2] := value;
    }

    /** `set_w`: only w changes. */
    method SetW(value: int)
      requires Valid()
      modifies raw_data
      ensures Value() == New(old(Value()).X(), old(Value()).Y(), old(Value()).Z(), value)
    {
      raw_data[3] := value;
    }

    /** `v[index] = value` through `IndexMut` (and through `x_mut` ..
        `w_mut` for index 0 .. 3): same bound as `Index`; only slot
        `index` changes. */
    method IndexSet(index: nat, value: int)
      requires Valid()
      requires index <= 3
      modifies raw_data
      ensures Value().Index(index) == value
      ensures forall j | 0 <= j <= 3 && j != index :: Value().Index(j) == old(Value()).Index(j)
    {
      raw_data[index] := value;
    }
  }
}
