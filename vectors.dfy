/** Small value types shared by the whole model: the Option/Result wrappers
    used for the source's `Option` values and panics, and the 2-D / 3-D
    vectors of the game engine with exact `real` components (f32 rounding,
    NaN and infinities are not modelled). */
module Wrappers {

  datatype Option<+T> = None | Some(value: T)

  /** The outcome of a computation that may panic in the source. */
  datatype Result<+T, +E> = Ok(value: T) | Err(error: E)
}

module Vectors {

  datatype Vec2 = Vec2(x: real, y: real)
  datatype Vec3 = Vec3(x: real, y: real, z: real)

  const Zero2 := Vec2(0.0, 0.0)
  const Zero3 := Vec3(0.0, 0.0, 0.0)

  function Add2(a: Vec2, b: Vec2): Vec2 { Vec2(a.x + b.x, a.y + b.y) }
  function Sub2(a: Vec2, b: Vec2): Vec2 { Vec2(a.x - b.x, a.y - b.y) }
  function Scale2(a: Vec2, k: real): Vec2 { Vec2(a.x * k, a.y * k) }
  function Neg2(a: Vec2): Vec2 { Vec2(-a.x, -a.y) }

  function Add3(a: Vec3, b: Vec3): Vec3 { Vec3(a.x + b.x, a.y + b.y, a.z + b.z) }
  function Scale3(a: Vec3, k: real): Vec3 { Vec3(a.x * k, a.y * k, a.z * k) }

  /** `Vec3::truncate`: drop the z component. */
  function Truncate(a: Vec3): Vec2 { Vec2(a.x, a.y) }

  function Abs(x: real): (r: real)
    ensures r >= 0.0 && (r == x || r == -x)
  {
    if x < 0.0 then -x else x
  }

  function Min(a: real, b: real): real { if a <= b then a else b }
  function Max(a: real, b: real): real { if a >= b then a else b }

  /** glam's scalar clamp, `self.max(min).min(max)`: when `lo <= hi` the result
      lies in `[lo, hi]`, and a value already there is returned unchanged. */
  function Clamp(v: real, lo: real, hi: real): (r: real)
    ensures lo <= hi ==> lo <= r <= hi
    ensures lo <= v <= hi ==> r == v
    ensures v < lo && lo <= hi ==> r == lo
    ensures hi < v && lo <= hi ==> r == hi
  {
    Min(Max(v, lo), hi)
  }

  /** Component-wise `Vec3::clamp`: the result lands inside ordered bounds,
      a vector already inside them is left where it is, and each component
      moves only as far as its own bounds require: one in range is kept, one
      out of range goes to the nearer bound. */
  function Clamp3(v: Vec3, lo: Vec3, hi: Vec3): (r: Vec3)
    ensures Ordered3(lo, hi) ==> Within3(r, lo, hi)
    ensures Within3(v, lo, hi) ==> r == v
    ensures lo.x <= v.x <= hi.x ==> r.x == v.x
    ensures lo.y <= v.y <= hi.y ==> r.y == v.y
    ensures lo.z <= v.z <= hi.z ==> r.z == v.z
    ensures v.x < lo.x <= hi.x ==> r.x == lo.x
    ensures lo.x <= hi.x < v.x ==> r.x == hi.x
    ensures v.y < lo.y <= hi.y ==> r.y == lo.y
    ensures lo.y <= hi.y < v.y ==> r.y == hi.y
    ensures v.z < lo.z <= hi.z ==> r.z == lo.z
    ensures lo.z <= hi.z < v.z ==> r.z == hi.z
  {
    Vec3(Clamp(v.x, lo.x, hi.x), Clamp(v.y, lo.y, hi.y), Clamp(v.z, lo.z, hi.z))
  }

  predicate Within3(v: Vec3, lo: Vec3, hi: Vec3) {
    lo.x <= v.x <= hi.x && lo.y <= v.y <= hi.y && lo.z <= v.z <= hi.z
  }

  predicate Ordered3(lo: Vec3, hi: Vec3) {
    lo.x <= hi.x && lo.y <= hi.y && lo.z <= hi.z
  }

  /** `normalize` / `normalize_or_zero` are square-root based and are not
      modelled; a normaliser is any function that sends the zero vector to
      itself, which is all that the model relies on. */
  predicate FixesZero2(normalize: Vec2 -> Vec2) { normalize(Zero2) == Zero2 }
  predicate FixesZero3(normalize: Vec3 -> Vec3) { normalize(Zero3) == Zero3 }
}
