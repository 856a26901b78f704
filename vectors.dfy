/** Small vector algebra over `real`, standing in for cgmath's `f32` vectors,
    and the numeric primitives the cameras borrow from the platform. */
module Vectors {

  datatype Vec2 = Vec2(x: real, y: real)
  datatype Vec3 = Vec3(x: real, y: real, z: real)
  datatype Vec4 = Vec4(x: real, y: real, z: real, w: real)

  const Zero2: Vec2 := Vec2(0.0, 0.0)
  const Zero3: Vec3 := Vec3(0.0, 0.0, 0.0)
  const Zero4: Vec4 := Vec4(0.0, 0.0, 0.0, 0.0)

  function Add(a: Vec3, b: Vec3): Vec3 {
    Vec3(a.x + b.x, a.y + b.y, a.z + b.z)
  }

  function Sub(a: Vec3, b: Vec3): Vec3 {
    Vec3(a.x - b.x, a.y - b.y, a.z - b.z)
  }

  function Scale(a: Vec3, k: real): Vec3 {
    Vec3(a.x * k, a.y * k, a.z * k)
  }

  /** Right-handed cross product, as cgmath's `Vector3::cross`. */
  function Cross(a: Vec3, b: Vec3): Vec3 {
    Vec3(a.y * b.z - a.z * b.y, a.z * b.x - a.x * b.z, a.x * b.y - a.y * b.x)
  }

  function Dot(a: Vec3, b: Vec3): real {
    a.x * b.x + a.y * b.y + a.z * b.z
  }

  /** cgmath's `magnitude2`: the squared Euclidean length. */
  function MagnitudeSquared(a: Vec3): real {
    a.x * a.x + a.y * a.y + a.z * a.z
  }

  /** The floating-point primitives the camera code calls but that are not
      modelled: sine, cosine and vector normalisation are given as values. */
  datatype Numerics = Numerics(sin: real -> real, cos: real -> real, normalize: Vec3 -> Vec3)

  /** An orthogonal camera basis: where the camera looks, its strafing axis
      and its local up axis. */
  datatype Basis = Basis(front: Vec3, right: Vec3, up: Vec3)

  /** pi / 2, the value of `std::f32::consts::FRAC_PI_2` (rounding to f32 is not modelled). */
  const FRAC_PI_2: real := 1.5707963267948966

  /** `x` clamped into `[lo, hi]`, as `f32::clamp` and as `max(lo)` followed by `min(hi)`. */
  function Clamp(x: real, lo: real, hi: real): (r: real)
    requires lo <= hi
    ensures lo <= r <= hi
    ensures lo <= x <= hi ==> r == x
    ensures x < lo ==> r == lo
    ensures hi < x ==> r == hi
  {
    if x < lo then lo else if hi < x then hi else x
  }

  /** The angle a rotation input of `rate` turns a camera through in `dt`
      seconds at the given sensitivity. */
  function Turn(rate: real, sensitivity: real, dt: real): real {
    rate * sensitivity * dt
  }

  lemma ScaleByZero(a: Vec3)
    ensures Scale(a, 0.0) == Zero3 && Add(a, Zero3) == a
  {
  }
}
