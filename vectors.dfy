/** Vectors over the reals, standing for the engine's `Vector2` and `Vector3`.
    Floating-point rounding is not modelled: components are exact reals. */
module Vectors {

  datatype Vec2 = Vec2(x: real, y: real)

  datatype Vec3 = Vec3(x: real, y: real, z: real)

  const Zero2: Vec2 := Vec2(0.0, 0.0)

  const Zero3: Vec3 := Vec3(0.0, 0.0, 0.0)

  /** The world's up axis, `Vector3.up`. */
  const Up: Vec3 := Vec3(0.0, 1.0, 0.0)

  function Add(a: Vec3, b: Vec3): Vec3
  {
    Vec3(a.x + b.x, a.y + b.y, a.z + b.z)
  }

  function Scale(a: Vec3, k: real): Vec3
  {
    Vec3(a.x * k, a.y * k, a.z * k)
  }

  /** `Vector3.sqrMagnitude`. */
  function SqrMagnitude(a: Vec3): real
  {
    a.x * a.x + a.y * a.y + a.z * a.z
  }

  /** Squared length of the horizontal (x, z) part of a vector. */
  function SqrHorizontal(a: Vec3): real
  {
    a.x * a.x + a.z * a.z
  }
}
