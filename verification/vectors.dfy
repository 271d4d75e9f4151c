/**
 This module provides the small pieces of the engine's value types that the
 scaling library uses: 2- and 3-component real vectors and their
 component-wise arithmetic.
 */
module Vectors {

  /** A 2-component vector (the engine's Vector2). */
  datatype Vec2 = Vec2(x: real, y: real)

  /** A 3-component vector (the engine's Vector3). */
  datatype Vec3 = Vec3(x: real, y: real, z: real)

  const Zero: Vec3 := Vec3(0.0, 0.0, 0.0)
  const One: Vec3 := Vec3(1.0, 1.0, 1.0)

  /** The vector whose every component is `k`. */
  function Broadcast(k: real): Vec3 {
    Vec3(k, k, k)
  }

  function Add(a: Vec3, b: Vec3): Vec3 {
    Vec3(a.x + b.x, a.y + b.y, a.z + b.z)
  }

  function Sub(a: Vec3, b: Vec3): Vec3 {
    Vec3(a.x - b.x, a.y - b.y, a.z - b.z)
  }

  /** Component-wise product, as `Vector3.mul(Vector3)`. */
  function Mul(a: Vec3, b: Vec3): Vec3 {
    Vec3(a.x * b.x, a.y * b.y, a.z * b.z)
  }

  /** Product with a number, as `Vector3.mul(number)`. */
  function MulScalar(a: Vec3, k: real): Vec3 {
    Vec3(a.x * k, a.y * k, a.z * k)
  }

  /** The first two components of a 3-vector. */
  function XY(a: Vec3): Vec2 {
    Vec2(a.x, a.y)
  }
}
