/**
 * The small part of glm the game relies on, over `real` instead of `float`:
 * vectors with componentwise arithmetic, min and max, and rotations kept
 * symbolic as the list of factors a matrix is the product of.
 */
module Geometry {

  datatype Vec2 = Vec2(x: real, y: real)

  datatype Vec3 = Vec3(x: real, y: real, z: real)

  datatype Vec4 = Vec4(x: real, y: real, z: real, w: real)

  const Zero: Vec3 := Vec3(0.0, 0.0, 0.0)

  function Add(a: Vec3, b: Vec3): Vec3 {
    Vec3(a.x + b.x, a.y + b.y, a.z + b.z)
  }

  function Sub(a: Vec3, b: Vec3): Vec3 {
    Vec3(a.x - b.x, a.y - b.y, a.z - b.z)
  }

  function Neg(a: Vec3): Vec3 {
    Vec3(-a.x, -a.y, -a.z)
  }

  /** Scalar times vector, `c * v` in glm. */
  function Scale(c: real, v: Vec3): Vec3 {
    Vec3(c * v.x, c * v.y, c * v.z)
  }

  /** Componentwise product, `a * b` of two glm vectors. */
  function Mul(a: Vec3, b: Vec3): Vec3 {
    Vec3(a.x * b.x, a.y * b.y, a.z * b.z)
  }

  function Min(a: real, b: real): real {
    if b < a then b else a
  }

  function Max(a: real, b: real): real {
    if a < b then b else a
  }

  /** `glm::min` of two vectors. */
  function MinV(a: Vec3, b: Vec3): Vec3 {
    Vec3(Min(a.x, b.x), Min(a.y, b.y), Min(a.z, b.z))
  }

  /** `glm::max` of two vectors. */
  function MaxV(a: Vec3, b: Vec3): Vec3 {
    Vec3(Max(a.x, b.x), Max(a.y, b.y), Max(a.z, b.z))
  }

  /** Componentwise `a <= b`. */
  predicate LessEq(a: Vec3, b: Vec3) {
    a.x <= b.x && a.y <= b.y && a.z <= b.z
  }

  /**
   * One factor of a rotation matrix. glm builds rotations by multiplying
   * matrices; the model records which factors were multiplied, in order,
   * and the empty list stands for the identity matrix `glm::mat4(1.0f)`.
   *   AxisAngle(a, v):    glm::rotate by angle a about axis v
   *   RotationVector(r):  rotate by angle |r| about axis r / |r|
   *   AlignZTo(d):        the quaternion turning (0, 0, 1) onto normalize(d)
   */
  datatype Turn = AxisAngle(angle: real, axis: Vec3) | RotationVector(r: Vec3) | AlignZTo(direction: Vec3)

  type Rotation = seq<Turn>

  const Identity: Rotation := []
}
