/** Vectors of the engine (glm::vec3, glm::vec4), with float components read as reals. */
module Geometry {

  datatype Vec3 = Vec3(x: real, y: real, z: real)

  datatype Vec4 = Vec4(x: real, y: real, z: real, w: real)

  function Add(a: Vec3, b: Vec3): Vec3
  {
    Vec3(a.x + b.x, a.y + b.y, a.z + b.z)
  }

  function Scale(v: Vec3, k: real): Vec3
  {
    Vec3(v.x * k, v.y * k, v.z * k)
  }

  function Splat(k: real): Vec3
  {
    Vec3(k, k, k)
  }

  /** Component-wise lo <= v <= hi. */
  predicate Within(v: Vec3, lo: Vec3, hi: Vec3)
  {
    lo.x <= v.x <= hi.x && lo.y <= v.y <= hi.y && lo.z <= v.z <= hi.z
  }

  /** A fraction in [0, 1] of a non-negative amount lies between zero and that amount. */
  lemma FractionOf(r: real, w: real)
    requires 0.0 <= r <= 1.0 && 0.0 <= w
    ensures 0.0 <= r * w <= w
  {
  }
}
