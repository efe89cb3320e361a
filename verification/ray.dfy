/** Rays (src/math/ray.rs): an immutable origin and direction. */
module Rays {
  import opened Vectors

  datatype Ray3 = Ray3(origin: Point3, direction: Vec3)

  /** `Ray3::new`, `origin` and `direction`: the accessors give back the constructor arguments. */
  function New(origin: Point3, direction: Vec3): (r: Ray3)
    ensures r.origin == origin && r.direction == direction
  {
    Ray3(origin, direction)
  }

  /** `Ray3::at`: the point reached after travelling `dist` times the direction from the origin. */
  function At(r: Ray3, dist: real): (p: Point3)
    ensures p.marker == Unknown
  {
    Add(r.origin, Mul(r.direction, dist))
  }

  /**
   * At distance zero the ray is at its origin, the offset from the origin is the
   * direction scaled by the distance, and moving along the ray composes by adding distances.
   */
  lemma AtFacts(r: Ray3, s: real, t: real)
    ensures Eq(At(r, 0.0), r.origin)
    ensures Eq(Sub(At(r, t), r.origin), Mul(r.direction, t))
    ensures Eq(At(Ray3(At(r, s), r.direction), t), At(r, s + t))
  {
  }
}
