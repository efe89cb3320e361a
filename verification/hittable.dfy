/**
 * Ray–object intersection bookkeeping (src/hittable.rs): the hit record with its
 * front-face rule, the sphere, and the list of objects scanned for the closest hit.
 *
 * Objects are generic: a list or a tree of objects of any type `H` is searched through a
 * `hit` function, the Rust trait method `Hittable::hit`, given as a parameter. Materials
 * are generic too (`M`), since a record only carries its material along.
 */
module Hittables {
  import opened RealMath
  import opened Wrappers
  import opened Intervals
  import opened Vectors
  import opened Rays

  /** `HitRecord`: where the ray met the surface, the normal facing the ray, and the distance `t`. */
  datatype HitRecord<M> = HitRecord(point: Point3, normal: Vec3, material: M, t: real, frontFace: bool)

  /** Negating a vector negates its dot products. */
  lemma DotNeg(a: Vec3, b: Vec3)
    ensures Dot(a, Neg(b)) == -Dot(a, b)
  {
  }

  /**
   * `HitRecord::from_incoming_ray`: the hit is on the front face exactly when the ray runs
   * against the outward normal, and the stored normal is flipped on a back-face hit, so it
   * never points along the ray. Point, distance and material are kept as given.
   */
  function FromIncomingRay<M>(ray: Ray3, point: Point3, normal: Vec3, t: real, material: M): (r: HitRecord<M>)
    ensures r.frontFace <==> Dot(ray.direction, normal) < 0.0
    ensures r.frontFace ==> r.normal == normal
    ensures !r.frontFace ==> r.normal == Neg(normal)
    ensures Dot(ray.direction, r.normal) <= 0.0
    ensures r.normal.marker == normal.marker
    ensures r.point == point && r.t == t && r.material == material
  {
    DotNeg(ray.direction, normal);
    var frontFace := Dot(ray.direction, normal) < 0.0;
    HitRecord(point, if frontFace then normal else Neg(normal), material, t, frontFace)
  }

  /** A hit record held in a variable, as `set_face_normal` updates one through `&mut self`. */
  class HitRecordVar<M> {
    var record: HitRecord<M>

    constructor (r: HitRecord<M>)
      ensures record == r
    {
      record := r;
    }

    /**
     * `HitRecord::set_face_normal`: recomputes the face and the normal as
     * `from_incoming_ray` would for the same ray and outward normal; point, distance and
     * material stay as they were.
     */
    method SetFaceNormal(ray: Ray3, outwardNormal: Vec3)
      modifies this
      ensures record == FromIncomingRay(ray, old(record).point, outwardNormal, old(record).t, old(record).material)
      ensures record.point == old(record).point && record.t == old(record).t
      ensures record.material == old(record).material
    {
      var frontFace := Dot(ray.direction, outwardNormal) < 0.0;
      record := record.(frontFace := frontFace);
      record := record.(normal := if record.frontFace then outwardNormal else Neg(outwardNormal));
    }
  }

  /** `Sphere`: a centre, a radius and the material of its surface. */
  datatype Sphere<M> = Sphere(center: Point3, radius: real, material: M)

  /** `Sphere::new`. */
  function NewSphere<M>(center: Point3, radius: real, material: M): (s: Sphere<M>)
    ensures s.center == center && s.radius == radius && s.material == material
  {
    Sphere(center, radius, material)
  }

  /**
   * The half-b quadratic of a ray against a sphere: `a t^2 - 2 h t + c = 0`, with
   * `a = |d|^2`, `h = d . (center - origin)` and `c = |center - origin|^2 - radius^2`.
   */
  function QuadA(ray: Ray3): real
  {
    LenSquared(ray.direction)
  }

  function QuadH<M>(s: Sphere<M>, ray: Ray3): real
  {
    Dot(ray.direction, Vectors.Sub(s.center, ray.origin))
  }

  function QuadC<M>(s: Sphere<M>, ray: Ray3): real
  {
    LenSquared(Vectors.Sub(s.center, ray.origin)) - s.radius * s.radius
  }

  function Discriminant<M>(s: Sphere<M>, ray: Ray3): real
  {
    QuadH(s, ray) * QuadH(s, ray) - QuadA(ray) * QuadC(s, ray)
  }

  /** The nearer root `(h - sqrt(disc)) / a`; infinite or NaN when the direction is zero. */
  function NearRoot<M>(s: Sphere<M>, ray: Ray3): EReal
    requires Discriminant(s, ray) >= 0.0
  {
    Quotient(QuadH(s, ray) - Sqrt(Discriminant(s, ray)), QuadA(ray))
  }

  /** The farther root `(h + sqrt(disc)) / a`. */
  function FarRoot<M>(s: Sphere<M>, ray: Ray3): EReal
    requires Discriminant(s, ray) >= 0.0
  {
    Quotient(QuadH(s, ray) + Sqrt(Discriminant(s, ray)), QuadA(ray))
  }

  /** For a non-zero direction both roots are finite and the nearer one comes first. */
  lemma RootsOrdered<M>(s: Sphere<M>, ray: Ray3)
    requires Discriminant(s, ray) >= 0.0
    ensures NearRoot(s, ray).Finite? <==> !IsZero(ray.direction)
    ensures FarRoot(s, ray).Finite? <==> !IsZero(ray.direction)
    ensures !IsZero(ray.direction) ==> NearRoot(s, ray).v <= FarRoot(s, ray).v
  {
    LenSquaredSign(ray.direction);
    var a, h, sq := QuadA(ray), QuadH(s, ray), Sqrt(Discriminant(s, ray));
    if a > 0.0 {
      QuotientMonotone(h - sq, h + sq, a);
    }
  }

  /** Dividing by a positive number keeps the order. */
  lemma QuotientMonotone(lo: real, hi: real, a: real)
    requires lo <= hi && a > 0.0
    ensures lo / a <= hi / a
  {
    assert hi / a - lo / a == (hi - lo) / a;
  }

  /**
   * The outward normal at a surface point, `(point - center) / radius`, relabelled as
   * normalised without a check. A zero radius (a NaN normal in f64) gives the zero vector.
   */
  function OutwardNormal<M>(s: Sphere<M>, point: Point3): (n: Vec3)
    ensures n.marker == Normalized
    ensures s.radius != 0.0 ==> Eq(Mul(n, s.radius), Vectors.Sub(point, s.center))
  {
    if s.radius == 0.0 then Vec3(0.0, 0.0, 0.0, Normalized)
    else AssertIsNormalized(Div(Vectors.Sub(point, s.center), s.radius))
  }

  /**
   * The record for a hit at distance `root`: the point on the ray, and the outward normal
   * turned to face the ray.
   */
  function HitAt<M>(s: Sphere<M>, ray: Ray3, root: real): (r: HitRecord<M>)
    ensures r.t == root && r.point == At(ray, root) && r.material == s.material
    ensures r.frontFace <==> Dot(ray.direction, OutwardNormal(s, r.point)) < 0.0
    ensures Dot(ray.direction, r.normal) <= 0.0
  {
    var point := At(ray, root);
    FromIncomingRay(ray, point, OutwardNormal(s, point), root, s.material)
  }

  /**
   * `Sphere::hit` as written: the far root is tried when the near one is outside `ray_t`,
   * but the `let root` that holds it shadows the outer binding only inside the `if`, so
   * the record is still made at the near root.
   */
  function SphereHitAsWritten<M>(s: Sphere<M>, ray: Ray3, rayT: Interval): (r: Option<HitRecord<M>>)
    ensures Discriminant(s, ray) < 0.0 ==> r.None?
    ensures Discriminant(s, ray) >= 0.0 && SurroundsE(rayT, NearRoot(s, ray)) ==>
      r == Some(HitAt(s, ray, NearRoot(s, ray).v))
    ensures Discriminant(s, ray) >= 0.0 && !SurroundsE(rayT, NearRoot(s, ray)) ==>
      (r.Some? <==> SurroundsE(rayT, FarRoot(s, ray)))
    ensures r.Some? ==> Discriminant(s, ray) >= 0.0 && NearRoot(s, ray) == Finite(r.value.t)
  {
    if Discriminant(s, ray) < 0.0 then None
    else
      var near := NearRoot(s, ray);
      if SurroundsE(rayT, near) then Some(HitAt(s, ray, near.v))
      else if !SurroundsE(rayT, FarRoot(s, ray)) then None
      else
        RootsOrdered(s, ray);
        Some(HitAt(s, ray, near.v))
  }

  /**
   * `Sphere::hit` as its comment intends: the nearest root inside `ray_t`. A reported hit
   * always lies strictly inside `ray_t`; the near root wins when it is inside, the far root
   * is used otherwise, and a negative discriminant misses.
   */
  function SphereHit<M>(s: Sphere<M>, ray: Ray3, rayT: Interval): (r: Option<HitRecord<M>>)
    ensures Discriminant(s, ray) < 0.0 ==> r.None?
    ensures r.Some? ==> Surrounds(rayT, r.value.t)
    ensures r.Some? ==>
      Discriminant(s, ray) >= 0.0 && (NearRoot(s, ray) == Finite(r.value.t) || FarRoot(s, ray) == Finite(r.value.t))
    ensures Discriminant(s, ray) >= 0.0 && SurroundsE(rayT, NearRoot(s, ray)) ==>
      r == Some(HitAt(s, ray, NearRoot(s, ray).v))
    ensures Discriminant(s, ray) >= 0.0 && !SurroundsE(rayT, NearRoot(s, ray)) ==>
      (r.Some? <==> SurroundsE(rayT, FarRoot(s, ray)))
  {
    if Discriminant(s, ray) < 0.0 then None
    else
      var near, far := NearRoot(s, ray), FarRoot(s, ray);
      if SurroundsE(rayT, near) then Some(HitAt(s, ray, near.v))
      else if SurroundsE(rayT, far) then Some(HitAt(s, ray, far.v))
      else None
  }

  /**
   * The two agree whenever the near root is inside `ray_t` or neither root is; they differ
   * only when the far root alone is inside.
   */
  lemma SphereHitAgreement<M>(s: Sphere<M>, ray: Ray3, rayT: Interval)
    ensures Discriminant(s, ray) < 0.0 ==> SphereHitAsWritten(s, ray, rayT) == SphereHit(s, ray, rayT)
    ensures Discriminant(s, ray) >= 0.0 && (SurroundsE(rayT, NearRoot(s, ray)) || !SurroundsE(rayT, FarRoot(s, ray))) ==>
      SphereHitAsWritten(s, ray, rayT) == SphereHit(s, ray, rayT)
  {
  }

  /** The roots `(h -/+ sqrt(disc)) / a` of the quadratic with `a = 1`, `h = 2`, `disc = 1`. */
  lemma UnitRoots(a: real, h: real, disc: real)
    requires a == 1.0 && h == 2.0 && disc == 1.0
    ensures Quotient(h - Sqrt(disc), a) == Finite(1.0)
    ensures Quotient(h + Sqrt(disc), a) == Finite(3.0)
  {
  }

  /**
   * Whenever the near root is outside `ray_t` and the far root inside, the sphere as
   * written reports the near root, which `ray_t` does not surround, while the intended
   * version reports the far root.
   */
  lemma ShadowedRootReported<M>(s: Sphere<M>, ray: Ray3, rayT: Interval)
    requires Discriminant(s, ray) >= 0.0
    requires !SurroundsE(rayT, NearRoot(s, ray)) && SurroundsE(rayT, FarRoot(s, ray))
    ensures SphereHitAsWritten(s, ray, rayT).Some?
    ensures NearRoot(s, ray) == Finite(SphereHitAsWritten(s, ray, rayT).value.t)
    ensures !Surrounds(rayT, SphereHitAsWritten(s, ray, rayT).value.t)
    ensures SphereHit(s, ray, rayT) == Some(HitAt(s, ray, FarRoot(s, ray).v))
  {
  }

  /**
   * A ray from the origin along +x meets the unit sphere around (2, 0, 0) at t = 1 and
   * t = 3. With `ray_t = (2, 10)` only t = 3 is acceptable, yet the sphere as written
   * reports t = 1, outside `ray_t`; the intended version reports t = 3.
   */
  lemma SphereShadowingExample(s: Sphere<()>, ray: Ray3, rayT: Interval)
    requires s == Sphere(Vectors.New(2.0, 0.0, 0.0), 1.0, ())
    requires ray == Ray3(Vectors.New(0.0, 0.0, 0.0), Vectors.New(1.0, 0.0, 0.0))
    requires rayT == Interval(Finite(2.0), Finite(10.0))
    ensures SphereHitAsWritten(s, ray, rayT).Some? && SphereHitAsWritten(s, ray, rayT).value.t == 1.0
    ensures !Surrounds(rayT, SphereHitAsWritten(s, ray, rayT).value.t)
    ensures SphereHit(s, ray, rayT).Some? && SphereHit(s, ray, rayT).value.t == 3.0
  {
    ExampleQuadratic(s, ray);
    UnitRoots(QuadA(ray), QuadH(s, ray), Discriminant(s, ray));
    RootsOneAndThree(s, ray, rayT);
  }

  /** Any sphere and ray with roots 1 and 3, searched over `(2, 10)`. */
  lemma RootsOneAndThree<M>(s: Sphere<M>, ray: Ray3, rayT: Interval)
    requires Discriminant(s, ray) >= 0.0
    requires NearRoot(s, ray) == Finite(1.0) && FarRoot(s, ray) == Finite(3.0)
    requires rayT == Interval(Finite(2.0), Finite(10.0))
    ensures SphereHitAsWritten(s, ray, rayT).Some? && SphereHitAsWritten(s, ray, rayT).value.t == 1.0
    ensures !Surrounds(rayT, SphereHitAsWritten(s, ray, rayT).value.t)
    ensures SphereHit(s, ray, rayT).Some? && SphereHit(s, ray, rayT).value.t == 3.0
  {
    ShadowedRootReported(s, ray, rayT);
  }

  /** The quadratic of `SphereShadowingExample`: `a = 1`, `h = 2`, `c = 3`, discriminant 1. */
  lemma ExampleQuadratic(s: Sphere<()>, ray: Ray3)
    requires s == Sphere(Vectors.New(2.0, 0.0, 0.0), 1.0, ())
    requires ray == Ray3(Vectors.New(0.0, 0.0, 0.0), Vectors.New(1.0, 0.0, 0.0))
    ensures QuadA(ray) == 1.0 && QuadH(s, ray) == 2.0 && Discriminant(s, ray) == 1.0
  {
    assert QuadC(s, ray) == 3.0;
  }

  /**
   * The closest-hit scan of `HittableVec::hit` from object `objs[0]` on: each object is
   * asked for a hit in `(start, far)`, and a hit becomes the new candidate and its distance
   * the new far bound.
   */
  function Scan<H, M>(hit: (H, Ray3, Interval) -> Option<HitRecord<M>>, objs: seq<H>, ray: Ray3,
                      start: EReal, far: EReal, acc: Option<HitRecord<M>>): Option<HitRecord<M>>
    decreases |objs|
  {
    if objs == [] then acc
    else
      match hit(objs[0], ray, Interval(start, far))
      case Some(rec) => Scan(hit, objs[1..], ray, start, Finite(rec.t), Some(rec))
      case None => Scan(hit, objs[1..], ray, start, far, acc)
  }

  /** The records reported during the scan, in the order the objects reported them. */
  function Reports<H, M>(hit: (H, Ray3, Interval) -> Option<HitRecord<M>>, objs: seq<H>, ray: Ray3,
                         start: EReal, far: EReal): seq<HitRecord<M>>
    decreases |objs|
  {
    if objs == [] then []
    else
      match hit(objs[0], ray, Interval(start, far))
      case Some(rec) => [rec] + Reports(hit, objs[1..], ray, start, Finite(rec.t))
      case None => Reports(hit, objs[1..], ray, start, far)
  }

  /** The scan returns the last reported record, or what it started with when nobody reports. */
  lemma {:induction false} ScanIsLastReport<H, M>(hit: (H, Ray3, Interval) -> Option<HitRecord<M>>, objs: seq<H>,
                                                  ray: Ray3, start: EReal, far: EReal, acc: Option<HitRecord<M>>)
    ensures var reps := Reports(hit, objs, ray, start, far);
      Scan(hit, objs, ray, start, far, acc) == if reps == [] then acc else Some(reps[|reps| - 1])
    decreases |objs|
  {
    if objs != [] {
      match hit(objs[0], ray, Interval(start, far))
      case Some(rec) =>
        ScanIsLastReport(hit, objs[1..], ray, start, Finite(rec.t), Some(rec));
      case None =>
        ScanIsLastReport(hit, objs[1..], ray, start, far, acc);
    }
  }

  /** Every object of `objs` only reports hits strictly inside the interval it is asked about. */
  ghost predicate Respects<H, M>(hit: (H, Ray3, Interval) -> Option<HitRecord<M>>, objs: seq<H>, ray: Ray3)
  {
    forall k, i: Interval | 0 <= k < |objs| && hit(objs[k], ray, i).Some? ::
      Surrounds(i, hit(objs[k], ray, i).value.t)
  }

  /**
   * When the objects respect the interval they are given, every report lies in
   * `(start, far)` and each report is strictly closer than the one before it: the far bound
   * only shrinks.
   */
  lemma {:induction false} ReportsShrink<H, M>(hit: (H, Ray3, Interval) -> Option<HitRecord<M>>, objs: seq<H>,
                                               ray: Ray3, start: EReal, far: EReal)
    requires Respects(hit, objs, ray)
    ensures forall k | 0 <= k < |Reports(hit, objs, ray, start, far)| ::
      Surrounds(Interval(start, far), Reports(hit, objs, ray, start, far)[k].t)
    ensures forall k, l | 0 <= k < l < |Reports(hit, objs, ray, start, far)| ::
      Reports(hit, objs, ray, start, far)[l].t < Reports(hit, objs, ray, start, far)[k].t
    decreases |objs|
  {
    if objs != [] {
      assert Respects(hit, objs[1..], ray) by {
        forall k, i: Interval | 0 <= k < |objs[1..]| && hit(objs[1..][k], ray, i).Some?
          ensures Surrounds(i, hit(objs[1..][k], ray, i).value.t)
        {
          assert objs[1..][k] == objs[k + 1];
        }
      }
      var reps := Reports(hit, objs, ray, start, far);
      match hit(objs[0], ray, Interval(start, far))
      case Some(rec) =>
        assert Surrounds(Interval(start, far), rec.t);
        ReportsShrink(hit, objs[1..], ray, start, Finite(rec.t));
        var rest := Reports(hit, objs[1..], ray, start, Finite(rec.t));
        assert reps == [rec] + rest;
        forall k | 0 <= k < |reps|
          ensures Surrounds(Interval(start, far), reps[k].t)
        {
          if k > 0 {
            assert reps[k] == rest[k - 1];
            LtTrans(Finite(reps[k].t), Finite(rec.t), far);
          }
        }
      case None =>
        ReportsShrink(hit, objs[1..], ray, start, far);
    }
  }

  /**
   * With objects that respect their interval, `HittableVec::hit` over `ray_t` returns a hit
   * strictly inside `ray_t`, no farther than any hit reported during the scan; with no
   * reports, and in particular with no objects, it returns None.
   */
  lemma ClosestHitFacts<H, M>(hit: (H, Ray3, Interval) -> Option<HitRecord<M>>, objs: seq<H>, ray: Ray3, rayT: Interval)
    requires Respects(hit, objs, ray)
    ensures var r := Scan(hit, objs, ray, rayT.start, rayT.end, None);
      var reps := Reports(hit, objs, ray, rayT.start, rayT.end);
      (r.None? <==> reps == []) &&
      (r.Some? ==> Surrounds(rayT, r.value.t) && forall k | 0 <= k < |reps| :: r.value.t <= reps[k].t)
    ensures objs == [] ==> Scan(hit, objs, ray, rayT.start, rayT.end, None).None?
  {
    ScanIsLastReport(hit, objs, ray, rayT.start, rayT.end, None);
    ReportsShrink(hit, objs, ray, rayT.start, rayT.end);
  }

  /** `HittableVec`: the objects of a scene, in the order they were added. */
  class HittableVec<H> {
    var objects: seq<H>

    /** `HittableVec::new`: no objects. */
    constructor ()
      ensures objects == []
    {
      objects := [];
    }

    /** `HittableVec::add`: appends, keeping the earlier objects in their order. */
    method Add(obj: H)
      modifies this
      ensures objects == old(objects) + [obj]
    {
      objects := objects + [obj];
    }

    /**
     * `Hittable::hit for HittableVec`: asks every object in turn, with the far end of the
     * interval pulled in to the closest hit so far; the result is the scan's.
     */
    method Hit<M>(hit: (H, Ray3, Interval) -> Option<HitRecord<M>>, ray: Ray3, rayT: Interval)
      returns (closest: Option<HitRecord<M>>)
      ensures closest == Scan(hit, objects, ray, rayT.start, rayT.end, None)
    {
      closest := None;
      var closestDist := rayT.end;
      var i := 0;
      while i < |objects|
        invariant 0 <= i <= |objects|
        invariant Scan(hit, objects[i..], ray, rayT.start, closestDist, closest) ==
                  Scan(hit, objects, ray, rayT.start, rayT.end, None)
      {
        assert objects[i..][1..] == objects[i + 1..];
        var record := hit(objects[i], ray, Interval(rayT.start, closestDist));
        if record.Some? {
          closestDist := Finite(record.value.t);
          closest := record;
        }
        i := i + 1;
      }
    }
  }
}
