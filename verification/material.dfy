/**
 * Materials (src/material.rs): how a ray hitting a surface is scattered. The random
 * vector each material draws is passed in as `draw`: a random unit vector for the
 * Lambertian surface, a random point in the unit sphere for the metal.
 */
module Materials {
  import opened RealMath
  import opened Wrappers
  import opened Vectors
  import opened Rays
  import opened Hittables
  import Colors

  /** `MaterialResult`: how much light survives and where the ray goes next. */
  datatype MaterialResult = MaterialResult(attenuation: Colors.Color, scattered: Ray3)

  /** The two materials behind `dyn Material`. */
  datatype Material =
    | Lambertian(albedo: Colors.Color)
    | Metal(albedo: Colors.Color, fuzz: real)

  // `Vec3::near_zero` and `Vec3::reflect` are not part of this model's sources; they get the
  // conventional definitions, the same as `Vec2::near_zero` and the mirror reflection.

  const NearZeroThreshold: real := 0.00000001

  /** `Vec3::near_zero`: every coordinate is smaller in magnitude than 1e-8. */
  predicate NearZero(v: Vec3)
  {
    Abs(v.x) < NearZeroThreshold && Abs(v.y) < NearZeroThreshold && Abs(v.z) < NearZeroThreshold
  }

  /** `Vec3::reflect(v, n)`: `v - 2 (v . n) n`. */
  function Reflect(v: Vec3, n: Vec3): Vec3
  {
    Vectors.Sub(v, Mul(n, 2.0 * Dot(v, n)))
  }

  /** `Lambertian::new`. */
  function LambertianNew(albedo: Colors.Color): (m: Material)
    ensures m.Lambertian? && m.albedo == albedo
  {
    Lambertian(albedo)
  }

  /**
   * `Lambertian::scatter`: always scatters, keeping the albedo and leaving from the hit
   * point along the normal plus the drawn unit vector, or along the normal alone when that
   * sum is near zero.
   */
  function LambertianScatter<M>(albedo: Colors.Color, record: HitRecord<M>, draw: Vec3): (r: Option<MaterialResult>)
    ensures r.Some?
    ensures r.value.attenuation == albedo && r.value.scattered.origin == record.point
    ensures NearZero(Add(record.normal, draw)) ==> Eq(r.value.scattered.direction, record.normal)
    ensures !NearZero(Add(record.normal, draw)) ==> r.value.scattered.direction == Add(record.normal, draw)
  {
    var direction := Add(record.normal, draw);
    var direction := if NearZero(direction) then record.normal.(marker := Unknown) else direction;
    Some(MaterialResult(albedo, Rays.New(record.point, direction)))
  }

  /** A unit vector is not near zero: its largest coordinate is at least a third in square. */
  lemma UnitNotNearZero(v: Vec3)
    requires LenSquared(v) == 1.0
    ensures !NearZero(v)
  {
    if NearZero(v) {
      var t := NearZeroThreshold;
      assert v.x * v.x < t * t by { ProductBelow(v.x, t); }
      assert v.y * v.y < t * t by { ProductBelow(v.y, t); }
      assert v.z * v.z < t * t by { ProductBelow(v.z, t); }
    }
  }

  /** A value smaller in magnitude than `t` has a square smaller than `t * t`. */
  lemma ProductBelow(x: real, t: real)
    requires Abs(x) < t
    ensures x * x < t * t
  {
    SquareStrictlyMonotone(Abs(x), t);
    assert x * x == Abs(x) * Abs(x);
  }

  /**
   * With a unit normal the Lambertian surface never sends a ray off along a near-zero
   * direction, whatever the draw.
   */
  lemma LambertianDirectionNotNearZero<M>(albedo: Colors.Color, record: HitRecord<M>, draw: Vec3)
    requires LenSquared(record.normal) == 1.0
    ensures !NearZero(LambertianScatter(albedo, record, draw).value.scattered.direction)
  {
    var d := LambertianScatter(albedo, record, draw).value.scattered.direction;
    if NearZero(Add(record.normal, draw)) {
      assert LenSquared(d) == LenSquared(record.normal);
      UnitNotNearZero(d);
    }
  }

  /** `Metal::new`: a perfect mirror, with no fuzz. */
  function MetalNew(albedo: Colors.Color): (m: Material)
    ensures m.Metal? && m.albedo == albedo && m.fuzz == 0.0
  {
    Metal(albedo, 0.0)
  }

  /** `Metal::with_fuzz`: the fuzz must lie in `0..=1` (the source panics otherwise). */
  function MetalWithFuzz(albedo: Colors.Color, fuzz: real): (m: Material)
    requires 0.0 <= fuzz <= 1.0
    ensures m.Metal? && m.albedo == albedo && m.fuzz == fuzz
  {
    Metal(albedo, fuzz)
  }

  /** The direction a metal sends the ray: the unit mirror direction plus the fuzz-scaled draw. */
  function MetalDirection<M>(fuzz: real, rayIn: Ray3, record: HitRecord<M>, draw: Vec3): (d: Vec3)
  {
    var reflected := Reflect(rayIn.direction, record.normal);
    Add(AsUnit(reflected), ScalarMul(fuzz, draw))
  }

  /**
   * `Metal::scatter`: absorbs the ray exactly when the fuzzed mirror direction points
   * below the surface; otherwise keeps the albedo and leaves from the hit point along it.
   */
  function MetalScatter<M>(albedo: Colors.Color, fuzz: real, rayIn: Ray3, record: HitRecord<M>, draw: Vec3)
    : (r: Option<MaterialResult>)
    ensures var d := MetalDirection(fuzz, rayIn, record, draw);
      && (r.None? <==> Dot(d, record.normal) < 0.0)
      && (r.Some? ==> r.value.attenuation == albedo && r.value.scattered == Ray3(record.point, d))
  {
    ScatterAlong(albedo, record, MetalDirection(fuzz, rayIn, record, draw))
  }

  /** The metal outcome for an outgoing direction `d`: absorbed when `d` points below the surface. */
  function ScatterAlong<M>(albedo: Colors.Color, record: HitRecord<M>, d: Vec3): (r: Option<MaterialResult>)
    ensures r.None? <==> Dot(d, record.normal) < 0.0
    ensures r.Some? ==> r.value.attenuation == albedo && r.value.scattered == Ray3(record.point, d)
  {
    if Dot(d, record.normal) < 0.0 then None
    else Some(MaterialResult(albedo, Ray3(record.point, d)))
  }

  /** Mirroring in a unit normal flips the component along the normal. */
  lemma ReflectAlongNormal(v: Vec3, n: Vec3)
    requires LenSquared(n) == 1.0
    ensures Dot(Reflect(v, n), n) == -Dot(v, n)
  {
    var k := 2.0 * Dot(v, n);
    assert Dot(Reflect(v, n), n) == Dot(v, n) - k * LenSquared(n);
  }

  /**
   * A fuzz-free metal hit from the front (the normal facing the ray, as `HitRecord`
   * stores it) with a unit normal always reflects: it never absorbs the ray.
   */
  lemma MirrorAlwaysReflects<M>(albedo: Colors.Color, rayIn: Ray3, record: HitRecord<M>, draw: Vec3)
    requires LenSquared(record.normal) == 1.0 && Dot(rayIn.direction, record.normal) <= 0.0
    ensures MetalScatter(albedo, 0.0, rayIn, record, draw).Some?
  {
    var n := record.normal;
    var reflected := Reflect(rayIn.direction, n);
    ReflectAlongNormal(rayIn.direction, n);
    var k := NormalizeIsMultiple(reflected);
    var u := AsUnit(reflected);
    assert Dot(u, n) >= 0.0 by {
      UnitKeepsSide(reflected, k, u, n);
    }
    ZeroFuzzDirection(u, MetalDirection(0.0, rayIn, record, draw), draw);
  }

  /** A positive multiple of a vector, or the zero vector, stays on the same side of a plane. */
  lemma UnitKeepsSide(v: Vec3, k: real, u: Vec3, n: Vec3)
    requires Dot(v, n) >= 0.0
    requires IsZero(v) ==> u == Vec3(0.0, 0.0, 0.0, Normalized)
    requires !IsZero(v) ==> k > 0.0 && u == Mul(v, k).(marker := Normalized)
    ensures Dot(u, n) >= 0.0
  {
    if !IsZero(v) {
      MulFacts(n, v, k, 1.0);
      assert Dot(u, n) == Dot(n, Mul(v, k)) == k * Dot(n, v);
      ProductNonNegative(k, Dot(n, v));
      assert k * Dot(n, v) == Product(k, Dot(n, v));
    }
  }

  /** Without fuzz the draw adds nothing to the direction. */
  lemma ZeroFuzzDirection(u: Vec3, d: Vec3, draw: Vec3)
    requires d == Add(u, ScalarMul(0.0, draw))
    ensures Eq(d, u)
  {
  }

  /** `Material::scatter`, dispatched on the material. */
  function Scatter<M>(m: Material, rayIn: Ray3, record: HitRecord<M>, draw: Vec3): (r: Option<MaterialResult>)
    ensures r.Some? ==> r.value.attenuation == m.albedo && r.value.scattered.origin == record.point
    ensures m.Lambertian? ==> r.Some?
    ensures m.Metal? ==> (r.None? <==> Dot(MetalDirection(m.fuzz, rayIn, record, draw), record.normal) < 0.0)
  {
    match m
    case Lambertian(albedo) => LambertianScatter(albedo, record, draw)
    case Metal(albedo, fuzz) => MetalScatter(albedo, fuzz, rayIn, record, draw)
  }
}
