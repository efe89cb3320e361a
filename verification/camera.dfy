/**
 * The camera (src/camera.rs): a builder that checks every setting as it is given and
 * collects a message for each bad one, and the colour a ray brings back from the scene,
 * bounce after bounce until the depth budget is spent. The random vector each material
 * draws at a bounce is given by `draw`, indexed by the depth remaining at that bounce.
 */
module Cameras {
  import opened RealMath
  import opened Wrappers
  import opened Casts
  import opened Intervals
  import opened Vectors
  import opened Rays
  import opened Hittables
  import opened Materials
  import Colors

  /** How pixels are sampled during antialiasing. */
  datatype AntialiasingType = Square | Disc

  /**
   * The messages `add_error` collects, one per kind of check, carrying the value that
   * failed it. Each stands for the text `CameraBuilder::<setter>: Invalid ...`.
   */
  datatype BuilderError =
    | DimensionsWidth(width: U32)
    | DimensionsHeight(height: U32)
    | AspectRatioWidth(width: U32)
    | AspectRatio(ratio: real)
    | MaxDepth(depth: U32)
    | SamplesPerPx(samples: U32)
    | FocalLength(length: real)
    | Vfov(deg: real)
    | DefocusAngle(angle: real)

  /** `f64::to_radians`. */
  function ToRadians(deg: real): (rad: real)
    ensures deg < 0.0 ==> rad < 0.0
    ensures deg == 0.0 ==> rad == 0.0
    ensures deg > 0.0 ==> rad > 0.0
  {
    deg * (Pi / 180.0)
  }

  /** Converting to radians keeps the order of angles. */
  lemma ToRadiansMonotone(a: real, b: real)
    requires a < b
    ensures ToRadians(a) < ToRadians(b)
  {
    assert ToRadians(b) - ToRadians(a) == ToRadians(b - a);
  }

  /**
   * `(f64::from(width) / aspect_ratio).round() as u32`: a zero ratio gives an infinite
   * height that saturates (or NaN, read as 0, for a zero width), a negative one gives 0.
   */
  function HeightFor(width: U32, aspectRatio: real): (h: U32)
    ensures aspectRatio > 0.0 && width as real / aspectRatio < U32Max as real ==>
              width as real / aspectRatio - 0.5 < h as real <= width as real / aspectRatio + 0.5
    ensures aspectRatio < 0.0 ==> h == 0
  {
    if aspectRatio == 0.0 then (if width == 0 then 0 else U32Max)
    else RoundF64ToU32(width as real / aspectRatio)
  }

  /** `Camera`, less the viewport geometry. */
  datatype Camera = Camera(
    imageWidth: U32,
    imageHeight: U32,
    cameraCenter: Point3,
    antialiasingType: AntialiasingType,
    samplesPerPx: U32,
    pxSampleScale: real,
    maxDepth: U32,
    defocusAngle: real)

  /** `CameraBuilder`: the settings so far and the messages of the checks that failed. */
  class CameraBuilder {
    var imageWidth: U32
    var imageHeight: U32
    var vfov: real
    var antialiasingType: AntialiasingType
    var samplesPerPx: U32
    var maxDepth: U32
    var cameraCenter: Point3
    var cameraTarget: Point3
    var vup: Vec3
    var defocusAngle: real
    var focalLength: real
    var errors: seq<BuilderError>

    /**
     * As long as no check has failed, every checked setting is in its range (the height
     * is not: `with_aspect_ratio` may round it down to 0 or 1 unchecked).
     */
    predicate Valid()
      reads this
    {
      errors == [] ==>
        imageWidth > 1 && maxDepth >= 1 && samplesPerPx >= 1 && focalLength > 0.0 &&
        ToRadians(0.01) <= vfov < ToRadians(360.0) && 0.0 <= defocusAngle < ToRadians(180.0)
    }

    /** `CameraBuilder::default` (and `new`): a 400x200 image, a 90 degree view, no errors. */
    constructor ()
      ensures Valid() && errors == []
      ensures imageWidth == 400 && imageHeight == 200 && vfov == ToRadians(90.0)
      ensures antialiasingType == Square && samplesPerPx == 10 && maxDepth == 10
      ensures cameraCenter == Vectors.New(0.0, 0.0, 0.0) && cameraTarget == Vectors.New(0.0, 0.0, -1.0)
      ensures vup == Vec3(0.0, 1.0, 0.0, Normalized)
      ensures defocusAngle == 0.0 && focalLength == 1.0
    {
      imageWidth := 400;
      imageHeight := 200;
      vfov := ToRadians(90.0);
      antialiasingType := Square;
      samplesPerPx := 10;
      maxDepth := 10;
      cameraCenter := Vectors.New(0.0, 0.0, 0.0);
      cameraTarget := Vectors.New(0.0, 0.0, -1.0);
      vup := Vec3(0.0, 1.0, 0.0, Normalized);  // `Vec3::new(0.0, 1.0, 0.0).as_unit()`, already of length one
      defocusAngle := ToRadians(0.0);
      focalLength := 1.0;
      errors := [];
      new;
      ToRadiansMonotone(0.01, 90.0);
      ToRadiansMonotone(90.0, 360.0);
    }

    /** `add_error`: logs `err` exactly when `condition` holds, after the earlier messages. */
    method AddError(condition: bool, err: BuilderError)
      modifies this
      ensures errors == old(errors) + (if condition then [err] else [])
      ensures imageWidth == old(imageWidth) && imageHeight == old(imageHeight) && vfov == old(vfov)
      ensures antialiasingType == old(antialiasingType) && samplesPerPx == old(samplesPerPx)
      ensures maxDepth == old(maxDepth) && cameraCenter == old(cameraCenter)
      ensures cameraTarget == old(cameraTarget) && vup == old(vup)
      ensures defocusAngle == old(defocusAngle) && focalLength == old(focalLength)
    {
      if condition {
        errors := errors + [err];
      }
    }

    /** `dimensions`: one message per side not above 1; both values are stored regardless. */
    method Dimensions(width: U32, height: U32)
      requires Valid()
      modifies this
      ensures Valid()
      ensures errors == old(errors) + (if width <= 1 then [DimensionsWidth(width)] else [])
                                    + (if height <= 1 then [DimensionsHeight(height)] else [])
      ensures imageWidth == width && imageHeight == height
      ensures vfov == old(vfov) && antialiasingType == old(antialiasingType)
      ensures samplesPerPx == old(samplesPerPx) && maxDepth == old(maxDepth)
      ensures cameraCenter == old(cameraCenter) && cameraTarget == old(cameraTarget) && vup == old(vup)
      ensures defocusAngle == old(defocusAngle) && focalLength == old(focalLength)
    {
      AddError(width <= 1, DimensionsWidth(width));
      AddError(height <= 1, DimensionsHeight(height));
      imageWidth := width;
      imageHeight := height;
    }

    /**
     * `with_aspect_ratio`: a message for a width not above 1 and one for a ratio outside
     * `0.1..=100`; the height is the rounded width over the ratio.
     */
    method WithAspectRatio(width: U32, aspectRatio: real)
      requires Valid()
      modifies this
      ensures Valid()
      ensures errors == old(errors) + (if width <= 1 then [AspectRatioWidth(width)] else [])
                                    + (if !(0.1 <= aspectRatio <= 100.0) then [AspectRatio(aspectRatio)] else [])
      ensures imageWidth == width && imageHeight == HeightFor(width, aspectRatio)
      ensures vfov == old(vfov) && antialiasingType == old(antialiasingType)
      ensures samplesPerPx == old(samplesPerPx) && maxDepth == old(maxDepth)
      ensures cameraCenter == old(cameraCenter) && cameraTarget == old(cameraTarget) && vup == old(vup)
      ensures defocusAngle == old(defocusAngle) && focalLength == old(focalLength)
    {
      AddError(width <= 1, AspectRatioWidth(width));
      AddError(!(0.1 <= aspectRatio <= 100.0), AspectRatio(aspectRatio));
      imageWidth := width;
      imageHeight := HeightFor(width, aspectRatio);
    }

    /** `max_depth`: a message for a depth below 1. */
    method SetMaxDepth(depth: U32)
      requires Valid()
      modifies this
      ensures Valid()
      ensures errors == old(errors) + (if depth < 1 then [MaxDepth(depth)] else [])
      ensures maxDepth == depth
      ensures imageWidth == old(imageWidth) && imageHeight == old(imageHeight) && vfov == old(vfov)
      ensures antialiasingType == old(antialiasingType) && samplesPerPx == old(samplesPerPx)
      ensures cameraCenter == old(cameraCenter) && cameraTarget == old(cameraTarget) && vup == old(vup)
      ensures defocusAngle == old(defocusAngle) && focalLength == old(focalLength)
    {
      AddError(depth < 1, MaxDepth(depth));
      maxDepth := depth;
    }

    /** `antialias`: a message for fewer than one sample per pixel. */
    method Antialias(kind: AntialiasingType, samples: U32)
      requires Valid()
      modifies this
      ensures Valid()
      ensures errors == old(errors) + (if samples < 1 then [SamplesPerPx(samples)] else [])
      ensures antialiasingType == kind && samplesPerPx == samples
      ensures imageWidth == old(imageWidth) && imageHeight == old(imageHeight) && vfov == old(vfov)
      ensures maxDepth == old(maxDepth)
      ensures cameraCenter == old(cameraCenter) && cameraTarget == old(cameraTarget) && vup == old(vup)
      ensures defocusAngle == old(defocusAngle) && focalLength == old(focalLength)
    {
      AddError(samples < 1, SamplesPerPx(samples));
      antialiasingType := kind;
      samplesPerPx := samples;
    }

    /** `camera_center`: never logs a message. */
    method CameraCenter(center: Point3)
      requires Valid()
      modifies this
      ensures Valid()
      ensures errors == old(errors) && cameraCenter == center
      ensures imageWidth == old(imageWidth) && imageHeight == old(imageHeight) && vfov == old(vfov)
      ensures antialiasingType == old(antialiasingType) && samplesPerPx == old(samplesPerPx)
      ensures maxDepth == old(maxDepth) && cameraTarget == old(cameraTarget) && vup == old(vup)
      ensures defocusAngle == old(defocusAngle) && focalLength == old(focalLength)
    {
      cameraCenter := center;
    }

    /** `focal_length`: a message for a length not above 0. */
    method SetFocalLength(length: real)
      requires Valid()
      modifies this
      ensures Valid()
      ensures errors == old(errors) + (if length <= 0.0 then [FocalLength(length)] else [])
      ensures focalLength == length
      ensures imageWidth == old(imageWidth) && imageHeight == old(imageHeight) && vfov == old(vfov)
      ensures antialiasingType == old(antialiasingType) && samplesPerPx == old(samplesPerPx)
      ensures maxDepth == old(maxDepth)
      ensures cameraCenter == old(cameraCenter) && cameraTarget == old(cameraTarget) && vup == old(vup)
      ensures defocusAngle == old(defocusAngle)
    {
      AddError(length <= 0.0, FocalLength(length));
      focalLength := length;
    }

    /** `vfov`: a message for an angle outside `0.01..360` degrees; stored in radians. */
    method SetVfov(deg: real)
      requires Valid()
      modifies this
      ensures Valid()
      ensures errors == old(errors) + (if !(0.01 <= deg < 360.0) then [Vfov(deg)] else [])
      ensures vfov == ToRadians(deg)
      ensures imageWidth == old(imageWidth) && imageHeight == old(imageHeight)
      ensures antialiasingType == old(antialiasingType) && samplesPerPx == old(samplesPerPx)
      ensures maxDepth == old(maxDepth)
      ensures cameraCenter == old(cameraCenter) && cameraTarget == old(cameraTarget) && vup == old(vup)
      ensures defocusAngle == old(defocusAngle) && focalLength == old(focalLength)
    {
      AddError(!(0.01 <= deg < 360.0), Vfov(deg));
      vfov := ToRadians(deg);
      if 0.01 < deg {
        ToRadiansMonotone(0.01, deg);
      }
      if deg < 360.0 {
        ToRadiansMonotone(deg, 360.0);
      }
    }

    /** `camera_target`: never logs a message. */
    method CameraTarget(target: Point3)
      requires Valid()
      modifies this
      ensures Valid()
      ensures errors == old(errors) && cameraTarget == target
      ensures imageWidth == old(imageWidth) && imageHeight == old(imageHeight) && vfov == old(vfov)
      ensures antialiasingType == old(antialiasingType) && samplesPerPx == old(samplesPerPx)
      ensures maxDepth == old(maxDepth) && cameraCenter == old(cameraCenter) && vup == old(vup)
      ensures defocusAngle == old(defocusAngle) && focalLength == old(focalLength)
    {
      cameraTarget := target;
    }

    /** `vup`: never logs a message; the vector is stored normalised. */
    method Vup(v: Vec3)
      requires Valid()
      modifies this
      ensures Valid()
      ensures errors == old(errors) && vup == AsUnit(v)
      ensures imageWidth == old(imageWidth) && imageHeight == old(imageHeight) && vfov == old(vfov)
      ensures antialiasingType == old(antialiasingType) && samplesPerPx == old(samplesPerPx)
      ensures maxDepth == old(maxDepth) && cameraCenter == old(cameraCenter) && cameraTarget == old(cameraTarget)
      ensures defocusAngle == old(defocusAngle) && focalLength == old(focalLength)
    {
      var u := AsUnit(v);
      vup := u;
    }

    /** `defocus_angle`: a message for an angle outside `0..180` degrees; stored in radians. */
    method SetDefocusAngle(angle: real)
      requires Valid()
      modifies this
      ensures Valid()
      ensures errors == old(errors) + (if !(0.0 <= angle < 180.0) then [DefocusAngle(angle)] else [])
      ensures defocusAngle == ToRadians(angle)
      ensures imageWidth == old(imageWidth) && imageHeight == old(imageHeight) && vfov == old(vfov)
      ensures antialiasingType == old(antialiasingType) && samplesPerPx == old(samplesPerPx)
      ensures maxDepth == old(maxDepth)
      ensures cameraCenter == old(cameraCenter) && cameraTarget == old(cameraTarget) && vup == old(vup)
      ensures focalLength == old(focalLength)
    {
      AddError(!(0.0 <= angle < 180.0), DefocusAngle(angle));
      defocusAngle := ToRadians(angle);
      if angle < 180.0 {
        ToRadiansMonotone(angle, 180.0);
      }
    }

    /**
     * `build`: fails with every collected message, in the order logged, exactly when there
     * is one; otherwise the camera has the checked settings in range and samples each pixel
     * at least once.
     */
    method Build() returns (r: Result<Camera, seq<BuilderError>>)
      requires Valid()
      ensures r.Err? <==> errors != []
      ensures r.Err? ==> r.error == errors
      ensures r.Ok? ==> r.value.imageWidth == imageWidth && r.value.imageHeight == imageHeight
      ensures r.Ok? ==> r.value.cameraCenter == cameraCenter && r.value.antialiasingType == antialiasingType
      ensures r.Ok? ==> r.value.samplesPerPx == samplesPerPx && r.value.maxDepth == maxDepth
      ensures r.Ok? ==> r.value.defocusAngle == defocusAngle
      ensures r.Ok? ==> r.value.imageWidth > 1 && r.value.maxDepth >= 1 && r.value.samplesPerPx >= 1
      ensures r.Ok? ==> r.value.pxSampleScale * r.value.samplesPerPx as real == 1.0
      ensures r.Ok? ==> 0.0 < r.value.pxSampleScale <= 1.0
    {
      if errors != [] {
        return Err(errors);
      }
      var scale := 1.0 / samplesPerPx as real;
      r := Ok(Camera(imageWidth, imageHeight, cameraCenter, antialiasingType, samplesPerPx, scale,
                     maxDepth, defocusAngle));
    }
  }

  /** `CameraBuilder::new().build()`: the default settings always build. */
  method DefaultCamera() returns (c: Camera)
    ensures c.imageWidth == 400 && c.imageHeight == 200 && c.samplesPerPx == 10 && c.maxDepth == 10
    ensures c.antialiasingType == Square && c.defocusAngle == 0.0
  {
    var builder := new CameraBuilder();
    var r := builder.Build();
    c := r.value;
  }

  /**
   * A depth below 1 and a negative focal length are both reported, in the order the
   * setters were called, and the build fails.
   */
  method ErrorsInCallOrder() returns (r: Result<Camera, seq<BuilderError>>)
    ensures r == Err([MaxDepth(0), FocalLength(-1.0)])
  {
    var builder := new CameraBuilder();
    builder.SetMaxDepth(0);
    builder.CameraCenter(Vectors.New(1.0, 2.0, 3.0));
    builder.SetFocalLength(-1.0);
    assert builder.errors == [MaxDepth(0), FocalLength(-1.0)];
    r := builder.Build();
  }

  /** The range of distances a ray is traced over: from 0.001 on, to avoid self-hits. */
  function BounceRange(): (i: Interval)
    ensures i.start == Finite(0.001) && i.end == PosInf
  {
    Intervals.New(Finite(0.001), PosInf)
  }

  /** A vector of squared length at most one has its y coordinate in `-1..=1`. */
  lemma YWithinUnit(v: Vec3)
    requires LenSquared(v) <= 1.0
    ensures -1.0 <= v.y <= 1.0
  {
    SquareSign(v.x);
    SquareSign(v.z);
    assert RealMath.Square(v.x) == v.x * v.x && RealMath.Square(v.z) == v.z * v.z;
    if v.y > 1.0 {
      SquareStrictlyMonotone(1.0, v.y);
    } else if v.y < -1.0 {
      SquareStrictlyMonotone(1.0, -v.y);
    }
  }

  /** The height of a normalised vector lies in `-1..=1`. */
  lemma UnitHeight(v: Vec3)
    ensures -1.0 <= AsUnit(v).y <= 1.0
  {
    YWithinUnit(AsUnit(v));
  }

  /**
   * The sky colour for a height `intensity` in `0..=1`: white blended towards light blue.
   * Every such colour is valid.
   */
  function SkyBlend(intensity: real): (c: Colors.Color)
    ensures 0.0 <= intensity <= 1.0 ==> Colors.IsValid(c) && c.b == 1.0
  {
    var whiteness := Vectors.Mul(Vectors.New(1.0, 1.0, 1.0), 1.0 - intensity);
    var coloring := Vectors.Mul(Vectors.New(0.5, 0.7, 1.0), intensity);
    Colors.FromVec3(Add(whiteness, coloring))
  }

  /** The sky a ray that hits nothing sees, blended by the height of its unit direction. */
  function Sky(ray: Ray3): (c: Colors.Color)
    ensures Colors.IsValid(c) && c.b == 1.0
  {
    UnitHeight(ray.direction);
    SkyBlend((AsUnit(ray.direction).y + 1.0) * 0.5)
  }

  /**
   * `Camera::ray_color`: black once the depth is spent or when the surface hit absorbs
   * the ray, the sky when nothing is hit, and otherwise the attenuation times the colour
   * of the scattered ray traced with one bounce fewer.
   */
  function RayColor(world: (Ray3, Interval) -> Option<HitRecord<Material>>, draw: nat -> Vec3, ray: Ray3, depth: U32)
    : (c: Colors.Color)
    ensures depth == 0 ==> c == Colors.Black()
    ensures depth > 0 && world(ray, BounceRange()).None? ==> c == Sky(ray)
    ensures depth > 0 && world(ray, BounceRange()).Some? ==>
      var hit := world(ray, BounceRange()).value;
      Scatter(hit.material, ray, hit, draw(depth)).None? ==> c == Colors.Black()
    decreases depth
  {
    if depth == 0 then Colors.Black()
    else match world(ray, BounceRange())
      case None => Sky(ray)
      case Some(hit) =>
        match Scatter(hit.material, ray, hit, draw(depth))
        case None => Colors.Black()
        case Some(scatter) =>
          Colors.Mul(scatter.attenuation, RayColor(world, draw, scatter.scattered, depth - 1))
  }

  /** Every material of every hit the world reports has a valid albedo. */
  ghost predicate ValidAlbedos(world: (Ray3, Interval) -> Option<HitRecord<Material>>)
  {
    forall ray, i :: world(ray, i).Some? ==> Colors.IsValid(world(ray, i).value.material.albedo)
  }

  /**
   * Surfaces only take light away: when every albedo is valid, so is the colour of every
   * ray, at every depth.
   */
  lemma {:induction false} RayColorValid(world: (Ray3, Interval) -> Option<HitRecord<Material>>, draw: nat -> Vec3,
                                         ray: Ray3, depth: U32)
    requires ValidAlbedos(world)
    ensures Colors.IsValid(RayColor(world, draw, ray, depth))
    decreases depth
  {
    if depth > 0 {
      var h := world(ray, BounceRange());
      if h.Some? {
        var hit := h.value;
        var s := Scatter(hit.material, ray, hit, draw(depth));
        if s.Some? {
          RayColorValid(world, draw, s.value.scattered, depth - 1);
          Colors.MulKeepsValid(s.value.attenuation, RayColor(world, draw, s.value.scattered, depth - 1));
        }
      }
    }
  }

  /**
   * A ray traced with depth `depth` uses only the draws of depths `1..=depth`: each
   * bounce spends one unit of depth, so there are at most `depth` bounces.
   */
  lemma {:induction false} RayColorUsesDepthDraws(world: (Ray3, Interval) -> Option<HitRecord<Material>>,
                                                  draw1: nat -> Vec3, draw2: nat -> Vec3, ray: Ray3, depth: U32)
    requires forall k | 1 <= k <= depth :: draw1(k) == draw2(k)
    ensures RayColor(world, draw1, ray, depth) == RayColor(world, draw2, ray, depth)
    decreases depth
  {
    if depth > 0 {
      var h := world(ray, BounceRange());
      if h.Some? {
        var hit := h.value;
        var s := Scatter(hit.material, ray, hit, draw1(depth));
        assert s == Scatter(hit.material, ray, hit, draw2(depth));
        if s.Some? {
          RayColorUsesDepthDraws(world, draw1, draw2, s.value.scattered, depth - 1);
          RayColorBounce(world, draw1, ray, depth, s);
          RayColorBounce(world, draw2, ray, depth, s);
        } else {
          assert RayColor(world, draw1, ray, depth) == Colors.Black() == RayColor(world, draw2, ray, depth);
        }
      } else {
        assert RayColor(world, draw1, ray, depth) == Sky(ray) == RayColor(world, draw2, ray, depth);
      }
    }
  }

  /** A ray whose hit scatters takes the attenuated colour of the scattered ray. */
  lemma RayColorBounce(world: (Ray3, Interval) -> Option<HitRecord<Material>>, draw: nat -> Vec3, ray: Ray3,
                       depth: U32, s: Option<MaterialResult>)
    requires depth > 0 && world(ray, BounceRange()).Some?
    requires s == Scatter(world(ray, BounceRange()).value.material, ray, world(ray, BounceRange()).value, draw(depth))
    requires s.Some?
    ensures RayColor(world, draw, ray, depth) == Colors.Mul(s.value.attenuation, RayColor(world, draw, s.value.scattered, depth - 1))
  {
  }

  /** A ray that hits a surface with its last unit of depth brings back black, whatever the surface. */
  lemma LastBounceIsDark(world: (Ray3, Interval) -> Option<HitRecord<Material>>, draw: nat -> Vec3, ray: Ray3)
    requires world(ray, BounceRange()).Some?
    ensures RayColor(world, draw, ray, 1) == Colors.Black()
  {
    var hit := world(ray, BounceRange()).value;
    var s := Scatter(hit.material, ray, hit, draw(1));
    if s.Some? {
      var a := s.value.attenuation;
      assert RayColor(world, draw, s.value.scattered, 0) == Colors.Color(0.0, 0.0, 0.0);
      assert Colors.Mul(a, Colors.Color(0.0, 0.0, 0.0)) == Colors.Color(0.0, 0.0, 0.0);
    }
  }
}
