# A verified model of a small Rust path tracer

This project models the core of a CPU ray tracer written in Rust. It proves properties of that model in Dafny. The modelled parts are:

- the value algebra: closed intervals with infinite sentinels, the three axes, 3D and 2D vectors with their normalisation marker, rays, colours, and orthonormal bases;
- intersection bookkeeping: the front-face rule of a hit record, sphere root selection, and the closest-hit scan over a list of objects;
- the bounding-volume hierarchy: box padding, merging, longest axis, the slab test, tree construction and traversal;
- materials (Lambertian, metal), textures (solid colour, checkerboard) and probability densities (sphere, cosine, mixture);
- the camera builder, which collects validation errors, and the depth-bounded `ray_color` recursion;
- the scene-configuration reader: the texture store and its id counter, typed field extraction from TOML values, case-insensitive type names, checks that referenced names are already defined, and the assembly of a whole configuration;
- the image writers: plain PPM (`P3`) text, and the PNG writer's header-then-data state machine and byte layout.

## Representation

- **Numbers.** `f64` is modelled as `real`. Interval endpoints and ray distances may be infinite or NaN, so they use `Intervals.EReal`. That type is `NegInf | Finite | PosInf | NaN`, where a comparison involving NaN is false, as in IEEE 754.
- **Square root.** `RealMath.Sqrt` is a bisection. It returns a value `r >= 0` whose square lies between `x` and `x * (1 + SqrtSlack)`, where `SqrtSlack` is 3·2^-64. It is exact at 0 and 1. Unit lengths are therefore stated up to that relative error.
- **Normalisation marker.** The `Normalized`/`Unknown` typestate of vectors is an ordinary field `marker`. `Eq` compares coordinates only and ignores it, as the source's `PartialEq` does.
- **Randomness.** Random draws become parameters: a draw, a sequence of candidate draws, or a function from bounce depth to draw.
- **Generic scene objects.** Objects behind `dyn Hittable` are a type parameter `H` together with a hit function `(H, Ray3, Interval) -> Option<HitRecord<M>>`.
- **TOML.** TOML values are the datatype `ConfigValues.Value`. A table is an association list, so iteration order is explicit. `toml::Table` iterates in key order with unique keys (unless its `preserve_order` feature is on); the model's results for the configuration loops hold for any order and, where keys repeat, let the last entry with a key win, which generalises the source.
- **Errors.** Error messages are the datatype `ConfigValues.ConfigError`. It keeps the offending key and the kind of problem.
- **Panics.** A documented panic of a value-level operation (`PngWriter` in the wrong state, `Metal::with_fuzz` out of range, `MixedPDF::new` with weights not summing to 1) becomes a precondition. The configuration reader can reach two panics from its input: `as_texture`'s `todo!()` for an image texture, and `Metal::with_fuzz` for a fuzz outside `[0, 100]`. There the model returns the error `ConfigError.Panic`, so a configuration that would panic fails to load.
- **Mutation.** State the source mutates in place is a Dafny class with `modifies` clauses:
  - `IterAxis`, the texture store and the camera builder;
  - `HittableVec`, a hit record being re-oriented, and the `*Assign` operators of vectors;
  - the PPM writer's output buffer and the PNG writer.
- **Loops.** The source's `for` loops, `while` loops and iterator folds become `while` loops with invariants, each proved against a specification function:
  - the rejection samplers, the axis iterator, the closest-hit scan and the slab test;
  - BVH box folding and sorting, the mixture-PDF pick and `parse_point3`;
  - the configuration loops, the PPM line writer and the PNG buffer.

## Model

| member | source | states |
|---|---|---|
| Intervals.New | src/math/interval.rs:8-10 | the interval has exactly the given start and end |
| Intervals.Empty | src/math/interval.rs:12-14 | contains no value; its end lies below its start |
| Intervals.Universe | src/math/interval.rs:16-18 | contains and surrounds every finite value |
| Intervals.Sub | src/math/interval.rs:20-22 | extended-real subtraction agrees with real subtraction on finite operands |
| Intervals.SizeNegativeIffInverted | src/math/interval.rs:20-22 | `size()` is negative exactly when the interval is inverted (end < start), for non-NaN endpoints |
| Intervals.Surrounds | src/math/interval.rs:53-67 | surrounding a value implies containing it |
| Intervals.SurroundsE | src/math/interval.rs:53-67 | only a finite distance can be surrounded; for finite values it agrees with `Surrounds` |
| Intervals.EndpointsContainedNotSurrounded | src/math/interval.rs:25-67 | both endpoints of an ordered finite interval are contained but not surrounded |
| Intervals.Clamp | src/math/interval.rs:57-77 | a value below `start` gives `start`, otherwise a value above `end` gives `end`; on an ordered interval the result lies in `[start, end]`; a contained value is returned unchanged, and (without NaN endpoints) only a contained value is |
| Intervals.ClampIdempotent | src/math/interval.rs:69-77 | clamping a clamped value changes nothing |
| Intervals.FromRange | src/math/interval.rs:88-92 | the interval built from a range contains exactly the values of the range |
| Intervals.RangeRoundTrip | src/math/interval.rs:88-98 | interval → range → interval and range → interval → range both return the original bounds |
| Intervals.Quotient | src/boundingbox.rs:96-113 | a quotient is finite exactly when the divisor is non-zero, and then equals the real quotient |
| Intervals.Recip | src/boundingbox.rs:96-113 | the reciprocal used by the slab test is the quotient `1/d` |
| Intervals.MulE | src/boundingbox.rs:96-113 | extended multiplication agrees with real multiplication on finite operands |
| Axes.Rank | src/axis.rs:1-6 | the declaration order of an axis is 0, 1 or 2 |
| Axes.LessIsStrictTotal | src/axis.rs:1-6 | the derived order X < Y < Z is irreflexive, transitive and total |
| Axes.TryFromU8 | src/axis.rs:38-48 | decoding succeeds exactly for 0, 1 and 2, giving the axis of that rank; every n ≥ 3 is an error |
| Axes.TryFromU8Onto | src/axis.rs:38-48 | every axis is decoded from its own rank |
| Axes.IterAxis.constructor | src/axis.rs:9-12 | a fresh iterator has not started and will yield X, Y, Z |
| Axes.IterAxis.Remaining | src/axis.rs:14-35 | what the iterator has still to yield is always a suffix of X, Y, Z |
| Axes.IterAxis.Next | src/axis.rs:19-35 | yields the first remaining axis and drops it; once exhausted it returns None and keeps its state |
| Axes.CollectAxes | src/axis.rs:9-35 | draining a fresh iterator yields exactly X, Y, Z in that order, then stops |
| Casts.F64ToU8 | src/math/color.rs:84-92 | `as u8` saturates at 0 and 255 and otherwise truncates toward zero |
| Casts.F64ToU32 | src/math/color.rs:76-82 | `as u32` saturates at 0 and 2^32−1 and otherwise truncates |
| Casts.RoundF64ToU32 | src/camera.rs:74-75 | `round() as u32` is within one half of the value in range, and 0 for negatives |
| Casts.SaturateI32 | src/texture.rs:59-63 | `as i32` keeps in-range integers and saturates outside |
| Casts.WrapI32 | src/texture.rs:63 | the `i32` sum wraps modulo 2^32 |
| Casts.WrapI32KeepsParity | src/texture.rs:63 | wrapping does not change the parity of the tile sum |
| RealMath.Sqrt | src/math/vec.rs:119-122 | the square root is non-negative, its square is at least the argument, it is zero exactly at 0, at most 1 on `[0, 1]`, and exactly 1 at 1 |
| RealMath.SqrtUpperBound | src/math/vec.rs:119-122 | the square of the square root exceeds the argument by a relative error of at most `SqrtSlack` |
| Vectors.Empty | src/math/vec.rs:151-160 | the empty vector is a left and right additive identity and is its own negation |
| Vectors.LenSquaredSign | src/math/vec.rs:114-117 | the squared length is non-negative and positive exactly for non-zero vectors |
| Vectors.Len | src/math/vec.rs:119-122 | the length is non-negative, its square is at least `len_squared`, and it is positive exactly for non-zero vectors |
| Vectors.LenUpperBound | src/math/vec.rs:119-122 | the square of the length is at most `len_squared` times `1 + SqrtSlack`, so with `Len` the length is the square root up to that error |
| Vectors.DotFacts | src/math/vec.rs:114-128 | dot is symmetric and `len_squared(v) == dot(v, v)` |
| Vectors.Cross | src/math/vec.rs:131-139 | the cross product carries the `Unknown` marker |
| Vectors.CrossOrthogonal | src/math/vec.rs:131-139 | `a × b` is orthogonal to both `a` and `b` |
| Vectors.CrossFacts | src/math/vec.rs:131-139 | the cross product is anti-commutative and vanishes on parallel vectors |
| Vectors.CrossLenSquared | src/math/vec.rs:131-139 | Lagrange's identity: `|a × b|² = |a|²·|b|² − (a·b)²` |
| Vectors.Neg | src/math/vec.rs:238-252 | negation keeps the marker and `v + (-v)` is zero |
| Vectors.Add | src/math/vec.rs:254-294 | every sum, whatever the operand markers, is `Unknown` |
| Vectors.AddFacts | src/math/vec.rs:254-294 | addition is commutative and associative |
| Vectors.SubFacts | src/math/vec.rs:302-319 | `a - b` is componentwise subtraction with marker `Unknown`; `(a - b) + b == a`; `a - a` is zero |
| Vectors.Mul | src/math/vec.rs:334-356 | every scaled vector is `Unknown` |
| Vectors.MulLenSquared | src/math/vec.rs:334-356 | scaling by k multiplies the squared length by k² |
| Vectors.MulFacts | src/math/vec.rs:334-356 | scaling distributes over addition, composes multiplicatively, pulls out of a dot product, and 1 is neutral |
| Vectors.MulAddFactors | src/math/vec.rs:334-356 | scaling distributes over a sum of factors |
| Vectors.Div | src/math/vec.rs:360-378 | dividing by a non-zero n and multiplying back by n gives the original vector |
| Vectors.Normalize | src/math/vec.rs:208-217 | the result is marked `Normalized`; for a non-zero input its squared length lies in `[1 − SqrtSlack, 1]` and it points the same way (positive dot, zero cross); a zero input gives zero |
| Vectors.NormalizeIsMultiple | src/math/vec.rs:208-217 | the normalised vector is a positive multiple of the input |
| Vectors.NormalizeUnit | src/math/vec.rs:208-217 | a vector of length 1 normalises to itself |
| Vectors.AsUnitIsUnit | src/math/vec.rs:219-222 | `as_unit` of a non-zero vector is marked `Normalized`, has squared length in `[1 − SqrtSlack, 1]`, and points the same way as the vector |
| Vectors.NormalizedLenNearOne | src/math/vec.rs:402-409 | the length of a normalised non-zero vector is within 0.001 of 1, the test's tolerance |
| Vectors.AssertIsNormalized | src/math/vec.rs:225-233 | the coordinates are unchanged and only the marker becomes `Normalized` |
| Vectors.RandomInUnitSphere | src/math/vec.rs:198-206 | the rejection loop returns the first draw with squared length below 1, and returns exactly when some draw qualifies |
| Vectors.Vec3Var.constructor | src/math/vec.rs:142-145 | a mutable vector starts at the given value |
| Vectors.Vec3Var.AddAssign | src/math/vec.rs:296-300 | `+=` stores the sum |
| Vectors.Vec3Var.SubAssign | src/math/vec.rs:321-326 | `-=` stores the difference |
| Vectors.Vec3Var.MulAssign | src/math/vec.rs:352-356 | `*=` stores the scaled vector |
| Vectors.Vec3Var.DivAssign | src/math/vec.rs:373-378 | `/=` by a non-zero divisor stores the quotient |
| TwoD.Empty | src/math/vec/two_d.rs:137-143 | the empty 2D vector is the additive identity and its own negation |
| TwoD.LenSquaredSign | src/math/vec/two_d.rs:104-107 | the squared length is non-negative and positive exactly for non-zero vectors |
| TwoD.Len | src/math/vec/two_d.rs:109-112 | the length is non-negative, its square is at least `len_squared`, and it is positive exactly for non-zero vectors |
| TwoD.LenUpperBound | src/math/vec/two_d.rs:109-112 | the square of the length is at most `len_squared` times `1 + SqrtSlack` |
| TwoD.DotFacts | src/math/vec/two_d.rs:104-118 | dot is symmetric and equals the squared length on the diagonal |
| TwoD.NearZeroFacts | src/math/vec/two_d.rs:120-124 | `near_zero` holds exactly when both coordinates are below 1e-8 in magnitude; zero is near zero; a near-zero vector is short |
| TwoD.Neg | src/math/vec/two_d.rs:209-221 | negation keeps the marker and cancels the vector |
| TwoD.Add | src/math/vec/two_d.rs:223-235 | a sum is `Unknown` |
| TwoD.AddFacts | src/math/vec/two_d.rs:223-235 | addition is commutative and associative |
| TwoD.SubFacts | src/math/vec/two_d.rs:243-251 | subtraction is componentwise, `(a - b) + b == a` and `a - a` is zero |
| TwoD.Mul | src/math/vec/two_d.rs:266-287 | a scaled vector is `Unknown` |
| TwoD.MulFacts | src/math/vec/two_d.rs:266-287 | scaling distributes, composes, pulls out of dot and squared length, and 1 is neutral |
| TwoD.Div | src/math/vec/two_d.rs:291-310 | dividing by non-zero n and multiplying back gives the original |
| TwoD.Normalize | src/math/vec/two_d.rs:192-200 | the result is `Normalized`; for a non-zero input its squared length lies in `[1 − SqrtSlack, 1]` and it is parallel to and points along the input; a zero input gives zero |
| TwoD.AsUnitIsUnit | src/math/vec/two_d.rs:202-205 | `as_unit` of a non-zero vector is `Normalized`, has squared length in `[1 − SqrtSlack, 1]`, and points the same way |
| TwoD.NormalizedLenNearOne | src/math/vec/two_d.rs:192-205 | the length of a normalised non-zero vector is within 0.001 of 1 |
| TwoD.RandomInUnitCircle | src/math/vec/two_d.rs:182-190 | the rejection loop returns the first draw inside the unit circle, exactly when one exists |
| TwoD.ToVec3 | src/math/vec/two_d.rs:342-346 | the 3D vector has the same x and y, z = 0, marker `Unknown` and the same squared length |
| TwoD.Vec2Var.constructor | src/math/vec/two_d.rs:127-130 | a mutable 2D vector starts at the given value |
| TwoD.Vec2Var.AddAssign | src/math/vec/two_d.rs:237-241 | `+=` stores the sum |
| TwoD.Vec2Var.SubAssign | src/math/vec/two_d.rs:253-258 | `-=` stores the difference |
| TwoD.Vec2Var.MulAssign | src/math/vec/two_d.rs:283-287 | `*=` stores the scaled vector |
| TwoD.Vec2Var.DivAssign | src/math/vec/two_d.rs:304-308 | `/=` by non-zero stores the quotient |
| Rays.New | src/math/ray.rs:11-25 | `origin()` and `direction()` return exactly the constructor arguments |
| Rays.At | src/math/ray.rs:15-17 | a point along the ray carries the `Unknown` marker |
| Rays.AtFacts | src/math/ray.rs:15-17 | `at(0)` is the origin, `at(t) - origin == direction * t`, and moving s then t equals moving s + t |
| Colors.Intensity | src/math/color.rs:84-99 | the intensity interval is `[0, 1]` and contains exactly those values |
| Colors.IsValidIff | src/math/color.rs:94-99 | a colour is valid exactly when every channel lies in `[0, 1]` |
| Colors.Black | src/math/color.rs:28-36 | black is (0, 0, 0) and valid |
| Colors.White | src/math/color.rs:38-46 | white is (1, 1, 1) and valid |
| Colors.Quantize | src/math/color.rs:84-92 | a channel below 0 gives 0, above 1 gives 255, and otherwise is `channel * 255` truncated |
| Colors.AsRgbInts | src/math/color.rs:84-92 | three bytes, each the quantised channel, so each in `0..=255` |
| Colors.AsUnclampedRgbInts | src/math/color.rs:76-82 | three `u32`s, each the channel times 255 cast to `u32` |
| Colors.ChannelAgrees | src/math/color.rs:76-92 | on `[0, 1]` the clamped and unclamped quantisations agree |
| Colors.RgbIntsOfValid | src/math/color.rs:76-92 | for a valid colour clamping has no effect; black maps to `[0,0,0]` and white to `[255,255,255]` |
| Colors.LinearToGamma | src/math/color.rs:101-107 | the result is 0 for non-positive input and otherwise a positive value whose square is at least the input; never negative and at most 1 on `[0, 1]` |
| Colors.LinearToGammaUpper | src/math/color.rs:101-107 | for a positive input the square of the result is at most the input times `1 + SqrtSlack`, so the result is its square root up to that error |
| Colors.AsGammaCorrected | src/math/color.rs:66-74 | each channel is gamma-corrected independently |
| Colors.GammaKeepsValid | src/math/color.rs:66-74 | gamma correction of a colour with channels at most 1 is valid |
| Colors.ReadField | src/math/color.rs:128-131 | reading one number back consumes input |
| Colors.ReadRgbLine | src/math/color.rs:128-131 | reading one `"r g b\n"` line back yields three numbers |
| Colors.RgbLineRoundTrip | src/math/color.rs:128-131 | the `"r g b\n"` line `write_color` emits reads back as the same three numbers, leaving what follows |
| Colors.ReadFieldRoundTrip | src/math/color.rs:128-131 | a decimal number followed by its separator reads back as that number |
| Colors.WriteColor | src/math/color.rs:128-131 | the line `write_color` emits for a colour reads back as its three quantised channels |
| Colors.MulKeepsValid | src/camera.rs:349 | attenuating a valid colour by a valid colour gives a valid colour |
| Decimal.NatToString | src/math/color.rs:128-131 | the decimal text of a number is non-empty, all digits, without leading zero |
| Decimal.NatToStringRoundTrip | src/math/color.rs:128-131 | the decimal text has the number's value |
| Decimal.NatToStringInjective | src/math/color.rs:128-131 | different numbers print differently |
| Decimal.ReadNatRoundTrip | src/math/color.rs:128-131 | a printed number reads back as itself, leaving the non-digit rest |
| Decimal.ReadNat | src/math/color.rs:128-131 | reading a number succeeds exactly on a leading digit and consumes input |
| Onb.HelperAxis | src/onb.rs:16-21 | the helper axis is (0,1,0) when `|w.x| > 0.9` and (1,0,0) otherwise, and is `Normalized` |
| Onb.HelperAxisIsNormalized | src/onb.rs:16-21 | the helper axis equals `as_unit` of the literal axis, as the source computes it |
| Onb.HelperNotParallel | src/onb.rs:16-24 | for w longer than 0.9, `w × a` is not zero, so `v` is well defined |
| Onb.NewBasis | src/onb.rs:13-28 | `w = as_unit(vec)`, `v = as_unit(w × a)` for the helper axis a, `u = w × v`, the markers, and the three pairwise orthogonal |
| Onb.BasisIsOrthonormal | src/onb.rs:13-28 | for a non-zero reference the basis is orthonormal: pairwise orthogonal, `w` and `v` of unit length up to `SqrtSlack` and `u` up to twice that |
| Onb.UnitBasis | src/onb.rs:23-25 | for a unit `w`, `v` and `u = w × v` are unit up to the square root's error |
| Onb.UnitCross | src/onb.rs:25 | the cross product of two orthogonal near-unit vectors is near-unit |
| Onb.BasisOrthogonal | src/onb.rs:23-25 | `v` is orthogonal to `w`, and `u = w × v` to both |
| Onb.NormalizedKeepsOrthogonal | src/onb.rs:23-24 | normalising keeps orthogonality |
| Onb.Transform | src/onb.rs:43-46 | the transformed vector is `Unknown` |
| Onb.TransformAxes | src/onb.rs:43-46 | the unit axes map to `u`, `v` and `w` |
| Onb.TransformLinear | src/onb.rs:43-46 | `transform` is additive and homogeneous |
| Onb.TransformAdditive | src/onb.rs:43-46 | `transform` distributes over a sum |
| Onb.TransformHomogeneous | src/onb.rs:43-46 | `transform` commutes with scaling |
| Hittables.FromIncomingRay | src/hittable.rs:33-49 | `front_face` holds iff the ray meets the outward normal head-on; the stored normal is the outward one or its negation accordingly, never points along the ray, and keeps its marker; point, t and material are stored as given |
| Hittables.HitRecordVar.constructor | src/hittable.rs:33-49 | a mutable record starts as given |
| Hittables.HitRecordVar.SetFaceNormal | src/hittable.rs:51-59 | the record becomes what `from_incoming_ray` gives for the same ray and normal; point, t and material are unchanged |
| Hittables.NewSphere | src/hittable.rs:73-80 | the sphere stores centre, radius and material as given |
| Hittables.RootsOrdered | src/hittable.rs:94-100 | both roots are finite exactly for a non-zero direction, and then the near root is at most the far one |
| Hittables.OutwardNormal | src/hittable.rs:106-107 | the outward normal is `Normalized` and, scaled by the radius, is the vector from centre to point |
| Hittables.HitAt | src/hittable.rs:105-114 | the record at a root has that t, the point along the ray, the sphere's material, and the front-face rule |
| Hittables.SphereHitAsWritten | src/hittable.rs:83-115 | as written: a miss on a negative discriminant; the near root when it is inside `ray_t`; otherwise a hit iff the far root is inside, yet always reported at the near root |
| Hittables.SphereHit | src/hittable.rs:83-115 | as intended: a miss on a negative discriminant; a reported t is strictly inside `ray_t` and is one of the roots; the near root wins when inside, the far root otherwise |
| Hittables.SphereHitAgreement | src/hittable.rs:96-108 | the two versions agree unless only the far root is inside `ray_t` |
| Hittables.ShadowedRootReported | src/hittable.rs:97-108 | when only the far root is inside, the code as written reports the near root, which lies outside `ray_t`; the intended version reports the far root |
| Hittables.SphereShadowingExample | src/hittable.rs:97-108 | a unit sphere at (2,0,0), a ray from the origin along x and `ray_t = (2, 10)`: as written the hit is at t = 1, outside the interval; intended t = 3 |
| Hittables.RootsOneAndThree | src/hittable.rs:97-108 | with roots 1 and 3 and `ray_t = (2, 10)` the two versions report t = 1 and t = 3 |
| Hittables.ExampleQuadratic | src/hittable.rs:84-89 | the concrete sphere and ray give a = 1, h = 2 and discriminant 1 |
| Hittables.UnitRoots | src/hittable.rs:94-100 | with a = 1, h = 2 and discriminant 1 the roots are 1 and 3 |
| Hittables.ScanIsLastReport | src/hittable.rs:136-149 | the closest-hit scan returns the last record reported during the scan, or its starting value when none is |
| Hittables.ReportsShrink | src/hittable.rs:136-149 | every reported t lies inside the current interval and each is strictly closer than the one before: `closest_dist` only decreases |
| Hittables.ClosestHitFacts | src/hittable.rs:136-149 | the scan returns None exactly when nothing reported, and otherwise a t strictly inside `ray_t` and at most every reported t; an empty list gives None |
| Hittables.HittableVec.constructor | src/hittable.rs:124-128 | a new list is empty |
| Hittables.HittableVec.Add | src/hittable.rs:130-133 | `add` appends, keeping earlier objects in order |
| Hittables.HittableVec.Hit | src/hittable.rs:136-149 | the loop computes the closest-hit scan over the objects in order |
| BoundingBoxes.Pad | src/boundingbox.rs:14-31 | padding keeps every point of the axis, leaves an axis at least `DELTA` = 0.0001 wide unchanged, and makes a finite ordered axis at least `DELTA` wide |
| BoundingBoxes.New | src/boundingbox.rs:14-31 | each axis of the new box is its given interval padded: widened only when narrower than `DELTA` |
| BoundingBoxes.Empty | src/boundingbox.rs:33-40 | the empty box contains no point |
| BoundingBoxes.Universe | src/boundingbox.rs:42-49 | the universe box contains every point |
| BoundingBoxes.BoundedBy | src/boundingbox.rs:51-56 | the box spanned by two points contains both |
| BoundingBoxes.SurroundingContains | src/boundingbox.rs:58-63 | the surrounding interval contains everything either interval contains |
| BoundingBoxes.SurroundingBoxContains | src/boundingbox.rs:58-63 | the axis-wise surrounding box contains every point of either box |
| BoundingBoxes.Extending | src/boundingbox.rs:58-63 | the merged box contains every point of both boxes |
| BoundingBoxes.ExtendingOpt | src/boundingbox.rs:65-73 | two Nones give `empty()`; a single box gives `new` of its axes; the result contains every point of each given box |
| BoundingBoxes.Longest | src/boundingbox.rs:75-94 | the fold result is (X, 0) or a positive axis size, is not exceeded by any axis, and beats every earlier axis strictly |
| BoundingBoxes.FoldIsLongest | src/boundingbox.rs:75-94 | the three-step fold ends with a size no axis exceeds |
| BoundingBoxes.LongestAxis | src/boundingbox.rs:75-94 | the chosen axis is X or has a positive (so non-NaN) size, is at least as long as any positive-size axis, ties go to the earlier axis, and a box with no positive size gives X |
| BoundingBoxes.OverlapShrinks | src/boundingbox.rs:104-110 | one slab step keeps the running interval ordered and inside its previous extent |
| BoundingBoxes.SlabShrinks | src/boundingbox.rs:96-113 | the running interval of the slab test only shrinks across the axes |
| BoundingBoxes.OverlapNeedsOrdered | src/boundingbox.rs:104-110 | one slab step succeeds only on an ordered interval |
| BoundingBoxes.SlabHits | src/boundingbox.rs:96-113 | the slab test over X, Y, Z; a box is never hit over an empty or inverted NaN-free interval |
| BoundingBoxes.Hit | src/boundingbox.rs:96-113 | the loop over axes returns the slab test's answer, false as soon as one axis fails to overlap |
| BoundingBoxes.UniverseAlwaysHit | src/boundingbox.rs:42-49 | every ray with an ordered interval hits the universe box |
| Bvh.Members | src/boundingbox.rs:141-145 | a tree holds at least one object |
| Bvh.Key | src/boundingbox.rs:177-185 | the sort key of an object with a box is a comparable number |
| Bvh.CmpBox | src/boundingbox.rs:177-185 | `cmp_box` orders two objects by the start of their boxes on the given axis: Less, Equal or Greater exactly as the starts compare |
| Bvh.BoxFoldContains | src/boundingbox.rs:150-153 | the folded box contains every point of every object's box |
| Bvh.FoldBoxes | src/boundingbox.rs:150-153 | the loop merging object boxes computes the box fold |
| Bvh.Insert | src/boundingbox.rs:166 | one insertion step extends the sorted prefix and keeps the objects |
| Bvh.SortByStart | src/boundingbox.rs:166 | sorting in place by box start leaves the array sorted and a permutation of its input |
| Bvh.SortedCopy | src/boundingbox.rs:164-166 | the sorted copy is sorted by key, a permutation of the input, of the same length |
| Bvh.Build | src/boundingbox.rs:148-175 | for non-empty input: the node's box is the fold of all boxes; one object fills both children; two keep input order; three or more are sorted on the longest axis, every left object starting no later than every right one; the tree holds exactly the input objects, and without repeats holds each once, `len/2` of them on the left and the rest on the right |
| Bvh.OneMember | src/boundingbox.rs:158 | a single object used as both children makes a tree over exactly that object |
| Bvh.TwoMembers | src/boundingbox.rs:159-160 | two objects as left and right children keep input order |
| Bvh.HalvesKeyed | src/boundingbox.rs:167-168 | both halves of the split consist of objects with boxes |
| Bvh.SplitMembers | src/boundingbox.rs:167-171 | two subtrees over the halves make a tree over the whole input |
| Bvh.SplitKeys | src/boundingbox.rs:164-171 | every key in the left half is at most every key in the right half |
| Bvh.SplitMultiset | src/boundingbox.rs:164-171 | the multiset of a split tree's objects is the input multiset, with `mid` objects on the left and the rest on the right |
| Bvh.HalvesNoRepeats | src/boundingbox.rs:167-168 | halves of a repetition-free sequence are repetition-free and disjoint |
| Bvh.BvhHit | src/boundingbox.rs:188-200 | `BVHNode::hit`: nothing when the box is missed, else the left child over `ray_t`, the right child over `ray_t` cut at the left hit, the right hit winning |
| Bvh.BvhHitInside | src/boundingbox.rs:188-200 | a BVH hit lies inside `ray_t`; when the box is hit and the left child hits, the node hits no farther than the left hit |
| Bvh.RespectsSplit | src/boundingbox.rs:188-200 | objects that respect their interval still do when the list is split |
| Bvh.ScanAppend | src/hittable.rs:136-149 | scanning a concatenation is scanning the second part from where the first left off |
| Bvh.BvhIsScan | src/boundingbox.rs:188-200 | for every tree whose boxes are sound for the ray (a node's box passes the slab test over every interval in which one of its objects reports a hit), traversal gives the same answer as the closest-hit scan of `HittableVec` over the leaves |
| Bvh.NodeIsScan | src/boundingbox.rs:188-200 | at a node whose box is hit, children that answer as the scan of their leaves (the right one over the interval the left leaves narrow to) make the node answer as the scan of all its leaves |
| Bvh.ScanAllMiss | src/hittable.rs:136-149 | a scan in which no object reports returns what it started with |
| Bvh.NoPruningSound | src/boundingbox.rs:188-200 | over objects that report only inside their interval, a tree whose boxes pass every ordered interval has sound boxes |
| Bvh.NoPruningIsScan | src/boundingbox.rs:188-200 | such a never-pruning tree answers as the linear scan |
| Bvh.UniverseNoPruning | src/boundingbox.rs:42-49 | a tree boxed by the universe never prunes, so never-pruning trees exist at every shape |
| Materials.LambertianNew | src/material.rs:18-21 | the material stores the albedo |
| Materials.LambertianScatter | src/material.rs:25-41 | Lambertian always scatters, with attenuation the albedo, from the hit point, along normal + draw, or along the normal when that sum is near zero |
| Materials.LambertianDirectionNotNearZero | src/material.rs:29-31 | for a unit normal the scattered direction is never near zero |
| Materials.UnitNotNearZero | src/material.rs:29-31 | a unit vector is not near zero |
| Materials.MetalNew | src/material.rs:49-51 | `Metal::new` has fuzz 0 |
| Materials.MetalWithFuzz | src/material.rs:53-61 | `with_fuzz` stores albedo and fuzz, and demands 0 ≤ fuzz ≤ 1 |
| Materials.MetalDirection | src/material.rs:65-68 | the perturbed direction is the unit reflection plus fuzz times the draw |
| Materials.MetalScatter | src/material.rs:64-79 | metal absorbs exactly when the perturbed direction has negative dot with the normal; otherwise attenuation is the albedo and the ray leaves the hit point along that direction |
| Materials.ReflectAlongNormal | src/material.rs:65-66 | reflection about a unit normal flips the normal component |
| Materials.MirrorAlwaysReflects | src/material.rs:64-79 | a fuzz-free metal hit from the front always scatters |
| Materials.UnitKeepsSide | src/material.rs:65-66 | normalising keeps a vector on its side of the surface |
| Materials.ZeroFuzzDirection | src/material.rs:65-68 | with fuzz 0 the draw has no effect |
| Materials.Scatter | src/material.rs:9 | dispatch: attenuation is the albedo and the ray starts at the hit point; Lambertian always scatters; metal follows its absorption rule |
| Textures.SolidColorNew | src/texture.rs:19-28 | a solid texture returns its albedo, ignoring u, v and the point |
| Textures.CheckerboardNew | src/texture.rs:44-46 | the checkerboard stores scale and both sub-textures |
| Textures.CheckerboardSolid | src/texture.rs:48-55 | `solid(s, a, b)` evaluates to `a` on even tiles and `b` on odd tiles |
| Textures.FloorToI32 | src/texture.rs:59-63 | an in-range floor is kept exactly by the cast |
| Textures.IsEven | src/texture.rs:58-70 | the tile is even exactly when the plain sum of the three layer indices is even: the i32 wrap-around never changes the parity |
| Textures.Value | src/texture.rs:25-28 | solid returns its albedo; a checkerboard delegates to `even` on even tiles and to `odd` on odd ones |
| Textures.LayerIsCell | src/texture.rs:59-61 | the cast layer index equals the mathematical tile index when it fits in `i32` |
| Textures.IsEvenIffCellSumEven | src/texture.rs:58-70 | a point is on an even tile iff the sum of its three tile indices is even |
| Textures.CellShift | src/texture.rs:59-61 | moving k scales along an axis moves the tile index by k |
| Textures.ShiftX | src/texture.rs:58-70 | the shifted point differs only in x |
| Textures.ShiftKeepsOrFlipsTile | src/texture.rs:58-70 | shifting by `2*scale` along x keeps the tile parity; shifting by `scale` flips it |
| Textures.CheckerboardPicksOne | src/texture.rs:65-68 | a checkerboard value is always the even or the odd sub-texture's value |
| Pdfs.SphereValueConstant | src/pdf.rs:11-13 | the sphere density is the positive constant `1/(4π)` for every direction |
| Pdfs.Value | src/pdf.rs:11-13 | the sphere and cosine densities are never negative; a mixture is the weighted sum of its parts' values |
| Pdfs.CosinePdfNew | src/pdf.rs:23-26 | the cosine density is built on the basis of `w` |
| Pdfs.CosineValueNonNegative | src/pdf.rs:29-32 | the cosine density is never negative, and is zero for directions not above the surface |
| Pdfs.Weights | src/pdf.rs:85-90 | the weights are the second components of the factors, in order |
| Pdfs.SumNonNegative | src/pdf.rs:85-90 | a sum of non-negative numbers is non-negative |
| Pdfs.ValueNonNegative | src/pdf.rs:85-90 | with non-negative weights everywhere in the tree, every density value is non-negative |
| Pdfs.MixedNew | src/pdf.rs:67-72 | `new` demands weights summing to 1 and keeps the factors |
| Pdfs.Equal | src/pdf.rs:74-82 | `equal` gives each of the n components weight `1/n` |
| Pdfs.SumConstant | src/pdf.rs:74-82 | n equal weights w sum to `n * w` |
| Pdfs.EqualWeightsSumToOne | src/pdf.rs:74-82 | the weights of `equal` over n ≥ 1 components sum to 1, so it meets `new`'s demand |
| Pdfs.PickAsWritten | src/pdf.rs:92-103 | as written: the first component whose running total is below the draw; None when there is none |
| Pdfs.GenerateAsWritten | src/pdf.rs:92-103 | the loop as written computes `PickAsWritten` |
| Pdfs.AsWrittenUnreachable | src/pdf.rs:97-101 | as written, a draw at most the first weight reaches `unreachable!()` |
| Pdfs.HalfAndHalfExample | src/pdf.rs:97-101 | with weights [0.5, 0.5] and draw 0.25 the code as written finds nothing, and the intended rule picks component 0 |
| Pdfs.Pick | src/pdf.rs:92-103 | as intended: the first component whose running total exceeds the draw |
| Pdfs.Generate | src/pdf.rs:92-103 | the corrected loop computes `Pick` |
| Pdfs.SumPrefixMonotone | src/pdf.rs:92-103 | running totals of non-negative weights never decrease |
| Pdfs.PickSelectsSlot | src/pdf.rs:92-103 | with weights summing to 1 and a draw in `[0, 1)`, the intended rule always picks a component, namely the one whose slot `[total before, total through)` holds the draw |
| Cameras.ToRadians | src/camera.rs:114-121 | degrees to radians keeps the sign |
| Cameras.ToRadiansMonotone | src/camera.rs:114-140 | degrees to radians is strictly increasing |
| Cameras.HeightFor | src/camera.rs:63-77 | the height is `width / aspect_ratio` rounded to nearest; a negative ratio gives 0 |
| Cameras.CameraBuilder.constructor | src/camera.rs:150-169 | the default builder has no errors, 400×200 pixels, a 90° field of view, square antialiasing with 10 samples, depth 10, the camera at the origin looking down −z, up = +y, no defocus, focal length 1 |
| Cameras.CameraBuilder.AddError | src/camera.rs:42-46 | appends the message exactly when the condition holds, changing nothing else |
| Cameras.CameraBuilder.Dimensions | src/camera.rs:48-61 | logs one error per side ≤ 1, width first, and stores both values regardless |
| Cameras.CameraBuilder.WithAspectRatio | src/camera.rs:63-77 | logs for width ≤ 1 and for a ratio outside `[0.1, 100]`; stores the width and the rounded height |
| Cameras.CameraBuilder.SetMaxDepth | src/camera.rs:79-86 | logs iff depth < 1 and stores it |
| Cameras.CameraBuilder.Antialias | src/camera.rs:88-98 | logs iff samples < 1 and stores the kind and count |
| Cameras.CameraBuilder.CameraCenter | src/camera.rs:100-103 | stores the centre and never logs |
| Cameras.CameraBuilder.SetFocalLength | src/camera.rs:105-112 | logs iff length ≤ 0 and stores it |
| Cameras.CameraBuilder.SetVfov | src/camera.rs:114-121 | logs iff the angle is outside `[0.01, 360)` and stores it in radians |
| Cameras.CameraBuilder.CameraTarget | src/camera.rs:123-126 | stores the target and never logs |
| Cameras.CameraBuilder.Vup | src/camera.rs:128-131 | stores `as_unit` of the vector and never logs |
| Cameras.CameraBuilder.SetDefocusAngle | src/camera.rs:133-140 | logs iff the angle is outside `[0, 180)` and stores it in radians |
| Cameras.CameraBuilder.Build | src/camera.rs:142-148 | fails exactly when an error was logged, returning all of them in call order; on success the camera has the configured settings, width > 1, depth ≥ 1, samples ≥ 1 and a sample scale `1/samples` in `(0, 1]` |
| Cameras.DefaultCamera | src/camera.rs:150-169 | building the default builder succeeds with the default settings |
| Cameras.ErrorsInCallOrder | src/camera.rs:42-46 | a depth of 0 then a focal length of −1 fail with exactly those two errors, in that order |
| Cameras.BounceRange | src/camera.rs:346 | bounces are searched on `[0.001, ∞)` |
| Cameras.YWithinUnit | src/camera.rs:355-356 | the y of a vector of length at most 1 lies in `[-1, 1]` |
| Cameras.UnitHeight | src/camera.rs:355-356 | the y of a unit direction lies in `[-1, 1]` |
| Cameras.SkyBlend | src/camera.rs:356-362 | for an intensity in `[0, 1]` the blend of white and sky blue is a valid colour with blue channel 1 |
| Cameras.Sky | src/camera.rs:354-362 | the sky colour is valid with blue 1 |
| Cameras.RayColor | src/camera.rs:340-363 | depth 0 gives black; a miss gives the sky; a hit whose material does not scatter gives black; each recursion uses depth − 1 |
| Cameras.RayColorValid | src/camera.rs:340-363 | with valid albedos everywhere, every ray colour is valid |
| Cameras.RayColorUsesDepthDraws | src/camera.rs:340-363 | the colour depends only on the draws for depths 1..depth |
| Cameras.LastBounceIsDark | src/camera.rs:340-352 | with one bounce left, any hit gives black |
| ConfigValues.Get | src/config.rs:271-284 | a lookup finds an entry exactly when the key is present, and returns that entry's value |
| ConfigValues.RequireValue | src/config.rs:271-284 | succeeds exactly when the key is present, with its value; otherwise fails naming `parent.key` as missing |
| ConfigValues.Leading | src/config.rs:135 | counts the leading characters to drop, stopping at the first to keep |
| ConfigValues.Trailing | src/config.rs:135 | counts the trailing characters to drop |
| ConfigValues.Trim | src/config.rs:135 | the result is the middle slice of the input, everything outside it is dropped, and its ends are kept characters |
| ConfigValues.TrimKeeps | src/config.rs:135 | a string whose ends are kept is unchanged by trimming |
| ConfigValues.TrimDropsFirst | src/config.rs:135 | a leading dropped character is removed |
| ConfigValues.HexDigitValue | src/config.rs:136 | a hex digit has a value below 16 |
| ConfigValues.HexDigits | src/config.rs:136 | a leading `+` sign is accepted and removed |
| ConfigValues.ParseHexU32 | src/config.rs:136-137 | hex parsing succeeds exactly on a non-empty run of hex digits whose value fits in `u32`, giving that value |
| ConfigValues.HexChar | src/config.rs:136 | the digit character for a value below 16 reads back as it |
| ConfigValues.HexString | src/config.rs:136 | the hex text of a number is a hex numeral |
| ConfigValues.HexStringValue | src/config.rs:136 | the hex text of a number has that value |
| ConfigValues.ParseHexRoundTrip | src/config.rs:136-137 | every `u32` printed in hex parses back to itself |
| ConfigValues.ParseColor | src/config.rs:132-145 | every accepted colour is valid, and only a string or an integer is accepted |
| ConfigValues.ParseColorCases | src/config.rs:132-145 | a string is trimmed of whitespace then `#` and parsed as hex, failing with the trimmed text; an integer in `u32` range is a hex colour and out of range is an error; any other value is an error naming the key |
| ConfigValues.ParseColorOfHexText | src/config.rs:132-145 | `"#"` followed by the hex text of n parses to `Color::hex(n)` |
| ConfigValues.ParseFloatlike | src/config.rs:147-156 | succeeds exactly on a float or an integer, giving its value; otherwise fails naming the key |
| ConfigValues.ParsePathbuf | src/config.rs:158-165 | succeeds exactly on a string, giving it unchanged |
| ConfigValues.Triple | src/config.rs:167-217 | a point or vector parses exactly from an array of three float-like elements, in array order; a non-array or a wrong length fails naming the key |
| ConfigValues.TripleRoundTrip | src/config.rs:167-217 | an array holding a vector's three coordinates parses back to it |
| ConfigValues.ParseTriple | src/config.rs:167-191 | the loop over the three elements computes `Triple` |
| ConfigValues.ParseArray | src/config.rs:219-226 | succeeds exactly on an array, giving its elements |
| ConfigValues.UpperChar | src/config.rs:299 | ASCII lower-case letters are upper-cased; all else is kept |
| ConfigValues.Upper | src/config.rs:299 | upper-casing is character by character |
| ConfigValues.UpperIgnoresCase | src/config.rs:299 | two names are equal ignoring ASCII case exactly when their upper-cased forms are equal |
| ConfigValues.ParseTextureName | src/config.rs:228-247 | succeeds exactly on the name of an already stored named texture; an unknown name and a non-string fail with different errors |
| ConfigValues.ParseMaterialName | src/config.rs:249-268 | succeeds exactly on the name of an already stored material; otherwise fails naming the key |
| Config.PushedKeeps | src/config.rs:95-100 | pushing anonymous textures keeps every key and every named texture, and adds only `Anonymous` ids above the old counter, at most one per texture |
| Config.PushedOne | src/config.rs:95-100 | pushing one texture stores it under `Anonymous(counter + 1)` |
| Config.PushedTwo | src/config.rs:317-343 | pushing two stores them under `Anonymous(counter + 1)` and `Anonymous(counter + 2)` |
| Config.TextureStorage.constructor | src/config.rs:82-84 | a new store is empty with counter 0 |
| Config.TextureStorage.GenId | src/config.rs:90-93 | ids increase strictly: each call returns the old counter plus one and becomes the counter |
| Config.TextureStorage.PushAnon | src/config.rs:95-100 | stores the texture under a fresh `Anonymous` id one above the old counter, absent before |
| Config.TextureStorage.PushNamed | src/config.rs:102-107 | stores the texture under `Named(key)`, replacing an earlier entry, and leaves the counter alone |
| Config.TextureStorage.ContainsNamedKey | src/config.rs:109-112 | true exactly when a texture is stored under that name |
| Config.TextureStorage.Get | src/config.rs:114-116 | finds the stored texture exactly when the id is present |
| Config.TextureKindOf | src/config.rs:299-366 | a texture type is recognised exactly when its upper-cased name is one of COLOR, SOLIDCOLOR, SOLID_COLOR, CHECKERBOARD, CHECKER, IMAGE |
| Config.MaterialKindOf | src/config.rs:403-472 | a material type is recognised exactly when its upper-cased name is one of the eleven aliases |
| Config.ObjectKindOf | src/config.rs:512-590 | an object type is recognised exactly when its upper-cased name is SPHERE, PARALLELOGRAM or DISC |
| Config.KindsIgnoreCase | src/config.rs:299-300 | names equal ignoring case select the same kind of texture, material and object |
| Config.TriangleRejected | src/config.rs:512-590 | "triangle" is not an accepted object type |
| Config.SolidTexture | src/config.rs:300-304 | a solid texture needs a `color` that parses, and stores it |
| Config.CheckerFields | src/config.rs:305-330 | a checkerboard needs a float-like `scale` and a `textures` array of exactly two values |
| Config.CheckerTexture | src/config.rs:305-343 | on success exactly two solid colours are pushed and the model refers to ids counter+1 and counter+2; a failure pushes at most one |
| Config.ImageTexture | src/config.rs:344-358 | an image model's path exists |
| Config.TextureParse | src/config.rs:286-370 | success needs a string `type` of a known kind; a missing or non-string type fails naming `type`; only a checkerboard pushes textures |
| Config.ParseTextureModel | src/config.rs:286-370 | the store gets exactly the pushed textures, the counter advances by their number, and the result is the specified one |
| Config.CheckerColors | src/config.rs:317-343 | on success exactly two solid colours are pushed and the checkerboard names ids counter+1 and counter+2; a failure pushes at most one |
| Config.CheckerColorsCases | src/config.rs:317-343 | a first colour that fails pushes nothing; a second that fails leaves the first pushed; two good colours give the checkerboard over both |
| Config.PushCheckerColors | src/config.rs:317-343 | the method reading and pushing the two colours changes the store exactly as `CheckerColors` specifies and returns its result, keeping the store valid |
| Config.ParseCheckerboard | src/config.rs:305-343 | the checkerboard branch pushes what `CheckerTexture` specifies and returns its result |
| Config.TextureRef | src/config.rs:228-247 | a texture reference is a `Named` id already stored |
| Config.ScaleFuzz | src/config.rs:417-419 | a fuzz above 1 is divided by 100; any other is kept |
| Config.ScaleFuzzRange | src/config.rs:417-419 | the scaled fuzz lies in `[0, 1]` exactly when the written fuzz lies in `[0, 100]` |
| Config.MetalMaterial | src/config.rs:410-421 | a metal has a valid albedo and the scaled float-like `fuzz` |
| Config.DielectricMaterial | src/config.rs:428-438 | a dielectric stores its float-like `refractive_index` |
| Config.ShortcutColor | src/config.rs:445-461 | the shortcut colour is the parsed `color`, scaled by `brightness` when that is given for a coloured light |
| Config.MaterialParse | src/config.rs:390-477 | success needs a string `type` of a known kind; a missing or non-string type fails naming `type` |
| Config.ParseMaterialModel | src/config.rs:390-477 | the store gets exactly the pushed textures and the result is the specified one, resolved against the named textures stored before |
| Config.MaterialRef | src/config.rs:518-522 | a material reference names a stored material |
| Config.VectorPair | src/config.rs:534-552 | the `vectors` field is an array of exactly two vectors |
| Config.ObjectParse | src/config.rs:498-592 | a parsed object refers to a stored material and is never a triangle; success needs a known string `type`, and a missing type fails with the key as the code writes it |
| Config.KeysSnoc | src/config.rs:645-656 | the keys of a growing table prefix grow by one |
| Config.NamedKeysKept | src/config.rs:657-670 | pushing anonymous textures does not change the set of named textures |
| Config.ReadTextures | src/config.rs:645-656 | the loop computes the texture fold `StoreTextures` over the table: it fails exactly when the fold does, with the same error, and otherwise reaches the fold's store; the names stored grow by exactly the table's keys |
| Config.ReadTexture | src/config.rs:645-656 | one turn of the texture loop changes the store exactly as `StoreTexture` specifies: a non-table entry, a parse error or an image texture's `todo!()` panic fails with that error, otherwise the parse's pushes and the texture under its name are stored |
| Config.ReadMaterials | src/config.rs:657-670 | the loop computes the material fold `StoreMaterials`: same success, same error, the fold's materials and store; the materials are keyed exactly by the table, each resolved with its fuzz in range, and the named textures are untouched |
| Config.ReadObjects | src/config.rs:672-688 | on success there is one object per array entry, each the parse of that entry at its index; a failure names an entry that fails |
| Config.FromTable | src/config.rs:627-689 | fails, in that order, when `textures` or `materials` is not a table or `objects` is not an array; otherwise it fails exactly when `Load` does, with the same error, and on success returns `Load`'s store, materials and objects: the named textures and the materials are keyed exactly by their tables, every material resolved with its fuzz in range, and object i is the parse of entry i |
| Config.StoreTexturesStops | src/config.rs:645-656 | once an entry fails, the texture loop fails with that error |
| Config.StoreTextureOk | src/config.rs:645-656 | one turn whose parse succeeds with an implemented texture stores its pushes and then the texture under its name |
| Config.StoreTexturesStep | src/config.rs:645-656 | after a successful prefix, one more entry is one more turn |
| Config.StoreTexturesNames | src/config.rs:645-656 | a successful read adds exactly the table's keys to the names stored |
| Config.StoreTexturesEntry | src/config.rs:645-656 | on success every entry is a table whose parse, at the counter reached before it, gives an implemented texture, and the last entry of each name is what is stored under it |
| Config.StoreTexturesFailure | src/config.rs:645-656 | a failed read fails at an entry after a successful prefix: a non-table, a parse error, or an image texture's `todo!()` panic, with that error |
| Config.StoreMaterialsStops | src/config.rs:657-670 | once an entry fails, the material loop fails with that error |
| Config.StoreMaterialOk | src/config.rs:657-670 | one turn whose parse succeeds with a fuzz in range stores its pushes and the material under its name |
| Config.StoreMaterialsStep | src/config.rs:657-670 | after a successful prefix, one more entry is one more turn |
| Config.StoreMaterialsNames | src/config.rs:657-670 | a successful read adds exactly the table's keys to the materials and leaves the named textures alone |
| Config.StoreMaterialsEntry | src/config.rs:657-670 | on success every entry is a table whose parse, against the textures stored before it, succeeds with a fuzz in range, and the last entry of each name is the stored material |
| Config.StoreMaterialsFailure | src/config.rs:657-670 | a failed read fails at an entry: a non-table, a parse error, or `with_fuzz`'s panic on a fuzz out of range |
| Config.ObjectsFromEntries | src/config.rs:672-688 | on success one object per entry, object i being the parse of entry i |
| Config.ObjectsFromFailure | src/config.rs:672-688 | a failed read fails at an entry that is not a table or does not parse, with that error |
| Config.ObjectsFromStops | src/config.rs:672-688 | once an entry fails, the object loop fails with that error |
| Config.LoadFacts | src/config.rs:627-689 | a successful load stores exactly the named textures and materials of its tables, one object per entry each the parse of that entry, and every object's material is stored |
| Config.NamedKeysPut | src/config.rs:102-107 | storing under a name adds that name to the named keys |
| Export.Pixel | src/export.rs:34-40 | every pixel is three channel values |
| Export.Pixels | src/export.rs:34-40 | one gamma-corrected, quantised pixel per colour, in order, each channel in `0..=255` |
| Export.ConcatSnoc | src/export.rs:34-40 | appending a line to the output appends its text |
| Export.LineTexts | src/export.rs:34-40 | one `"r g b\n"` text per pixel, in order |
| Export.MagicRoundTrip | src/export.rs:29-32 | the `P3` magic line reads back |
| Export.HeaderRoundTrip | src/export.rs:29-32 | the header `"P3\n{width} {height}\n255\n"` reads back as the width and height, leaving what follows |
| Export.MaxChannelText | src/export.rs:29-32 | the maximum channel value is written `255` |
| Export.ReadMany | src/export.rs:34-40 | reading n lines back gives n pixels |
| Export.ReadLines | src/export.rs:34-40 | reading n lines back gives n pixels |
| Export.ConcatReadsBack | src/export.rs:34-40 | when each text reads back as its own value, their concatenation reads back as the sequence of values |
| Export.LinesRoundTrip | src/export.rs:34-40 | the written pixel lines read back as the pixels, in order |
| Export.BodyRoundTrip | src/export.rs:34-40 | the body of a PPM file reads back as one pixel per colour, each channel in `0..=255` |
| Export.AppendText | src/export.rs:35-38 | writing one more line appends its text to what the lines before it wrote |
| Export.PpmFileRoundTrip | src/export.rs:29-40 | a whole PPM file reads back as its dimensions followed by the pixels of the colours |
| Export.PpmWriter.constructor | src/export.rs:13-15 | the writer starts with the given output |
| Export.PpmWriter.WriteHeader | src/export.rs:29-32 | appends exactly the header to the output |
| Export.PpmWriter.Write | src/export.rs:34-40 | appends exactly one line per colour, in order |
| Export.PpmWriter.WritePixels | src/export.rs:35-38 | the loop appends the lines of the pixels |
| Export.FlattenLayout | src/export.rs:79-84 | the flattened buffer has three entries per pixel, pixel i at `[3i, 3i+3)` |
| Export.FlattenBytes | src/export.rs:79-84 | every flattened entry is a byte |
| Export.BytesLayout | src/export.rs:79-84 | the PNG data buffer holds exactly three bytes per colour, colour i's pixel at `[3i, 3i+3)` |
| Export.PngWriter.constructor | src/export.rs:48-51 | a new PNG writer is waiting for its header and has written nothing |
| Export.PngWriter.WriteHeader | src/export.rs:64-75 | from waiting, the header moves the writer to ready with the given dimensions |
| Export.PngWriter.Write | src/export.rs:77-90 | in the ready state, writes one image whose data is the byte buffer of the colours |
| Export.Buffer | src/export.rs:79-84 | the loop building the buffer computes the byte layout of the colours |

## Left out

- IEEE 754 arithmetic is modelled as exact real arithmetic, with no rounding or overflow. NaN and infinities appear only as interval endpoints and ray distances, through `EReal`.
- RealMath.Sqrt is exact only up to a relative error: its square lies in `[x, x * (1 + SqrtSlack)]` rather than equalling `x`, except at 0 and 1. Unit lengths (Vectors.AsUnitIsUnit, TwoD.AsUnitIsUnit, Onb.BasisIsOrthonormal) are stated up to that error. `to_radians` and π are exact.
- Vectors.Normalize: a zero vector normalises to zero. In the source it normalises to NaN coordinates, since it divides by a zero length.
- Hittables.OutwardNormal: a zero radius gives the zero vector. In the source it gives NaN coordinates, since src/hittable.rs:106 divides 0 by 0.
- Vectors.Div and TwoD.Div demand a non-zero divisor, because real vectors cannot hold the infinities a division by zero gives.
- The helpers the source calls but does not define have conventional bodies and no claimed behaviour: `Interval::positive/surrounding/expand/overlap`, `Vec3::reflect/near_zero/random_unit_vector`, `Color::mul/from_vec3/hex/set_brightness`, and `Hittable::bounding_box`. `Ray4` is the same ray as `Ray3`, because time is ignored.
- src/math/point.rs is not part of this model, since the whole file is commented out. src/math/vec/normal.rs is the `marker` field. src/lib.rs and src/main.rs are not part of this model.
- The `rand` generators are left out. Every random draw is a parameter, and a rejection loop is given a finite sequence of candidate draws.
- Vectors.RandomInUnitSphere and TwoD.RandomInUnitCircle return `None` when no candidate qualifies. The source loops until one does, so the model covers finitely many draws only.
- `Camera::build` viewport geometry, `get_ray`, `sample_defocus_disk` and `render` are left out: floating-point trigonometry, randomness and output.
- Cameras.CameraBuilder.Build: the camera's derived viewport fields are not stated.
- Cameras.RayColor: how the attenuation combines with the bounced colour is stated only through Cameras.RayColorValid, because `Color::mul` is not defined in the source.
- Error messages are values naming the key and the problem, not formatted text.
- TOML text parsing is left out. Configuration input is a `ConfigValues.Value` tree.
- The image-file existence check is a `fileExists` parameter.
- `as_texture`, `as_material`, `as_hittable`, `as_world` and the `Rc` plumbing are left out. Textures and materials are stored as models. The two panics that `from_table` reaches through them, `as_texture`'s `todo!()` on an image texture and `Metal::with_fuzz` on a fuzz out of range, are the error `ConfigError.Panic`; a panic inside `as_hittable` or `as_world`, which run after `from_table`, is not part of this model.
- ConfigValues.ParseFloatlike: the lossy `i64` to `f64` conversion is exact.
- Config.TextureStorage.GenId: the `usize` counter does not wrap.
- Casts.WrapI32 is the release-build behaviour of the i32 tile sum at src/texture.rs:63. A debug build panics on that overflow instead.
- Config.ObjectParse: the error for a missing object `type` uses the key `config.materials.{index}.type`, as the code writes it.
- Pdfs: `HittablePDF` is left out, because `Hittable::pdf_value/random` are not defined in the source. `generate` returns the index of the chosen component rather than a direction drawn from it.
- Bvh.SortByStart is an insertion sort. The source's `sort_unstable_by` may order equal keys differently; the model claims only sortedness and permutation.
- Bvh.Build demands non-empty input. The source recurses without end on an empty vector.
- Bvh.Build: for three or more objects it demands that every object have a box whose start is not NaN on all three axes. `cmp_box` panics (the `unwrap` on a missing box, the `expect` on a NaN start) only for the axis a node actually sorts on, so the source also builds some lists the model rejects, for instance one whose only NaN start lies on an axis no node of three or more sorts on. Which axes are compared depends on how `sort_unstable_by` orders equal keys, which the model leaves open, and those panics are preconditions rather than errors.
- Bvh.Build states the leaf multiset only for input without repeated objects. A one-object node uses its object as both children, so a two-object node holding the same object twice cannot be told apart from it.
- Bvh.BvhIsScan: agreement with the linear scan is proved for trees whose boxes are sound for the ray. That the boxes `Bvh.Build` folds from `bounding_box` are sound, i.e. that a point hit inside an object's box passes the slab test, is not proved, because `Hittable::bounding_box` is not defined in the source.
- PNG encoding internals (the `png` crate) and `io::Write` errors are left out. Export.PngWriter.Write records the byte buffer handed to the encoder.
- Export.PngWriter.WriteHeader demands the waiting state, and Export.PngWriter.Write the ready state. The source panics otherwise.
- The intermediate `Waiting(None)` state that a failed header write leaves behind is not modelled.

## Findings

| source | as written | input that shows it | evidently intended | confidence | as-written member | corrected member |
|---|---|---|---|---|---|---|
| src/hittable.rs:97-108 | the inner `let root` shadows the outer binding, so when only the far root is inside `ray_t` the hit is still recorded at the near root, outside `ray_t` | unit sphere at (2,0,0), ray from the origin along +x, `ray_t = (2, 10)`: roots 1 and 3, reported t = 1 | report the far root, t = 3 | not executed | Hittables.SphereHitAsWritten (shown by Hittables.SphereShadowingExample) | Hittables.SphereHit (Hittables.ShadowedRootReported) |
| src/pdf.rs:92-103 | the loop picks the first component whose running total is below the draw (`sum < rand`), so a draw at most the first weight reaches `unreachable!()` | weights [0.5, 0.5], draw 0.25 | pick the first component whose running total exceeds the draw, which always exists for a draw in `[0, 1)` | not executed | Pdfs.PickAsWritten (shown by Pdfs.HalfAndHalfExample) | Pdfs.Pick (Pdfs.PickSelectsSlot) |
