/**
 * Axis-aligned bounding boxes (src/boundingbox.rs): one interval per axis, padded so no
 * axis is thinner than `DELTA`, merged by taking the surrounding intervals, and tested
 * against a ray by the slab method.
 */
module BoundingBoxes {
  import opened Wrappers
  import opened Intervals
  import opened Axes
  import opened Vectors
  import opened Rays

  datatype BoundingBox3 = BoundingBox3(x: Interval, y: Interval, z: Interval)

  /** `Index<Axis> for BoundingBox3`: the interval along an axis. */
  function Index(b: BoundingBox3, a: Axis): Interval
  {
    match a
    case X => b.x
    case Y => b.y
    case Z => b.z
  }

  /** The coordinate of a vector along an axis (indexing a vector by an axis). */
  function Component(v: Vec3, a: Axis): real
  {
    match a
    case X => v.x
    case Y => v.y
    case Z => v.z
  }

  /** A point lies in a box when each coordinate lies in the interval of its axis. */
  predicate ContainsPoint(b: BoundingBox3, p: Point3)
  {
    Contains(b.x, p.x) && Contains(b.y, p.y) && Contains(b.z, p.z)
  }

  /** `DELTA`, the narrowest width any axis of a box may have. */
  const Delta: real := 0.0001

  /**
   * What padding promises about an interval `r` made from `i`: it holds every point `i`
   * holds, it is `i` itself when `i` was already `DELTA` wide, and a finite ordered `i`
   * ends up at least `DELTA` wide.
   */
  ghost predicate Padded(i: Interval, r: Interval)
  {
    (forall t: real :: Contains(i, t) ==> Contains(r, t)) &&
    (!Lt(Size(i), Finite(Delta)) ==> r == i) &&
    (i.start.Finite? && i.end.Finite? && Le(i.start, i.end) ==> !Lt(Size(r), Finite(Delta)))
  }

  /** The `expand` closure of `BoundingBox3::new`: widens an axis narrower than `DELTA` by `DELTA`. */
  function Pad(i: Interval): (r: Interval)
    ensures Padded(i, r)
  {
    if Lt(Size(i), Finite(Delta)) then Expand(i, Delta) else i
  }

  /** `BoundingBox3::new`: each axis is padded on its own. */
  function New(x: Interval, y: Interval, z: Interval): (b: BoundingBox3)
    ensures forall a: Axis :: Padded(Index(BoundingBox3(x, y, z), a), Index(b, a))
  {
    BoundingBox3(Pad(x), Pad(y), Pad(z))
  }

  /** `BoundingBox3::empty`: holds no point. */
  function Empty(): (b: BoundingBox3)
    ensures forall p: Point3 :: !ContainsPoint(b, p)
  {
    BoundingBox3(Intervals.Empty(), Intervals.Empty(), Intervals.Empty())
  }

  /** `BoundingBox3::universe`: holds every point. */
  function Universe(): (b: BoundingBox3)
    ensures forall p: Point3 :: ContainsPoint(b, p)
  {
    BoundingBox3(Intervals.Universe(), Intervals.Universe(), Intervals.Universe())
  }

  /** `BoundingBox3::bounded_by`: the box with the two points as opposite corners holds both. */
  function BoundedBy(a: Point3, b: Point3): (r: BoundingBox3)
    ensures ContainsPoint(r, a) && ContainsPoint(r, b)
  {
    New(Positive(Finite(a.x), Finite(b.x)), Positive(Finite(a.y), Finite(b.y)), Positive(Finite(a.z), Finite(b.z)))
  }

  /** The surrounding interval holds every point of either interval. */
  lemma SurroundingContains(i: Interval, j: Interval, t: real)
    requires Contains(i, t) || Contains(j, t)
    ensures Contains(Surrounding(i, j), t)
  {
  }

  /** Surrounding each axis gives a box holding every point of either box. */
  lemma SurroundingBoxContains(a: BoundingBox3, b: BoundingBox3, s: BoundingBox3)
    requires s == BoundingBox3(Surrounding(a.x, b.x), Surrounding(a.y, b.y), Surrounding(a.z, b.z))
    ensures forall p: Point3 :: ContainsPoint(a, p) || ContainsPoint(b, p) ==> ContainsPoint(s, p)
  {
    forall p: Point3 | ContainsPoint(a, p) || ContainsPoint(b, p)
      ensures ContainsPoint(s, p)
    {
      SurroundingContains(a.x, b.x, p.x);
      SurroundingContains(a.y, b.y, p.y);
      SurroundingContains(a.z, b.z, p.z);
    }
  }

  /** `BoundingBox3::extending`: a box holding every point of both boxes. */
  function Extending(a: BoundingBox3, b: BoundingBox3): (r: BoundingBox3)
    ensures forall p: Point3 :: ContainsPoint(a, p) || ContainsPoint(b, p) ==> ContainsPoint(r, p)
  {
    var s := BoundingBox3(Surrounding(a.x, b.x), Surrounding(a.y, b.y), Surrounding(a.z, b.z));
    SurroundingBoxContains(a, b, s);
    New(s.x, s.y, s.z)
  }

  /**
   * `BoundingBox3::extending_opt`: the empty box from no boxes, one box re-padded, or
   * the two boxes extended; the result holds every point of every box given.
   */
  function ExtendingOpt(a: Option<BoundingBox3>, b: Option<BoundingBox3>): (r: BoundingBox3)
    ensures a.None? && b.None? ==> r == Empty()
    ensures a.None? && b.Some? ==> r == New(b.value.x, b.value.y, b.value.z)
    ensures a.Some? && b.None? ==> r == New(a.value.x, a.value.y, a.value.z)
    ensures forall p: Point3 ::
      (a.Some? && ContainsPoint(a.value, p)) || (b.Some? && ContainsPoint(b.value, p)) ==> ContainsPoint(r, p)
  {
    match (a, b)
    case (None, None) => Empty()
    case (None, Some(b)) => New(b.x, b.y, b.z)
    case (Some(b), None) => New(b.x, b.y, b.z)
    case (Some(a), Some(b)) => Extending(a, b)
  }

  /** The size of a box along an axis. */
  function SizeAlong(b: BoundingBox3, a: Axis): EReal
  {
    Size(Index(b, a))
  }

  /** One step of the fold in `longest_axis`: a strictly larger size takes over. */
  function LongerOf(best: (Axis, EReal), next: (Axis, EReal)): (Axis, EReal)
  {
    if Lt(best.1, next.1) then next else best
  }

  /** The fold of `longest_axis` over `[(X, size x), (Y, size y), (Z, size z)]` from `(X, 0.0)`. */
  function Longest(b: BoundingBox3): (p: (Axis, EReal))
    ensures p == (X, Finite(0.0)) || (p.1 == SizeAlong(b, p.0) && Lt(Finite(0.0), p.1))
    ensures forall a: Axis :: !Lt(p.1, SizeAlong(b, a))
    ensures forall a: Axis :: Rank(a) < Rank(p.0) ==> !Le(p.1, SizeAlong(b, a))
  {
    var px := LongerOf((X, Finite(0.0)), (X, SizeAlong(b, X)));
    var py := LongerOf(px, (Y, SizeAlong(b, Y)));
    var pz := LongerOf(py, (Z, SizeAlong(b, Z)));
    FoldIsLongest(b, px, py, pz);
    pz
  }

  /** The running best of the fold only grows, so no axis beats the final one. */
  lemma FoldIsLongest(b: BoundingBox3, px: (Axis, EReal), py: (Axis, EReal), pz: (Axis, EReal))
    requires px == LongerOf((X, Finite(0.0)), (X, SizeAlong(b, X)))
    requires py == LongerOf(px, (Y, SizeAlong(b, Y))) && pz == LongerOf(py, (Z, SizeAlong(b, Z)))
    ensures forall a: Axis :: !Lt(pz.1, SizeAlong(b, a))
  {
    assert Le(px.1, py.1) && Le(py.1, pz.1);
    LeTrans(px.1, py.1, pz.1);
    if Lt(pz.1, SizeAlong(b, X)) {
      LtTrans(px.1, pz.1, SizeAlong(b, X));
    }
    if Lt(pz.1, SizeAlong(b, Y)) {
      LtTrans(py.1, pz.1, SizeAlong(b, Y));
    }
  }

  /**
   * `BoundingBox3::longest_axis`: no axis is longer than the one chosen, no earlier axis
   * is as long, and when no axis has a positive size (an empty box, say) the answer is X.
   */
  function LongestAxis(b: BoundingBox3): (a: Axis)
    ensures forall c: Axis :: Lt(Finite(0.0), SizeAlong(b, c)) ==> !Lt(SizeAlong(b, a), SizeAlong(b, c))
    ensures forall c: Axis :: Rank(c) < Rank(a) ==> !Le(SizeAlong(b, a), SizeAlong(b, c))
    ensures (forall c: Axis :: !Lt(Finite(0.0), SizeAlong(b, c))) ==> a == X
    ensures a == X || Lt(Finite(0.0), SizeAlong(b, a))
  {
    Longest(b).0
  }

  /** The distances at which the ray crosses the two planes of an axis, in ascending order. */
  function Crossing(b: BoundingBox3, ray: Ray3, a: Axis): Interval
  {
    var ax := Index(b, a);
    var adinv := Recip(Component(ray.direction, a));
    var t0 := MulE(Intervals.Sub(ax.start, Finite(Component(ray.origin, a))), adinv);
    var t1 := MulE(Intervals.Sub(ax.end, Finite(Component(ray.origin, a))), adinv);
    Positive(t0, t1)
  }

  /** One slab of the box test: the crossing interval of an axis intersected with the current interval. */
  function SlabStep(b: BoundingBox3, ray: Ray3, a: Axis, t: Interval): Option<Interval>
  {
    Overlap(Crossing(b, ray, a), t)
  }

  /** The slab test over the given axes in turn; it stops at the first axis with no overlap. */
  function Slab(b: BoundingBox3, ray: Ray3, axes: seq<Axis>, t: Interval): Option<Interval>
    decreases |axes|
  {
    if axes == [] then Some(t)
    else
      match SlabStep(b, ray, axes[0], t)
      case None => None
      case Some(n) => Slab(b, ray, axes[1..], n)
  }

  /** The interval `t` has no NaN end. */
  predicate Comparable(t: Interval)
  {
    t.start != NaN && t.end != NaN
  }

  /** Overlapping with a NaN-free interval keeps within it and leaves an ordered, NaN-free interval. */
  lemma OverlapShrinks(a: Interval, t: Interval)
    requires Comparable(t)
    ensures Overlap(a, t).Some? ==>
      Comparable(Overlap(a, t).value) && Le(Overlap(a, t).value.start, Overlap(a, t).value.end) &&
      forall x: real :: Contains(Overlap(a, t).value, x) ==> Contains(t, x) && (Comparable(a) ==> Contains(a, x))
  {
  }

  /**
   * The running interval of the slab test only shrinks: whatever the test ends with lies
   * within the interval it started from.
   */
  lemma {:induction false} SlabShrinks(b: BoundingBox3, ray: Ray3, axes: seq<Axis>, t: Interval)
    requires Comparable(t)
    ensures Slab(b, ray, axes, t).Some? ==>
      Comparable(Slab(b, ray, axes, t).value) &&
      forall x: real :: Contains(Slab(b, ray, axes, t).value, x) ==> Contains(t, x)
    decreases |axes|
  {
    if axes != [] {
      OverlapShrinks(Crossing(b, ray, axes[0]), t);
      match SlabStep(b, ray, axes[0], t)
      case None =>
      case Some(n) =>
        SlabShrinks(b, ray, axes[1..], n);
    }
  }

  /** Overlapping with a NaN-free interval succeeds only when that interval is ordered. */
  lemma OverlapNeedsOrdered(a: Interval, t: Interval)
    requires Comparable(t) && Overlap(a, t).Some?
    ensures Le(t.start, t.end)
  {
    var lo, hi := MaxE(a.start, t.start), Min(a.end, t.end);
    assert Le(t.start, lo) && Le(lo, hi) && Le(hi, t.end);
    LeTrans(t.start, lo, hi);
    LeTrans(t.start, hi, t.end);
  }

  /**
   * `BoundingBox3::hit` as a predicate: the slab test over X, Y and Z succeeds. No box is
   * ever hit over an empty or inverted NaN-free interval.
   */
  predicate SlabHits(b: BoundingBox3, ray: Ray3, rayT: Interval)
    ensures SlabHits(b, ray, rayT) && Comparable(rayT) ==> Le(rayT.start, rayT.end)
  {
    if Comparable(rayT) && SlabStep(b, ray, X, rayT).Some? then
      OverlapNeedsOrdered(Crossing(b, ray, X), rayT);
      Slab(b, ray, AllAxes, rayT).Some?
    else
      Slab(b, ray, AllAxes, rayT).Some?
  }

  /**
   * `BoundingBox3::hit`: narrows `ray_t` axis by axis, in the order `Axis::iter()` yields
   * them, and answers false at the first axis whose slab does not overlap it.
   */
  method Hit(b: BoundingBox3, ray: Ray3, rayT: Interval) returns (hit: bool)
    ensures hit == SlabHits(b, ray, rayT)
  {
    var t := rayT;
    var it := new IterAxis();
    while true
      invariant Slab(b, ray, it.Remaining(), t) == Slab(b, ray, AllAxes, rayT)
      decreases |it.Remaining()|
    {
      ghost var rest := it.Remaining();
      var axis := it.Next();
      if axis.None? {
        return true;
      }
      var ax := Index(b, axis.value);
      var adinv := Recip(Component(ray.direction, axis.value));
      var t0 := MulE(Intervals.Sub(ax.start, Finite(Component(ray.origin, axis.value))), adinv);
      var t1 := MulE(Intervals.Sub(ax.end, Finite(Component(ray.origin, axis.value))), adinv);
      var tInt := Positive(t0, t1);
      var overlap := Overlap(tInt, t);
      assert overlap == SlabStep(b, ray, rest[0], t);
      if overlap.None? {
        return false;
      }
      t := overlap.value;
    }
  }

  /** The universe box is hit by every ray over any ordered, NaN-free interval, whatever its direction. */
  lemma UniverseAlwaysHit(ray: Ray3, rayT: Interval)
    requires Comparable(rayT) && Le(rayT.start, rayT.end)
    ensures SlabHits(Universe(), ray, rayT)
  {
    var u := Universe();
    forall a: Axis, t: Interval | Comparable(t) && Le(t.start, t.end)
      ensures SlabStep(u, ray, a, t) == Some(t)
    {
      var d := Component(ray.direction, a);
      var adinv := Recip(d);
      assert adinv != NaN && adinv != Finite(0.0);
    }
    assert AllAxes[1..] == [Y, Z] && AllAxes[1..][1..] == [Z];
  }
}
