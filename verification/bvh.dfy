/**
 * The bounding-volume hierarchy (`BVHNode` in src/boundingbox.rs): built by sorting the
 * objects on the start of their boxes along the longest axis and splitting the list in
 * half, and searched left child first, then right child with the far bound pulled in.
 *
 * Objects have type `H`; `boxOf` is `Hittable::bounding_box` and `hit` is `Hittable::hit`.
 */
module Bvh {
  import opened Wrappers
  import opened Intervals
  import opened Axes
  import opened Vectors
  import opened Rays
  import opened Hittables
  import opened BoundingBoxes

  /**
   * A node's child is either an object or another node. A node built from a single object
   * holds that object as both children.
   */
  datatype Bvh<H> = Leaf(object: H) | Node(left: Bvh<H>, right: Bvh<H>, bbox: BoundingBox3)

  /** The objects at the leaves, left to right, a shared single object counted twice. */
  function Leaves<H>(t: Bvh<H>): seq<H>
  {
    match t
    case Leaf(o) => [o]
    case Node(l, r, _) => Leaves(l) + Leaves(r)
  }

  /** The objects of the tree, a node whose two leaves hold the same object counting it once. */
  ghost function Members<H>(t: Bvh<H>): (m: seq<H>)
    ensures |m| > 0
  {
    match t
    case Leaf(o) => [o]
    case Node(Leaf(a), Leaf(b), _) => if a == b then [a] else [a, b]
    case Node(l, r, _) => Members(l) + Members(r)
  }

  /** No object occurs twice. */
  ghost predicate NoRepeats<H>(objects: seq<H>)
  {
    forall o | o in multiset(objects) :: multiset(objects)[o] <= 1
  }

  /** `bounding_box()` is present and its starts are comparable (not NaN) on every axis. */
  predicate Keyed<H>(boxOf: H -> Option<BoundingBox3>, o: H)
  {
    boxOf(o).Some? && boxOf(o).value.x.start != NaN && boxOf(o).value.y.start != NaN &&
    boxOf(o).value.z.start != NaN
  }

  /** Every object of the list is keyed. */
  ghost predicate AllKeyed<H>(boxOf: H -> Option<BoundingBox3>, objects: seq<H>)
  {
    forall o | o in objects :: Keyed(boxOf, o)
  }

  /** The sort key: where the object's box starts along the axis (NaN when it has no box). */
  function Key<H>(boxOf: H -> Option<BoundingBox3>, axis: Axis, o: H): (k: EReal)
    ensures Keyed(boxOf, o) ==> k != NaN
  {
    if boxOf(o).Some? then Index(boxOf(o).value, axis).start else NaN
  }

  datatype Ordering = Less | Equal | Greater

  /**
   * `BVHNode::cmp_box`: compares the starts of two boxes along an axis; the `unwrap` and
   * the `expect` in the source are the requirement that both objects be keyed.
   */
  function CmpBox<H>(boxOf: H -> Option<BoundingBox3>, a: H, b: H, axis: Axis): (c: Ordering)
    requires Keyed(boxOf, a) && Keyed(boxOf, b)
    ensures c == Less <==> Lt(Key(boxOf, axis, a), Key(boxOf, axis, b))
    ensures c == Equal <==> Key(boxOf, axis, a) == Key(boxOf, axis, b)
    ensures c == Greater <==> Lt(Key(boxOf, axis, b), Key(boxOf, axis, a))
  {
    var ka, kb := Key(boxOf, axis, a), Key(boxOf, axis, b);
    if Lt(ka, kb) then Less else if ka == kb then Equal else Greater
  }

  /** The box the construction loop accumulates over the first objects, from the empty box. */
  function BoxFold<H>(boxOf: H -> Option<BoundingBox3>, objects: seq<H>): BoundingBox3
  {
    if objects == [] then BoundingBoxes.Empty()
    else ExtendingOpt(Some(BoxFold(boxOf, objects[..|objects| - 1])), boxOf(objects[|objects| - 1]))
  }

  /** The accumulated box holds every point of every object's box. */
  lemma {:induction false} BoxFoldContains<H>(boxOf: H -> Option<BoundingBox3>, objects: seq<H>, i: int, p: Point3)
    requires 0 <= i < |objects| && boxOf(objects[i]).Some? && ContainsPoint(boxOf(objects[i]).value, p)
    ensures ContainsPoint(BoxFold(boxOf, objects), p)
    decreases |objects|
  {
    var init := objects[..|objects| - 1];
    if i < |objects| - 1 {
      assert init[i] == objects[i];
      BoxFoldContains(boxOf, init, i, p);
    }
  }

  /** The keys along the list do not decrease. */
  ghost predicate SortedByKey<H>(boxOf: H -> Option<BoundingBox3>, axis: Axis, s: seq<H>)
  {
    forall k, l | 0 <= k < l < |s| :: Le(Key(boxOf, axis, s[k]), Key(boxOf, axis, s[l]))
  }

  /**
   * `sort_unstable_by(comparator)` on the object vector, by insertion: afterwards the keys
   * do not decrease and the vector holds the same objects.
   */
  method SortByStart<H>(a: array<H>, boxOf: H -> Option<BoundingBox3>, axis: Axis)
    requires forall k | 0 <= k < a.Length :: Keyed(boxOf, a[k])
    modifies a
    ensures SortedByKey(boxOf, axis, a[..])
    ensures multiset(a[..]) == multiset(old(a[..]))
  {
    var i := 0;
    while i < a.Length
      invariant 0 <= i <= a.Length
      invariant forall k | 0 <= k < a.Length :: Keyed(boxOf, a[k])
      invariant forall k, l | 0 <= k < l < i :: Le(Key(boxOf, axis, a[k]), Key(boxOf, axis, a[l]))
      invariant multiset(a[..]) == multiset(old(a[..]))
    {
      Insert(a, i, boxOf, axis);
      i := i + 1;
    }
  }

  /** One step of the sort: moves `a[i]` down into the sorted prefix `a[..i]`. */
  method Insert<H>(a: array<H>, i: int, boxOf: H -> Option<BoundingBox3>, axis: Axis)
    requires 0 <= i < a.Length
    requires forall k | 0 <= k < a.Length :: Keyed(boxOf, a[k])
    requires forall k, l | 0 <= k < l < i :: Le(Key(boxOf, axis, a[k]), Key(boxOf, axis, a[l]))
    modifies a
    ensures forall k | 0 <= k < a.Length :: Keyed(boxOf, a[k])
    ensures forall k, l | 0 <= k < l <= i :: Le(Key(boxOf, axis, a[k]), Key(boxOf, axis, a[l]))
    ensures multiset(a[..]) == multiset(old(a[..]))
  {
    var j := i;
    while j > 0 && CmpBox(boxOf, a[j - 1], a[j], axis) == Greater
      invariant 0 <= j <= i
      invariant forall k | 0 <= k < a.Length :: Keyed(boxOf, a[k])
      invariant SortedAround(boxOf, axis, a[..], i, j)
      invariant multiset(a[..]) == multiset(old(a[..]))
    {
      ghost var s := a[..];
      SwapDown(boxOf, axis, s, i, j);
      a[j - 1], a[j] := a[j], a[j - 1];
      assert a[..] == s[j - 1 := s[j]][j := s[j - 1]];
      j := j - 1;
    }
    forall k | 0 <= k < j
      ensures Le(Key(boxOf, axis, a[k]), Key(boxOf, axis, a[j]))
    {
      if k < j - 1 {
        LeTrans(Key(boxOf, axis, a[k]), Key(boxOf, axis, a[j - 1]), Key(boxOf, axis, a[j]));
      }
    }
  }

  /** The keys of `s[..i + 1]` do not decrease, except possibly into position `j`. */
  ghost predicate SortedAround<H>(boxOf: H -> Option<BoundingBox3>, axis: Axis, s: seq<H>, i: int, j: int)
    requires i < |s|
  {
    forall k, l | 0 <= k < l <= i && l != j :: Le(Key(boxOf, axis, s[k]), Key(boxOf, axis, s[l]))
  }

  /** Swapping an out-of-order `s[j - 1]` and `s[j]` moves the one exception down to `j - 1`. */
  lemma SwapDown<H>(boxOf: H -> Option<BoundingBox3>, axis: Axis, s: seq<H>, i: int, j: int)
    requires 0 < j <= i < |s|
    requires SortedAround(boxOf, axis, s, i, j)
    requires Lt(Key(boxOf, axis, s[j]), Key(boxOf, axis, s[j - 1]))
    ensures SortedAround(boxOf, axis, s[j - 1 := s[j]][j := s[j - 1]], i, j - 1)
  {
    var t := s[j - 1 := s[j]][j := s[j - 1]];
    forall k, l | 0 <= k < l <= i && l != j - 1
      ensures Le(Key(boxOf, axis, t[k]), Key(boxOf, axis, t[l]))
    {
      if l == j && k < j - 1 {
        assert t[k] == s[k] && t[l] == s[j - 1];
      } else if l > j && k == j {
        assert t[k] == s[j - 1] && t[l] == s[l];
      } else if l > j && k == j - 1 {
        assert t[k] == s[j] && t[l] == s[l];
      }
    }
  }

  /** The loop of `BVHNode::new` that folds the objects' boxes together. */
  method FoldBoxes<H>(boxOf: H -> Option<BoundingBox3>, objects: seq<H>) returns (bbox: BoundingBox3)
    ensures bbox == BoxFold(boxOf, objects)
  {
    bbox := BoundingBoxes.Empty();
    var i := 0;
    while i < |objects|
      invariant 0 <= i <= |objects|
      invariant bbox == BoxFold(boxOf, objects[..i])
    {
      assert objects[..i + 1][..i] == objects[..i];
      bbox := ExtendingOpt(Some(bbox), boxOf(objects[i]));
      i := i + 1;
    }
    assert objects[..i] == objects;
  }

  /** The object vector sorted on the start of the boxes along `axis`. */
  method SortedCopy<H>(boxOf: H -> Option<BoundingBox3>, objects: seq<H>, axis: Axis) returns (sorted: seq<H>)
    requires AllKeyed(boxOf, objects)
    ensures SortedByKey(boxOf, axis, sorted) && multiset(sorted) == multiset(objects)
    ensures |sorted| == |objects| && AllKeyed(boxOf, sorted)
  {
    var a := new H[|objects|](k requires 0 <= k < |objects| => objects[k]);
    assert a[..] == objects;
    SortByStart(a, boxOf, axis);
    sorted := a[..];
    forall o | o in sorted
      ensures Keyed(boxOf, o)
    {
      assert o in multiset(objects);
    }
  }

  /** The tree holds exactly the objects of the list. */
  ghost predicate SameObjects<H>(t: Bvh<H>, objects: seq<H>)
  {
    (forall o | o in Members(t) :: o in objects) && (forall o | o in objects :: o in Members(t))
  }

  /** Every object of `left` starts along `axis` no later than every object of `right`. */
  ghost predicate SplitOrdered<H>(boxOf: H -> Option<BoundingBox3>, axis: Axis, left: Bvh<H>, right: Bvh<H>)
  {
    forall x, y | x in Members(left) && y in Members(right) ::
      Keyed(boxOf, x) && Keyed(boxOf, y) && Le(Key(boxOf, axis, x), Key(boxOf, axis, y))
  }

  /**
   * `BVHNode::new` for a non-empty list (an empty one recurses without end). It folds the
   * objects' boxes into the node's box; one object becomes both children, two objects
   * become the two children in order, and more are sorted on the start of their boxes along
   * the longest axis and split at half the length, the halves built recursively.
   * The objects of the tree are the input's, every object on the left starts no later than
   * every object on the right, and without repeated objects the tree holds each object once,
   * half the list (rounded down) on the left.
   */
  method Build<H>(boxOf: H -> Option<BoundingBox3>, objects: seq<H>) returns (t: Bvh<H>)
    requires |objects| > 0
    requires |objects| >= 3 ==> AllKeyed(boxOf, objects)
    ensures t.Node? && t.bbox == BoxFold(boxOf, objects)
    ensures |objects| == 1 ==> t.left == Leaf(objects[0]) && t.right == Leaf(objects[0])
    ensures |objects| == 2 ==> t.left == Leaf(objects[0]) && t.right == Leaf(objects[1])
    ensures SameObjects(t, objects)
    ensures |objects| >= 3 ==> SplitOrdered(boxOf, LongestAxis(t.bbox), t.left, t.right)
    ensures NoRepeats(objects) ==> multiset(Members(t)) == multiset(objects)
    ensures |objects| >= 3 && NoRepeats(objects) ==>
      |Members(t.left)| == |objects| / 2 && |Members(t.right)| == |objects| - |objects| / 2
    decreases |objects|
  {
    var bbox := FoldBoxes(boxOf, objects);
    var axis := LongestAxis(bbox);
    if |objects| == 1 {
      t := Node(Leaf(objects[0]), Leaf(objects[0]), bbox);
      OneMember(objects, t);
    } else if |objects| == 2 {
      t := Node(Leaf(objects[0]), Leaf(objects[1]), bbox);
      TwoMembers(objects, t);
    } else {
      var sorted := SortedCopy(boxOf, objects, axis);
      var mid := |sorted| / 2;
      var front, back := sorted[..mid], sorted[mid..];
      HalvesKeyed(boxOf, sorted, mid);
      var left := Build(boxOf, front);
      var right := Build(boxOf, back);
      t := Node(left, right, bbox);
      SplitMembers(objects, sorted, mid, t);
      SplitKeys(boxOf, axis, sorted, mid, left, right);
      if NoRepeats(objects) {
        SplitMultiset(objects, sorted, mid, t);
      }
    }
  }

  /** A node over one object twice holds that object. */
  lemma OneMember<H>(objects: seq<H>, t: Bvh<H>)
    requires |objects| == 1 && t.Node? && t.left == Leaf(objects[0]) && t.right == Leaf(objects[0])
    ensures SameObjects(t, objects)
    ensures multiset(Members(t)) == multiset(objects)
  {
    assert Members(t) == [objects[0]] == objects;
  }

  /** A node over two leaves holds the two objects. */
  lemma TwoMembers<H>(objects: seq<H>, t: Bvh<H>)
    requires |objects| == 2 && t.Node? && t.left == Leaf(objects[0]) && t.right == Leaf(objects[1])
    ensures SameObjects(t, objects)
    ensures NoRepeats(objects) ==> multiset(Members(t)) == multiset(objects)
  {
    if objects[0] != objects[1] {
      assert objects == [objects[0]] + [objects[1]];
    }
  }

  /** Both halves of a keyed list are keyed. */
  lemma HalvesKeyed<H>(boxOf: H -> Option<BoundingBox3>, sorted: seq<H>, mid: int)
    requires 0 <= mid <= |sorted| && AllKeyed(boxOf, sorted)
    ensures AllKeyed(boxOf, sorted[..mid]) && AllKeyed(boxOf, sorted[mid..])
  {
    assert sorted == sorted[..mid] + sorted[mid..];
  }

  /** The node over the two halves of a permutation holds exactly the original objects. */
  lemma SplitMembers<H>(objects: seq<H>, sorted: seq<H>, mid: int, t: Bvh<H>)
    requires 0 < mid < |sorted| && multiset(sorted) == multiset(objects) && t.Node? && t.left.Node?
    requires SameObjects(t.left, sorted[..mid]) && SameObjects(t.right, sorted[mid..])
    ensures SameObjects(t, objects)
  {
    assert Members(t) == Members(t.left) + Members(t.right);
    assert sorted == sorted[..mid] + sorted[mid..];
    forall o | o in Members(t)
      ensures o in objects
    {
      assert o in sorted;
      assert o in multiset(sorted);
    }
    forall o | o in objects
      ensures o in Members(t)
    {
      assert o in multiset(objects);
      assert o in sorted;
      if o in sorted[..mid] {
        assert o in Members(t.left);
      } else {
        assert o in Members(t.right);
      }
    }
  }

  /** Splitting a sorted list puts every key of the front at or below every key of the back. */
  lemma SplitKeys<H>(boxOf: H -> Option<BoundingBox3>, axis: Axis, sorted: seq<H>, mid: int,
                     left: Bvh<H>, right: Bvh<H>)
    requires 0 < mid < |sorted| && AllKeyed(boxOf, sorted) && SortedByKey(boxOf, axis, sorted)
    requires SameObjects(left, sorted[..mid]) && SameObjects(right, sorted[mid..])
    ensures SplitOrdered(boxOf, axis, left, right)
  {
    forall x, y | x in Members(left) && y in Members(right)
      ensures Keyed(boxOf, x) && Keyed(boxOf, y) && Le(Key(boxOf, axis, x), Key(boxOf, axis, y))
    {
      var k :| 0 <= k < mid && sorted[k] == x;
      var l :| mid <= l < |sorted| && sorted[l] == y;
    }
  }

  /**
   * Without repeated objects the node over the two halves holds each object once, `mid` of
   * them on the left and the rest on the right.
   */
  lemma SplitMultiset<H>(objects: seq<H>, sorted: seq<H>, mid: int, t: Bvh<H>)
    requires 0 < mid < |sorted| && multiset(sorted) == multiset(objects) && t.Node? && t.left.Node?
    requires NoRepeats(sorted[..mid]) ==> multiset(Members(t.left)) == multiset(sorted[..mid])
    requires NoRepeats(sorted[mid..]) ==> multiset(Members(t.right)) == multiset(sorted[mid..])
    requires NoRepeats(objects)
    ensures multiset(Members(t)) == multiset(objects)
    ensures |Members(t.left)| == mid && |Members(t.right)| == |sorted| - mid
  {
    var front, back := sorted[..mid], sorted[mid..];
    assert NoRepeats(sorted);
    HalvesNoRepeats(sorted, mid);
    calc {
      multiset(Members(t));
      multiset(Members(t.left) + Members(t.right));
      multiset(front) + multiset(back);
      { assert sorted == front + back; }
      multiset(objects);
    }
    assert |multiset(Members(t.left))| == |front|;
    assert |multiset(Members(t.right))| == |back|;
  }

  /** The halves of a list without repeats have none and share no object. */
  lemma HalvesNoRepeats<H>(sorted: seq<H>, mid: int)
    requires 0 <= mid <= |sorted| && NoRepeats(sorted)
    ensures NoRepeats(sorted[..mid]) && NoRepeats(sorted[mid..])
    ensures forall x | x in sorted[..mid] :: x !in sorted[mid..]
  {
    var front, back := sorted[..mid], sorted[mid..];
    assert sorted == front + back;
    assert multiset(sorted) == multiset(front) + multiset(back);
    forall x | x in multiset(sorted)
      ensures multiset(front)[x] + multiset(back)[x] <= 1
    {
      assert multiset(sorted)[x] == multiset(front)[x] + multiset(back)[x];
    }
    forall x | x in front
      ensures x !in back
    {
      assert x in multiset(sorted);
    }
  }

  /**
   * `Hittable::hit for BVHNode`: nothing when the ray misses the node's box; otherwise the
   * left child is asked over `ray_t`, the right child over `ray_t` cut off at the left
   * hit, and the right hit wins when there is one.
   */
  function BvhHit<H, M>(hit: (H, Ray3, Interval) -> Option<HitRecord<M>>, t: Bvh<H>, ray: Ray3, rayT: Interval)
    : Option<HitRecord<M>>
  {
    match t
    case Leaf(o) => hit(o, ray, rayT)
    case Node(l, r, bbox) =>
      if !SlabHits(bbox, ray, rayT) then None
      else
        var hitLeft := BvhHit(hit, l, ray, rayT);
        var hitRight := match hitLeft
          case Some(h) => BvhHit(hit, r, ray, Interval(rayT.start, Finite(h.t)))
          case None => BvhHit(hit, r, ray, rayT);
        if hitRight.Some? then hitRight else hitLeft
  }

  /**
   * With objects that only report hits inside the interval they are given, the tree
   * reports a hit strictly inside `ray_t`, never farther than what its left child reports.
   */
  lemma {:induction false} BvhHitInside<H, M>(hit: (H, Ray3, Interval) -> Option<HitRecord<M>>, t: Bvh<H>,
                                              ray: Ray3, rayT: Interval)
    requires Respects(hit, Leaves(t), ray)
    ensures BvhHit(hit, t, ray, rayT).Some? ==> Surrounds(rayT, BvhHit(hit, t, ray, rayT).value.t)
    ensures t.Node? && BvhHit(hit, t.left, ray, rayT).Some? && SlabHits(t.bbox, ray, rayT) ==>
      BvhHit(hit, t, ray, rayT).Some? && BvhHit(hit, t, ray, rayT).value.t <= BvhHit(hit, t.left, ray, rayT).value.t
  {
    match t
    case Leaf(o) =>
      assert Leaves(t)[0] == o;
    case Node(l, r, bbox) =>
      RespectsSplit(hit, Leaves(l), Leaves(r), ray);
      BvhHitInside(hit, l, ray, rayT);
      match BvhHit(hit, l, ray, rayT)
      case Some(h) =>
        BvhHitInside(hit, r, ray, Interval(rayT.start, Finite(h.t)));
      case None =>
        BvhHitInside(hit, r, ray, rayT);
  }

  /** Both parts of a list of objects that respect their interval respect it too. */
  lemma RespectsSplit<H, M>(hit: (H, Ray3, Interval) -> Option<HitRecord<M>>, a: seq<H>, b: seq<H>, ray: Ray3)
    requires Respects(hit, a + b, ray)
    ensures Respects(hit, a, ray) && Respects(hit, b, ray)
  {
    forall k, i: Interval | 0 <= k < |a| && hit(a[k], ray, i).Some?
      ensures Surrounds(i, hit(a[k], ray, i).value.t)
    {
      assert (a + b)[k] == a[k];
    }
    forall k, i: Interval | 0 <= k < |b| && hit(b[k], ray, i).Some?
      ensures Surrounds(i, hit(b[k], ray, i).value.t)
    {
      assert (a + b)[|a| + k] == b[k];
    }
  }

  /** Where the far bound of the closest-hit scan stands after scanning `objs`. */
  function FarAfter<H, M>(hit: (H, Ray3, Interval) -> Option<HitRecord<M>>, objs: seq<H>, ray: Ray3,
                          start: EReal, far: EReal): EReal
  {
    var reps := Reports(hit, objs, ray, start, far);
    if reps == [] then far else Finite(reps[|reps| - 1].t)
  }

  /** Scanning `a + b` is scanning `a`, then scanning `b` from where `a` left off. */
  lemma {:induction false} ScanAppend<H, M>(hit: (H, Ray3, Interval) -> Option<HitRecord<M>>, a: seq<H>, b: seq<H>,
                                            ray: Ray3, start: EReal, far: EReal, acc: Option<HitRecord<M>>)
    ensures Scan(hit, a + b, ray, start, far, acc) ==
      Scan(hit, b, ray, start, FarAfter(hit, a, ray, start, far), Scan(hit, a, ray, start, far, acc))
    decreases |a|
  {
    if a == [] {
      assert a + b == b;
    } else {
      assert (a + b)[0] == a[0] && (a + b)[1..] == a[1..] + b;
      match hit(a[0], ray, Interval(start, far))
      case Some(rec) =>
        ScanAppend(hit, a[1..], b, ray, start, Finite(rec.t), Some(rec));
        var rest := Reports(hit, a[1..], ray, start, Finite(rec.t));
        assert Reports(hit, a, ray, start, far) == [rec] + rest;
      case None =>
        ScanAppend(hit, a[1..], b, ray, start, far, acc);
    }
  }

  /**
   * Every box of the tree is sound for `ray`: whenever one of a node's objects reports a hit
   * over an interval, the slab test of the node's box passes over that interval, so pruning
   * a node whose box is missed loses no hit.
   */
  ghost predicate SoundBoxes<H, M>(hit: (H, Ray3, Interval) -> Option<HitRecord<M>>, t: Bvh<H>, ray: Ray3)
  {
    match t
    case Leaf(_) => true
    case Node(l, r, bbox) =>
      (forall k, i: Interval | 0 <= k < |Leaves(t)| && hit(Leaves(t)[k], ray, i).Some? :: SlabHits(bbox, ray, i)) &&
      SoundBoxes(hit, l, ray) && SoundBoxes(hit, r, ray)
  }

  /** Every node box passes the slab test over every ordered, NaN-free interval. */
  ghost predicate NoPruning<H>(t: Bvh<H>, ray: Ray3)
  {
    match t
    case Leaf(_) => true
    case Node(l, r, bbox) =>
      (forall i: Interval | Comparable(i) && Le(i.start, i.end) :: SlabHits(bbox, ray, i)) &&
      NoPruning(l, ray) && NoPruning(r, ray)
  }

  /** Every node of the tree has the universe as its box. */
  ghost predicate UniverseBoxes<H>(t: Bvh<H>)
  {
    match t
    case Leaf(_) => true
    case Node(l, r, bbox) => bbox == BoundingBoxes.Universe() && UniverseBoxes(l) && UniverseBoxes(r)
  }

  /** A tree boxed by the universe never prunes, whatever the ray. */
  lemma {:induction false} UniverseNoPruning<H>(t: Bvh<H>, ray: Ray3)
    requires UniverseBoxes(t)
    ensures NoPruning(t, ray)
  {
    match t
    case Leaf(_) =>
    case Node(l, r, bbox) =>
      forall i: Interval | Comparable(i) && Le(i.start, i.end)
        ensures SlabHits(bbox, ray, i)
      {
        UniverseAlwaysHit(ray, i);
      }
      UniverseNoPruning(l, ray);
      UniverseNoPruning(r, ray);
  }

  /**
   * Objects that only report hits strictly inside the interval they are asked about are
   * only ever asked over ordered, NaN-free intervals that matter, so a tree that never
   * prunes has sound boxes.
   */
  lemma {:induction false} NoPruningSound<H, M>(hit: (H, Ray3, Interval) -> Option<HitRecord<M>>, t: Bvh<H>, ray: Ray3)
    requires Respects(hit, Leaves(t), ray) && NoPruning(t, ray)
    ensures SoundBoxes(hit, t, ray)
  {
    match t
    case Leaf(_) =>
    case Node(l, r, bbox) =>
      forall k, i: Interval | 0 <= k < |Leaves(t)| && hit(Leaves(t)[k], ray, i).Some?
        ensures SlabHits(bbox, ray, i)
      {
        var x := hit(Leaves(t)[k], ray, i).value.t;
        assert Surrounds(i, x);
        LtTrans(i.start, Finite(x), i.end);
      }
      RespectsSplit(hit, Leaves(l), Leaves(r), ray);
      NoPruningSound(hit, l, ray);
      NoPruningSound(hit, r, ray);
  }

  /** A scan in which no object reports anything returns what it started with. */
  lemma {:induction false} ScanAllMiss<H, M>(hit: (H, Ray3, Interval) -> Option<HitRecord<M>>, objs: seq<H>, ray: Ray3,
                                             start: EReal, far: EReal, acc: Option<HitRecord<M>>)
    requires forall k | 0 <= k < |objs| :: hit(objs[k], ray, Interval(start, far)).None?
    ensures Scan(hit, objs, ray, start, far, acc) == acc
    decreases |objs|
  {
    if objs != [] {
      assert hit(objs[0], ray, Interval(start, far)).None?;
      forall k | 0 <= k < |objs[1..]|
        ensures hit(objs[1..][k], ray, Interval(start, far)).None?
      {
        assert objs[1..][k] == objs[k + 1];
      }
      ScanAllMiss(hit, objs[1..], ray, start, far, acc);
    }
  }

  /**
   * `BVHNode::hit` agrees with the closest-hit scan of `HittableVec` over the leaves in
   * order, for every tree whose boxes are sound for the ray: pruning never changes the answer.
   */
  lemma {:induction false} BvhIsScan<H, M>(hit: (H, Ray3, Interval) -> Option<HitRecord<M>>, t: Bvh<H>,
                                           ray: Ray3, rayT: Interval)
    requires SoundBoxes(hit, t, ray)
    ensures BvhHit(hit, t, ray, rayT) == Scan(hit, Leaves(t), ray, rayT.start, rayT.end, None)
  {
    match t
    case Leaf(o) =>
      assert Leaves(t)[1..] == [];
    case Node(l, r, bbox) =>
      var start := rayT.start;
      if !SlabHits(bbox, ray, rayT) {
        assert rayT == Interval(start, rayT.end);
        ScanAllMiss(hit, Leaves(t), ray, start, rayT.end, None);
      } else {
        BvhIsScan(hit, l, ray, rayT);
        BvhIsScan(hit, r, ray, Interval(start, FarAfter(hit, Leaves(l), ray, start, rayT.end)));
        NodeIsScan(hit, l, r, bbox, ray, rayT);
      }
  }

  /**
   * The step of `BvhIsScan` at a node whose box is hit: when each child answers as the scan
   * of its leaves (the right one over the interval the left leaves narrow to), so does the node.
   */
  lemma NodeIsScan<H, M>(hit: (H, Ray3, Interval) -> Option<HitRecord<M>>, l: Bvh<H>, r: Bvh<H>,
                         bbox: BoundingBox3, ray: Ray3, rayT: Interval)
    requires SlabHits(bbox, ray, rayT)
    requires BvhHit(hit, l, ray, rayT) == Scan(hit, Leaves(l), ray, rayT.start, rayT.end, None)
    requires var far := FarAfter(hit, Leaves(l), ray, rayT.start, rayT.end);
      BvhHit(hit, r, ray, Interval(rayT.start, far)) == Scan(hit, Leaves(r), ray, rayT.start, far, None)
    ensures BvhHit(hit, Node(l, r, bbox), ray, rayT) == Scan(hit, Leaves(Node(l, r, bbox)), ray, rayT.start, rayT.end, None)
  {
    var start := rayT.start;
    ScanAppend(hit, Leaves(l), Leaves(r), ray, start, rayT.end, None);
    ScanIsLastReport(hit, Leaves(l), ray, start, rayT.end, None);
    var far := FarAfter(hit, Leaves(l), ray, start, rayT.end);
    var hitLeft := Scan(hit, Leaves(l), ray, start, rayT.end, None);
    ScanIsLastReport(hit, Leaves(r), ray, start, far, hitLeft);
    ScanIsLastReport(hit, Leaves(r), ray, start, far, None);
  }

  /** In particular a tree that never prunes, over objects that respect their interval, is the scan. */
  lemma NoPruningIsScan<H, M>(hit: (H, Ray3, Interval) -> Option<HitRecord<M>>, t: Bvh<H>, ray: Ray3, rayT: Interval)
    requires Respects(hit, Leaves(t), ray) && NoPruning(t, ray)
    ensures BvhHit(hit, t, ray, rayT) == Scan(hit, Leaves(t), ray, rayT.start, rayT.end, None)
  {
    NoPruningSound(hit, t, ray);
    BvhIsScan(hit, t, ray, rayT);
  }
}
