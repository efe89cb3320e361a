/**
 * Closed intervals of f64 distances (src/math/interval.rs). Endpoints may be infinite
 * (the `empty` and `universe` sentinels) or NaN (what `inf - inf` produces), so they are
 * modelled by `EReal`, whose comparisons follow IEEE 754: every comparison with NaN is false.
 */
module Intervals {
  import opened Wrappers

  datatype EReal = NegInf | Finite(v: real) | PosInf | NaN

  /** IEEE `a < b`. */
  predicate Lt(a: EReal, b: EReal)
  {
    match (a, b)
    case (NaN, _) => false
    case (_, NaN) => false
    case (NegInf, NegInf) => false
    case (NegInf, _) => true
    case (PosInf, _) => false
    case (Finite(x), Finite(y)) => x < y
    case (Finite(_), PosInf) => true
    case (Finite(_), NegInf) => false
  }

  /** IEEE `a <= b`. */
  predicate Le(a: EReal, b: EReal)
  {
    Lt(a, b) || (a == b && a != NaN)
  }

  lemma LtTrans(a: EReal, b: EReal, c: EReal)
    requires Lt(a, b) && Le(b, c)
    ensures Lt(a, c)
  {
  }

  lemma LeTrans(a: EReal, b: EReal, c: EReal)
    requires Le(a, b) && Le(b, c)
    ensures Le(a, c)
  {
  }

  /** IEEE `a - b`. */
  function Sub(a: EReal, b: EReal): (r: EReal)
    ensures a.Finite? && b.Finite? ==> r == Finite(a.v - b.v)
  {
    match (a, b)
    case (NaN, _) => NaN
    case (_, NaN) => NaN
    case (Finite(x), Finite(y)) => Finite(x - y)
    case (PosInf, PosInf) => NaN
    case (NegInf, NegInf) => NaN
    case (PosInf, _) => PosInf
    case (NegInf, _) => NegInf
    case (Finite(_), PosInf) => NegInf
    case (Finite(_), NegInf) => PosInf
  }

  /** IEEE `a + d` for a finite `d`. */
  function AddFinite(a: EReal, d: real): EReal
  {
    if a.Finite? then Finite(a.v + d) else a
  }

  /**
   * IEEE `n / d` for finite operands: the quotient when `d` is not zero; otherwise an
   * infinity with the sign of `n`, or NaN for `0 / 0` (the divisor is taken to be `+0`).
   */
  function Quotient(n: real, d: real): (q: EReal)
    ensures q.Finite? <==> d != 0.0
    ensures d != 0.0 ==> q.v == n / d
  {
    if d != 0.0 then Finite(n / d) else if n > 0.0 then PosInf else if n < 0.0 then NegInf else NaN
  }

  /** IEEE `1 / d`, the reciprocal of a finite value. */
  function Recip(d: real): (r: EReal)
    ensures r == Quotient(1.0, d)
  {
    if d != 0.0 then Finite(1.0 / d) else PosInf
  }

  /** IEEE `a * b`: infinities keep or flip sign with the other factor, and `0 * inf` is NaN. */
  function MulE(a: EReal, b: EReal): (r: EReal)
    ensures a.Finite? && b.Finite? ==> r == Finite(a.v * b.v)
  {
    if a == NaN || b == NaN then NaN
    else if a.Finite? && b.Finite? then Finite(a.v * b.v)
    else if a.Finite? then (if a.v == 0.0 then NaN else if a.v > 0.0 then b else Negate(b))
    else if b.Finite? then (if b.v == 0.0 then NaN else if b.v > 0.0 then a else Negate(a))
    else if a == PosInf then b
    else Negate(b)
  }

  /** IEEE negation. */
  function Negate(a: EReal): EReal
  {
    match a
    case NaN => NaN
    case PosInf => NegInf
    case NegInf => PosInf
    case Finite(x) => Finite(-x)
  }

  /** `f64::min`/`f64::max` pick the other operand when one is NaN. */
  function Min(a: EReal, b: EReal): EReal
  {
    if a == NaN then b else if b == NaN then a else if Le(a, b) then a else b
  }

  function MaxE(a: EReal, b: EReal): EReal
  {
    if a == NaN then b else if b == NaN then a else if Le(a, b) then b else a
  }

  /** `Interval { start, end }` */
  datatype Interval = Interval(start: EReal, end: EReal)

  /** `Interval::new`. */
  function New(start: EReal, end: EReal): (i: Interval)
    ensures i.start == start && i.end == end
  {
    Interval(start, end)
  }

  /** `Interval::empty`: the inverted interval `[+inf, -inf]`, which contains nothing. */
  function Empty(): (i: Interval)
    ensures forall x: real :: !Contains(i, x)
    ensures Lt(i.end, i.start)
  {
    Interval(PosInf, NegInf)
  }

  /** `Interval::universe`: `[-inf, +inf]`, which contains every finite distance. */
  function Universe(): (i: Interval)
    ensures forall x: real :: Contains(i, x) && Surrounds(i, x)
  {
    Interval(NegInf, PosInf)
  }

  /** `Interval::size`: `end - start`. */
  function Size(i: Interval): EReal
  {
    Sub(i.end, i.start)
  }

  /** `Interval::contains`: `start <= x <= end`. */
  predicate Contains(i: Interval, x: real)
  {
    Le(i.start, Finite(x)) && Le(Finite(x), i.end)
  }

  /** `Interval::surrounds`: `start < x < end`. */
  predicate Surrounds(i: Interval, x: real)
    ensures Surrounds(i, x) ==> Contains(i, x)
  {
    Lt(i.start, Finite(x)) && Lt(Finite(x), i.end)
  }

  /** `Interval::surrounds` for a distance that may be infinite or NaN: only a finite one can be surrounded. */
  predicate SurroundsE(i: Interval, x: EReal)
    ensures SurroundsE(i, x) ==> x.Finite? && Surrounds(i, x.v)
    ensures x.Finite? ==> (SurroundsE(i, x) <==> Surrounds(i, x.v))
  {
    Lt(i.start, x) && Lt(x, i.end)
  }

  /**
   * `Interval::clamp`: the nearest point of the interval. On an ordered interval the
   * result lies inside it; a point inside is returned unchanged and, unless an endpoint is
   * NaN, only a point inside is.
   */
  function Clamp(i: Interval, x: real): (r: EReal)
    ensures Le(i.start, i.end) ==> Le(i.start, r) && Le(r, i.end)
    ensures Contains(i, x) ==> r == Finite(x)
    ensures i.start != NaN && i.end != NaN && r == Finite(x) ==> Contains(i, x)
    ensures i.start.Finite? && i.end.Finite? ==> r.Finite?
    ensures Lt(Finite(x), i.start) ==> r == i.start
    ensures !Lt(Finite(x), i.start) && Lt(i.end, Finite(x)) ==> r == i.end
  {
    if Lt(Finite(x), i.start) then i.start
    else if Lt(i.end, Finite(x)) then i.end
    else Finite(x)
  }

  /** Clamping a clamped value changes nothing. */
  lemma ClampIdempotent(i: Interval, x: real)
    requires Le(i.start, i.end) && i.start.Finite? && i.end.Finite?
    ensures Clamp(i, Clamp(i, x).v) == Clamp(i, x)
  {
  }

  /** A finite, ordered interval contains both endpoints and surrounds neither. */
  lemma EndpointsContainedNotSurrounded(i: Interval)
    requires i.start.Finite? && i.end.Finite? && Le(i.start, i.end)
    ensures Contains(i, i.start.v) && !Surrounds(i, i.start.v)
    ensures Contains(i, i.end.v) && !Surrounds(i, i.end.v)
  {
  }

  /**
   * The size is negative exactly when the interval is inverted, for every pair of
   * non-NaN endpoints (including the infinite sentinels).
   */
  lemma SizeNegativeIffInverted(i: Interval)
    requires i.start != NaN && i.end != NaN
    ensures Lt(Size(i), Finite(0.0)) <==> Lt(i.end, i.start)
  {
  }

  /** `RangeInclusive<f64>`, to and from which an interval converts. */
  datatype RangeInclusive = RangeInclusive(start: EReal, end: EReal)

  /** `From<RangeInclusive<f64>> for Interval`. */
  function FromRange(r: RangeInclusive): (i: Interval)
    ensures forall x: real :: Contains(i, x) <==> Le(r.start, Finite(x)) && Le(Finite(x), r.end)
  {
    Interval(r.start, r.end)
  }

  /** `Into<RangeInclusive<f64>> for Interval`. */
  function ToRange(i: Interval): RangeInclusive
  {
    RangeInclusive(i.start, i.end)
  }

  /** Converting to a range and back gives the same interval, and the reverse too. */
  lemma RangeRoundTrip(i: Interval, r: RangeInclusive)
    ensures FromRange(ToRange(i)) == i
    ensures ToRange(FromRange(r)) == r
  {
  }

  // The helpers below are called by the bounding boxes but their definitions are not part of
  // the source that is modelled; they get the conventional definitions and nothing is claimed
  // about them.

  /** `Interval::positive(a, b)`: the interval between two distances, in ascending order. */
  function Positive(a: EReal, b: EReal): Interval
  {
    if Le(a, b) then Interval(a, b) else Interval(b, a)
  }

  /** `Interval::surrounding(a, b)`: the smallest interval holding both. */
  function Surrounding(a: Interval, b: Interval): Interval
  {
    Interval(Min(a.start, b.start), MaxE(a.end, b.end))
  }

  /** `Interval::expand(delta)`: pads each end by half of `delta`. */
  function Expand(i: Interval, delta: real): Interval
  {
    Interval(AddFinite(i.start, -delta / 2.0), AddFinite(i.end, delta / 2.0))
  }

  /** `Interval::overlap`: the common part of two intervals, if it is not empty. */
  function Overlap(a: Interval, b: Interval): Option<Interval>
  {
    var lo := MaxE(a.start, b.start);
    var hi := Min(a.end, b.end);
    if Le(lo, hi) then Some(Interval(lo, hi)) else None
  }
}
