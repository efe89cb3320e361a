/** The three coordinate axes and the iterator over them (src/axis.rs). */
module Axes {
  import opened Wrappers
  import opened Casts

  datatype Axis = X | Y | Z

  /** Position in declaration order, which the derived `Ord` follows. */
  function Rank(a: Axis): (n: nat)
    ensures n < 3
  {
    match a
    case X => 0
    case Y => 1
    case Z => 2
  }

  /** Derived `PartialOrd`: `X < Y < Z`. */
  predicate Less(a: Axis, b: Axis)
  {
    Rank(a) < Rank(b)
  }

  /** The derived order is a strict total order. */
  lemma LessIsStrictTotal(a: Axis, b: Axis, c: Axis)
    ensures !Less(a, a)
    ensures Less(a, b) && Less(b, c) ==> Less(a, c)
    ensures a == b || Less(a, b) || Less(b, a)
  {
  }

  /** `TryFrom<u8> for Axis`: 0, 1 and 2 name X, Y and Z; every other byte is an error. */
  function TryFromU8(n: U8): (r: Result<Axis, ()>)
    ensures r.Ok? <==> n < 3
    ensures r.Ok? ==> Rank(r.value) == n
  {
    match n
    case 0 => Ok(X)
    case 1 => Ok(Y)
    case 2 => Ok(Z)
    case _ => Err(())
  }

  /** Every axis is reached from its position, so the conversion is onto. */
  lemma TryFromU8Onto(a: Axis)
    ensures TryFromU8(Rank(a)) == Ok(a)
  {
  }

  /** The order in which `Axis::iter()` yields the axes. */
  const AllAxes: seq<Axis> := [X, Y, Z]

  /** `IterAxis`: remembers the axis last yielded. */
  class IterAxis {
    var state: Option<Axis>

    /** `Axis::iter()`: nothing yielded yet. */
    constructor ()
      ensures state == None && Remaining() == AllAxes
    {
      state := None;
    }

    /** The axes still to come. */
    function Remaining(): (rest: seq<Axis>)
      reads this
      ensures |rest| <= |AllAxes| && rest == AllAxes[|AllAxes| - |rest|..]
    {
      match state
      case None => [X, Y, Z]
      case Some(X) => [Y, Z]
      case Some(Y) => [Z]
      case Some(Z) => []
    }

    /**
     * `Iterator::next`: yields the next axis in order; once Z has been yielded it keeps
     * returning None and leaves the state as it is.
     */
    method Next() returns (r: Option<Axis>)
      modifies this
      ensures old(Remaining()) == [] ==> r == None && state == old(state)
      ensures old(Remaining()) != [] ==>
        r == Some(old(Remaining())[0]) && Remaining() == old(Remaining())[1..]
    {
      match state {
        case None =>
          state := Some(X);
          r := Some(X);
        case Some(X) =>
          state := Some(Y);
          r := Some(Y);
        case Some(Y) =>
          state := Some(Z);
          r := Some(Z);
        case Some(Z) =>
          r := None;
      }
    }
  }

  /** `for axis in Axis::iter()`: the loop sees X, Y and Z, in that order, then stops. */
  method CollectAxes() returns (axes: seq<Axis>)
    ensures axes == AllAxes
  {
    var it := new IterAxis();
    axes := [];
    while true
      invariant axes + it.Remaining() == AllAxes
      decreases |it.Remaining()|
    {
      var next := it.Next();
      if next.None? {
        break;
      }
      axes := axes + [next.value];
    }
  }
}
