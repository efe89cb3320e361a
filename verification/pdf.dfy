/**
 * Probability density functions over directions (src/pdf.rs): uniform on the sphere,
 * cosine-weighted about a direction, and weighted mixtures of other densities. The draw
 * `rand` of `MixedPDF::generate` is a parameter, and the generators of the components are
 * represented by the index of the component chosen.
 */
module Pdfs {
  import opened RealMath
  import opened Wrappers
  import opened Vectors
  import opened Onb

  /** The densities behind `Rc<dyn PDF>` (`HittablePDF` is not part of this model). */
  datatype Pdf =
    | SpherePdf
    | CosinePdf(basis: OrthonormalBasis)
    | MixedPdf(factors: seq<(Pdf, real)>)

  /** `CosinePDF::new`: the density about the frame built around `w`. */
  function CosinePdfNew(w: Vec3): (p: Pdf)
    ensures p.CosinePdf? && p.basis == NewBasis(w)
  {
    CosinePdf(NewBasis(w))
  }

  /** The sum of a list of numbers, accumulated from the front. */
  function Sum(xs: seq<real>): real
  {
    if xs == [] then 0.0 else Sum(xs[..|xs| - 1]) + xs[|xs| - 1]
  }

  /** The weights of a mixture, in order. */
  function Weights(factors: seq<(Pdf, real)>): (ws: seq<real>)
    ensures |ws| == |factors| && forall i | 0 <= i < |factors| :: ws[i] == factors[i].1
  {
    seq(|factors|, i requires 0 <= i < |factors| => factors[i].1)
  }

  /**
   * The density value: constant on the sphere, clipped cosine, or the weighted sum of the
   * parts. The two simple densities are never negative.
   */
  function Value(p: Pdf, direction: Vec3): (v: real)
    ensures !p.MixedPdf? ==> v >= 0.0
    decreases p
  {
    match p
    case SpherePdf => 1.0 / (4.0 * Pi)
    case CosinePdf(basis) => Max(0.0, Dot(AsUnit(direction), basis.w) / Pi)
    case MixedPdf(factors) =>
      Sum(seq(|factors|, i requires 0 <= i < |factors| => factors[i].1 * Value(factors[i].0, direction)))
  }

  /** `SpherePDF::value`: the uniform density 1/(4 pi), whatever the direction. */
  lemma SphereValueConstant(direction: Vec3)
    ensures Value(SpherePdf, direction) == 1.0 / (4.0 * Pi) && Value(SpherePdf, direction) > 0.0
  {
  }

  /** `CosinePDF::value` is never negative, and is zero for every direction at or below the plane of `w`. */
  lemma CosineValueNonNegative(basis: OrthonormalBasis, direction: Vec3)
    ensures Value(CosinePdf(basis), direction) >= 0.0
    ensures Dot(AsUnit(direction), basis.w) <= 0.0 ==> Value(CosinePdf(basis), direction) == 0.0
  {
    var c := Dot(AsUnit(direction), basis.w);
    assert Value(CosinePdf(basis), direction) == Max(0.0, c / Pi);
    if c <= 0.0 {
      assert c / Pi <= 0.0;
    }
  }

  /** Every weight, at every level of nesting, is non-negative. */
  ghost predicate NonNegativeWeights(p: Pdf)
    decreases p
  {
    match p
    case MixedPdf(factors) =>
      forall i | 0 <= i < |factors| :: factors[i].1 >= 0.0 && NonNegativeWeights(factors[i].0)
    case _ => true
  }

  /** A sum of non-negative numbers is non-negative. */
  lemma {:induction false} SumNonNegative(xs: seq<real>)
    requires forall i | 0 <= i < |xs| :: xs[i] >= 0.0
    ensures Sum(xs) >= 0.0
    decreases |xs|
  {
    if xs != [] {
      SumNonNegative(xs[..|xs| - 1]);
    }
  }

  /**
   * `MixedPDF::value` is the weighted sum of the component values, so with non-negative
   * weights every density value is non-negative.
   */
  lemma {:induction false} ValueNonNegative(p: Pdf, direction: Vec3)
    requires NonNegativeWeights(p)
    ensures Value(p, direction) >= 0.0
    decreases p
  {
    match p
    case SpherePdf =>
    case CosinePdf(basis) =>
    case MixedPdf(factors) =>
      var terms := seq(|factors|, i requires 0 <= i < |factors| => factors[i].1 * Value(factors[i].0, direction));
      forall i | 0 <= i < |factors|
        ensures terms[i] >= 0.0
      {
        ValueNonNegative(factors[i].0, direction);
        ProductNonNegative(factors[i].1, Value(factors[i].0, direction));
      }
      SumNonNegative(terms);
  }

  /** `MixedPDF::new`: the weights must sum to exactly one (the source asserts it). */
  function MixedNew(factors: seq<(Pdf, real)>): (p: Pdf)
    requires Sum(Weights(factors)) == 1.0
    ensures p.MixedPdf? && p.factors == factors && Sum(Weights(p.factors)) == 1.0
  {
    MixedPdf(factors)
  }

  /**
   * `MixedPDF::equal`: every component gets the weight `1/n` (the count must fit a u32,
   * as the source's debug assertion demands).
   */
  function Equal(pdfs: seq<Pdf>): (p: Pdf)
    requires |pdfs| < 0xFFFF_FFFF
    ensures p.MixedPdf? && |p.factors| == |pdfs|
    ensures forall i | 0 <= i < |pdfs| :: p.factors[i] == (pdfs[i], 1.0 / |pdfs| as real)
  {
    var mul := if |pdfs| == 0 then 0.0 else 1.0 / |pdfs| as real;
    MixedPdf(seq(|pdfs|, i requires 0 <= i < |pdfs| => (pdfs[i], mul)))
  }

  /** `n` copies of `w` sum to `n * w`. */
  lemma {:induction false} SumConstant(xs: seq<real>, w: real)
    requires forall i | 0 <= i < |xs| :: xs[i] == w
    ensures Sum(xs) == |xs| as real * w
    decreases |xs|
  {
    if xs != [] {
      SumConstant(xs[..|xs| - 1], w);
    }
  }

  /** The weights `equal` hands out sum to one, so its result is a mixture `new` accepts. */
  lemma EqualWeightsSumToOne(pdfs: seq<Pdf>)
    requires 0 < |pdfs| < 0xFFFF_FFFF
    ensures Sum(Weights(Equal(pdfs).factors)) == 1.0
  {
    var n := |pdfs| as real;
    SumConstant(Weights(Equal(pdfs).factors), 1.0 / n);
    assert n * (1.0 / n) == 1.0;
  }

  /** The running total of the weights up to and including component `j`. */
  function Through(ws: seq<real>, j: nat): real
    requires j < |ws|
  {
    Sum(ws[..j + 1])
  }

  /**
   * The component `generate` picks as written: the first whose running weight total,
   * from index `from` on, is strictly below the draw; `None` is the `unreachable!()` panic.
   */
  function PickAsWritten(ws: seq<real>, rand: real, from: nat): (r: Option<nat>)
    requires from <= |ws|
    ensures r.Some? ==> from <= r.value < |ws| && Through(ws, r.value) < rand
    ensures r.Some? ==> forall j | from <= j < r.value :: Through(ws, j) >= rand
    ensures r.None? ==> forall j | from <= j < |ws| :: Through(ws, j) >= rand
    decreases |ws| - from
  {
    if from == |ws| then None
    else if Through(ws, from) < rand then Some(from)
    else PickAsWritten(ws, rand, from + 1)
  }

  /**
   * The component `generate` evidently means to pick: the first whose running weight
   * total exceeds the draw, so that component `i` is chosen for draws in its own slot.
   */
  function Pick(ws: seq<real>, rand: real, from: nat): (r: Option<nat>)
    requires from <= |ws|
    ensures r.Some? ==> from <= r.value < |ws| && rand < Through(ws, r.value)
    ensures r.Some? ==> forall j | from <= j < r.value :: rand >= Through(ws, j)
    ensures r.None? ==> forall j | from <= j < |ws| :: rand >= Through(ws, j)
    decreases |ws| - from
  {
    if from == |ws| then None
    else if rand < Through(ws, from) then Some(from)
    else Pick(ws, rand, from + 1)
  }

  /**
   * `MixedPDF::generate` as written: the loop adds up the weights and stops at the first
   * running total below the draw. `None` stands for the `unreachable!()` panic.
   */
  method GenerateAsWritten(factors: seq<(Pdf, real)>, rand: real) returns (choice: Option<nat>)
    ensures choice == PickAsWritten(Weights(factors), rand, 0)
  {
    var ws := Weights(factors);
    var sum := 0.0;
    var i := 0;
    while i < |factors|
      invariant 0 <= i <= |factors|
      invariant sum == Sum(ws[..i])
      invariant PickAsWritten(ws, rand, i) == PickAsWritten(ws, rand, 0)
    {
      sum := sum + factors[i].1;
      assert ws[..i + 1][..i] == ws[..i];
      if sum < rand {
        return Some(i);
      }
      i := i + 1;
    }
    return None;
  }

  /** `MixedPDF::generate` with the comparison the right way round: the draw below the running total. */
  method Generate(factors: seq<(Pdf, real)>, rand: real) returns (choice: Option<nat>)
    ensures choice == Pick(Weights(factors), rand, 0)
  {
    var ws := Weights(factors);
    var sum := 0.0;
    var i := 0;
    while i < |factors|
      invariant 0 <= i <= |factors|
      invariant sum == Sum(ws[..i])
      invariant Pick(ws, rand, i) == Pick(ws, rand, 0)
    {
      sum := sum + factors[i].1;
      assert ws[..i + 1][..i] == ws[..i];
      if rand < sum {
        return Some(i);
      }
      i := i + 1;
    }
    return None;
  }

  /** Running totals of non-negative weights do not decrease. */
  lemma {:induction false} SumPrefixMonotone(ws: seq<real>, i: nat, j: nat)
    requires i <= j <= |ws| && forall k | 0 <= k < |ws| :: ws[k] >= 0.0
    ensures Sum(ws[..i]) <= Sum(ws[..j])
    decreases j - i
  {
    if i < j {
      SumPrefixMonotone(ws, i, j - 1);
      assert ws[..j][..j - 1] == ws[..j - 1];
    }
  }

  /**
   * As written, with non-negative weights, a draw no larger than the first weight finds
   * no running total below it, and `generate` reaches `unreachable!()`.
   */
  lemma AsWrittenUnreachable(ws: seq<real>, rand: real)
    requires |ws| > 0 && forall k | 0 <= k < |ws| :: ws[k] >= 0.0
    requires rand <= ws[0]
    ensures PickAsWritten(ws, rand, 0) == None
  {
    assert Sum(ws[..1]) == ws[0] by {
      assert ws[..1][..0] == [];
    }
    forall j | 0 <= j < |ws|
      ensures Through(ws, j) >= rand
    {
      SumPrefixMonotone(ws, 1, j + 1);
    }
  }

  /**
   * With non-negative weights summing to one and a draw in `[0, 1)`, the corrected pick
   * always chooses a component, the one whose slot `[total before it, total through it)`
   * holds the draw.
   */
  lemma PickSelectsSlot(ws: seq<real>, rand: real)
    requires forall k | 0 <= k < |ws| :: ws[k] >= 0.0
    requires Sum(ws) == 1.0 && 0.0 <= rand < 1.0
    ensures Pick(ws, rand, 0).Some?
    ensures Sum(ws[..Pick(ws, rand, 0).value]) <= rand < Through(ws, Pick(ws, rand, 0).value)
  {
    if |ws| == 0 {
      assert false;
    }
    assert ws[..|ws|] == ws;
    assert Through(ws, |ws| - 1) == 1.0;
    var i := Pick(ws, rand, 0).value;
    if i > 0 {
      assert rand >= Through(ws, i - 1);
    } else {
      assert ws[..0] == [];
    }
  }

  /** The draw 0.25 over the weights 0.5, 0.5: the source panics, the intended pick is the first. */
  lemma HalfAndHalfExample(ws: seq<real>, rand: real)
    requires ws == [0.5, 0.5] && rand == 0.25
    ensures PickAsWritten(ws, rand, 0) == None
    ensures Pick(ws, rand, 0) == Some(0)
  {
    AsWrittenUnreachable(ws, rand);
    assert ws[..1] == [0.5];
    assert Sum(ws[..1]) == 0.5;
  }
}
