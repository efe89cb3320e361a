/**
 * Orthonormal bases (src/onb.rs): a frame `u`, `v`, `w` built around a reference
 * direction `w`, and the change of coordinates out of that frame.
 */
module Onb {
  import opened RealMath
  import opened Vectors

  datatype OrthonormalBasis = OrthonormalBasis(u: Vec3, v: Vec3, w: Vec3)

  /** The threshold on `|w.x|` above which the helper axis is Y instead of X. */
  const HelperThreshold: real := 0.9

  /**
   * The helper axis that `OrthonormalBasis::new` crosses with `w`: (0, 1, 0) when `|w.x|`
   * exceeds 0.9, (1, 0, 0) otherwise, marked normalised. Normalising either literal gives
   * it back unchanged (`HelperAxisIsNormalized`).
   */
  function HelperAxis(w: Vec3): (a: Vec3)
    ensures Abs(w.x) > HelperThreshold ==> Eq(a, New(0.0, 1.0, 0.0))
    ensures Abs(w.x) <= HelperThreshold ==> Eq(a, New(1.0, 0.0, 0.0))
    ensures a.marker == Normalized
  {
    if Abs(w.x) > HelperThreshold then Vec3(0.0, 1.0, 0.0, Normalized) else Vec3(1.0, 0.0, 0.0, Normalized)
  }

  /** The helper axis is what `as_unit` makes of the axis literal the source writes. */
  lemma HelperAxisIsNormalized(w: Vec3)
    ensures Abs(w.x) > HelperThreshold ==> HelperAxis(w) == AsUnit(New(0.0, 1.0, 0.0))
    ensures Abs(w.x) <= HelperThreshold ==> HelperAxis(w) == AsUnit(New(1.0, 0.0, 0.0))
  {
    var y, x := New(0.0, 1.0, 0.0), New(1.0, 0.0, 0.0);
    assert Len(y) == 1.0;
    assert Len(x) == 1.0;
    assert Mul(y, 1.0 / Len(y)) == Mul(y, 1.0);
    assert Mul(x, 1.0 / Len(x)) == Mul(x, 1.0);
  }

  /**
   * For a vector of (nearly) unit length the helper axis is never parallel to it: their
   * cross product is not the zero vector.
   */
  lemma HelperNotParallel(w: Vec3)
    requires LenSquared(w) > HelperThreshold * HelperThreshold
    ensures !IsZero(Cross(w, HelperAxis(w)))
  {
    var c := Cross(w, HelperAxis(w));
    if Abs(w.x) <= HelperThreshold {
      assert c.y == w.z && c.z == -w.y;
      SquareAtMost(w.x, HelperThreshold);
      assert LenSquared(w) == Square(w.x) + Square(w.y) + Square(w.z);
      assert Square(w.y) + Square(w.z) > 0.0;
    } else {
      assert c.z == w.x;
    }
  }

  /** A number within `[-t, t]` has a square of at most `t * t`. */
  lemma SquareAtMost(a: real, t: real)
    requires Abs(a) <= t
    ensures Square(a) <= t * t
  {
    var b := Abs(a);
    assert Square(a) == b * b;
    assert t * t - b * b == (t - b) * (t + b);
    ProductNonNegative(t - b, t + b);
    assert Product(t - b, t + b) == (t - b) * (t + b);
  }

  /** The three vectors of a basis are pairwise orthogonal. */
  predicate Orthogonal(b: OrthonormalBasis)
  {
    Dot(b.w, b.v) == 0.0 && Dot(b.w, b.u) == 0.0 && Dot(b.v, b.u) == 0.0
  }

  /** `v` has unit length up to a relative error `e` of its squared length. */
  predicate UnitUpTo(v: Vec3, e: real)
  {
    1.0 - e <= LenSquared(v) <= 1.0
  }

  /**
   * `OrthonormalBasis::new`: `w` is the reference direction normalised, `v` is the
   * normalised cross product of `w` with the helper axis, and `u = w × v`. The three are
   * pairwise orthogonal; `BasisIsOrthonormal` adds that, for a non-zero reference, they
   * have unit length up to the square root's relative error.
   */
  function NewBasis(reference: Vec3): (b: OrthonormalBasis)
    ensures b.w == AsUnit(reference)
    ensures b.v == AsUnit(Cross(b.w, HelperAxis(b.w)))
    ensures b.u == Cross(b.w, b.v)
    ensures b.u.marker == Unknown && b.v.marker == Normalized && b.w.marker == Normalized
    ensures Orthogonal(b)
  {
    var w := AsUnit(reference);
    var v := AsUnit(Cross(w, HelperAxis(w)));
    BasisOrthogonal(w, HelperAxis(w), v);
    OrthonormalBasis(Cross(w, v), v, w)
  }

  /**
   * The basis built around a non-zero reference is orthonormal: besides being pairwise
   * orthogonal, `w` and `v` have unit length up to the square root's relative error
   * and `u` up to twice that error.
   */
  lemma BasisIsOrthonormal(reference: Vec3)
    requires !IsZero(reference)
    ensures var b := NewBasis(reference);
      Orthogonal(b) && UnitUpTo(b.w, SqrtSlack) && UnitUpTo(b.v, SqrtSlack) && UnitUpTo(b.u, 2.0 * SqrtSlack)
  {
    var b := NewBasis(reference);
    assert UnitUpTo(b.w, SqrtSlack);
    UnitBasis(b.w, b.v, b.u);
  }

  /**
   * When `w` has unit length up to the square root's error, so has the normalised
   * `w × a` for the helper axis `a`, and `w × v` up to twice that error.
   */
  lemma UnitBasis(w: Vec3, v: Vec3, u: Vec3)
    requires 1.0 - SqrtSlack <= LenSquared(w) <= 1.0
    requires v == AsUnit(Cross(w, HelperAxis(w))) && u == Cross(w, v) && Dot(w, v) == 0.0
    ensures UnitUpTo(v, SqrtSlack) && UnitUpTo(u, 2.0 * SqrtSlack)
  {
    assert SqrtSlack <= 0.01;
    HelperNotParallel(w);
    AsUnitIsUnit(Cross(w, HelperAxis(w)));
    UnitCross(w, v, u);
  }

  /**
   * The cross product of two orthogonal vectors of unit length up to the square root's
   * error has unit length up to twice that error (Lagrange's identity).
   */
  lemma UnitCross(w: Vec3, v: Vec3, u: Vec3)
    requires UnitUpTo(w, SqrtSlack) && UnitUpTo(v, SqrtSlack)
    requires u == Cross(w, v) && Dot(w, v) == 0.0
    ensures UnitUpTo(u, 2.0 * SqrtSlack)
  {
    assert SqrtSlack <= 0.01;
    CrossLenSquared(w, v);
    NearUnitProduct(LenSquared(w), LenSquared(v), SqrtSlack);
  }

  /** `w`, the normalised `w × a` and their cross product are pairwise orthogonal. */
  lemma BasisOrthogonal(w: Vec3, a: Vec3, v: Vec3)
    requires v == AsUnit(Cross(w, a))
    ensures Dot(w, v) == 0.0 && Dot(w, Cross(w, v)) == 0.0 && Dot(v, Cross(w, v)) == 0.0
  {
    CrossOrthogonal(w, a);
    NormalizedKeepsOrthogonal(w, Cross(w, a));
    CrossOrthogonal(w, v);
  }

  /** Normalising a vector keeps it orthogonal to whatever it was orthogonal to. */
  lemma NormalizedKeepsOrthogonal(w: Vec3, c: Vec3)
    requires Dot(w, c) == 0.0
    ensures Dot(w, Normalize(c)) == 0.0
  {
    var k := NormalizeIsMultiple(c);
    if !IsZero(c) {
      MulFacts(w, c, k, 1.0);
    }
  }

  /** `OrthonormalBasis::transform`: from frame coordinates to space, `x u + y v + z w`. */
  function Transform(b: OrthonormalBasis, p: Vec3): (r: Vec3)
    ensures r.marker == Unknown
  {
    Add(Add(ScalarMul(p.x, b.u), ScalarMul(p.y, b.v)), ScalarMul(p.z, b.w))
  }

  /** The transform sends the coordinate axes to `u`, `v` and `w`. */
  lemma TransformAxes(b: OrthonormalBasis)
    ensures Eq(Transform(b, New(1.0, 0.0, 0.0)), b.u)
    ensures Eq(Transform(b, New(0.0, 1.0, 0.0)), b.v)
    ensures Eq(Transform(b, New(0.0, 0.0, 1.0)), b.w)
  {
    assert Eq(ScalarMul(0.0, b.u), New(0.0, 0.0, 0.0));
    assert Eq(ScalarMul(0.0, b.v), New(0.0, 0.0, 0.0));
    assert Eq(ScalarMul(0.0, b.w), New(0.0, 0.0, 0.0));
  }

  /** The transform is linear: it maps sums to sums and multiples to multiples. */
  lemma TransformLinear(b: OrthonormalBasis, p: Vec3, q: Vec3, k: real)
    ensures Eq(Transform(b, Add(p, q)), Add(Transform(b, p), Transform(b, q)))
    ensures Eq(Transform(b, Mul(p, k)), Mul(Transform(b, p), k))
  {
    TransformAdditive(b.u, b.v, b.w, p, q);
    TransformHomogeneous(b.u, b.v, b.w, p, k);
  }

  lemma TransformAdditive(u: Vec3, v: Vec3, w: Vec3, p: Vec3, q: Vec3)
    ensures var b := OrthonormalBasis(u, v, w); Eq(Transform(b, Add(p, q)), Add(Transform(b, p), Transform(b, q)))
  {
    var b := OrthonormalBasis(u, v, w);
    MulAddFactors(u, p.x, q.x);
    MulAddFactors(v, p.y, q.y);
    MulAddFactors(w, p.z, q.z);
  }

  lemma TransformHomogeneous(u: Vec3, v: Vec3, w: Vec3, p: Vec3, k: real)
    ensures var b := OrthonormalBasis(u, v, w); Eq(Transform(b, Mul(p, k)), Mul(Transform(b, p), k))
  {
    var b := OrthonormalBasis(u, v, w);
    var A, B, C := ScalarMul(p.x, u), ScalarMul(p.y, v), ScalarMul(p.z, w);
    var sum := Add(Add(Mul(A, k), Mul(B, k)), Mul(C, k));
    assert Mul(Transform(b, p), k) == sum by {
      assert Transform(b, p) == Add(Add(A, B), C);
      MulFacts(A, B, k, 1.0);
      MulFacts(Add(A, B), C, k, 1.0);
    }
    assert Transform(b, Mul(p, k)) == sum by {
      var pk := Mul(p, k);
      ScaleTwice(u, p.x, k, pk.x);
      ScaleTwice(v, p.y, k, pk.y);
      ScaleTwice(w, p.z, k, pk.z);
      assert Transform(b, pk) == Add(Add(ScalarMul(pk.x, u), ScalarMul(pk.y, v)), ScalarMul(pk.z, w));
    }
  }

  lemma ScaleTwice(a: Vec3, x: real, k: real, y: real)
    requires y == x * k
    ensures Mul(ScalarMul(x, a), k) == ScalarMul(y, a)
  {
    MulFacts(a, a, x, k);
  }
}
