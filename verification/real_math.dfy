/**
 * Real-number helpers standing in for the f64 library calls the ray tracer makes.
 * `f64::sqrt` is modelled by bisection on the exact reals: the result is an upper bound
 * of the true root whose square exceeds the argument by a relative error of at most
 * three times 2^-64, and it is exact for 0 and 1.
 */
module RealMath {
  /** `f64::abs`. */
  function Abs(x: real): (r: real)
    ensures r >= 0.0 && (r == x || r == -x)
  {
    if x < 0.0 then -x else x
  }

  /** `f64::max` on non-NaN operands. */
  function Max(a: real, b: real): (r: real)
    ensures r >= a && r >= b && (r == a || r == b)
  {
    if a < b then b else a
  }

  /** `std::f64::consts::PI`, the double closest to pi (an exact rational). */
  const Pi: real := 3.141592653589793

  /** The relative width at which `Sqrt` stops bisecting: 2^-64. */
  const SqrtTolerance: real := 1.0 / 18446744073709551616.0

  lemma HalvingDecreases(w: real, tol: real)
    requires w > tol > 0.0
    ensures 0 <= ((w / 2.0) / tol).Floor < (w / tol).Floor
  {
    var q := w / tol;
    assert q > 1.0;
    assert (w / 2.0) / tol == q / 2.0;
  }

  /** `a` is at most the square root of `x`. */
  predicate BelowRoot(a: real, x: real)
  {
    a * a <= x
  }

  /** `a` is at least the square root of `x`. */
  predicate AboveRoot(a: real, x: real)
  {
    x <= a * a
  }

  /** An interval `[lo, hi]` known to hold a square root. */
  datatype Bracket = Bracket(lo: real, hi: real)

  /**
   * Bisection on a bracket `[lo, hi]` that holds the square root of `x`: keeps the half
   * whose upper end still squares to at least `x`, and returns the bracket once it is no
   * wider than `tol`.
   */
  function Bisect(x: real, lo: real, hi: real, tol: real): (b: Bracket)
    requires 0.0 <= lo <= hi && BelowRoot(lo, x) && AboveRoot(hi, x) && tol > 0.0
    ensures lo <= b.lo <= b.hi <= hi && b.hi - b.lo <= tol
    ensures BelowRoot(b.lo, x) && AboveRoot(b.hi, x)
    decreases ((hi - lo) / tol).Floor
  {
    if hi - lo <= tol then Bracket(lo, hi)
    else
      var mid := (lo + hi) / 2.0;
      HalvingDecreases(hi - lo, tol);
      if mid * mid < x then Bisect(x, mid, hi, tol)
      else Bisect(x, lo, mid, tol)
  }

  /**
   * The upper end of a final bracket inside `[0, hi]` squares to at most `x` plus the
   * error that a width of `tol` allows, and so to at most any bound above that.
   */
  lemma BracketUpper(x: real, lo: real, r: real, hi: real, tol: real, bound: real)
    requires 0.0 <= lo <= r <= hi && BelowRoot(lo, x) && tol > 0.0 && r - lo <= tol
    requires x + Product(2.0 * hi + tol, tol) <= bound
    ensures r * r <= bound
  {
    NarrowBracket(x, lo, r, tol);
    SlackWidens(r * r, x, 2.0 * r + tol, 2.0 * hi + tol, tol);
  }

  /** A bound with a smaller slack factor implies the bound with a larger one. */
  lemma SlackWidens(rr: real, x: real, a: real, b: real, tol: real)
    requires rr <= x + Product(a, tol) && a <= b && tol >= 0.0
    ensures rr <= x + Product(b, tol)
  {
    ProductMonotone(a, b, tol);
  }

  /** The upper end of a bracket no wider than `tol` squares to at most `x` plus the slack. */
  lemma NarrowBracket(x: real, lo: real, hi: real, tol: real)
    requires 0.0 <= lo <= hi && lo * lo <= x && tol > 0.0 && hi - lo <= tol
    ensures hi * hi <= x + Product(2.0 * hi + tol, tol)
  {
    var d := hi - lo;
    assert Product(d, hi + lo) == hi * hi - lo * lo;
    ProductMonotone(d, tol, hi + lo);
    assert Product(tol, hi + lo) == Product(hi + lo, tol);
    ProductMonotone(hi + lo, 2.0 * hi + tol, tol);
  }

  /** Multiplying by a non-negative factor keeps the order. */
  lemma ProductMonotone(a: real, b: real, t: real)
    requires a <= b && t >= 0.0
    ensures Product(a, t) <= Product(b, t)
  {
    ProductNonNegative(b - a, t);
    assert Product(b - a, t) == Product(b, t) - Product(a, t);
  }

  lemma SquareStrictlyMonotone(a: real, b: real)
    requires 0.0 <= a < b
    ensures a * a < b * b
  {
    var d, e := b - a, b + a;
    assert d > 0.0 && e > 0.0;
    assert d * e > 0.0;
    assert b * b - a * a == d * e;
  }

  lemma SquareAtLeastSelf(x: real)
    requires x > 1.0
    ensures x <= x * x
  {
    assert x * x - x == x * (x - 1.0);
  }

  /**
   * `f64::sqrt` for a non-negative argument: bisection from the bracket `[0, 1]` or `[0, x]`,
   * down to a width of `x` times 2^-64 below one and 2^-64 above. The result squares to
   * at least `x`; `SqrtUpperBound` shows it squares to at most `x` times `1 + SqrtSlack`.
   */
  function Sqrt(x: real): (r: real)
    requires x >= 0.0
    ensures r >= 0.0 && x <= r * r
    ensures x == 0.0 <==> r == 0.0
    ensures x <= 1.0 ==> r <= 1.0
    ensures x == 1.0 ==> r == 1.0
  {
    if x == 0.0 then 0.0
    else if x == 1.0 then 1.0
    else if x < 1.0 then
      var r := Bisect(x, 0.0, 1.0, x * SqrtTolerance).hi;
      assert r > 0.0;
      r
    else
      SquareAtLeastSelf(x);
      var r := Bisect(x, 0.0, x, SqrtTolerance).hi;
      assert r > 0.0;
      r
  }

  /**
   * The square root is exact up to a relative error: its square is at most `x` times
   * `1 + SqrtSlack`.
   */
  lemma SqrtUpperBound(x: real, r: real)
    requires x >= 0.0 && r == Sqrt(x)
    ensures r * r <= x * (1.0 + SqrtSlack)
  {
    if 0.0 < x < 1.0 {
      BelowOneBound(x, r);
    } else if x > 1.0 {
      SquareAtLeastSelf(x);
      AboveOneBound(x, r);
    }
  }

  /** Below one the bisected root squares to at most `x` times `1 + SqrtSlack`. */
  lemma BelowOneBound(x: real, r: real)
    requires 0.0 < x < 1.0 && r == Bisect(x, 0.0, 1.0, x * SqrtTolerance).hi
    ensures r * r <= x * (1.0 + SqrtSlack)
  {
    var t := SqrtTolerance;
    var b := Bisect(x, 0.0, 1.0, x * t);
    SlackBelowOne(x, t);
    BracketUpper(x, b.lo, b.hi, 1.0, x * t, x * (1.0 + SqrtSlack));
  }

  /** Above one the bisected root squares to at most `x` times `1 + SqrtSlack`. */
  lemma AboveOneBound(x: real, r: real)
    requires x > 1.0 && x <= x * x && r == Bisect(x, 0.0, x, SqrtTolerance).hi
    ensures r * r <= x * (1.0 + SqrtSlack)
  {
    var t := SqrtTolerance;
    SquareAtLeastSelf(x);
    var b := Bisect(x, 0.0, x, t);
    SlackAboveOne(x, t);
    BracketUpper(x, b.lo, b.hi, x, t, x * (1.0 + SqrtSlack));
  }

  /** The relative error `Sqrt` allows in the square of its result: three times 2^-64. */
  const SqrtSlack: real := 3.0 * SqrtTolerance

  /** Below one, the bisection slack is at most `SqrtSlack` relative to `x`. */
  lemma SlackBelowOne(x: real, t: real)
    requires 0.0 < x < 1.0 && t == SqrtTolerance
    ensures x + Product(2.0 * 1.0 + x * t, x * t) <= x * (1.0 + SqrtSlack)
  {
    var u := x * t;
    ProductMonotone(x, 1.0, t);
    assert u <= 1.0;
    ProductMonotone(u, 1.0, u);
    assert Product(2.0 * 1.0 + u, u) == 2.0 * u + Product(u, u);
    assert x * (1.0 + SqrtSlack) == x + 3.0 * u;
  }

  /** Above one, the bisection slack is at most `SqrtSlack` relative to `x`. */
  lemma SlackAboveOne(x: real, t: real)
    requires x > 1.0 && t == SqrtTolerance
    ensures x + Product(2.0 * x + t, t) <= x * (1.0 + SqrtSlack)
  {
    ProductMonotone(t, x, t);
    assert Product(2.0 * x + t, t) == 2.0 * (x * t) + Product(t, t);
    assert x * (1.0 + SqrtSlack) == x + 3.0 * (x * t);
  }

  /**
   * A product behind a function name. Sign facts about squares are stated about
   * `Square(a)` rather than about a bare `a * a`, so that they are facts about one term.
   */
  function Product(a: real, b: real): real
  {
    a * b
  }

  lemma ProductPositive(a: real, b: real)
    requires a > 0.0 && b > 0.0
    ensures Product(a, b) > 0.0
  {
  }

  lemma ProductNonNegative(a: real, b: real)
    requires a >= 0.0 && b >= 0.0
    ensures Product(a, b) >= 0.0
  {
    if a > 0.0 && b > 0.0 {
      ProductPositive(a, b);
    } else if a == 0.0 {
      assert Product(a, b) == Product(0.0, b);
    } else {
      assert Product(a, b) == Product(a, 0.0);
    }
  }

  /** The product of two numbers in 0..=1 is in 0..=1. */
  lemma UnitProduct(x: real, y: real)
    requires 0.0 <= x <= 1.0 && 0.0 <= y <= 1.0
    ensures 0.0 <= Product(x, y) <= 1.0
  {
    ProductNonNegative(x, y);
    ProductNonNegative(x, 1.0 - y);
    assert Product(x, 1.0 - y) == x - Product(x, y);
  }

  function Square(a: real): real
  {
    Product(a, a)
  }

  /** A square is never negative, and is zero only for zero. */
  lemma SquareSign(a: real)
    ensures Square(a) >= 0.0
    ensures Square(a) > 0.0 <==> a != 0.0
  {
    if a > 0.0 {
      ProductPositive(a, a);
    } else if a < 0.0 {
      ProductPositive(-a, -a);
      assert Product(a, a) == Product(-a, -a);
    } else {
      assert Product(a, a) == Product(0.0, 0.0);
    }
  }

  /** The square of a reciprocal times the square of the number is one. */
  lemma ReciprocalSquare(l: real, k: real)
    requires l > 0.0 && k == 1.0 / l
    ensures k > 0.0
    ensures Square(k) * (l * l) == 1.0
  {
    assert k * l == 1.0;
    assert (k * k) * (l * l) == (k * l) * (k * l);
  }

  /**
   * Scaling by the reciprocal of a number at most `1 + e` times `s` leaves `s` at least
   * `1 - e`.
   */
  lemma ScaledLowerBound(c: real, s: real, m: real, e: real)
    requires c >= 0.0 && e >= 0.0 && m <= s * (1.0 + e) && c * m == 1.0
    ensures 1.0 - e <= c * s
  {
    ProductMonotone(m, s * (1.0 + e), c);
    assert Product(m, c) == 1.0;
    var q := c * s - (1.0 - e);
    ProductNonNegative(e, e);
    assert Product(q, 1.0 + e) == Product(s * (1.0 + e), c) - 1.0 + Product(e, e);
    NonNegativeFactor(q, 1.0 + e);
  }

  /** A product with a positive factor that is not negative has a non-negative other factor. */
  lemma NonNegativeFactor(a: real, b: real)
    requires b > 0.0 && Product(a, b) >= 0.0
    ensures a >= 0.0
  {
    if a < 0.0 {
      ProductPositive(-a, b);
      assert false;
    }
  }

  /**
   * A number whose square is within the square root's error of a value that is itself
   * within that error of one lies within 0.001 of one.
   */
  lemma NearOne(l: real, s: real)
    requires l >= 0.0 && s <= l * l <= s * (1.0 + SqrtSlack)
    requires 1.0 - SqrtSlack <= s <= 1.0
    ensures -0.001 < l - 1.0 < 0.001
  {
    assert l * l <= 1.0 + SqrtSlack by {
      ProductMonotone(s, 1.0, 1.0 + SqrtSlack);
    }
    if l >= 1.001 {
      ProductMonotone(1.001, l, l);
      ProductMonotone(1.001, l, 1.001);
      assert false;
    }
    if l <= 0.999 {
      ProductMonotone(l, 0.999, l);
      ProductMonotone(l, 0.999, 0.999);
      assert false;
    }
  }

  /** The product of two numbers within `e` below one is within `2 e` below one. */
  lemma NearUnitProduct(p: real, q: real, e: real)
    requires 0.0 <= e <= 1.0 && 1.0 - e <= p <= 1.0 && 1.0 - e <= q <= 1.0
    ensures 1.0 - 2.0 * e <= p * q <= 1.0
  {
    ProductMonotone(p, 1.0, q);
    ProductMonotone(1.0 - e, p, q);
    ProductMonotone(1.0 - e, q, 1.0 - e);
    assert Product(1.0 - e, 1.0 - e) == 1.0 - 2.0 * e + Product(e, e);
    ProductNonNegative(e, e);
    assert Product(p, q) == p * q && Product(q, 1.0 - e) == Product(1.0 - e, q);
  }

  /**
   * The reciprocal `k` of a close upper bound `l` of a root of `s` scales `s` into
   * `[1 - e, 1]` through its square.
   */
  lemma ReciprocalScaling(l: real, k: real, s: real, e: real)
    requires l > 0.0 && k == 1.0 / l && e >= 0.0 && s <= l * l <= s * (1.0 + e)
    ensures k > 0.0 && 1.0 - e <= Square(k) * s <= 1.0
  {
    ReciprocalSquare(l, k);
    SquareSign(k);
    ScaledBound(Square(k), s, l * l);
    ScaledLowerBound(Square(k), s, l * l, e);
  }

  /** Scaling by the reciprocal of an upper bound gives at most one. */
  lemma ScaledBound(c: real, s: real, m: real)
    requires c >= 0.0 && s <= m && c * m == 1.0
    ensures c * s <= 1.0
  {
    assert c * m - c * s == c * (m - s);
    if c > 0.0 && m - s > 0.0 {
      ProductPositive(c, m - s);
    }
  }
}
