/**
 * Two-component vectors (src/math/vec/two_d.rs), with the same `Normalized`/`Unknown`
 * marker as the three-component ones.
 */
module TwoD {
  import opened RealMath
  import opened Wrappers
  import Vectors

  datatype Vec2 = Vec2(x: real, y: real, marker: Vectors.Norm)

  /** `PartialEq`: coordinates only, the marker is ignored. */
  predicate Eq(a: Vec2, b: Vec2)
  {
    a.x == b.x && a.y == b.y
  }

  /** `Vec2::new`. */
  function New(x: real, y: real): Vec2
  {
    Vec2(x, y, Vectors.Unknown)
  }

  /** `Vec2::empty`: the zero vector, identity of addition and its own negation. */
  function Empty(): (e: Vec2)
    ensures forall v: Vec2 :: Eq(Add(v, e), v) && Eq(Add(e, v), v)
    ensures Eq(Neg(e), e)
  {
    Vec2(0.0, 0.0, Vectors.Unknown)
  }

  predicate IsZero(v: Vec2)
  {
    v.x == 0.0 && v.y == 0.0
  }

  /** `Vec2::len_squared`. */
  function LenSquared(v: Vec2): real
  {
    v.x * v.x + v.y * v.y
  }

  /** The squared length is never negative, and is positive for every vector but the zero vector. */
  lemma LenSquaredSign(v: Vec2)
    ensures LenSquared(v) >= 0.0
    ensures LenSquared(v) > 0.0 <==> !IsZero(v)
  {
    SquareSign(v.x);
    SquareSign(v.y);
    assert LenSquared(v) == Square(v.x) + Square(v.y);
  }

  /**
   * `Vec2::len`: the square root of `len_squared`, zero exactly for the zero vector. Its
   * square is at least `len_squared`, and `LenUpperBound` shows it is at most
   * `len_squared` times `1 + SqrtSlack`.
   */
  function Len(v: Vec2): (r: real)
    ensures r >= 0.0 && LenSquared(v) <= r * r
    ensures r > 0.0 <==> !IsZero(v)
  {
    LenSquaredSign(v);
    Sqrt(LenSquared(v))
  }

  /** `Vec2::dot`. */
  function Dot(a: Vec2, b: Vec2): real
  {
    a.x * b.x + a.y * b.y
  }

  /** The dot product is symmetric and `len_squared` is a vector's dot product with itself. */
  lemma DotFacts(a: Vec2, b: Vec2)
    ensures Dot(a, b) == Dot(b, a)
    ensures LenSquared(a) == Dot(a, a)
  {
  }

  /** The threshold of `Vec2::near_zero`: 1e-8. */
  const NearZeroThreshold: real := 0.00000001

  /** `Vec2::near_zero`: both coordinates are within 1e-8 of zero. */
  predicate NearZero(v: Vec2)
  {
    Abs(v.x) < NearZeroThreshold && Abs(v.y) < NearZeroThreshold
  }

  /**
   * A near-zero vector has a squared length below twice the squared threshold; the zero
   * vector is near zero, and so is every vector with coordinates inside the threshold.
   */
  lemma NearZeroFacts(v: Vec2)
    ensures NearZero(v) ==> LenSquared(v) < 2.0 * (NearZeroThreshold * NearZeroThreshold)
    ensures IsZero(v) ==> NearZero(v)
    ensures NearZero(v) <==> -NearZeroThreshold < v.x < NearZeroThreshold && -NearZeroThreshold < v.y < NearZeroThreshold
  {
    if NearZero(v) {
      SquareBelow(v.x, NearZeroThreshold);
      SquareBelow(v.y, NearZeroThreshold);
      assert LenSquared(v) == Square(v.x) + Square(v.y);
    }
  }

  /** A number strictly inside `(-t, t)` has a square below `t * t`. */
  lemma SquareBelow(a: real, t: real)
    requires Abs(a) < t
    ensures Square(a) < t * t
  {
    var b := Abs(a);
    assert Square(a) == b * b;
    assert t * t - b * b == (t - b) * (t + b);
    ProductPositive(t - b, t + b);
    assert Product(t - b, t + b) == (t - b) * (t + b);
  }

  /** `Neg`: keeps the marker. */
  function Neg(v: Vec2): (r: Vec2)
    ensures r.marker == v.marker
    ensures IsZero(Add(v, r))
  {
    Vec2(-v.x, -v.y, v.marker)
  }

  /** `Add`: the sum has no unit-length promise. */
  function Add(a: Vec2, b: Vec2): (r: Vec2)
    ensures r.marker == Vectors.Unknown
  {
    Vec2(a.x + b.x, a.y + b.y, Vectors.Unknown)
  }

  /** Addition is commutative and associative. */
  lemma AddFacts(a: Vec2, b: Vec2, c: Vec2)
    ensures Add(a, b) == Add(b, a)
    ensures Add(Add(a, b), c) == Add(a, Add(b, c))
  {
  }

  /** `Sub`: defined as adding the negation. */
  function Sub(a: Vec2, b: Vec2): Vec2
  {
    Add(a, Neg(b))
  }

  /** Subtraction is componentwise and undoes addition. */
  lemma SubFacts(a: Vec2, b: Vec2)
    ensures Sub(a, b) == Vec2(a.x - b.x, a.y - b.y, Vectors.Unknown)
    ensures Eq(Add(Sub(a, b), b), a)
    ensures IsZero(Sub(a, a))
  {
  }

  /** `Mul<f64>`: scaling, with no unit-length promise. */
  function Mul(v: Vec2, k: real): (r: Vec2)
    ensures r.marker == Vectors.Unknown
  {
    Vec2(v.x * k, v.y * k, Vectors.Unknown)
  }

  /** `f64 * Vec2`: the same as `Vec2 * f64`. */
  function ScalarMul(k: real, v: Vec2): Vec2
  {
    Mul(v, k)
  }

  /** Scaling distributes over addition, composes, and scales the squared length by `k * k`. */
  lemma MulFacts(a: Vec2, b: Vec2, k: real, m: real)
    ensures Mul(Add(a, b), k) == Add(Mul(a, k), Mul(b, k))
    ensures Mul(Mul(a, k), m) == Mul(a, k * m)
    ensures Dot(a, Mul(b, k)) == k * Dot(a, b)
    ensures LenSquared(Mul(a, k)) == Square(k) * LenSquared(a)
    ensures Eq(Mul(a, 1.0), a)
  {
    assert LenSquared(Mul(a, k)) == k * k * (a.x * a.x) + k * k * (a.y * a.y);
  }

  /** `Div<f64>`: multiplication by the reciprocal, which scaling back undoes. */
  function Div(v: Vec2, n: real): (r: Vec2)
    requires n != 0.0
    ensures Eq(Mul(r, n), v)
  {
    Mul(v, 1.0 / n)
  }

  /**
   * `Vec2::normalize`: the vector divided by its length, marked `Normalized`; a positive
   * multiple of the input whose squared length is one up to the relative error of the
   * square root: between `1 - SqrtSlack` and one. The zero vector (NaN in f64) yields
   * the zero vector.
   */
  function Normalize(v: Vec2): (r: Vec2)
    ensures r.marker == Vectors.Normalized
    ensures LenSquared(r) <= 1.0
    ensures !IsZero(v) ==> 1.0 - SqrtSlack <= LenSquared(r)
    ensures IsZero(v) ==> IsZero(r)
    ensures !IsZero(v) ==> Dot(v, r) > 0.0 && v.x * r.y == v.y * r.x
  {
    if IsZero(v) then Vec2(0.0, 0.0, Vectors.Normalized)
    else
      var l := Len(v);
      LenUpperBound(v, l);
      DivideByLength(v, l)
  }

  /** The square of the length exceeds `len_squared` by a relative error of at most `SqrtSlack`. */
  lemma LenUpperBound(v: Vec2, l: real)
    requires l == Len(v)
    ensures l * l <= LenSquared(v) * (1.0 + SqrtSlack)
  {
    LenSquaredSign(v);
    SqrtUpperBound(LenSquared(v), l);
  }

  /** A non-zero vector divided by `l`, its length, and marked `Normalized`. */
  function DivideByLength(v: Vec2, l: real): (r: Vec2)
    requires !IsZero(v) && l > 0.0 && LenSquared(v) <= l * l <= LenSquared(v) * (1.0 + SqrtSlack)
    ensures r.marker == Vectors.Normalized
    ensures 1.0 - SqrtSlack <= LenSquared(r) <= 1.0
    ensures Dot(v, r) > 0.0 && v.x * r.y == v.y * r.x
  {
    var k := 1.0 / l;
    NormalizeFacts(v, l, k);
    Mul(v, k).(marker := Vectors.Normalized)
  }

  /** Scaling a non-zero vector by the reciprocal of a close upper bound of its length. */
  lemma NormalizeFacts(v: Vec2, l: real, k: real)
    requires !IsZero(v) && l > 0.0 && LenSquared(v) <= l * l && k == 1.0 / l
    requires l * l <= LenSquared(v) * (1.0 + SqrtSlack)
    ensures 1.0 - SqrtSlack <= LenSquared(Mul(v, k)) <= 1.0
    ensures Dot(v, Mul(v, k)) > 0.0
    ensures v.x * Mul(v, k).y == v.y * Mul(v, k).x
  {
    var s := LenSquared(v);
    ReciprocalScaling(l, k, s, SqrtSlack);
    assert LenSquared(Mul(v, k)) == Square(k) * s by { MulFacts(v, v, k, 1.0); }
    ScaledSameWay(v, k);
  }

  /** A positive multiple of a non-zero vector lies on the same ray from the origin. */
  lemma ScaledSameWay(v: Vec2, k: real)
    requires !IsZero(v) && k > 0.0
    ensures Dot(v, Mul(v, k)) > 0.0
    ensures v.x * Mul(v, k).y == v.y * Mul(v, k).x
  {
    var s := LenSquared(v);
    assert s > 0.0 by { LenSquaredSign(v); }
    assert Dot(v, Mul(v, k)) == Product(k, s) by { MulFacts(v, v, k, 1.0); }
    ProductPositive(k, s);
    assert v.x * (v.y * k) == v.y * (v.x * k);
  }

  /** `Vec2::as_unit`: normalisation of a copy. */
  function AsUnit(v: Vec2): (r: Vec2)
    ensures r == Normalize(v)
  {
    Normalize(v)
  }

  /**
   * `as_unit` of a non-zero vector is marked `Normalized`, has unit length up to the
   * square root's relative error, and lies on the same ray from the origin.
   */
  lemma AsUnitIsUnit(v: Vec2)
    requires !IsZero(v)
    ensures AsUnit(v).marker == Vectors.Normalized
    ensures 1.0 - SqrtSlack <= LenSquared(AsUnit(v)) <= 1.0
    ensures Dot(v, AsUnit(v)) > 0.0 && v.x * AsUnit(v).y == v.y * AsUnit(v).x
  {
  }

  /** The length of a normalised non-zero vector is within 0.001 of one. */
  lemma NormalizedLenNearOne(v: Vec2)
    requires !IsZero(v)
    ensures -0.001 < Len(Normalize(v)) - 1.0 < 0.001
  {
    var n := Normalize(v);
    var l := Len(n);
    LenUpperBound(n, l);
    NearOne(l, LenSquared(n));
  }

  /**
   * `Vec2::random_in_unit_circle`: rejection sampling over the given draws (each with
   * coordinates in -1..=1); the first draw strictly inside the unit circle is returned.
   * None stands for the source looping on past every given draw.
   */
  method RandomInUnitCircle(draws: seq<Vec2>) returns (p: Option<Vec2>)
    ensures p.Some? <==> exists i | 0 <= i < |draws| :: LenSquared(draws[i]) < 1.0
    ensures p.Some? ==> LenSquared(p.value) < 1.0
    ensures p.Some? ==> exists i | 0 <= i < |draws| ::
      draws[i] == p.value && forall j | 0 <= j < i :: LenSquared(draws[j]) >= 1.0
  {
    var i := 0;
    while i < |draws|
      invariant 0 <= i <= |draws|
      invariant forall j | 0 <= j < i :: LenSquared(draws[j]) >= 1.0
    {
      if LenSquared(draws[i]) < 1.0 {
        return Some(draws[i]);
      }
      i := i + 1;
    }
    return None;
  }

  /** `From<Vec2> for Vec3`: the same x and y in the plane z = 0. */
  function ToVec3(v: Vec2): (r: Vectors.Vec3)
    ensures r.x == v.x && r.y == v.y && r.z == 0.0
    ensures r.marker == Vectors.Unknown
    ensures Vectors.LenSquared(r) == LenSquared(v)
  {
    Vectors.New(v.x, v.y, 0.0)
  }

  /** A `Vec2` variable updated in place by the compound-assignment operators. */
  class Vec2Var {
    var value: Vec2

    constructor (v: Vec2)
      ensures value == v
    {
      value := v;
    }

    /** `AddAssign`. */
    method AddAssign(rhs: Vec2)
      modifies this
      ensures value == Add(old(value), rhs)
    {
      value := Add(value, rhs);
    }

    /** `SubAssign`. */
    method SubAssign(rhs: Vec2)
      modifies this
      ensures value == Sub(old(value), rhs)
    {
      value := Sub(value, rhs);
    }

    /** `MulAssign<f64>`. */
    method MulAssign(k: real)
      modifies this
      ensures value == Mul(old(value), k)
    {
      value := Mul(value, k);
    }

    /** `DivAssign<f64>`. */
    method DivAssign(n: real)
      requires n != 0.0
      modifies this
      ensures value == Div(old(value), n)
    {
      value := Div(value, n);
    }
  }
}
