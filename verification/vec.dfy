/**
 * Three-component vectors (src/math/vec.rs). The `Normalized`/`Unknown` type marker is
 * carried as an ordinary field: like the Rust marker it is never checked against the
 * actual length, and equality ignores it.
 */
module Vectors {
  import opened RealMath
  import opened Wrappers

  /** The unit-length marker `N` of `Vec3<N>`. */
  datatype Norm = Unknown | Normalized

  datatype Vec3 = Vec3(x: real, y: real, z: real, marker: Norm)

  /** A position in space: the same three coordinates. */
  type Point3 = Vec3

  /** `PartialEq`: coordinates only, the marker is ignored. */
  predicate Eq(a: Vec3, b: Vec3)
  {
    a.x == b.x && a.y == b.y && a.z == b.z
  }

  /** `Vec3::new`. */
  function New(x: real, y: real, z: real): Vec3
  {
    Vec3(x, y, z, Unknown)
  }

  /** `Vec3::empty`: the zero vector, identity of addition and its own negation. */
  function Empty(): (e: Vec3)
    ensures forall v: Vec3 :: Eq(Add(v, e), v) && Eq(Add(e, v), v)
    ensures Eq(Neg(e), e)
  {
    Vec3(0.0, 0.0, 0.0, Unknown)
  }

  /** All three coordinates are zero. */
  predicate IsZero(v: Vec3)
  {
    v.x == 0.0 && v.y == 0.0 && v.z == 0.0
  }

  /** `Vec3::dot`. */
  function Dot(a: Vec3, b: Vec3): real
  {
    a.x * b.x + a.y * b.y + a.z * b.z
  }

  /** `Vec3::len_squared`: the dot product of a vector with itself. */
  function LenSquared(v: Vec3): real
  {
    v.x * v.x + v.y * v.y + v.z * v.z
  }

  /** The squared length is never negative, and is positive for every vector but the zero vector. */
  lemma LenSquaredSign(v: Vec3)
    ensures LenSquared(v) >= 0.0
    ensures LenSquared(v) > 0.0 <==> !IsZero(v)
  {
    SquareSign(v.x);
    SquareSign(v.y);
    SquareSign(v.z);
    assert LenSquared(v) == Square(v.x) + Square(v.y) + Square(v.z);
  }

  /**
   * `Vec3::len`: the square root of `len_squared`, zero exactly for the zero vector. Its
   * square is at least `len_squared`, and `LenUpperBound` shows it is at most
   * `len_squared` times `1 + SqrtSlack`.
   */
  function Len(v: Vec3): (r: real)
    ensures r >= 0.0 && LenSquared(v) <= r * r
    ensures r > 0.0 <==> !IsZero(v)
  {
    LenSquaredSign(v);
    Sqrt(LenSquared(v))
  }

  /** The dot product is symmetric and `len_squared` is a vector's dot product with itself. */
  lemma DotFacts(a: Vec3, b: Vec3)
    ensures Dot(a, b) == Dot(b, a)
    ensures LenSquared(a) == Dot(a, a)
  {
  }

  /** `Vec3::cross`. */
  function Cross(a: Vec3, b: Vec3): (r: Vec3)
    ensures r.marker == Unknown
  {
    Vec3(a.y * b.z - a.z * b.y, a.z * b.x - a.x * b.z, a.x * b.y - a.y * b.x, Unknown)
  }

  /** The cross product is perpendicular to both operands. */
  lemma CrossOrthogonal(a: Vec3, b: Vec3)
    ensures Dot(a, Cross(a, b)) == 0.0
    ensures Dot(b, Cross(a, b)) == 0.0
  {
    var r := Cross(a, b);
    assert Dot(a, r) == a.x * (a.y * b.z - a.z * b.y) + a.y * (a.z * b.x - a.x * b.z) + a.z * (a.x * b.y - a.y * b.x);
    assert Dot(b, r) == b.x * (a.y * b.z - a.z * b.y) + b.y * (a.z * b.x - a.x * b.z) + b.z * (a.x * b.y - a.y * b.x);
  }

  /**
   * Lagrange's identity: the squared length of `a × b` is the product of the squared
   * lengths less the square of the dot product.
   */
  lemma CrossLenSquared(a: Vec3, b: Vec3)
    ensures LenSquared(Cross(a, b)) == LenSquared(a) * LenSquared(b) - Dot(a, b) * Dot(a, b)
  {
    var c := Cross(a, b);
    assert LenSquared(c) == (a.y * b.z - a.z * b.y) * (a.y * b.z - a.z * b.y)
      + (a.z * b.x - a.x * b.z) * (a.z * b.x - a.x * b.z)
      + (a.x * b.y - a.y * b.x) * (a.x * b.y - a.y * b.x);
  }

  /** The cross product is anti-commutative, and a vector crossed with any multiple of itself is zero. */
  lemma CrossFacts(a: Vec3, b: Vec3, k: real)
    ensures Eq(Cross(a, b), Neg(Cross(b, a)))
    ensures IsZero(Cross(a, Mul(a, k)))
  {
    assert a.y * (a.z * k) == a.z * (a.y * k);
    assert a.z * (a.x * k) == a.x * (a.z * k);
    assert a.x * (a.y * k) == a.y * (a.x * k);
  }

  /** `Neg`: keeps the marker, since negation keeps the length. */
  function Neg(v: Vec3): (r: Vec3)
    ensures r.marker == v.marker
    ensures IsZero(Add(v, r))
  {
    Vec3(-v.x, -v.y, -v.z, v.marker)
  }

  /** `Add`: the sum has no unit-length promise. */
  function Add(a: Vec3, b: Vec3): (r: Vec3)
    ensures r.marker == Unknown
  {
    Vec3(a.x + b.x, a.y + b.y, a.z + b.z, Unknown)
  }

  /** Addition is commutative and associative. */
  lemma AddFacts(a: Vec3, b: Vec3, c: Vec3)
    ensures Add(a, b) == Add(b, a)
    ensures Add(Add(a, b), c) == Add(a, Add(b, c))
  {
  }

  /** `Sub`: defined as adding the negation. */
  function Sub(a: Vec3, b: Vec3): Vec3
  {
    Add(a, Neg(b))
  }

  /** Subtraction is componentwise and undoes addition. */
  lemma SubFacts(a: Vec3, b: Vec3)
    ensures Sub(a, b) == Vec3(a.x - b.x, a.y - b.y, a.z - b.z, Unknown)
    ensures Eq(Add(Sub(a, b), b), a)
    ensures IsZero(Sub(a, a))
  {
  }

  /** `Mul<f64>`: scaling, with no unit-length promise. */
  function Mul(v: Vec3, k: real): (r: Vec3)
    ensures r.marker == Unknown
  {
    Vec3(v.x * k, v.y * k, v.z * k, Unknown)
  }

  /** Scaling by `k` scales the squared length by the square of `k`. */
  lemma MulLenSquared(v: Vec3, k: real)
    ensures LenSquared(Mul(v, k)) == Square(k) * LenSquared(v)
  {
    var r := Mul(v, k);
    assert LenSquared(r) == k * k * (v.x * v.x) + k * k * (v.y * v.y) + k * k * (v.z * v.z);
  }

  /** `f64 * Vec3`: the same as `Vec3 * f64`. */
  function ScalarMul(k: real, v: Vec3): Vec3
  {
    Mul(v, k)
  }

  /** Scaling distributes over addition and composes by multiplying the factors. */
  lemma MulFacts(a: Vec3, b: Vec3, k: real, m: real)
    ensures Mul(Add(a, b), k) == Add(Mul(a, k), Mul(b, k))
    ensures Mul(Mul(a, k), m) == Mul(a, k * m)
    ensures Dot(a, Mul(b, k)) == k * Dot(a, b)
    ensures Eq(Mul(a, 1.0), a)
  {
  }

  /** Scaling by a sum of factors is the sum of the scalings. */
  lemma MulAddFactors(a: Vec3, k: real, m: real)
    ensures Mul(a, k + m) == Add(Mul(a, k), Mul(a, m))
  {
  }

  /** `Div<f64>`: multiplication by the reciprocal, which scaling back undoes. */
  function Div(v: Vec3, n: real): (r: Vec3)
    requires n != 0.0
    ensures Eq(Mul(r, n), v)
  {
    Mul(v, 1.0 / n)
  }

  /**
   * `Vec3::normalize`: the vector divided by its length, marked `Normalized`. It is a
   * positive multiple of the input, and its squared length is one up to the relative
   * error of the square root: between `1 - SqrtSlack` and one. A zero vector, for which
   * f64 division gives NaN components, yields the zero vector here.
   */
  function Normalize(v: Vec3): (r: Vec3)
    ensures r.marker == Normalized
    ensures LenSquared(r) <= 1.0
    ensures !IsZero(v) ==> 1.0 - SqrtSlack <= LenSquared(r)
    ensures IsZero(v) ==> IsZero(r)
    ensures !IsZero(v) ==> Dot(v, r) > 0.0 && IsZero(Cross(v, r))
  {
    if IsZero(v) then Vec3(0.0, 0.0, 0.0, Normalized)
    else
      var l := Len(v);
      LenUpperBound(v, l);
      DivideByLength(v, l)
  }

  /** The square of the length exceeds `len_squared` by a relative error of at most `SqrtSlack`. */
  lemma LenUpperBound(v: Vec3, l: real)
    requires l == Len(v)
    ensures l * l <= LenSquared(v) * (1.0 + SqrtSlack)
  {
    LenSquaredSign(v);
    SqrtUpperBound(LenSquared(v), l);
  }

  /** A non-zero vector divided by `l`, its length, and marked `Normalized`. */
  function DivideByLength(v: Vec3, l: real): (r: Vec3)
    requires !IsZero(v) && l > 0.0 && LenSquared(v) <= l * l <= LenSquared(v) * (1.0 + SqrtSlack)
    ensures r.marker == Normalized
    ensures 1.0 - SqrtSlack <= LenSquared(r) <= 1.0
    ensures Dot(v, r) > 0.0 && IsZero(Cross(v, r))
    ensures r == Mul(v, 1.0 / l).(marker := Normalized)
  {
    var k := 1.0 / l;
    var r := Mul(v, k).(marker := Normalized);
    NormalizeFacts(v, l, k, r);
    r
  }

  /** A normalised non-zero vector is a positive multiple of the original. */
  lemma NormalizeIsMultiple(v: Vec3) returns (k: real)
    ensures IsZero(v) ==> Normalize(v) == Vec3(0.0, 0.0, 0.0, Normalized)
    ensures !IsZero(v) ==> k > 0.0 && Normalize(v) == Mul(v, k).(marker := Normalized)
  {
    k := 1.0;
    if !IsZero(v) {
      k := 1.0 / Len(v);
    }
  }

  /**
   * Scaling a non-zero vector by the reciprocal of a close upper bound `l` of its length
   * gives a vector of squared length at most one and at least `1 - SqrtSlack`, pointing
   * the same way.
   */
  lemma NormalizeFacts(v: Vec3, l: real, k: real, r: Vec3)
    requires !IsZero(v) && l > 0.0 && LenSquared(v) <= l * l && k == 1.0 / l
    requires l * l <= LenSquared(v) * (1.0 + SqrtSlack)
    requires r == Mul(v, k).(marker := Normalized)
    ensures 1.0 - SqrtSlack <= LenSquared(r) <= 1.0
    ensures Dot(v, r) > 0.0
    ensures IsZero(Cross(v, r))
  {
    var s := LenSquared(v);
    ReciprocalScaling(l, k, s, SqrtSlack);
    assert LenSquared(r) == Square(k) * s by {
      assert LenSquared(r) == LenSquared(Mul(v, k));
      MulLenSquared(v, k);
    }
    ScaledSameWay(v, k, r);
  }

  /** A positive multiple of a non-zero vector points the same way as the vector. */
  lemma ScaledSameWay(v: Vec3, k: real, r: Vec3)
    requires !IsZero(v) && k > 0.0 && r == Mul(v, k).(marker := Normalized)
    ensures Dot(v, r) > 0.0 && IsZero(Cross(v, r))
  {
    var s := LenSquared(v);
    assert s > 0.0 by { LenSquaredSign(v); }
    assert Dot(v, r) == Product(k, s) by { MulFacts(v, v, k, 1.0); }
    ProductPositive(k, s);
    assert Cross(v, r) == Cross(v, Mul(v, k));
    CrossFacts(v, v, k);
  }

  /** `Vec3::as_unit`: normalisation of a copy, whatever the marker says. */
  function AsUnit(v: Vec3): (r: Vec3)
    ensures r == Normalize(v)
  {
    Normalize(v)
  }

  /**
   * `as_unit` of a non-zero vector is marked `Normalized`, has unit length up to the
   * square root's relative error, and points the same way as the vector.
   */
  lemma AsUnitIsUnit(v: Vec3)
    requires !IsZero(v)
    ensures AsUnit(v).marker == Normalized
    ensures 1.0 - SqrtSlack <= LenSquared(AsUnit(v)) <= 1.0
    ensures Dot(v, AsUnit(v)) > 0.0 && IsZero(Cross(v, AsUnit(v)))
  {
  }

  /**
   * The length of a normalised non-zero vector is within 0.001 of one, the tolerance
   * with which the source's normalisation test compares it.
   */
  lemma NormalizedLenNearOne(v: Vec3)
    requires !IsZero(v)
    ensures -0.001 < Len(Normalize(v)) - 1.0 < 0.001
  {
    var n := Normalize(v);
    var l := Len(n);
    LenUpperBound(n, l);
    NearOne(l, LenSquared(n));
  }

  /** `Vec3::assert_is_normalized`: relabels the vector without looking at its length. */
  function AssertIsNormalized(v: Vec3): (r: Vec3)
    ensures Eq(r, v) && r.marker == Normalized
  {
    v.(marker := Normalized)
  }

  /** A vector of length exactly one is its own normalisation. */
  lemma NormalizeUnit(v: Vec3)
    requires LenSquared(v) == 1.0
    ensures Eq(Normalize(v), v)
  {
    assert !IsZero(v) by { LenSquaredSign(v); }
    assert Len(v) == 1.0;
    MulFacts(v, v, 1.0, 1.0);
  }

  /**
   * `Vec3::random_in_unit_sphere`: rejection sampling. The random draws (each a vector with
   * coordinates in -1..=1) are given in order; the first one strictly inside the unit ball
   * is returned. None stands for the source looping on past every given draw.
   */
  method RandomInUnitSphere(draws: seq<Vec3>) returns (p: Option<Vec3>)
    ensures p.Some? <==> exists i | 0 <= i < |draws| :: LenSquared(draws[i]) < 1.0
    ensures p.Some? ==> LenSquared(p.value) < 1.0
    ensures p.Some? ==> exists i | 0 <= i < |draws| ::
      draws[i] == p.value && forall j | 0 <= j < i :: LenSquared(draws[j]) >= 1.0
  {
    var i := 0;
    while i < |draws|
      invariant 0 <= i <= |draws|
      invariant forall j | 0 <= j < i :: LenSquared(draws[j]) >= 1.0
    {
      if LenSquared(draws[i]) < 1.0 {
        return Some(draws[i]);
      }
      i := i + 1;
    }
    return None;
  }

  /** A `Vec3` variable updated in place by the compound-assignment operators. */
  class Vec3Var {
    var value: Vec3

    constructor (v: Vec3)
      ensures value == v
    {
      value := v;
    }

    /** `AddAssign`. */
    method AddAssign(rhs: Vec3)
      modifies this
      ensures value == Add(old(value), rhs)
    {
      value := Add(value, rhs);
    }

    /** `SubAssign`. */
    method SubAssign(rhs: Vec3)
      modifies this
      ensures value == Sub(old(value), rhs)
    {
      value := Sub(value, rhs);
    }

    /** `MulAssign<f64>`. */
    method MulAssign(k: real)
      modifies this
      ensures value == Mul(old(value), k)
    {
      value := Mul(value, k);
    }

    /** `DivAssign<f64>`. */
    method DivAssign(n: real)
      requires n != 0.0
      modifies this
      ensures value == Div(old(value), n)
    {
      value := Div(value, n);
    }
  }
}
