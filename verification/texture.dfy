/**
 * Textures (src/texture.rs): a solid colour, or a 3-D checkerboard that alternates
 * between two other textures from one cube of side `scale` to the next.
 */
module Textures {
  import opened Casts
  import opened Intervals
  import opened Vectors
  import Colors

  /** The textures behind `Rc<dyn Texture>`. */
  datatype Texture =
    | SolidColor(albedo: Colors.Color)
    | Checkerboard(scale: real, even: Texture, odd: Texture)

  /** `SolidColor::new` and `From<Color> for SolidColor`. */
  function SolidColorNew(albedo: Colors.Color): (t: Texture)
    ensures forall u: real, v: real, p: Point3 :: Value(t, u, v, p) == albedo
  {
    SolidColor(albedo)
  }

  /** `Checkerboard::new`. */
  function CheckerboardNew(scale: real, even: Texture, odd: Texture): (t: Texture)
    ensures t.Checkerboard? && t.scale == scale && t.even == even && t.odd == odd
  {
    Checkerboard(scale, even, odd)
  }

  /**
   * `Checkerboard::solid`: a checkerboard of two solid colours, which gives the even colour
   * on even cubes and the odd colour on the others.
   */
  function CheckerboardSolid(scale: real, even: Colors.Color, odd: Colors.Color): (t: Texture)
    ensures forall u: real, v: real, p: Point3 :: Value(t, u, v, p) == if IsEven(scale, p) then even else odd
  {
    Checkerboard(scale, SolidColor(even), SolidColor(odd))
  }

  /**
   * `f64::floor(x) as i32` for a distance that may be infinite or NaN: infinities
   * saturate, NaN becomes zero.
   */
  function FloorToI32(e: EReal): (n: I32)
    ensures e.Finite? && I32Min <= e.v.Floor <= I32Max ==> n == e.v.Floor
  {
    match e
    case Finite(x) => SaturateI32(x.Floor)
    case PosInf => I32Max
    case NegInf => I32Min
    case NaN => 0
  }

  /** The index of the cube layer holding coordinate `c`: `floor((1 / scale) * c) as i32`. */
  function Layer(scale: real, c: real): I32
  {
    FloorToI32(MulE(Quotient(1.0, scale), Finite(c)))
  }

  /**
   * The parity test of `Checkerboard::value`: the i32 sum of the three layer indices is
   * divisible by two (Rust's `%` and Dafny's give zero for the same sums). Wrap-around of
   * the sum never changes its parity, so the test is the parity of the plain sum.
   */
  predicate IsEven(scale: real, p: Point3)
    ensures IsEven(scale, p) <==> (Layer(scale, p.x) + Layer(scale, p.y) + Layer(scale, p.z)) % 2 == 0
  {
    WrappedSumParity(Layer(scale, p.x), Layer(scale, p.y), Layer(scale, p.z));
    WrapI32(WrapI32(Layer(scale, p.x) + Layer(scale, p.y)) + Layer(scale, p.z)) % 2 == 0
  }

  /** `Texture::value`: a solid colour ignores its inputs; a checkerboard asks one of its two textures. */
  function Value(t: Texture, u: real, v: real, p: Point3): (c: Colors.Color)
    ensures t.SolidColor? ==> c == t.albedo
    ensures t.Checkerboard? && IsEven(t.scale, p) ==> c == Value(t.even, u, v, p)
    ensures t.Checkerboard? && !IsEven(t.scale, p) ==> c == Value(t.odd, u, v, p)
  {
    match t
    case SolidColor(albedo) => albedo
    case Checkerboard(scale, even, odd) =>
      if IsEven(scale, p) then Value(even, u, v, p) else Value(odd, u, v, p)
  }

  /** The cube index of `c` along one axis, as a mathematical integer. */
  function Cell(scale: real, c: real): int
    requires scale != 0.0
  {
    (c / scale).Floor
  }

  /** Every cube index of the point fits in an i32. */
  predicate CellsFit(scale: real, p: Point3)
    requires scale != 0.0
  {
    I32Min <= Cell(scale, p.x) <= I32Max && I32Min <= Cell(scale, p.y) <= I32Max &&
    I32Min <= Cell(scale, p.z) <= I32Max
  }

  /** For a non-zero scale and a cube index that fits, the layer is the cube index. */
  lemma LayerIsCell(scale: real, c: real)
    requires scale != 0.0 && I32Min <= Cell(scale, c) <= I32Max
    ensures Layer(scale, c) == Cell(scale, c)
  {
    assert (1.0 / scale) * c == c / scale;
  }

  /**
   * For a non-zero scale and cube indices that fit in an i32, the checkerboard picks the
   * even texture exactly when the sum of the three cube indices is even, whatever the
   * wrap-around of the i32 sum.
   */
  lemma IsEvenIffCellSumEven(scale: real, p: Point3)
    requires scale != 0.0 && CellsFit(scale, p)
    ensures IsEven(scale, p) <==> (Cell(scale, p.x) + Cell(scale, p.y) + Cell(scale, p.z)) % 2 == 0
  {
    var a, b, c := Cell(scale, p.x), Cell(scale, p.y), Cell(scale, p.z);
    assert Layer(scale, p.x) == a && Layer(scale, p.y) == b && Layer(scale, p.z) == c by {
      LayerIsCell(scale, p.x);
      LayerIsCell(scale, p.y);
      LayerIsCell(scale, p.z);
    }
  }

  /** The i32 sum of three numbers, wrapped after each addition, has the parity of their plain sum. */
  lemma WrappedSumParity(a: int, b: int, c: int)
    ensures WrapI32(WrapI32(a + b) + c) % 2 == (a + b + c) % 2
  {
    WrapI32KeepsParity(a + b);
    WrapI32KeepsParity(WrapI32(a + b) + c);
    SumParity(WrapI32(a + b), a + b, c);
  }

  /** Numbers of the same parity stay of the same parity after adding the same number. */
  lemma SumParity(m: int, n: int, c: int)
    requires m % 2 == n % 2
    ensures (m + c) % 2 == (n + c) % 2
  {
    var q, r := m / 2, n / 2;
    assert m == 2 * q + m % 2 && n == 2 * r + n % 2;
    assert m + c == (n + c) + 2 * (q - r);
    ShiftParity(n + c, q - r);
  }

  lemma ShiftParity(n: int, j: int)
    ensures (n + 2 * j) % 2 == n % 2
  {
  }

  lemma FlipParity(n: int)
    ensures (n + 1) % 2 != n % 2
  {
  }

  /** Moving a coordinate by `k` whole cubes moves its cube index by `k`. */
  lemma CellShift(scale: real, c: real, k: int)
    requires scale != 0.0
    ensures Cell(scale, c + (k as real) * scale) == Cell(scale, c) + k
  {
    assert (c + (k as real) * scale) / scale == c / scale + k as real;
  }

  /** The point moved by `d` along the x axis. */
  function ShiftX(p: Point3, d: real): (q: Point3)
    ensures q.x == p.x + d && q.y == p.y && q.z == p.z
  {
    Vectors.Add(p, Vectors.New(d, 0.0, 0.0))
  }

  /**
   * Moving a point two cubes along x keeps the checkerboard's choice, and moving it one
   * cube flips it (for a non-zero scale and cube indices that fit in an i32).
   */
  lemma ShiftKeepsOrFlipsTile(scale: real, p: Point3)
    requires scale != 0.0 && CellsFit(scale, p)
    requires CellsFit(scale, ShiftX(p, 2.0 * scale)) && CellsFit(scale, ShiftX(p, scale))
    ensures IsEven(scale, ShiftX(p, 2.0 * scale)) == IsEven(scale, p)
    ensures IsEven(scale, ShiftX(p, scale)) != IsEven(scale, p)
  {
    var a, b, c := Cell(scale, p.x), Cell(scale, p.y), Cell(scale, p.z);
    var p2, p1 := ShiftX(p, 2.0 * scale), ShiftX(p, scale);
    assert Cell(scale, p2.x) == a + 2 by { CellShift(scale, p.x, 2); }
    assert Cell(scale, p1.x) == a + 1 by { CellShift(scale, p.x, 1); }
    assert IsEven(scale, p) <==> (a + b + c) % 2 == 0 by { IsEvenIffCellSumEven(scale, p); }
    assert IsEven(scale, p2) <==> (a + 2 + b + c) % 2 == 0 by { IsEvenIffCellSumEven(scale, p2); }
    assert IsEven(scale, p1) <==> (a + 1 + b + c) % 2 == 0 by { IsEvenIffCellSumEven(scale, p1); }
    assert (a + 2 + b + c) % 2 == (a + b + c) % 2 by { ShiftParity(a + b + c, 1); }
    assert (a + 1 + b + c) % 2 != (a + b + c) % 2 by { FlipParity(a + b + c); }
  }

  /** The checkerboard's colour is always the colour one of its two textures gives there. */
  lemma CheckerboardPicksOne(t: Texture, u: real, v: real, p: Point3)
    requires t.Checkerboard?
    ensures Value(t, u, v, p) == Value(t.even, u, v, p) || Value(t, u, v, p) == Value(t.odd, u, v, p)
  {
  }
}
