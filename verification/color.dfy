/**
 * RGB colours (src/math/color.rs): three channels that are meant to lie in 0..=1, with
 * quantisation to bytes, gamma correction and the text form of one pixel.
 */
module Colors {
  import opened RealMath
  import opened Wrappers
  import opened Intervals
  import opened Casts
  import opened Decimal
  import Vectors

  datatype Color = Color(r: real, g: real, b: real)

  /** `Color::new`. */
  function New(r: real, g: real, b: real): Color
  {
    Color(r, g, b)
  }

  /** The closed range 0..=1 that every valid channel lies in. */
  function Intensity(): (i: Interval)
    ensures forall x: real :: Contains(i, x) <==> 0.0 <= x <= 1.0
    ensures i.start == Finite(0.0) && i.end == Finite(1.0)
  {
    FromRange(RangeInclusive(Finite(0.0), Finite(1.0)))
  }

  /** `Color::is_valid`: every channel lies in `Intensity()`. */
  predicate IsValid(c: Color)
  {
    Contains(Intensity(), c.r) && Contains(Intensity(), c.g) && Contains(Intensity(), c.b)
  }

  /** A colour is valid exactly when each channel is between 0 and 1 inclusive. */
  lemma IsValidIff(c: Color)
    ensures IsValid(c) <==> 0.0 <= c.r <= 1.0 && 0.0 <= c.g <= 1.0 && 0.0 <= c.b <= 1.0
  {
  }

  /** `Color::black`: all channels zero, a valid colour. */
  function Black(): (c: Color)
    ensures c.r == 0.0 && c.g == 0.0 && c.b == 0.0
    ensures IsValid(c)
  {
    Color(0.0, 0.0, 0.0)
  }

  /** `Color::white`: all channels one, a valid colour. */
  function White(): (c: Color)
    ensures c.r == 1.0 && c.g == 1.0 && c.b == 1.0
    ensures IsValid(c)
  {
    Color(1.0, 1.0, 1.0)
  }

  /**
   * One channel of `as_rgb_ints`: clamped to 0..=1, scaled by 255 and truncated to a byte.
   * Below the range it gives 0, above it 255, and inside it the truncation of `x * 255`.
   */
  function Quantize(x: real): (q: U8)
    ensures x <= 0.0 ==> q == 0
    ensures x >= 1.0 ==> q == 255
    ensures 0.0 <= x <= 1.0 ==> q == F64ToU8(x * 255.0)
    ensures 0.0 <= x < 1.0 ==> q as real <= x * 255.0 < q as real + 1.0
  {
    var clamped := Clamp(Intensity(), x);
    F64ToU8(clamped.v * 255.0)
  }

  /** `Color::as_rgb_ints`: the three quantised channels in r, g, b order. */
  function AsRgbInts(c: Color): (q: seq<U8>)
    ensures |q| == 3
    ensures q[0] == Quantize(c.r) && q[1] == Quantize(c.g) && q[2] == Quantize(c.b)
  {
    [Quantize(c.r), Quantize(c.g), Quantize(c.b)]
  }

  /** `Color::as_unclamped_rgb_ints`: `channel * 255` truncated to a `u32`, with no clamping. */
  function AsUnclampedRgbInts(c: Color): (q: seq<U32>)
    ensures |q| == 3
    ensures q[0] == F64ToU32(c.r * 255.0) && q[1] == F64ToU32(c.g * 255.0) && q[2] == F64ToU32(c.b * 255.0)
  {
    [F64ToU32(c.r * 255.0), F64ToU32(c.g * 255.0), F64ToU32(c.b * 255.0)]
  }

  /**
   * For a valid colour clamping changes nothing: the byte and the unclamped conversions
   * agree and are the truncations of `channel * 255`. Black maps to 0s and white to 255s.
   */
  lemma RgbIntsOfValid(c: Color)
    requires IsValid(c)
    ensures AsRgbInts(c) == AsUnclampedRgbInts(c)
    ensures AsRgbInts(Black()) == [0, 0, 0]
    ensures AsRgbInts(White()) == [255, 255, 255]
  {
    ChannelAgrees(c.r);
    ChannelAgrees(c.g);
    ChannelAgrees(c.b);
  }

  lemma ChannelAgrees(x: real)
    requires 0.0 <= x <= 1.0
    ensures Quantize(x) == F64ToU32(x * 255.0)
  {
    if x < 1.0 {
      var q := F64ToU32(x * 255.0);
      assert q as real <= x * 255.0 < q as real + 1.0;
    }
  }

  /** `linear_to_gamma`: the square root of a positive value, zero otherwise. */
  function LinearToGamma(x: real): (g: real)
    ensures g >= 0.0
    ensures x <= 0.0 ==> g == 0.0
    ensures x > 0.0 ==> g > 0.0 && x <= g * g
    ensures x <= 1.0 ==> g <= 1.0
  {
    if x > 0.0 then Sqrt(x) else 0.0
  }

  /** For a positive value the square of the gamma value exceeds it by at most the square root's relative error. */
  lemma LinearToGammaUpper(x: real)
    requires x > 0.0
    ensures LinearToGamma(x) * LinearToGamma(x) <= x * (1.0 + SqrtSlack)
  {
    SqrtUpperBound(x, Sqrt(x));
  }

  /** `Color::as_gamma_corrected`: each channel through `linear_to_gamma`, independently. */
  function AsGammaCorrected(c: Color): (r: Color)
    ensures r.r == LinearToGamma(c.r) && r.g == LinearToGamma(c.g) && r.b == LinearToGamma(c.b)
  {
    Color(LinearToGamma(c.r), LinearToGamma(c.g), LinearToGamma(c.b))
  }

  /** Gamma correction never leaves the valid range: no channel is negative, and none above one grows. */
  lemma GammaKeepsValid(c: Color)
    ensures c.r <= 1.0 && c.g <= 1.0 && c.b <= 1.0 ==> IsValid(AsGammaCorrected(c))
    ensures IsValid(c) ==> IsValid(AsGammaCorrected(c))
  {
  }

  /** The text `write_color` emits for three channel values: `"r g b\n"`. */
  function RgbLine(q: seq<nat>): string
    requires |q| == 3
  {
    NatToString(q[0]) + " " + NatToString(q[1]) + " " + NatToString(q[2]) + "\n"
  }

  /** `write_color`: the line for the quantised channels of a colour; it reads back as those channels. */
  function WriteColor(c: Color): (s: string)
    ensures ReadRgbLine(s) == Some((AsRgbInts(c), ""))
  {
    RgbLineRoundTrip(AsRgbInts(c), "");
    assert RgbLine(AsRgbInts(c)) + "" == RgbLine(AsRgbInts(c));
    RgbLine(AsRgbInts(c))
  }

  /** Reads a number and then the separator `sep` at the front of `s`. */
  function ReadField(s: string, sep: char): (r: Option<(nat, string)>)
    ensures r.Some? ==> |r.value.1| < |s|
  {
    match ReadNat(s)
    case None => None
    case Some((n, s1)) =>
      match Expect(s1, sep)
      case None => None
      case Some(s2) => Some((n, s2))
  }

  /** Reads `"r g b\n"` at the front of `s`, returning the three numbers and the text after the line. */
  function ReadRgbLine(s: string): (r: Option<(seq<nat>, string)>)
    ensures r.Some? ==> |r.value.0| == 3 && |r.value.1| < |s|
  {
    match ReadField(s, ' ')
    case None => None
    case Some((r, s1)) =>
      match ReadField(s1, ' ')
      case None => None
      case Some((g, s2)) =>
        match ReadField(s2, '\n')
        case None => None
        case Some((b, s3)) => Some(([r, g, b], s3))
  }

  /** A written line reads back as the same three numbers, leaving the text that followed it. */
  lemma RgbLineRoundTrip(q: seq<nat>, rest: string)
    requires |q| == 3
    ensures ReadRgbLine(RgbLine(q) + rest) == Some((q, rest))
  {
    assert [q[0], q[1], q[2]] == q;
    var s2 := NatToString(q[2]) + ("\n" + rest);
    var s1 := NatToString(q[1]) + (" " + s2);
    assert RgbLine(q) + rest == NatToString(q[0]) + (" " + s1);
    ReadFieldRoundTrip(q[0], ' ', s1);
    ReadFieldRoundTrip(q[1], ' ', s2);
    ReadFieldRoundTrip(q[2], '\n', rest);
  }

  /** A number written before a separator reads back, the separator consumed. */
  lemma ReadFieldRoundTrip(n: nat, sep: char, after: string)
    requires sep == ' ' || sep == '\n'
    ensures ReadField(NatToString(n) + ([sep] + after), sep) == Some((n, after))
  {
    ReadNatRoundTrip(n, [sep] + after);
  }

  /** `Color::mul` (not part of this model's sources): the channelwise product. */
  function Mul(a: Color, b: Color): Color
  {
    Color(a.r * b.r, a.g * b.g, a.b * b.b)
  }

  /** `Color::from_vec3` (not part of this model's sources): the coordinates as channels. */
  function FromVec3(v: Vectors.Vec3): Color
  {
    Color(v.x, v.y, v.z)
  }

  /** The product of two valid colours is valid. */
  lemma MulKeepsValid(a: Color, b: Color)
    requires IsValid(a) && IsValid(b)
    ensures IsValid(Mul(a, b))
  {
    UnitProduct(a.r, b.r);
    UnitProduct(a.g, b.g);
    UnitProduct(a.b, b.b);
    assert Mul(a, b) == Color(Product(a.r, b.r), Product(a.g, b.g), Product(a.b, b.b));
  }

  /**
   * `Color::hex` (not part of this model's sources): the bytes `0xRRGGBB` of the number,
   * each over 255. Every such colour is valid.
   */
  function Hex(n: U32): (c: Color)
    ensures IsValid(c)
  {
    Color(((n / 0x1_0000) % 0x100) as real / 255.0, ((n / 0x100) % 0x100) as real / 255.0,
          (n % 0x100) as real / 255.0)
  }

  /** `Color::set_brightness` (not part of this model's sources): every channel times `k`. */
  function SetBrightness(c: Color, k: real): Color
  {
    Color(c.r * k, c.g * k, c.b * k)
  }
}
