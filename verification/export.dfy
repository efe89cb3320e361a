/**
 * Image writers (src/export.rs). The output stream a writer owns is modelled as the text
 * (PPM) or the image data (PNG) written to it so far; I/O errors and PNG encoding are not
 * part of this model.
 */
module Export {
  import opened Wrappers
  import opened Casts
  import opened Decimal
  import opened Colors

  /** The bytes a colour is written as: gamma corrected, then quantised, in r, g, b order. */
  function Pixel(c: Color): (q: seq<U8>)
    ensures |q| == 3
  {
    AsRgbInts(AsGammaCorrected(c))
  }

  /** The PPM header: the magic number, the dimensions, and the largest channel value. */
  function Header(width: U32, height: U32): string
  {
    "P3\n" + NatToString(width) + " " + NatToString(height) + "\n255\n"
  }

  /** Each entry holds three channel values. */
  predicate AllRgb(ps: seq<seq<nat>>)
  {
    forall i | 0 <= i < |ps| :: |ps[i]| == 3
  }

  /** The pixels of a list of colours, as lists of channel values. */
  function Pixels(colors: seq<Color>): (ps: seq<seq<nat>>)
    ensures |ps| == |colors| && forall i | 0 <= i < |colors| :: ps[i] == Pixel(colors[i])
    ensures AllRgb(ps)
  {
    seq(|colors|, i requires 0 <= i < |colors| => Pixel(colors[i]))
  }

  /** The concatenation of a list of texts, in order. */
  function Concat(ts: seq<string>): string
  {
    if ts == [] then "" else ts[0] + Concat(ts[1..])
  }

  /** Concatenating one more text appends it. */
  lemma {:induction false} ConcatSnoc(ts: seq<string>, t: string)
    ensures Concat(ts + [t]) == Concat(ts) + t
    decreases |ts|
  {
    if ts == [] {
      assert [] + [t] == [t];
      assert [t][1..] == [];
    } else {
      assert (ts + [t])[1..] == ts[1..] + [t];
      ConcatSnoc(ts[1..], t);
    }
  }

  /** The line of each pixel. */
  function LineTexts(ps: seq<seq<nat>>): (ts: seq<string>)
    requires AllRgb(ps)
    ensures |ts| == |ps| && forall i | 0 <= i < |ps| :: ts[i] == RgbLine(ps[i])
  {
    seq(|ps|, i requires 0 <= i < |ps| => RgbLine(ps[i]))
  }

  /** The lines for a list of pixels: one `"r g b\n"` line each, in order. */
  function Lines(ps: seq<seq<nat>>): string
    requires AllRgb(ps)
  {
    Concat(LineTexts(ps))
  }

  /** The PPM body: the lines of the colours' pixels. */
  function Body(colors: seq<Color>): string
  {
    Lines(Pixels(colors))
  }

  /** Reads the magic number `"P3\n"` at the front of `s`. */
  function ReadMagic(s: string): (r: Option<string>)
  {
    match Expect(s, 'P')
    case None => None
    case Some(s1) =>
      match Expect(s1, '3')
      case None => None
      case Some(s2) => Expect(s2, '\n')
  }

  /** Reads the PPM header at the front of `s`: width, height and the text after it. */
  function ReadHeader(s: string): (r: Option<(nat, nat, string)>)
  {
    match ReadMagic(s)
    case None => None
    case Some(s3) =>
      match ReadField(s3, ' ')
      case None => None
      case Some((w, s4)) =>
        match ReadField(s4, '\n')
        case None => None
        case Some((h, s5)) =>
          match ReadField(s5, '\n')
          case None => None
          case Some((m, s6)) => if m == 255 then Some((w, h, s6)) else None
  }

  lemma MagicRoundTrip(s: string)
    ensures ReadMagic("P3\n" + s) == Some(s)
  {
    var t := "P3\n" + s;
    assert t[0] == 'P' && t[1..] == "3\n" + s;
    assert t[1..][1..] == "\n" + s;
    assert t[1..][1..][1..] == s;
  }

  lemma Associate(a: string, b: string, rest: string)
    ensures "P3\n" + a + " " + b + "\n255\n" + rest == "P3\n" + (a + (" " + (b + ("\n" + ("255" + ("\n" + rest))))))
  {
    assert "\n255\n" == "\n" + ("255" + "\n");
  }

  /** The header reads back as the dimensions it was written with, leaving what follows it. */
  lemma HeaderRoundTrip(width: U32, height: U32, rest: string)
    ensures ReadHeader(Header(width, height) + rest) == Some((width, height, rest))
  {
    var w, h := NatToString(width), NatToString(height);
    MaxChannelText();
    var s5 := "255" + ("\n" + rest);
    var s4 := h + ("\n" + s5);
    var s3 := w + (" " + s4);
    Associate(w, h, rest);
    assert Header(width, height) + rest == "P3\n" + s3;
    MagicRoundTrip(s3);
    ReadFieldRoundTrip(width, ' ', s4);
    ReadFieldRoundTrip(height, '\n', s5);
    ReadFieldRoundTrip(255, '\n', rest);
  }

  lemma MaxChannelText()
    ensures NatToString(255) == "255"
  {
    assert NatToString(2) == "2";
    assert NatToString(25) == "25";
  }

  /** Reads `n` records with `read`, one after the other, from the front of `s`. */
  function ReadMany(read: string -> Option<(seq<nat>, string)>, s: string, n: nat): (r: Option<(seq<seq<nat>>, string)>)
    ensures r.Some? ==> |r.value.0| == n
    decreases n
  {
    if n == 0 then Some(([], s))
    else
      match read(s)
      case None => None
      case Some((q, s1)) =>
        match ReadMany(read, s1, n - 1)
        case None => None
        case Some((qs, s2)) => Some(([q] + qs, s2))
  }

  /** Reads `n` lines of three numbers from the front of `s`. */
  function ReadLines(s: string, n: nat): (r: Option<(seq<seq<nat>>, string)>)
    ensures r.Some? ==> |r.value.0| == n
  {
    ReadMany(ReadRgbLine, s, n)
  }

  /** Texts that each read back as one record read back, concatenated, as those records in order. */
  lemma {:induction false} ConcatReadsBack(read: string -> Option<(seq<nat>, string)>, ts: seq<string>,
                                           qs: seq<seq<nat>>, rest: string)
    requires |ts| == |qs|
    requires forall i, x | 0 <= i < |ts| :: read(ts[i] + x) == Some((qs[i], x))
    ensures ReadMany(read, Concat(ts) + rest, |ts|) == Some((qs, rest))
    decreases |ts|
  {
    if ts != [] {
      var after := Concat(ts[1..]) + rest;
      assert Concat(ts) + rest == ts[0] + after;
      assert read(ts[0] + after) == Some((qs[0], after));
      ConcatReadsBack(read, ts[1..], qs[1..], rest);
      assert [qs[0]] + qs[1..] == qs;
    } else {
      assert Concat(ts) + rest == rest;
    }
  }

  /** Lines read back as the pixels they were written from, in order, leaving what follows. */
  lemma LinesRoundTrip(ps: seq<seq<nat>>, rest: string)
    requires AllRgb(ps)
    ensures ReadLines(Lines(ps) + rest, |ps|) == Some((ps, rest))
  {
    var ts := LineTexts(ps);
    forall i, x | 0 <= i < |ts|
      ensures ReadRgbLine(ts[i] + x) == Some((ps[i], x))
    {
      RgbLineRoundTrip(ps[i], x);
    }
    ConcatReadsBack(ReadRgbLine, ts, ps, rest);
  }

  /**
   * The body reads back as one line per colour, in order, each holding the colour's three
   * gamma-corrected channel bytes, every one of them in `0..=255`.
   */
  lemma BodyRoundTrip(colors: seq<Color>, rest: string)
    ensures ReadLines(Body(colors) + rest, |colors|) == Some((Pixels(colors), rest))
    ensures forall i, k | 0 <= i < |colors| && 0 <= k < 3 :: 0 <= Pixels(colors)[i][k] <= 255
  {
    LinesRoundTrip(Pixels(colors), rest);
  }

  /** `PpmWriter`: the text written to the output so far. */
  class PpmWriter {
    var output: string

    /** `PpmWriter::new`, over an output that already holds `output`. */
    constructor (output: string)
      ensures this.output == output
    {
      this.output := output;
    }

    /** `write_header`: appends the header for the dimensions. */
    method WriteHeader(width: U32, height: U32)
      modifies this
      ensures output == old(output) + Header(width, height)
    {
      output := output + Header(width, height);
    }

    /** `write`: appends one line per colour, in order. */
    method Write(colors: seq<Color>)
      modifies this
      ensures output == old(output) + Body(colors)
    {
      WritePixels(Pixels(colors));
    }

    /** The loop of `write`: one `"r g b\n"` line per converted colour, in order. */
    method WritePixels(ps: seq<seq<nat>>)
      requires AllRgb(ps)
      modifies this
      ensures output == old(output) + Lines(ps)
    {
      ghost var lines := LineTexts(ps);
      for i := 0 to |ps|
        invariant output == old(output) + Concat(lines[..i])
      {
        output := output + RgbLine(ps[i]);
        AppendText(lines, i);
        AppendAssociates(old(output), Concat(lines[..i]), lines[i]);
      }
      assert lines[..|ps|] == lines;
    }
  }

  /** Appending to a text in two steps appends the joined pieces. */
  lemma AppendAssociates(a: string, b: string, c: string)
    ensures a + b + c == a + (b + c)
  {
  }

  /** The text of one more line of a list is the text of the lines before it followed by that line. */
  lemma AppendText(ts: seq<string>, i: nat)
    requires i < |ts|
    ensures Concat(ts[..i + 1]) == Concat(ts[..i]) + ts[i]
  {
    assert ts[..i + 1] == ts[..i] + [ts[i]];
    ConcatSnoc(ts[..i], ts[i]);
  }

  /** A whole PPM file reads back as its dimensions and its pixels, in order. */
  lemma PpmFileRoundTrip(width: U32, height: U32, colors: seq<Color>)
    ensures ReadHeader(Header(width, height) + Body(colors)) == Some((width, height, Body(colors)))
    ensures ReadLines(Body(colors), |colors|) == Some((Pixels(colors), ""))
  {
    HeaderRoundTrip(width, height, Body(colors));
    BodyRoundTrip(colors, "");
    assert Body(colors) + "" == Body(colors);
  }

  /** The bytes of a list of pixels, concatenated in order. */
  function Flatten(ps: seq<seq<nat>>): seq<nat>
  {
    if ps == [] then [] else Flatten(ps[..|ps| - 1]) + ps[|ps| - 1]
  }

  /** The bytes `PngWriter::write` hands to the encoder. */
  function Bytes(colors: seq<Color>): seq<nat>
  {
    Flatten(Pixels(colors))
  }

  /** Flattening three-value pixels puts pixel `i` at `3 * i`. */
  lemma {:induction false} FlattenLayout(ps: seq<seq<nat>>)
    requires AllRgb(ps)
    ensures |Flatten(ps)| == 3 * |ps|
    ensures forall i | 0 <= i < |ps| :: Flatten(ps)[3 * i..3 * i + 3] == ps[i]
    decreases |ps|
  {
    if ps != [] {
      var n := |ps| - 1;
      var init := ps[..n];
      FlattenLayout(init);
      forall i | 0 <= i < |ps|
        ensures Flatten(ps)[3 * i..3 * i + 3] == ps[i]
      {
        if i < n {
          assert Flatten(ps)[3 * i..3 * i + 3] == Flatten(init)[3 * i..3 * i + 3];
        }
      }
    }
  }

  /** Flattening pixels whose values are bytes gives bytes. */
  lemma {:induction false} FlattenBytes(ps: seq<seq<nat>>)
    requires forall i, k | 0 <= i < |ps| && 0 <= k < |ps[i]| :: ps[i][k] <= 255
    ensures forall j | 0 <= j < |Flatten(ps)| :: Flatten(ps)[j] <= 255
    decreases |ps|
  {
    if ps != [] {
      FlattenBytes(ps[..|ps| - 1]);
    }
  }

  /** The byte buffer holds exactly three bytes per colour, those of colour `i` at `3 * i`, each in `0..=255`. */
  lemma BytesLayout(colors: seq<Color>)
    ensures |Bytes(colors)| == 3 * |colors|
    ensures forall i | 0 <= i < |colors| :: Bytes(colors)[3 * i..3 * i + 3] == Pixel(colors[i])
    ensures forall j | 0 <= j < |Bytes(colors)| :: Bytes(colors)[j] <= 255
  {
    FlattenLayout(Pixels(colors));
    FlattenBytes(Pixels(colors));
  }

  /** The two states of `PngWriter`: waiting for its header, or ready for image data. */
  datatype PngState = Waiting | Ready(width: U32, height: U32)

  /** `PngWriter`: its state and the image data written to the encoder, one entry per `write`. */
  class PngWriter {
    var state: PngState
    var images: seq<seq<nat>>

    /** `PngWriter::new`: waiting, nothing written. */
    constructor ()
      ensures state == Waiting && images == []
    {
      state := Waiting;
      images := [];
    }

    /** `write_header`: only a waiting writer takes a header (otherwise the source panics); it becomes ready. */
    method WriteHeader(width: U32, height: U32)
      requires state.Waiting?
      modifies this
      ensures state == Ready(width, height) && images == old(images)
    {
      state := Ready(width, height);
    }

    /** `write`: only a ready writer takes data (otherwise the source panics); it writes one buffer of three bytes per colour. */
    method Write(colors: seq<Color>)
      requires state.Ready?
      modifies this
      ensures state == old(state) && images == old(images) + [Bytes(colors)]
    {
      var buf := Buffer(colors);
      images := images + [buf];
    }
  }

  /** The buffer `write` fills, extended by the bytes of each colour in turn. */
  method Buffer(colors: seq<Color>) returns (buf: seq<nat>)
    ensures buf == Bytes(colors)
  {
    ghost var ps := Pixels(colors);
    buf := [];
    for i := 0 to |colors|
      invariant buf == Flatten(ps[..i])
    {
      buf := buf + Pixel(colors[i]);
      assert ps[..i + 1][..i] == ps[..i];
    }
    assert ps[..|colors|] == ps;
  }
}
