/**
 * The typed field extraction of the scene configuration (src/config.rs, `ValueExt` and
 * `require_value`), over a small model of TOML values. A table is a list of key/value
 * pairs in the order the table is iterated; errors name the offending key and what was
 * wrong with it, standing for the formatted message.
 */
module ConfigValues {
  import opened Wrappers
  import opened Casts
  import opened Decimal
  import Vectors
  import Colors

  /** TOML integers are i64. */
  type I64 = n: int | -0x8000_0000_0000_0000 <= n < 0x8000_0000_0000_0000

  /** The TOML values the configuration reads (booleans stand for every other kind). */
  datatype Value =
    | Float(f: real)
    | Integer(i: I64)
    | String(s: string)
    | Boolean(b: bool)
    | Array(items: seq<Value>)
    | Table(entries: seq<(string, Value)>)

  type TomlTable = seq<(string, Value)>

  /** Whether a 3-vector is read as a point or as a vector (the two differ only in their message). */
  datatype Shape = PointShape | VectorShape

  /** What was wrong with the value at a key. */
  datatype Problem =
    | NotHexOrNumber
    | NotDecimal
    | NotFilepath
    | NotTriple(shape: Shape)
    | NotThreeLong(shape: Shape)
    | NotArray
    | NotPair
    | UnknownTexture(name: string)
    | NotTextureName
    | UnknownMaterial(name: string)
    | NotMaterialName
    | Missing
    | NotString
    | FileNotFound(path: string)
    | UnknownTextureType
    | UnknownMaterialType
    | UnknownObjectType
    | NotTable
    | NotTableList

  /**
   * A configuration error: a key and its problem, or a colour string that is not
   * hexadecimal. `Panic` is not an error the source returns: it stands for the thread
   * panicking with that message part-way through reading a configuration.
   */
  datatype ConfigError =
    | KeyError(key: string, problem: Problem)
    | InvalidHex(text: string)
    | Panic(message: string)

  /** `table.get(key)`: the value of the first entry with that key. */
  function Get(table: TomlTable, key: string): (r: Option<Value>)
    ensures r.None? <==> forall i | 0 <= i < |table| :: table[i].0 != key
    ensures r.Some? ==> (key, r.value) in table
  {
    if table == [] then None
    else if table[0].0 == key then Some(table[0].1)
    else
      var r := Get(table[1..], key);
      assert forall i | 1 <= i < |table| :: table[i] == table[1..][i - 1];
      r
  }

  /** The key of a field of `parent`: `format!("{parent}.{key}")`. */
  function Dotted(parent: string, key: string): string
  {
    parent + "." + key
  }

  /** `char::is_whitespace`: the Unicode White_Space characters. */
  predicate IsWhitespace(c: char)
  {
    var n := c as int;
    (9 <= n <= 13) || n == 0x20 || n == 0x85 || n == 0xA0 || n == 0x1680 ||
    (0x2000 <= n <= 0x200A) || n == 0x2028 || n == 0x2029 || n == 0x202F || n == 0x205F || n == 0x3000
  }

  predicate IsHash(c: char)
  {
    c == '#'
  }

  /** The number of characters at the front of `s` that `drop` removes. */
  function Leading(s: string, drop: char -> bool): (k: nat)
    ensures k <= |s|
    ensures forall i | 0 <= i < k :: drop(s[i])
    ensures k < |s| ==> !drop(s[k])
    decreases |s|
  {
    if s == [] || !drop(s[0]) then 0
    else
      var k := Leading(s[1..], drop);
      assert forall i | 1 <= i < k + 1 :: s[i] == s[1..][i - 1];
      1 + k
  }

  /** The number of characters at the back of `s` that `drop` removes. */
  function Trailing(s: string, drop: char -> bool): (k: nat)
    ensures k <= |s|
    ensures forall i | |s| - k <= i < |s| :: drop(s[i])
    ensures k < |s| ==> !drop(s[|s| - k - 1])
    decreases |s|
  {
    if s == [] || !drop(s[|s| - 1]) then 0
    else
      var k := Trailing(s[..|s| - 1], drop);
      assert forall i | |s| - 1 - k <= i < |s| - 1 :: s[i] == s[..|s| - 1][i];
      1 + k
  }

  /**
   * `str::trim_matches` (and `trim` for white space): the longest middle part of `s`
   * whose first and last characters are kept; everything outside it is dropped.
   */
  function Trim(s: string, drop: char -> bool): (r: string)
    ensures Leading(s, drop) + |r| <= |s| && s[Leading(s, drop)..Leading(s, drop) + |r|] == r
    ensures forall i | 0 <= i < |s| && !(Leading(s, drop) <= i < Leading(s, drop) + |r|) :: drop(s[i])
    ensures r != [] ==> !drop(r[0]) && !drop(r[|r| - 1])
  {
    var lo := Leading(s, drop);
    var rest := s[lo..];
    var k := Trailing(rest, drop);
    var r := rest[..|rest| - k];
    assert s[lo..lo + |r|] == r;
    forall i | lo + |r| <= i < |s|
      ensures drop(s[i])
    {
      assert s[i] == rest[i - lo];
    }
    assert r != [] ==> r[0] == s[lo];
    r
  }

  predicate IsHexDigit(c: char)
  {
    '0' <= c <= '9' || 'a' <= c <= 'f' || 'A' <= c <= 'F'
  }

  function HexDigitValue(c: char): (d: nat)
    requires IsHexDigit(c)
    ensures d < 16
  {
    if '0' <= c <= '9' then c as int - '0' as int
    else if 'a' <= c <= 'f' then c as int - 'a' as int + 10
    else c as int - 'A' as int + 10
  }

  /** A non-empty run of hexadecimal digits. */
  predicate IsHexNumeral(s: string)
  {
    |s| > 0 && forall i | 0 <= i < |s| :: IsHexDigit(s[i])
  }

  /** The value of a run of hexadecimal digits. */
  function HexValue(s: string): nat
    requires forall i | 0 <= i < |s| :: IsHexDigit(s[i])
    decreases |s|
  {
    if s == [] then 0 else 16 * HexValue(s[..|s| - 1]) + HexDigitValue(s[|s| - 1])
  }

  /** The digits `from_str_radix` reads: all of `s` but a leading `+`. */
  function HexDigits(s: string): (d: string)
    ensures |s| > 0 && s[0] == '+' ==> d == s[1..]
    ensures (|s| == 0 || s[0] != '+') ==> d == s
  {
    if |s| > 0 && s[0] == '+' then s[1..] else s
  }

  /**
   * `u32::from_str_radix(s, 16)`: an optional `+` and then at least one hexadecimal digit
   * (of either case), whose value must fit in a u32.
   */
  function ParseHexU32(s: string): (r: Option<U32>)
    ensures r.Some? <==> IsHexNumeral(HexDigits(s)) && HexValue(HexDigits(s)) <= U32Max
    ensures r.Some? ==> r.value == HexValue(HexDigits(s))
  {
    var d := HexDigits(s);
    if IsHexNumeral(d) && HexValue(d) <= U32Max then Some(HexValue(d)) else None
  }

  /** The lower-case hexadecimal digit of `d`. */
  function HexChar(d: nat): (c: char)
    requires d < 16
    ensures IsHexDigit(c) && HexDigitValue(c) == d && c != '+'
  {
    "0123456789abcdef"[d]
  }

  /** `format!("{n:x}")`: the shortest lower-case hexadecimal numeral of `n`. */
  function HexString(n: nat): (s: string)
    ensures IsHexNumeral(s)
    decreases n
  {
    if n < 16 then [HexChar(n)] else HexString(n / 16) + [HexChar(n % 16)]
  }

  /** Reading a hexadecimal numeral back gives the number. */
  lemma {:induction false} HexStringValue(n: nat)
    ensures HexValue(HexString(n)) == n
    decreases n
  {
    var s := HexString(n);
    if n >= 16 {
      HexStringValue(n / 16);
      assert s[..|s| - 1] == HexString(n / 16);
    } else {
      assert s[..|s| - 1] == [];
    }
  }

  /** Every u32 written in hexadecimal parses back to itself. */
  lemma ParseHexRoundTrip(n: U32)
    ensures ParseHexU32(HexString(n)) == Some(n)
  {
    HexStringValue(n);
  }

  /** The message of the panic of `unwrap` on a failed `u32` conversion. */
  const UnwrapMessage := "called `Result::unwrap()` on an `Err` value: TryFromIntError(())"

  /**
   * `parse_color`: a string is trimmed of white space and then of `#` and read as a
   * hexadecimal u32; an integer is taken as the u32 itself, and the `unwrap` of its
   * conversion panics for one out of range (`UnwrapMessage`); anything else is an error.
   * Every colour read is valid.
   */
  function ParseColor(v: Value, key: string): (r: Result<Colors.Color, ConfigError>)
    ensures r.Ok? ==> Colors.IsValid(r.value)
    ensures r.Ok? ==> v.String? || v.Integer?
  {
    match v
    case String(text) =>
      var sani := Trim(Trim(text, IsWhitespace), IsHash);
      (match ParseHexU32(sani)
       case Some(n) => Ok(Colors.Hex(n))
       case None => Err(InvalidHex(sani)))
    case Integer(i) =>
      if 0 <= i <= U32Max then Ok(Colors.Hex(i)) else Err(Panic(UnwrapMessage))
    case _ => Err(KeyError(key, NotHexOrNumber))
  }

  /**
   * How each kind of value reads as a colour: text is trimmed of whitespace and then of
   * `#` and read as hexadecimal, failing with the trimmed text; an integer in `u32` range
   * is that hex colour and any other integer panics; anything else is refused.
   */
  lemma ParseColorCases(v: Value, key: string)
    ensures v.String? ==>
      var text := Trim(Trim(v.s, IsWhitespace), IsHash);
      ParseColor(v, key) == if ParseHexU32(text).Some? then Ok(Colors.Hex(ParseHexU32(text).value)) else Err(InvalidHex(text))
    ensures v.Integer? && 0 <= v.i <= U32Max ==> ParseColor(v, key) == Ok(Colors.Hex(v.i))
    ensures v.Integer? && !(0 <= v.i <= U32Max) ==> ParseColor(v, key) == Err(Panic(UnwrapMessage))
    ensures !v.String? && !v.Integer? ==> ParseColor(v, key) == Err(KeyError(key, NotHexOrNumber))
  {
  }

  /** A colour written as `"#rrggbb"`-style hexadecimal text reads back as `Color::hex` of the number. */
  lemma ParseColorOfHexText(n: U32, key: string)
    ensures ParseColor(String("#" + HexString(n)), key) == Ok(Colors.Hex(n))
  {
    HexTextTrimmed(n);
    ParseHexRoundTrip(n);
    ParseColorCases(String("#" + HexString(n)), key);
  }

  /** Trimming `"#"` followed by hexadecimal text, first of white space and then of `#`, leaves the digits. */
  lemma HexTextTrimmed(n: U32)
    ensures Trim(Trim("#" + HexString(n), IsWhitespace), IsHash) == HexString(n)
  {
    var s := HexString(n);
    var t := "#" + s;
    assert Trim(t, IsWhitespace) == t by {
      assert t[0] == '#' && t[|t| - 1] == s[|s| - 1];
      TrimKeeps(t, IsWhitespace);
    }
    assert Trim(t, IsHash) == s by {
      assert t == ['#'] + s;
      TrimKeeps(s, IsHash);
      TrimDropsFirst('#', s, IsHash);
    }
  }

  /** Text that starts and ends with a kept character is its own trim. */
  lemma TrimKeeps(s: string, drop: char -> bool)
    requires s != [] && !drop(s[0]) && !drop(s[|s| - 1])
    ensures Trim(s, drop) == s
  {
    assert Leading(s, drop) == 0;
    assert s[0..] == s;
  }

  /** A dropped character in front of text that is its own trim is trimmed away. */
  lemma TrimDropsFirst(c: char, s: string, drop: char -> bool)
    requires drop(c) && s != [] && !drop(s[0]) && !drop(s[|s| - 1])
    ensures Trim([c] + s, drop) == s
  {
    var t := [c] + s;
    assert t[1..] == s;
    assert Leading(t, drop) == 1 + Leading(s, drop);
    assert Leading(s, drop) == 0;
    assert Trailing(s, drop) == 0;
  }

  /** The numbers a float-like value may hold. */
  predicate IsFloatLike(v: Value)
  {
    v.Float? || v.Integer?
  }

  /** The number of a float-like value, integers converted exactly. */
  function Number(v: Value): real
    requires IsFloatLike(v)
  {
    if v.Float? then v.f else v.i as real
  }

  /** `parse_floatlike`: a float, or an integer as a float; anything else is an error at `key`. */
  function ParseFloatlike(v: Value, key: string): (r: Result<real, ConfigError>)
    ensures r.Ok? <==> IsFloatLike(v)
    ensures v.Float? ==> r == Ok(v.f)
    ensures v.Integer? ==> r == Ok(v.i as real)
    ensures !IsFloatLike(v) ==> r == Err(KeyError(key, NotDecimal))
  {
    match v
    case Float(f) => Ok(f)
    case Integer(i) => Ok(i as real)
    case _ => Err(KeyError(key, NotDecimal))
  }

  /** `parse_pathbuf`: a string is a path; anything else is an error at `key`. */
  function ParsePathbuf(v: Value, key: string): (r: Result<string, ConfigError>)
    ensures r.Ok? <==> v.String?
    ensures r.Ok? ==> r.value == v.s
    ensures r.Err? ==> r.error == KeyError(key, NotFilepath)
  {
    if v.String? then Ok(v.s) else Err(KeyError(key, NotFilepath))
  }

  /** The key of element `i` of the array at `key`: `format!("{key}.{i}")`. */
  function ElementKey(key: string, i: nat): string
  {
    Dotted(key, NatToString(i))
  }

  /**
   * `parse_point3` and `parse_vec3`: an array of exactly three float-like values, read
   * in order into x, y and z. Not an array, or not three long, is an error at `key`; the
   * first element that is not float-like is an error at its own key.
   */
  function Triple(v: Value, key: string, shape: Shape): (r: Result<Vectors.Vec3, ConfigError>)
    ensures r.Ok? <==> v.Array? && |v.items| == 3 && forall i | 0 <= i < 3 :: IsFloatLike(v.items[i])
    ensures r.Ok? ==> r.value == Vectors.New(Number(v.items[0]), Number(v.items[1]), Number(v.items[2]))
    ensures !v.Array? ==> r == Err(KeyError(key, NotTriple(shape)))
    ensures v.Array? && |v.items| != 3 ==> r == Err(KeyError(key, NotThreeLong(shape)))
  {
    if !v.Array? then Err(KeyError(key, NotTriple(shape)))
    else if |v.items| != 3 then Err(KeyError(key, NotThreeLong(shape)))
    else
      var x :- ParseFloatlike(v.items[0], ElementKey(key, 0));
      var y :- ParseFloatlike(v.items[1], ElementKey(key, 1));
      var z :- ParseFloatlike(v.items[2], ElementKey(key, 2));
      Ok(Vectors.New(x, y, z))
  }

  /** The TOML form of a 3-vector: the array of its three coordinates. */
  function TripleValue(p: Vectors.Vec3): (v: Value)
  {
    Array([Float(p.x), Float(p.y), Float(p.z)])
  }

  /** Writing a point as a TOML array and reading it back gives the same coordinates. */
  lemma TripleRoundTrip(p: Vectors.Vec3, key: string, shape: Shape)
    ensures Triple(TripleValue(p), key, shape).Ok?
    ensures Vectors.Eq(Triple(TripleValue(p), key, shape).value, p)
  {
  }

  /**
   * `parse_point3`/`parse_vec3` as the source runs them: a loop over the three elements
   * filling the result, returning at the first one that is not float-like.
   */
  method ParseTriple(v: Value, key: string, shape: Shape) returns (r: Result<Vectors.Vec3, ConfigError>)
    ensures r == Triple(v, key, shape)
  {
    if !v.Array? {
      return Err(KeyError(key, NotTriple(shape)));
    }
    var arr := v.items;
    if |arr| != 3 {
      return Err(KeyError(key, NotThreeLong(shape)));
    }
    var res: seq<real> := [];
    for i := 0 to 3
      invariant |res| == i
      invariant forall k | 0 <= k < i :: IsFloatLike(arr[k]) && res[k] == Number(arr[k])
    {
      var x := ParseFloatlike(arr[i], ElementKey(key, i));
      if x.Err? {
        return Err(x.error);
      }
      res := res + [x.value];
    }
    r := Ok(Vectors.New(res[0], res[1], res[2]));
  }

  /** `parse_array`: the elements of an array; anything else is an error at `key`. */
  function ParseArray(v: Value, key: string): (r: Result<seq<Value>, ConfigError>)
    ensures r.Ok? <==> v.Array?
    ensures r.Ok? ==> r.value == v.items
    ensures r.Err? ==> r.error == KeyError(key, NotArray)
  {
    if v.Array? then Ok(v.items) else Err(KeyError(key, NotArray))
  }

  /**
   * `require_value`: the value of `key` in the table; a missing key is an error at
   * `parent.key`.
   */
  function RequireValue(table: TomlTable, key: string, parent: string): (r: Result<Value, ConfigError>)
    ensures r.Ok? <==> exists i | 0 <= i < |table| :: table[i].0 == key
    ensures r.Ok? ==> (key, r.value) in table && r.value == Get(table, key).value
    ensures r.Err? ==> r.error == KeyError(Dotted(parent, key), Missing)
  {
    match Get(table, key)
    case Some(v) => Ok(v)
    case None => Err(KeyError(Dotted(parent, key), Missing))
  }

  /** `char::to_ascii_uppercase`. */
  function UpperChar(c: char): (u: char)
    ensures 'a' <= c <= 'z' ==> u as int == c as int - 32
    ensures !('a' <= c <= 'z') ==> u == c
  {
    if 'a' <= c <= 'z' then (c as int - 32) as char else c
  }

  /** `str::to_ascii_uppercase`: every ASCII letter in upper case, the rest unchanged. */
  function Upper(s: string): (u: string)
    ensures |u| == |s| && forall i | 0 <= i < |s| :: u[i] == UpperChar(s[i])
  {
    seq(|s|, i requires 0 <= i < |s| => UpperChar(s[i]))
  }

  /** Two names that differ only in the case of ASCII letters. */
  predicate SameIgnoringCase(s: string, t: string)
  {
    |s| == |t| && forall i | 0 <= i < |s| :: UpperChar(s[i]) == UpperChar(t[i])
  }

  /** Names equal up to ASCII case have the same upper-case form, and a name is equal up to case to its upper-case form. */
  lemma UpperIgnoresCase(s: string, t: string)
    ensures SameIgnoringCase(s, t) <==> Upper(s) == Upper(t)
    ensures SameIgnoringCase(s, Upper(s))
  {
    if Upper(s) == Upper(t) {
      assert forall i | 0 <= i < |s| :: UpperChar(s[i]) == Upper(t)[i];
    }
    forall i | 0 <= i < |s|
      ensures UpperChar(Upper(s)[i]) == UpperChar(s[i])
    {
    }
  }

  /**
   * `parse_texture`: the name of a texture already stored under `Named(name)`; a name
   * not stored, or a value that is not a string, is an error at `key`.
   */
  function ParseTextureName(v: Value, key: string, named: set<string>): (r: Result<string, ConfigError>)
    ensures r.Ok? <==> v.String? && v.s in named
    ensures r.Ok? ==> r.value == v.s
    ensures v.String? && v.s !in named ==> r == Err(KeyError(key, UnknownTexture(v.s)))
    ensures !v.String? ==> r == Err(KeyError(key, NotTextureName))
  {
    match v
    case String(a) => if a in named then Ok(a) else Err(KeyError(key, UnknownTexture(a)))
    case _ => Err(KeyError(key, NotTextureName))
  }

  /**
   * `parse_material`: the name of a material already stored; a name not stored, or a
   * value that is not a string, is an error at `key`.
   */
  function ParseMaterialName(v: Value, key: string, stored: set<string>): (r: Result<string, ConfigError>)
    ensures r.Ok? <==> v.String? && v.s in stored
    ensures r.Ok? ==> r.value == v.s
    ensures v.String? && v.s !in stored ==> r == Err(KeyError(key, UnknownMaterial(v.s)))
    ensures !v.String? ==> r == Err(KeyError(key, NotMaterialName))
  {
    match v
    case String(a) => if a in stored then Ok(a) else Err(KeyError(key, UnknownMaterial(a)))
    case _ => Err(KeyError(key, NotMaterialName))
  }
}
