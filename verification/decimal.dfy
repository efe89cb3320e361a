/**
 * Decimal text of unsigned integers, as Rust's `Display` for integers writes it:
 * the shortest run of ASCII digits, no sign and no leading zero.
 */
module Decimal {
  import opened Wrappers

  predicate IsDigit(c: char) { '0' <= c <= '9' }

  function DigitChar(d: nat): (c: char)
    requires d < 10
    ensures IsDigit(c) && c as int - '0' as int == d
  {
    ['0', '1', '2', '3', '4', '5', '6', '7', '8', '9'][d]
  }

  /** `n.to_string()`. */
  function NatToString(n: nat): (s: string)
    ensures |s| >= 1
    ensures forall i | 0 <= i < |s| :: IsDigit(s[i])
    ensures |s| > 1 ==> s[0] != '0'
    decreases n
  {
    if n < 10 then [DigitChar(n)] else NatToString(n / 10) + [DigitChar(n % 10)]
  }

  /** The value of a run of decimal digits. */
  function DigitsValue(s: string): nat
    requires forall i | 0 <= i < |s| :: IsDigit(s[i])
    decreases |s|
  {
    if s == [] then 0
    else
      assert IsDigit(s[|s| - 1]);
      10 * DigitsValue(s[..|s| - 1]) + (s[|s| - 1] as int - '0' as int)
  }

  /** Reading the digits back gives the number: the text is a faithful decimal numeral. */
  lemma {:induction false} NatToStringRoundTrip(n: nat)
    ensures DigitsValue(NatToString(n)) == n
    decreases n
  {
    var s := NatToString(n);
    if n >= 10 {
      NatToStringRoundTrip(n / 10);
      assert s[..|s| - 1] == NatToString(n / 10);
    } else {
      assert s[..|s| - 1] == [];
    }
  }

  /** Distinct numbers are written differently. */
  lemma NatToStringInjective(m: nat, n: nat)
    requires NatToString(m) == NatToString(n)
    ensures m == n
  {
    NatToStringRoundTrip(m);
    NatToStringRoundTrip(n);
  }

  /** The length of the run of digits at the front of `s`. */
  function DigitRun(s: string): (k: nat)
    ensures k <= |s|
    ensures forall i | 0 <= i < k :: IsDigit(s[i])
    ensures k < |s| ==> !IsDigit(s[k])
    decreases |s|
  {
    if s == [] || !IsDigit(s[0]) then 0 else 1 + DigitRun(s[1..])
  }

  /** A numeral followed by text that does not start with a digit: the run ends with the numeral. */
  lemma {:induction false} DigitRunOfNumeral(d: string, rest: string)
    requires forall i | 0 <= i < |d| :: IsDigit(d[i])
    requires rest == [] || !IsDigit(rest[0])
    ensures DigitRun(d + rest) == |d|
    decreases |d|
  {
    if d == [] {
      assert d + rest == rest;
    } else {
      assert (d + rest)[1..] == d[1..] + rest;
      DigitRunOfNumeral(d[1..], rest);
    }
  }

  /** Reads a decimal number at the front of `s`, returning it and the text after it. */
  function ReadNat(s: string): (r: Option<(nat, string)>)
    ensures r.Some? <==> s != [] && IsDigit(s[0])
    ensures r.Some? ==> |r.value.1| < |s| && r.value.1 == s[|s| - |r.value.1|..]
  {
    var k := DigitRun(s);
    if k == 0 then None else Some((DigitsValue(s[..k]), s[k..]))
  }

  /** Writing a number and reading it back gives the number and the text that followed. */
  lemma ReadNatRoundTrip(n: nat, rest: string)
    requires rest == [] || !IsDigit(rest[0])
    ensures ReadNat(NatToString(n) + rest) == Some((n, rest))
  {
    var d := NatToString(n);
    DigitRunOfNumeral(d, rest);
    assert (d + rest)[..|d|] == d;
    assert (d + rest)[|d|..] == rest;
    NatToStringRoundTrip(n);
  }

  /** Consumes the character `c` at the front of `s`. */
  function Expect(s: string, c: char): (r: Option<string>)
    ensures r.Some? <==> s != [] && s[0] == c
    ensures r.Some? ==> r.value == s[1..]
  {
    if s != [] && s[0] == c then Some(s[1..]) else None
  }
}
