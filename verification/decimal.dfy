/**
 Decimal rendering of an `int`, as `QString::arg(int)` does it with its default
 arguments (base 10, no field width, no padding, a leading `-` for negative
 values), together with a reader that is its partner: reading back a rendering
 yields the rendered value and leaves the text after it untouched.
 */
module Decimal {
  import opened Wrappers

  predicate IsDigit(c: char) {
    '0' <= c <= '9'
  }

  predicate AllDigits(s: string) {
    forall k :: 0 <= k < |s| ==> IsDigit(s[k])
  }

  function DigitChar(d: nat): (c: char)
    requires d < 10
    ensures IsDigit(c)
  {
    ('0' as int + d) as char
  }

  function DigitValue(c: char): (d: nat)
    requires IsDigit(c)
    ensures d < 10
    ensures DigitChar(d) == c
  {
    c as int - '0' as int
  }

  /** Most significant digit first, no leading zeros. */
  function NatToDigits(n: nat): (s: string)
    ensures |s| > 0 && AllDigits(s)
    ensures |s| > 1 ==> s[0] != '0'
    decreases n
  {
    if n < 10 then [DigitChar(n)] else NatToDigits(n / 10) + [DigitChar(n % 10)]
  }

  function DigitsToNat(s: string): nat
    requires AllDigits(s)
  {
    if |s| == 0 then 0 else DigitsToNat(s[..|s| - 1]) * 10 + DigitValue(s[|s| - 1])
  }

  /** The rendering `QString::arg(int)` produces for `i`. */
  function IntToDecimal(i: int): (s: string)
    ensures i >= 0 ==> |s| > 0 && AllDigits(s)
    ensures i < 0 ==> |s| > 1 && s[0] == '-' && AllDigits(s[1..])
    ensures i >= 0 && |s| > 1 ==> s[0] != '0'
    ensures i < 0 ==> s[1] != '0'
  {
    if i < 0 then
      var s := "-" + NatToDigits(-i);
      assert s[1..] == NatToDigits(-i);
      assert |NatToDigits(-i)| == 1 ==> -i < 10;
      s
    else NatToDigits(i)
  }

  /** The length of the longest all-digit prefix of `s`. */
  function DigitSpan(s: string): (k: nat)
    ensures k <= |s|
    ensures AllDigits(s[..k])
    ensures k < |s| ==> !IsDigit(s[k])
  {
    if |s| == 0 || !IsDigit(s[0]) then 0
    else
      var k' := DigitSpan(s[1..]);
      assert s[..1 + k'] == [s[0]] + s[1..][..k'];
      1 + k'
  }

  /** Reads a non-empty run of digits at the front of `s`. */
  function ReadNat(s: string): Option<(nat, string)> {
    var k := DigitSpan(s);
    if k == 0 then None else Some((DigitsToNat(s[..k]), s[k..]))
  }

  /** Reads an optionally negated decimal number at the front of `s`. */
  function ReadInt(s: string): Option<(int, string)> {
    if |s| > 0 && s[0] == '-' then
      match ReadNat(s[1..])
      case None => None
      case Some((n, rest)) => Some((-(n as int), rest))
    else
      match ReadNat(s)
      case None => None
      case Some((n, rest)) => Some((n as int, rest))
  }

  /** `text` may follow a number without being read as part of it. */
  predicate Delimits(text: string) {
    |text| == 0 || !IsDigit(text[0])
  }

  lemma {:induction false} DigitsRoundTrip(n: nat)
    ensures DigitsToNat(NatToDigits(n)) == n
    decreases n
  {
    if n >= 10 {
      var s := NatToDigits(n);
      assert s[..|s| - 1] == NatToDigits(n / 10);
      DigitsRoundTrip(n / 10);
    }
  }

  lemma {:induction false} DigitSpanOfPrefix(d: string, rest: string)
    requires AllDigits(d) && Delimits(rest)
    ensures DigitSpan(d + rest) == |d|
    decreases |d|
  {
    if |d| > 0 {
      assert (d + rest)[1..] == d[1..] + rest;
      DigitSpanOfPrefix(d[1..], rest);
    }
  }

  lemma ReadNatRoundTrip(n: nat, rest: string)
    requires Delimits(rest)
    ensures ReadNat(NatToDigits(n) + rest) == Some((n, rest))
  {
    var d := NatToDigits(n);
    DigitSpanOfPrefix(d, rest);
    assert (d + rest)[..|d|] == d;
    assert (d + rest)[|d|..] == rest;
    DigitsRoundTrip(n);
  }

  lemma ReadNegativeRoundTrip(n: nat, rest: string)
    requires n > 0 && Delimits(rest)
    ensures ReadInt("-" + NatToDigits(n) + rest) == Some((0 - n, rest))
  {
    var d := NatToDigits(n);
    var s := "-" + d + rest;
    assert s[1..] == d + rest;
    ReadNatRoundTrip(n, rest);
    assert ReadNat(s[1..]) == Some((n, rest));
  }

  lemma ReadNonNegativeRoundTrip(n: nat, rest: string)
    requires Delimits(rest)
    ensures ReadInt(NatToDigits(n) + rest) == Some((n as int, rest))
  {
    var d := NatToDigits(n);
    assert IsDigit((d + rest)[0]);
    ReadNatRoundTrip(n, rest);
  }

  /** Reading back a rendering recovers the number and stops right after it. */
  lemma ReadIntRoundTrip(i: int, rest: string)
    requires Delimits(rest)
    ensures ReadInt(IntToDecimal(i) + rest) == Some((i, rest))
  {
    if i < 0 {
      ReadNegativeRoundTrip(-i, rest);
    } else {
      ReadNonNegativeRoundTrip(i, rest);
    }
  }
}
