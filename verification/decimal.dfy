/** Decimal rendering of integers, as a template literal renders a whole
    number of magnitude below 10^21: a minus sign exactly for negative values,
    followed by the digits, with no leading zeros. `ParseInt` is its inverse
    and exists to prove that the rendering is injective. */
module Decimal {

  predicate IsDigit(c: char) {
    '0' <= c <= '9'
  }

  predicate AllDigits(s: string) {
    forall i :: 0 <= i < |s| ==> IsDigit(s[i])
  }

  function DigitChar(d: nat): (c: char)
    requires d < 10
    ensures IsDigit(c)
  {
    "0123456789"[d]
  }

  function DigitValue(c: char): (d: nat)
    requires IsDigit(c)
    ensures d < 10
  {
    (c as int - '0' as int) as nat
  }

  lemma DigitRoundTrip(d: nat)
    requires d < 10
    ensures DigitValue(DigitChar(d)) == d
  {
  }

  /** The digits of a natural number, most significant first. */
  function NatToString(n: nat): (s: string)
    decreases n
    ensures |s| >= 1 && AllDigits(s)
    ensures s[0] == '0' ==> n == 0 && |s| == 1
  {
    if n < 10 then [DigitChar(n)]
    else NatToString(n / 10) + [DigitChar(n % 10)]
  }

  /** The rendering of an integer: a leading '-' for negative values. */
  function IntToString(n: int): (s: string)
    ensures |s| >= 1
    ensures s[0] == '-' <==> n < 0
    ensures n < 0 ==> s[1..] == NatToString(-n) && s[1] != '0'
    ensures n >= 0 ==> s == NatToString(n)
  {
    if n < 0 then "-" + NatToString(-n) else NatToString(n)
  }

  /** The value of a string of digits, read most significant first. */
  function ParseNat(s: string): nat
    requires AllDigits(s)
  {
    if |s| == 0 then 0
    else ParseNat(s[..|s| - 1]) * 10 + DigitValue(s[|s| - 1])
  }

  /** Reads back what `IntToString` writes. */
  function ParseInt(s: string): int
  {
    if |s| > 0 && s[0] == '-' then
      if AllDigits(s[1..]) then 0 - ParseNat(s[1..]) else 0
    else if AllDigits(s) then ParseNat(s) else 0
  }

  lemma {:induction false} NatRoundTrip(n: nat)
    ensures ParseNat(NatToString(n)) == n
    decreases n
  {
    if n < 10 {
      DigitRoundTrip(n);
    } else {
      var s := NatToString(n);
      assert s[..|s| - 1] == NatToString(n / 10);
      assert s[|s| - 1] == DigitChar(n % 10);
      NatRoundTrip(n / 10);
      DigitRoundTrip(n % 10);
    }
  }

  /** Reading back a rendered integer gives the integer. */
  lemma {:induction false} IntRoundTrip(n: int)
    ensures ParseInt(IntToString(n)) == n
  {
    var s := IntToString(n);
    if n < 0 {
      NatRoundTrip(-n);
      assert AllDigits(s[1..]);
      assert ParseInt(s) == 0 - ParseNat(s[1..]);
    } else {
      NatRoundTrip(n);
      assert s == NatToString(n);
      assert ParseInt(s) == ParseNat(s);
    }
  }

  /** Distinct integers render as distinct strings. */
  lemma IntToStringInjective(m: int, n: int)
    requires m != n
    ensures IntToString(m) != IntToString(n)
  {
    IntRoundTrip(m);
    IntRoundTrip(n);
  }
}
