/**
 * Decimal text of integers, as the JDK writes and reads it:
 * String.valueOf(int), Integer.toString, Long.toString on one side and
 * Integer.valueOf / Long.valueOf (radix 10) on the other.
 */
module Decimal {
  import opened Wrappers

  const INT_MIN: int := -0x8000_0000
  const INT_MAX: int := 0x7fff_ffff
  const LONG_MIN: int := -0x8000_0000_0000_0000
  const LONG_MAX: int := 0x7fff_ffff_ffff_ffff

  predicate IsDigit(c: char) {
    '0' <= c <= '9'
  }

  predicate AllDigits(s: string) {
    forall i :: 0 <= i < |s| ==> IsDigit(s[i])
  }

  function DigitValue(c: char): (d: nat)
    requires IsDigit(c)
    ensures d < 10
  {
    c as int - '0' as int
  }

  function DigitChar(d: nat): (c: char)
    requires d < 10
    ensures IsDigit(c) && DigitValue(c) == d
  {
    ('0' as int + d) as char
  }

  /** The number a run of decimal digits denotes, most significant digit first. */
  function DigitsValue(s: string): nat
    requires AllDigits(s)
  {
    if |s| == 0 then 0 else 10 * DigitsValue(s[..|s| - 1]) + DigitValue(s[|s| - 1])
  }

  /** The decimal digits of n, without leading zeros. */
  function NatToString(n: nat): (s: string)
    ensures |s| > 0 && AllDigits(s)
  {
    if n < 10 then [DigitChar(n)] else NatToString(n / 10) + [DigitChar(n % 10)]
  }

  /** String.valueOf(n): a minus sign for negative numbers, then the digits of |n|. */
  function IntToString(n: int): (s: string)
    ensures |s| > 0
    ensures forall i :: 0 <= i < |s| ==> IsDigit(s[i]) || (i == 0 && s[i] == '-' && n < 0)
  {
    if n < 0 then "-" + NatToString(-n) else NatToString(n)
  }

  /**
   * Integer.parseInt / Long.parseLong in radix 10: an optional '+' or '-',
   * then at least one digit, and a value between lo and hi.
   * None stands for the NumberFormatException.
   */
  function ParseDecimal(s: string, lo: int, hi: int): (r: Option<int>)
    ensures r.Some? ==> lo <= r.value <= hi
    ensures r.Some? ==> 0 < |s| && (IsDigit(s[0]) || s[0] == '-' || s[0] == '+')
  {
    var signed := 0 < |s| && (s[0] == '-' || s[0] == '+');
    var digits := if signed then s[1..] else s;
    if |digits| == 0 || !AllDigits(digits) then None
    else
      var v: int := if 0 < |s| && s[0] == '-' then -(DigitsValue(digits) as int) else DigitsValue(digits);
      if lo <= v <= hi then Some(v) else None
  }

  lemma {:induction false} DigitsValueOfNatToString(n: nat)
    ensures DigitsValue(NatToString(n)) == n
  {
    if n >= 10 {
      var s := NatToString(n);
      assert s[..|s| - 1] == NatToString(n / 10);
      DigitsValueOfNatToString(n / 10);
    }
  }

  /** Parsing what String.valueOf wrote gives the number back. */
  lemma ParseIntToString(n: int, lo: int, hi: int)
    requires lo <= n <= hi
    ensures ParseDecimal(IntToString(n), lo, hi) == Some(n)
  {
    var s := IntToString(n);
    if n < 0 {
      assert s[1..] == NatToString(-n);
      DigitsValueOfNatToString(-n);
    } else {
      assert IsDigit(s[0]);
      DigitsValueOfNatToString(n);
    }
  }

  /** Different numbers have different decimal texts. */
  lemma IntToStringInjective(a: int, b: int)
    requires IntToString(a) == IntToString(b)
    ensures a == b
  {
    var lo := if a < b then a else b;
    var hi := if a < b then b else a;
    ParseIntToString(a, lo, hi);
    ParseIntToString(b, lo, hi);
  }

  /** The text "0" belongs to the number 0 and to no other. */
  lemma IntToStringIsZero(n: int)
    ensures IntToString(n) == "0" <==> n == 0
  {
    assert IntToString(0) == "0";
    if IntToString(n) == "0" {
      IntToStringInjective(n, 0);
    }
  }
}
