/**
 * Decimal rendering of integers, as a JavaScript template literal writes an
 * integral number (`${n}`), together with the digit parser that inverts it.
 */
module Format {

  predicate IsDigit(c: char) {
    '0' <= c <= '9'
  }

  predicate AllDigits(s: string) {
    forall i :: 0 <= i < |s| ==> IsDigit(s[i])
  }

  function DigitChar(d: nat): (c: char)
    requires d < 10
    ensures IsDigit(c) && c as int - '0' as int == d
  {
    ('0' as int + d) as char
  }

  /** Decimal digits of `n`, most significant first, without leading zeros. */
  function NatToString(n: nat): (s: string)
    ensures |s| > 0 && AllDigits(s)
    ensures n > 0 ==> s[0] != '0'
    decreases n
  {
    if n < 10 then [DigitChar(n)] else NatToString(n / 10) + [DigitChar(n % 10)]
  }

  /** The value of a string of decimal digits. */
  function DigitsValue(s: string): nat
    requires AllDigits(s)
  {
    if s == [] then 0 else DigitsValue(s[..|s| - 1]) * 10 + (s[|s| - 1] as int - '0' as int)
  }

  lemma {:induction false} NatToStringRoundTrip(n: nat)
    ensures DigitsValue(NatToString(n)) == n
    decreases n
  {
    if n >= 10 {
      var s := NatToString(n / 10);
      NatToStringRoundTrip(n / 10);
      var t := s + [DigitChar(n % 10)];
      assert t[..|t| - 1] == s;
    }
  }

  /** An integer as a template literal renders it: a minus sign, then the digits of its magnitude. */
  function IntToString(i: int): (s: string)
    ensures |s| > 0
    ensures forall k :: 0 <= k < |s| ==> s[k] == '-' || IsDigit(s[k])
  {
    if i < 0 then "-" + NatToString(-i) else NatToString(i)
  }

  lemma IntToStringInjective(a: int, b: int)
    requires IntToString(a) == IntToString(b)
    ensures a == b
  {
    if a < 0 && b < 0 {
      assert NatToString(-a) == IntToString(a)[1..];
      assert NatToString(-b) == IntToString(b)[1..];
      NatToStringRoundTrip(-a);
      NatToStringRoundTrip(-b);
    } else if 0 <= a && 0 <= b {
      NatToStringRoundTrip(a);
      NatToStringRoundTrip(b);
    }
  }

  /** The part of `s` before the first occurrence of `m` (all of `s` when `m` does not occur). */
  function Before(s: string, m: char): string
  {
    if s == [] || s[0] == m then [] else [s[0]] + Before(s[1..], m)
  }

  lemma {:induction false} BeforeSeparator(x: string, m: char, rest: string)
    requires m !in x
    ensures Before(x + [m] + rest, m) == x
  {
    if x != [] {
      assert (x + [m] + rest)[1..] == x[1..] + [m] + rest;
      BeforeSeparator(x[1..], m, rest);
    }
  }
}
