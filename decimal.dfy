/**
 * Decimal text and the integer widths of the parser: how `stoi` and `stoul`
 * read a run of digits, and how `operator<<` writes a line number.
 */
module Decimal {

  /** Largest value of a 32-bit `int` (the result type of `stoi` and the type of `lineNum`). */
  const IntMax: nat := 0x7FFF_FFFF

  /** Largest value of a 64-bit `unsigned long` (the result type of `stoul`). */
  const ULongMax: nat := 0xFFFF_FFFF_FFFF_FFFF

  predicate IsDigit(c: char) {
    '0' <= c <= '9'
  }

  predicate AllDigits(s: string) {
    forall i :: 0 <= i < |s| ==> IsDigit(s[i])
  }

  function DigitChar(d: nat): (c: char)
    requires d < 10
    ensures IsDigit(c) && c as int - '0' as int == d
  {
    (d + '0' as int) as char
  }

  /** Ten to the power `n`. */
  function Pow10(n: nat): (p: nat)
    ensures p > 0
  {
    if n == 0 then 1 else 10 * Pow10(n - 1)
  }

  /** The value of a run of decimal digits, leading zeros allowed, without any width limit. */
  function DigitsValue(s: string): (v: nat)
    requires AllDigits(s)
    ensures v < Pow10(|s|)
  {
    if s == [] then 0 else DigitsValue(s[..|s| - 1]) * 10 + (s[|s| - 1] as int - '0' as int)
  }

  /** Nine digits always fit an `int`, nineteen an `unsigned long`. */
  lemma WidthsInDigits()
    ensures Pow10(9) <= IntMax && Pow10(19) <= ULongMax
  {
    assert Pow10(10) == 10000000000;
  }

  /** A run of at most `n` digits stays below ten to the `n`: the width needed before a conversion can overflow. */
  lemma {:induction false} DigitsBelow(s: string, n: nat)
    requires AllDigits(s) && |s| <= n
    ensures DigitsValue(s) < Pow10(n)
    decreases n
  {
    if |s| < n {
      DigitsBelow(s, n - 1);
    }
  }

  /** The shortest decimal numeral of `n`, as `operator<<` prints a non-negative integer. */
  function NatToString(n: nat): (s: string)
    ensures |s| > 0 && AllDigits(s)
    ensures |s| > 1 ==> s[0] != '0'
  {
    if n < 10 then [DigitChar(n)] else NatToString(n / 10) + [DigitChar(n % 10)]
  }

  /** Reading back a printed number gives the number: the numeral identifies the line. */
  lemma {:induction false} NatToStringRoundTrip(n: nat)
    ensures DigitsValue(NatToString(n)) == n
  {
    var s := NatToString(n);
    if n >= 10 {
      NatToStringRoundTrip(n / 10);
      assert s[..|s| - 1] == NatToString(n / 10);
    }
  }

  /** Two different numbers never print alike. */
  lemma NatToStringInjective(m: nat, n: nat)
    requires NatToString(m) == NatToString(n)
    ensures m == n
  {
    NatToStringRoundTrip(m);
    NatToStringRoundTrip(n);
  }
}
