/**
 * How JavaScript renders a non-negative integer inside a template literal or a
 * string concatenation (`${n}`, `'0' + n`): the shortest decimal numeral,
 * without leading zeros.  `ParseDigits` is the reading direction, used as the
 * partner of the rendering.
 */
module Decimal {

  predicate IsDigit(c: char) {
    '0' <= c <= '9'
  }

  predicate AllDigits(s: string) {
    forall i :: 0 <= i < |s| ==> IsDigit(s[i])
  }

  /** A numeral as JavaScript prints integers: digits only, no leading zero unless it is "0". */
  predicate Canonical(s: string) {
    |s| >= 1 && AllDigits(s) && (|s| > 1 ==> s[0] != '0')
  }

  function DigitChar(d: nat): (c: char)
    requires d < 10
    ensures IsDigit(c)
  {
    ('0' as int + d) as char
  }

  function DigitValue(c: char): (d: nat)
    requires IsDigit(c)
    ensures d < 10 && DigitChar(d) == c
  {
    c as int - '0' as int
  }

  /** `String(n)` for a non-negative integer `n`. */
  function NatToString(n: nat): (s: string)
    ensures Canonical(s)
    ensures |s| == 1 <==> n < 10
    decreases n
  {
    if n < 10 then [DigitChar(n)] else NatToString(n / 10) + [DigitChar(n % 10)]
  }

  /** The value of a string of decimal digits (the empty string reads as 0). */
  function ParseDigits(s: string): nat
    requires AllDigits(s)
    decreases |s|
  {
    if s == [] then 0 else ParseDigits(s[..|s| - 1]) * 10 + DigitValue(s[|s| - 1])
  }

  lemma ParseDigitsSnoc(s: string, c: char)
    requires AllDigits(s) && IsDigit(c)
    ensures AllDigits(s + [c])
    ensures ParseDigits(s + [c]) == ParseDigits(s) * 10 + DigitValue(c)
  {
  }

  /** Reading back a printed integer yields the integer. */
  lemma {:induction false} ParseNatToString(n: nat)
    ensures ParseDigits(NatToString(n)) == n
    decreases n
  {
    if n >= 10 {
      ParseNatToString(n / 10);
      ParseDigitsSnoc(NatToString(n / 10), DigitChar(n % 10));
    }
  }

  /** Every canonical numeral is the printing of the integer it denotes. */
  lemma {:induction false} NatToStringParse(s: string)
    requires Canonical(s)
    ensures NatToString(ParseDigits(s)) == s
    decreases |s|
  {
    var n := ParseDigits(s);
    var init := s[..|s| - 1];
    var last := s[|s| - 1];
    assert s == init + [last];
    if |s| == 1 {
      assert init == [];
      assert n == DigitValue(last);
    } else {
      assert Canonical(init) by { assert init[0] == s[0]; }
      NatToStringParse(init);
      var m := ParseDigits(init);
      assert m >= 1;
      assert n / 10 == m && n % 10 == DigitValue(last);
    }
  }
}
