/**
 Decimal text for natural numbers, as Rust's `to_string()` writes an unsigned
 integer: the digits '0'..'9', most significant first, with no sign and no
 leading zero (zero itself is "0").
 */
module Decimal {

  predicate IsDigit(c: char)
  {
    '0' <= c <= '9'
  }

  predicate AllDigits(s: string)
  {
    forall i :: 0 <= i < |s| ==> IsDigit(s[i])
  }

  /** The text `to_string()` can produce: non-empty, all digits, no leading zero. */
  predicate IsCanonical(s: string)
  {
    |s| >= 1 && AllDigits(s) && (s[0] == '0' ==> |s| == 1)
  }

  function DigitValue(c: char): (d: nat)
    requires IsDigit(c)
    ensures d < 10
  {
    c as int - '0' as int
  }

  function DigitChar(d: nat): (c: char)
    requires d < 10
    ensures IsDigit(c) && DigitValue(c) == d
  {
    ('0' as int + d) as char
  }

  /** The number a digit string denotes (the reference reading of decimal text). */
  function DecimalValue(s: string): nat
    requires AllDigits(s)
  {
    if s == [] then 0 else DecimalValue(s[..|s| - 1]) * 10 + DigitValue(s[|s| - 1])
  }

  /** Decimal text of `n`, most significant digit first. */
  function NatToDecimal(n: nat): (s: string)
    ensures IsCanonical(s)
    decreases n
  {
    if n < 10 then [DigitChar(n)] else NatToDecimal(n / 10) + [DigitChar(n % 10)]
  }

  /** Reading back the text of `n` gives `n`. */
  lemma {:induction false} DecimalValueOfNatToDecimal(n: nat)
    ensures DecimalValue(NatToDecimal(n)) == n
    decreases n
  {
    var s := NatToDecimal(n);
    if n >= 10 {
      DecimalValueOfNatToDecimal(n / 10);
      assert s[..|s| - 1] == NatToDecimal(n / 10);
    }
  }

  /** A canonical digit string that does not start with '0' denotes a positive number. */
  lemma {:induction false} LeadingNonZeroIsPositive(s: string)
    requires |s| >= 1 && AllDigits(s) && s[0] != '0'
    ensures DecimalValue(s) > 0
    decreases |s|
  {
    if |s| > 1 {
      var p := s[..|s| - 1];
      assert p[0] == s[0];
      LeadingNonZeroIsPositive(p);
    }
  }

  /** Every canonical digit string is the text of the number it denotes, so the
      text of a number is unique and `NatToDecimal` is a bijection onto canonical text. */
  lemma {:induction false} NatToDecimalOfDecimalValue(s: string)
    requires IsCanonical(s)
    ensures NatToDecimal(DecimalValue(s)) == s
    decreases |s|
  {
    if |s| > 1 {
      var p := s[..|s| - 1];
      var d := DigitValue(s[|s| - 1]);
      assert p[0] == s[0];
      LeadingNonZeroIsPositive(p);
      NatToDecimalOfDecimalValue(p);
      var n := DecimalValue(s);
      assert n == DecimalValue(p) * 10 + d;
      assert n / 10 == DecimalValue(p) && n % 10 == d;
      assert s == p + [s[|s| - 1]];
    }
  }
}
