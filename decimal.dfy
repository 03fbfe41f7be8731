/** Decimal text of non-negative integers, as a template literal renders them.

    `${n}` for an integer 0 <= n < 10^21 (every array index is one) gives its
    digits in base ten, most significant first, with no sign and no leading
    zero (except for zero itself). From 10^21 up the runtime switches to
    exponent form, which this module does not model. NatToString is that
    rendering; Value reads a digit string back, and IsCanonical describes
    exactly the strings NatToString produces.
 */
module Decimal {

  predicate IsDigit(c: char) {
    '0' <= c <= '9'
  }

  /** The digit character for d. */
  function DigitChar(d: nat): (c: char)
    requires d < 10
    ensures IsDigit(c)
  {
    ('0' as int + d) as char
  }

  /** The numeric value of a digit character; inverse of DigitChar. */
  function DigitValue(c: char): (d: nat)
    requires IsDigit(c)
    ensures d < 10 && DigitChar(d) == c
  {
    c as int - '0' as int
  }

  predicate IsDigits(s: string) {
    forall i :: 0 <= i < |s| ==> IsDigit(s[i])
  }

  /** Non-empty, only digits, and no leading zero unless the text is "0". */
  predicate IsCanonical(s: string) {
    |s| > 0 && IsDigits(s) && (s[0] == '0' ==> |s| == 1)
  }

  /** The number a digit string denotes in base ten. */
  function Value(s: string): nat
    requires IsDigits(s)
    decreases |s|
  {
    if s == [] then 0 else 10 * Value(s[..|s| - 1]) + DigitValue(s[|s| - 1])
  }

  /** The decimal text of n. Its contract is the print-then-read round trip:
      the text is canonical and reads back as n. */
  function NatToString(n: nat): (s: string)
    ensures IsCanonical(s) && Value(s) == n
    decreases n
  {
    if n < 10 then
      [DigitChar(n)]
    else
      var prefix := NatToString(n / 10);
      var s := prefix + [DigitChar(n % 10)];
      assert s[..|s| - 1] == prefix;
      s
  }

  /** A canonical string of two or more digits denotes at least 10. */
  lemma {:induction false} LongCanonicalAtLeastTen(s: string)
    requires IsCanonical(s) && |s| > 1
    ensures Value(s) >= 10
  {
    var prefix := s[..|s| - 1];
    assert IsCanonical(prefix) by {
      assert prefix[0] == s[0];
    }
    if |prefix| == 1 {
      assert prefix[0] != '0';
      assert Value(prefix) == DigitValue(prefix[0]) by {
        assert prefix[..0] == [];
      }
    } else {
      LongCanonicalAtLeastTen(prefix);
    }
  }

  /** Read-then-print round trip: every canonical string is the decimal text
      of the number it denotes, so NatToString hits exactly the canonical strings. */
  lemma {:induction false} CanonicalRoundTrip(s: string)
    requires IsCanonical(s)
    ensures NatToString(Value(s)) == s
  {
    var n := Value(s);
    var last := s[|s| - 1];
    if |s| == 1 {
      assert s[..0] == [] && Value(s[..0]) == 0;
      assert n == DigitValue(last);
    } else {
      var prefix := s[..|s| - 1];
      assert IsCanonical(prefix) by {
        assert prefix[0] == s[0];
      }
      if |prefix| > 1 {
        LongCanonicalAtLeastTen(prefix);
      } else {
        assert prefix[..0] == [];
        assert Value(prefix) == DigitValue(prefix[0]);
      }
      assert Value(prefix) >= 1;
      assert n / 10 == Value(prefix) && n % 10 == DigitValue(last);
      CanonicalRoundTrip(prefix);
      assert s == prefix + [last];
    }
  }

  /** Distinct numbers have distinct decimal texts. */
  lemma NatToStringInjective(a: nat, b: nat)
    ensures NatToString(a) == NatToString(b) <==> a == b
  {
  }
}
