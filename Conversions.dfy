/**
 * Python's numeric conversions as the detector uses them: `int()` of a digit
 * string, `int()` of a float (truncation toward zero) and the decimal text
 * that `'{}'.format` prints for an integer.
 */
module Conversions {
  import opened Strings

  function Pow10(k: nat): (p: nat)
    ensures p >= 1
  {
    if k == 0 then 1 else 10 * Pow10(k - 1)
  }

  function DigitValue(c: char): (d: nat)
    requires IsDigit(c)
    ensures d < 10
  {
    c as int - '0' as int
  }

  function DigitChar(d: nat): (c: char)
    requires d < 10
    ensures IsDigit(c) && DigitValue(c) == d
  {
    ('0' as int + d) as char
  }

  /** `int(s)` for a string of ASCII digits (leading zeros allowed). */
  function DigitsValue(s: string): (n: nat)
    requires AllDigits(s)
    ensures n < Pow10(|s|)
  {
    if s == [] then 0
    else DigitsValue(s[..|s| - 1]) * 10 + DigitValue(s[|s| - 1])
  }

  /** The decimal text of a natural number, most significant digit first. */
  function NatToDecimal(n: nat): string {
    if n < 10 then [DigitChar(n)] else NatToDecimal(n / 10) + [DigitChar(n % 10)]
  }

  /** The decimal text is a non-empty digit string without a superfluous
      leading zero, and it reads back as the number. */
  lemma {:induction false} NatToDecimalDigits(n: nat)
    ensures var s := NatToDecimal(n);
      && |s| > 0 && AllDigits(s)
      && DigitsValue(s) == n
      && (s[0] == '0' ==> n == 0 && |s| == 1)
  {
    if n >= 10 {
      NatToDecimalDigits(n / 10);
      var p := NatToDecimal(n / 10);
      var s := NatToDecimal(n);
      assert s[..|s| - 1] == p;
    }
  }

  /** A digit string whose value is 0 consists of zeros only. */
  lemma {:induction false} ZeroValueAllZeros(s: string)
    requires AllDigits(s) && DigitsValue(s) == 0
    ensures forall i :: 0 <= i < |s| ==> s[i] == '0'
  {
    if s != [] {
      var p := s[..|s| - 1];
      assert AllDigits(p);
      ZeroValueAllZeros(p);
      assert forall i :: 0 <= i < |p| ==> s[i] == p[i];
    }
  }

  /** A digit string without superfluous leading zeros is the decimal text of its value. */
  lemma {:induction false} CanonicalDigitsRoundTrip(s: string)
    requires |s| > 0 && AllDigits(s)
    requires s[0] == '0' ==> |s| == 1
    ensures NatToDecimal(DigitsValue(s)) == s
  {
    var p := s[..|s| - 1];
    var d := DigitValue(s[|s| - 1]);
    if |s| == 1 {
      assert DigitsValue(s) == d;
      assert [DigitChar(d)] == s;
    } else {
      assert AllDigits(p) && p[0] == s[0];
      var v := DigitsValue(p);
      if v == 0 {
        ZeroValueAllZeros(p);
        assert false;
      }
      CanonicalDigitsRoundTrip(p);
      var n := DigitsValue(s);
      assert n == v * 10 + d && n >= 10;
      assert n / 10 == v && n % 10 == d;
      assert s == p + [s[|s| - 1]];
    }
  }

  /** Python's `str(i)` for an integer: an optional minus sign, then the decimal digits. */
  function IntToString(i: int): string {
    if i >= 0 then NatToDecimal(i) else "-" + NatToDecimal(-i)
  }

  /** The text of a non-negative integer is its digits; that of a negative
      one is a minus sign followed by the digits of its magnitude. Either way
      the digits have no superfluous leading zero. */
  lemma IntToStringDigits(i: int)
    ensures var s := IntToString(i);
      && |s| > 0
      && (i >= 0 ==> AllDigits(s) && DigitsValue(s) == i && (s[0] == '0' ==> i == 0 && |s| == 1))
      && (i < 0 ==> s[0] == '-' && |s| > 1 && s[1] != '0' && AllDigits(s[1..]) && DigitsValue(s[1..]) == -i)
  {
    if i >= 0 {
      NatToDecimalDigits(i);
    } else {
      NatToDecimalDigits(-i);
      assert IntToString(i)[1..] == NatToDecimal(-i);
    }
  }

  /** Python's `int(x)` for a float: truncation toward zero. */
  function Trunc(x: real): int {
    if x >= 0.0 then x.Floor else -((-x).Floor)
  }

  /** Truncation drops the fraction toward zero: the result lies between zero
      and the value, less than one away from the value, and integral values
      are kept. */
  lemma TruncTowardZero(x: real)
    ensures x >= 0.0 ==> Trunc(x) >= 0 && Trunc(x) as real <= x < Trunc(x) as real + 1.0
    ensures x < 0.0 ==> Trunc(x) <= 0 && Trunc(x) as real - 1.0 < x <= Trunc(x) as real
    ensures x == x.Floor as real ==> Trunc(x) as real == x
  {
    if x < 0.0 {
      var y := -x;
      assert y.Floor as real <= y < y.Floor as real + 1.0;
      if x == x.Floor as real {
        var k := x.Floor;
        assert y == (-k) as real;
        assert y.Floor == -k;
      }
    }
  }
}
