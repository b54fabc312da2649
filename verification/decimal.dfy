/**
  Decimal rendering of natural numbers, as Python's `f"{n}"` produces it for
  a non-negative `int`: the shortest run of ASCII digits, most significant
  first, with no leading zero.
 */
module Decimal {

  predicate IsDigit(c: char) {
    '0' <= c <= '9'
  }

  predicate AllDigits(s: string) {
    forall i :: 0 <= i < |s| ==> IsDigit(s[i])
  }

  function DigitValue(c: char): (d: nat)
    requires IsDigit(c)
    ensures d < 10
  {
    c as int - '0' as int
  }

  /** The digit character whose value is `d`. */
  function DigitChar(d: nat): (c: char)
    requires d < 10
    ensures IsDigit(c) && DigitValue(c) == d
  {
    ('0' as int + d) as char
  }

  /** The number a run of digits denotes, read most significant digit first. */
  function Value(s: string): nat
    requires AllDigits(s)
    decreases |s|
  {
    if |s| == 0 then 0 else 10 * Value(s[..|s| - 1]) + DigitValue(s[|s| - 1])
  }

  /** The decimal numeral of `n`: non-empty, digits only, no leading zero, and it denotes `n`. */
  function FromNat(n: nat): (s: string)
    ensures |s| >= 1 && AllDigits(s)
    ensures |s| == 1 || s[0] != '0'
    ensures Value(s) == n
    decreases n
  {
    if n < 10 then
      [DigitChar(n)]
    else
      var high := FromNat(n / 10);
      var s := high + [DigitChar(n % 10)];
      assert s[..|s| - 1] == high;
      assert |high| == 1 ==> Value(high) == DigitValue(high[0]) by {
        if |high| == 1 {
          assert high[..0] == [];
        }
      }
      s
  }

  /** A numeral with no leading zero denotes at least 10^(length - 1). */
  lemma {:induction false} ValueLowerBound(s: string)
    requires |s| >= 2 && AllDigits(s) && s[0] != '0'
    ensures Value(s) >= 10
  {
    var p := s[..|s| - 1];
    assert p[0] == s[0];
    if |p| == 1 {
      assert p[..0] == [];
      assert Value(p) == DigitValue(p[0]) >= 1;
    } else {
      ValueLowerBound(p);
    }
  }

  /**
    The converse round trip: a canonical numeral (non-empty, digits only,
    no leading zero) is the rendering of the number it denotes, so
    `FromNat` is a bijection between naturals and canonical numerals.
   */
  lemma {:induction false} FromNatOfValue(s: string)
    requires |s| >= 1 && AllDigits(s) && (|s| == 1 || s[0] != '0')
    ensures FromNat(Value(s)) == s
    decreases |s|
  {
    var p := s[..|s| - 1];
    var d := DigitValue(s[|s| - 1]);
    if |s| == 1 {
      assert p == [];
      assert FromNat(Value(s)) == [DigitChar(d)];
    } else {
      ValueLowerBound(s);
      assert p[0] == s[0];
      assert Value(s) / 10 == Value(p) && Value(s) % 10 == d;
      FromNatOfValue(p);
      assert s == p + [s[|s| - 1]];
    }
  }
}
