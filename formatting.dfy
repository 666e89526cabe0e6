// Java's decimal rendering of an int (`"col_" + n`, `%d`), with the fact that
// different numbers render differently.
module Formatting {

  function Digit(d: nat): (c: char)
    requires d < 10
    ensures '0' <= c <= '9'
  {
    (48 + d) as char
  }

  /** The decimal digits of `n`, most significant first, without leading zeros. */
  function Digits(n: nat): (s: string)
    ensures |s| >= 1
    ensures n >= 10 ==> |s| >= 2
  {
    if n < 10 then [Digit(n)] else Digits(n / 10) + [Digit(n % 10)]
  }

  /** `Integer.toString(n)`: a minus sign before the digits of a negative number. */
  function Decimal(n: int): (s: string)
    ensures |s| >= 1
    ensures n >= 0 ==> s == Digits(n)
  {
    if n < 0 then "-" + Digits(-n) else Digits(n)
  }

  /** Two numbers with the same digits are equal. */
  lemma {:induction false} DigitsInjective(a: nat, b: nat)
    requires Digits(a) == Digits(b)
    ensures a == b
    decreases a
  {
    if a >= 10 && b >= 10 {
      var da, db := Digits(a), Digits(b);
      assert da[|da| - 1] == Digit(a % 10) && db[|db| - 1] == Digit(b % 10);
      assert da[..|da| - 1] == Digits(a / 10) && db[..|db| - 1] == Digits(b / 10);
      DigitsInjective(a / 10, b / 10);
    } else if a < 10 && b < 10 {
      assert Digits(a)[0] == Digit(a) && Digits(b)[0] == Digit(b);
    }
  }

  /** A fixed prefix followed by a number: different numbers give different strings. */
  lemma Labelled(prefix: string, a: nat, b: nat)
    requires prefix + Decimal(a) == prefix + Decimal(b)
    ensures a == b
  {
    var s := prefix + Decimal(a);
    assert Decimal(a) == s[|prefix|..];
    assert Decimal(b) == (prefix + Decimal(b))[|prefix|..];
    DigitsInjective(a, b);
  }

  /** Every character of a number's digits is a decimal digit. */
  lemma {:induction false} DigitsAreDigits(n: nat)
    ensures forall i :: 0 <= i < |Digits(n)| ==> '0' <= Digits(n)[i] <= '9'
  {
    if n >= 10 {
      DigitsAreDigits(n / 10);
    }
  }

  /**
   * Two numbers each followed by text that starts with a non-digit: when the
   * strings agree, so do the numbers and the texts that follow them.
   */
  lemma DigitsThenText(a: nat, b: nat, s: string, t: string)
    requires |s| > 0 && |t| > 0 && !('0' <= s[0] <= '9') && !('0' <= t[0] <= '9')
    requires Digits(a) + s == Digits(b) + t
    ensures a == b && s == t
  {
    var da, db := Digits(a), Digits(b);
    DigitsAreDigits(a);
    DigitsAreDigits(b);
    var w := da + s;
    assert w == db + t;
    assert !('0' <= w[|da|] <= '9') && !('0' <= w[|db|] <= '9');
    assert forall j :: 0 <= j < |da| ==> w[j] == da[j];
    assert forall j :: 0 <= j < |db| ==> w[j] == db[j];
    assert da == w[..|da|] == db;
    assert s == w[|da|..] == t;
    DigitsInjective(a, b);
  }
}
