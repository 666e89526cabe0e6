// Column statistics that skip the "unknown" marker value, as the matrix's
// columnMin, columnMax and columnMean do.
module ColumnStats {

  /** The marker for a missing value. */
  const Unknown: real := -1e308

  /** `Double.MAX_VALUE`, the starting point of a minimum search. */
  const MaxValue: real := 1.7976931348623157e308

  function Min(a: real, b: real): real
  {
    if a <= b then a else b
  }

  function Max(a: real, b: real): real
  {
    if a >= b then a else b
  }

  /**
   * The running minimum over the known values, from `MaxValue`: a lower
   * bound of every known value, and either one of them or `MaxValue`.
   */
  function MinKnown(s: seq<real>): (m: real)
    ensures m <= MaxValue
    ensures forall i :: 0 <= i < |s| && s[i] != Unknown ==> m <= s[i]
    ensures m == MaxValue || exists i :: 0 <= i < |s| && s[i] != Unknown && m == s[i]
  {
    if |s| == 0 then MaxValue
    else if s[|s| - 1] != Unknown then Min(MinKnown(s[..|s| - 1]), s[|s| - 1])
    else MinKnown(s[..|s| - 1])
  }

  /**
   * The running maximum over the known values, from `-MaxValue`: an upper
   * bound of every known value, and either one of them or `-MaxValue`.
   */
  function MaxKnown(s: seq<real>): (m: real)
    ensures m >= -MaxValue
    ensures forall i :: 0 <= i < |s| && s[i] != Unknown ==> s[i] <= m
    ensures m == -MaxValue || exists i :: 0 <= i < |s| && s[i] != Unknown && m == s[i]
  {
    if |s| == 0 then -MaxValue
    else if s[|s| - 1] != Unknown then Max(MaxKnown(s[..|s| - 1]), s[|s| - 1])
    else MaxKnown(s[..|s| - 1])
  }

  /** The sum of the known values. */
  function KnownSum(s: seq<real>): real
  {
    if |s| == 0 then 0.0
    else KnownSum(s[..|s| - 1]) + (if s[|s| - 1] != Unknown then s[|s| - 1] else 0.0)
  }

  /** How many values are known. */
  function KnownCount(s: seq<real>): (n: nat)
    ensures n <= |s|
  {
    if |s| == 0 then 0
    else KnownCount(s[..|s| - 1]) + (if s[|s| - 1] != Unknown then 1 else 0)
  }

  /** A double that is either a number or NaN (what `0.0 / 0` gives). */
  datatype Mean = Value(v: real) | NotANumber

  /** `sum / count` over the known values: NaN when none is known. */
  function MeanOf(s: seq<real>): (r: Mean)
    ensures r.NotANumber? <==> KnownCount(s) == 0
  {
    if KnownCount(s) == 0 then NotANumber else Value(KnownSum(s) / (KnownCount(s) as real))
  }

  /** Without a known value the sum is zero. */
  lemma {:induction false} NothingKnown(s: seq<real>)
    requires KnownCount(s) == 0
    ensures KnownSum(s) == 0.0 && forall i :: 0 <= i < |s| ==> s[i] == Unknown
  {
    if |s| > 0 {
      NothingKnown(s[..|s| - 1]);
      assert forall i :: 0 <= i < |s| - 1 ==> s[..|s| - 1][i] == s[i];
    }
  }

  /** `n * x` as `n` repeated additions. */
  function Repeated(n: nat, x: real): real
  {
    if n == 0 then 0.0 else Repeated(n - 1, x) + x
  }

  lemma {:induction false} RepeatedIsProduct(n: nat, x: real)
    ensures Repeated(n, x) == (n as real) * x
  {
    if n > 0 {
      RepeatedIsProduct(n - 1, x);
      assert (n as real) * x == ((n - 1) as real) * x + x;
    }
  }

  /** Bounds on every known value bound the sum by `count` times the bounds. */
  lemma {:induction false} KnownSumBounds(s: seq<real>, lo: real, hi: real)
    requires forall i :: 0 <= i < |s| && s[i] != Unknown ==> lo <= s[i] <= hi
    ensures Repeated(KnownCount(s), lo) <= KnownSum(s) <= Repeated(KnownCount(s), hi)
  {
    if |s| > 0 {
      var t := s[..|s| - 1];
      assert forall i :: 0 <= i < |t| ==> t[i] == s[i];
      KnownSumBounds(t, lo, hi);
    }
  }

  /** The mean of the known values lies between their minimum and their maximum. */
  lemma MeanBetween(s: seq<real>)
    requires KnownCount(s) > 0
    ensures MinKnown(s) <= MeanOf(s).v <= MaxKnown(s)
  {
    MeanWithin(s, MinKnown(s), MaxKnown(s));
  }

  /** Bounds on every known value bound their mean. */
  lemma MeanWithin(s: seq<real>, lo: real, hi: real)
    requires KnownCount(s) > 0
    requires forall i :: 0 <= i < |s| && s[i] != Unknown ==> lo <= s[i] <= hi
    ensures lo <= MeanOf(s).v <= hi
  {
    KnownSumBounds(s, lo, hi);
    QuotientBounds(KnownCount(s), lo, KnownSum(s), hi);
  }

  /** From `n * lo <= sum <= n * hi` and `n > 0` follows `lo <= sum / n <= hi`. */
  lemma QuotientBounds(n: nat, lo: real, sum: real, hi: real)
    requires n > 0 && Repeated(n, lo) <= sum <= Repeated(n, hi)
    ensures lo <= sum / (n as real) <= hi
  {
    RepeatedIsProduct(n, lo);
    RepeatedIsProduct(n, hi);
    var c := n as real;
    assert c * lo <= sum <= c * hi;
  }
}
