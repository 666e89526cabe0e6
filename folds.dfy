// The fold sizes cross-validation splits a data set into, and the row ranges
// a fold occupies.
module Folds {

  /** The sum of a list of sizes. */
  function Total(s: seq<nat>): nat
  {
    if |s| == 0 then 0 else Total(s[..|s| - 1]) + s[|s| - 1]
  }

  /** `n` sizes of `q`, of which the first `r` are one larger. */
  function Balanced(n: nat, q: nat, r: nat): (s: seq<nat>)
    ensures |s| == n
  {
    seq(n, i requires 0 <= i < n => if i < r then q + 1 else q)
  }

  /**
   * The sizes `computeFoldSizes(total, folds)` produces: `total / folds`
   * each, plus one for each of the first `total % folds` folds.
   */
  function FoldSizes(total: nat, folds: nat): (s: seq<nat>)
    requires folds > 0
    ensures |s| == folds
    ensures forall i :: 0 <= i < folds ==> s[i] == total / folds || s[i] == total / folds + 1
  {
    Balanced(folds, total / folds, total % folds)
  }

  lemma TotalStep(s: seq<nat>, i: nat)
    requires i < |s|
    ensures Total(s[..i + 1]) == Total(s[..i]) + s[i]
  {
    assert s[..i + 1][..i] == s[..i];
  }

  lemma {:induction false} BalancedTotal(n: nat, q: nat, r: nat)
    requires r <= n
    ensures Total(Balanced(n, q, r)) == n * q + r
  {
    if n > 0 {
      var s := Balanced(n, q, r);
      var r' := if r == n then r - 1 else r;
      BalancedTotal(n - 1, q, r');
      assert s[..n - 1] == Balanced(n - 1, q, r');
      assert Total(s) == Total(s[..n - 1]) + s[n - 1];
      assert (n - 1) * q + q == n * q;
    }
  }

  /** The folds cover every row exactly: their sizes add up to the total. */
  lemma FoldSizesTotal(total: nat, folds: nat)
    requires folds > 0
    ensures Total(FoldSizes(total, folds)) == total
  {
    BalancedTotal(folds, total / folds, total % folds);
  }

  /** The folds are balanced: sizes never grow along the list and differ by at most one. */
  lemma FoldSizesBalanced(total: nat, folds: nat, i: nat, j: nat)
    requires folds > 0 && i <= j < folds
    ensures FoldSizes(total, folds)[j] <= FoldSizes(total, folds)[i] <= FoldSizes(total, folds)[j] + 1
  {
  }

  /** The rows before a fold plus the fold itself never exceed the total. */
  lemma {:induction false} FoldFits(s: seq<nat>, i: nat)
    requires i < |s|
    ensures Total(s[..i]) + s[i] <= Total(s)
    decreases |s|
  {
    TotalStep(s, i);
    if i + 1 < |s| {
      var t := s[..|s| - 1];
      assert t[..i] == s[..i] && t[i] == s[i];
      FoldFits(t, i);
    } else {
      assert s[..i + 1] == s;
    }
  }
}
