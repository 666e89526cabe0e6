// Pure operations on sequences of reals that the buffer classes are
// specified against.
module Numeric {

  /** Sum of the elements, accumulated from the front as the Java loops do. */
  function Sum(s: seq<real>): real
  {
    if |s| == 0 then 0.0 else Sum(s[..|s| - 1]) + s[|s| - 1]
  }

  /** Sum of the pairwise products. */
  function Dot(a: seq<real>, b: seq<real>): real
    requires |a| == |b|
  {
    if |a| == 0 then 0.0 else Dot(a[..|a| - 1], b[..|b| - 1]) + a[|a| - 1] * b[|b| - 1]
  }

  /** Sum of the squared pairwise differences. */
  function SquaredDist(a: seq<real>, b: seq<real>): real
    requires |a| == |b|
  {
    if |a| == 0 then 0.0
    else SquaredDist(a[..|a| - 1], b[..|b| - 1]) + (a[|a| - 1] - b[|b| - 1]) * (a[|a| - 1] - b[|b| - 1])
  }

  function Constant(n: nat, v: real): (r: seq<real>)
    ensures |r| == n && forall i :: 0 <= i < n ==> r[i] == v
  {
    seq(n, _ => v)
  }

  function Scaled(a: seq<real>, s: real): (r: seq<real>)
    ensures |r| == |a| && forall i :: 0 <= i < |a| ==> r[i] == a[i] * s
  {
    seq(|a|, i requires 0 <= i < |a| => a[i] * s)
  }

  /** `a + s*b`, elementwise. */
  function PlusScaled(a: seq<real>, s: real, b: seq<real>): (r: seq<real>)
    requires |a| == |b|
    ensures |r| == |a| && forall i :: 0 <= i < |a| ==> r[i] == a[i] + s * b[i]
  {
    seq(|a|, i requires 0 <= i < |a| => a[i] + s * b[i])
  }

  function Plus(a: seq<real>, b: seq<real>): (r: seq<real>)
    requires |a| == |b|
    ensures |r| == |a| && forall i :: 0 <= i < |a| ==> r[i] == a[i] + b[i]
  {
    seq(|a|, i requires 0 <= i < |a| => a[i] + b[i])
  }

  /** `a` with `block` written over it from index `at`; the rest of `a` is kept. */
  function Overwrite(a: seq<real>, at: nat, block: seq<real>): (r: seq<real>)
    requires at + |block| <= |a|
    ensures |r| == |a|
    ensures forall k :: 0 <= k < |a| ==> r[k] == if at <= k < at + |block| then block[k - at] else a[k]
  {
    seq(|a|, k requires 0 <= k < |a| => if at <= k < at + |block| then block[k - at] else a[k])
  }

  lemma {:induction false} SumAppend(s: seq<real>, t: seq<real>)
    ensures Sum(s + t) == Sum(s) + Sum(t)
  {
    if |t| == 0 {
      assert s + t == s;
    } else {
      assert (s + t)[..|s + t| - 1] == s + t[..|t| - 1];
      SumAppend(s, t[..|t| - 1]);
    }
  }

  /** Scaling every element scales the sum. */
  lemma {:induction false} SumScaled(s: seq<real>, c: real)
    ensures Sum(Scaled(s, c)) == c * Sum(s)
  {
    if |s| > 0 {
      var n := |s| - 1;
      assert forall j :: 0 <= j < n ==> Scaled(s, c)[..n][j] == Scaled(s[..n], c)[j];
      assert Scaled(s, c)[..n] == Scaled(s[..n], c);
      SumScaled(s[..|s| - 1], c);
    }
  }

  /** Sum of an elementwise sum is the sum of the sums. */
  lemma {:induction false} SumPlus(a: seq<real>, b: seq<real>)
    requires |a| == |b|
    ensures Sum(Plus(a, b)) == Sum(a) + Sum(b)
  {
    if |a| > 0 {
      var n := |a| - 1;
      assert forall j :: 0 <= j < n ==> Plus(a, b)[..n][j] == Plus(a[..n], b[..n])[j];
      assert Plus(a, b)[..n] == Plus(a[..n], b[..n]);
      SumPlus(a[..|a| - 1], b[..|b| - 1]);
    }
  }

  lemma {:induction false} DotSymmetric(a: seq<real>, b: seq<real>)
    requires |a| == |b|
    ensures Dot(a, b) == Dot(b, a)
  {
    if |a| > 0 { DotSymmetric(a[..|a| - 1], b[..|b| - 1]); }
  }

  /** A squared distance is never negative. */
  lemma {:induction false} SquaredDistNonNegative(a: seq<real>, b: seq<real>)
    requires |a| == |b|
    ensures SquaredDist(a, b) >= 0.0
  {
    if |a| > 0 { SquaredDistNonNegative(a[..|a| - 1], b[..|b| - 1]); }
  }

  /** The polarisation identity: |a-b|^2 = a.a - 2 a.b + b.b. */
  lemma {:induction false} SquaredDistExpands(a: seq<real>, b: seq<real>)
    requires |a| == |b|
    ensures SquaredDist(a, b) == Dot(a, a) - 2.0 * Dot(a, b) + Dot(b, b)
  {
    if |a| > 0 { SquaredDistExpands(a[..|a| - 1], b[..|b| - 1]); }
  }

  /** The distance of a sequence to itself is zero. */
  lemma {:induction false} SquaredDistSelf(a: seq<real>)
    ensures SquaredDist(a, a) == 0.0
  {
    if |a| > 0 { SquaredDistSelf(a[..|a| - 1]); }
  }

  /** Extending both prefixes by one element adds one product to the dot product. */
  lemma DotStep(a: seq<real>, b: seq<real>, k: nat, u: real, v: real)
    requires |a| == |b| && k < |a| && u == a[k] && v == b[k]
    ensures Dot(a[..k + 1], b[..k + 1]) == Dot(a[..k], b[..k]) + u * v
  {
    assert a[..k + 1][..k] == a[..k] && b[..k + 1][..k] == b[..k];
  }

  /** Replacing one entry changes the sum by the difference. */
  lemma {:induction false} SumUpdate(s: seq<real>, c: nat, v: real)
    requires c < |s|
    ensures Sum(s[c := v]) == Sum(s) - s[c] + v
  {
    var n := |s| - 1;
    var u := s[c := v];
    if c == n {
      assert u[..n] == s[..n];
    } else {
      assert u[..n] == s[..n][c := v];
      SumUpdate(s[..n], c, v);
    }
  }

  /** Writing a block as long as the sequence over it from the start leaves just the block. */
  lemma OverwriteAll(a: seq<real>, block: seq<real>)
    requires |a| == |block|
    ensures Overwrite(a, 0, block) == block
  {
  }
}
