// Mixed-radix index arithmetic shared by the tensor code: dimension 0 varies
// fastest, the stride of dimension i is the product of dimensions 0..i-1.
module Indexing {

  /** The element count of a shape (`countElements`), multiplied from the front. */
  function Product(d: seq<nat>): nat
  {
    if |d| == 0 then 1 else Product(d[..|d| - 1]) * d[|d| - 1]
  }

  /** `steps[i] = steps[i-1] * dims[i-1]` with `steps[0] = 1`. */
  function Strides(d: seq<nat>): (s: seq<nat>)
    ensures |s| == |d| && forall i :: 0 <= i < |d| ==> s[i] == Product(d[..i])
  {
    seq(|d|, i requires 0 <= i < |d| => Product(d[..i]))
  }

  /** `Σ p[i] * Product(d[..i])`: the flat offset of position `p`. */
  function Flat(p: seq<int>, d: seq<nat>): int
    requires |p| == |d|
  {
    if |p| == 0 then 0 else Flat(p[..|p| - 1], d[..|d| - 1]) + p[|p| - 1] * Product(d[..|d| - 1])
  }

  /** Every coordinate lies inside its dimension. */
  predicate InBox(p: seq<int>, d: seq<nat>)
  {
    |p| == |d| && forall i :: 0 <= i < |d| ==> 0 <= p[i] < d[i]
  }

  predicate Positive(d: seq<nat>)
  {
    forall i :: 0 <= i < |d| ==> d[i] >= 1
  }

  function Zeros(n: nat): (z: seq<int>)
    ensures |z| == n && forall i :: 0 <= i < n ==> z[i] == 0
  {
    seq(n, _ => 0)
  }

  /** The position whose flat offset is `q` (inverse of `Flat` on the box). */
  function Unrank(q: nat, d: seq<nat>): (p: seq<int>)
    requires Positive(d)
    ensures |p| == |d|
  {
    if |d| == 0 then []
    else
      ProductPositive(d[..|d| - 1]);
      var m := Product(d[..|d| - 1]);
      Unrank(q % m, d[..|d| - 1]) + [q / m]
  }

  lemma {:induction false} ProductPositive(d: seq<nat>)
    requires Positive(d)
    ensures Product(d) >= 1
  {
    if |d| > 0 {
      ProductPositive(d[..|d| - 1]);
      MulPositive(Product(d[..|d| - 1]), d[|d| - 1]);
    }
  }

  lemma MulPositive(a: int, b: int)
    requires a >= 1 && b >= 1
    ensures a * b >= 1
  {
  }

  lemma ProductStep(d: seq<nat>, i: nat)
    requires i < |d|
    ensures Product(d[..i + 1]) == Product(d[..i]) * d[i]
  {
    assert d[..i + 1][..i] == d[..i];
  }

  lemma ProductWhole(d: seq<nat>)
    requires |d| >= 1
    ensures Product(d) == Product(d[..|d| - 1]) * d[|d| - 1]
  {
  }

  /** Changing one coordinate moves the flat offset by the change times its stride. */
  lemma {:induction false} FlatUpdate(p: seq<int>, d: seq<nat>, i: nat, v: int)
    requires |p| == |d| && i < |p|
    ensures Flat(p[i := v], d) == Flat(p, d) + (v - p[i]) * Product(d[..i])
  {
    var n := |p| - 1;
    if i == n {
      assert p[i := v][..n] == p[..n];
    } else {
      assert p[i := v][..n] == p[..n][i := v];
      assert d[..n][..i] == d[..i];
      FlatUpdate(p[..n], d[..n], i, v);
    }
  }

  lemma {:induction false} FlatZeros(d: seq<nat>)
    ensures Flat(Zeros(|d|), d) == 0
  {
    if |d| > 0 {
      assert Zeros(|d|)[..|d| - 1] == Zeros(|d| - 1);
      FlatZeros(d[..|d| - 1]);
    }
  }

  /** A position inside the box has a flat offset in [0, Product(d)). */
  lemma {:induction false} FlatBounds(p: seq<int>, d: seq<nat>)
    requires InBox(p, d)
    ensures 0 <= Flat(p, d) < Product(d)
  {
    if |p| > 0 {
      var n := |p| - 1;
      assert InBox(p[..n], d[..n]);
      FlatBounds(p[..n], d[..n]);
      var m := Product(d[..n]);
      assert p[n] * m <= (d[n] - 1) * m by { MulMonotone(p[n], d[n] - 1, m); }
      assert (d[n] - 1) * m + m == d[n] * m;
    }
  }

  lemma MulMonotone(a: int, b: int, m: int)
    requires 0 <= a <= b && m >= 0
    ensures 0 <= a * m <= b * m
  {
  }

  /** `Unrank` lands in the box and is undone by `Flat`. */
  lemma {:induction false} FlatOfUnrank(q: nat, d: seq<nat>)
    requires Positive(d) && q < Product(d)
    ensures InBox(Unrank(q, d), d) && Flat(Unrank(q, d), d) == q
  {
    if |d| > 0 {
      var n := |d| - 1;
      ProductPositive(d[..n]);
      var m := Product(d[..n]);
      var hi, lo := q / m, q % m;
      DivMod(q, m);
      QuotientBelow(q, m, d[n]);
      FlatOfUnrank(lo, d[..n]);
      var u := Unrank(q, d);
      assert u[..n] == Unrank(lo, d[..n]);
      assert u[n] == hi;
      assert Flat(u, d) == Flat(u[..n], d[..n]) + hi * m;
      forall i | 0 <= i < |d| ensures 0 <= u[i] < d[i] {
        if i < n { assert u[i] == u[..n][i]; }
      }
    }
  }

  lemma DivMod(q: nat, m: int)
    requires m >= 1
    ensures q == (q / m) * m + q % m && 0 <= q % m < m && q / m >= 0
  {
  }

  lemma QuotientBelow(q: nat, m: int, k: int)
    requires m >= 1 && q < m * k
    ensures q / m < k
  {
    if q / m >= k {
      MulMonotone(k, q / m, m);
    }
  }

  /** `Flat` is undone by `Unrank` on the box. */
  lemma {:induction false} UnrankOfFlat(p: seq<int>, d: seq<nat>)
    requires InBox(p, d)
    ensures Positive(d) && Flat(p, d) >= 0 && Unrank(Flat(p, d), d) == p
  {
    FlatBounds(p, d);
    if |p| > 0 {
      var n := |p| - 1;
      assert InBox(p[..n], d[..n]);
      UnrankOfFlat(p[..n], d[..n]);
      UnrankLast(p, d);
    }
  }

  /** The last step of `UnrankOfFlat`: the leading coordinates come back, so does the last one. */
  lemma UnrankLast(p: seq<int>, d: seq<nat>)
    requires InBox(p, d) && |p| > 0 && Positive(d) && Flat(p[..|p| - 1], d[..|d| - 1]) >= 0
    requires Unrank(Flat(p[..|p| - 1], d[..|d| - 1]), d[..|d| - 1]) == p[..|p| - 1]
    ensures Flat(p, d) >= 0 && Unrank(Flat(p, d), d) == p
  {
    var n := |p| - 1;
    var m := Product(d[..n]);
    var f := Flat(p[..n], d[..n]);
    assert f < m by {
      assert InBox(p[..n], d[..n]);
      FlatBounds(p[..n], d[..n]);
    }
    assert Flat(p, d) == f + p[n] * m;
    MulMonotone(0, p[n], m);
    DivModUnique(f, p[n], m);
    assert Unrank(Flat(p, d), d) == p[..n] + [p[n]];
    assert p == p[..n] + [p[n]];
  }

  lemma DivModUnique(a: int, b: int, m: int)
    requires 0 <= a < m && b >= 0
    ensures (a + b * m) / m == b && (a + b * m) % m == a
  {
    var x := a + b * m;
    var q, r := x / m, x % m;
    assert x == q * m + r;
    if q > b {
      MulMonotone(b + 1, q, m);
    } else if q < b {
      MulMonotone(q + 1, b, m);
    }
  }

  /** Distinct in-range positions have distinct flat offsets. */
  lemma FlatInjective(p: seq<int>, p': seq<int>, d: seq<nat>)
    requires InBox(p, d) && InBox(p', d) && Flat(p, d) == Flat(p', d)
    ensures p == p'
  {
    UnrankOfFlat(p, d);
    UnrankOfFlat(p', d);
  }
}
