// The root package's MaxPooling2DLayer: a three-dimensional input (two spatial
// dimensions, both even, and a depth) is reduced to the largest value of every
// 2 x 2 block of each depth slice. The layer remembers which of the four cells
// won, so that propagating blame sends each output's blame to that cell only.
// Cells are addressed as the tensor classes address them: dimension 0 varies
// fastest.
module Pooling {
  import opened Wrappers
  import opened Numeric
  import opened Layers
  import Indexing
  import Grids
  import Tensors

  const NotThreeDimensional := "Your input dimensions must have a dimensionality of 3."
  const OddDimensions := "The first two dimensions of your input must be multiples of two."

  /** `Tuple3`: the position of one output cell, the key of the winners' map. */
  datatype Tuple3 = Tuple3(x: nat, y: nat, z: nat)

  /** The flat offset of `(a, b, c)` in a tensor whose first two dimensions are `n0` and `n1`. */
  function Offset(a: nat, b: nat, c: nat, n0: nat, n1: nat): nat
  {
    a + b * n0 + c * (n0 * n1)
  }

  /** `Offset` is the tensors' own addressing of a three-dimensional position. */
  lemma OffsetIsFlat(a: nat, b: nat, c: nat, n0: nat, n1: nat, n2: nat)
    ensures Offset(a, b, c, n0, n1) == Indexing.Flat([a, b, c], [n0, n1, n2])
  {
    var p, d := [a, b, c], [n0, n1, n2];
    assert p[..2] == [a, b] && d[..2] == [n0, n1];
    assert [a, b][..1] == [a] && [n0, n1][..1] == [n0];
    assert [a][..0] == [] && [n0][..0] == [];
    assert Indexing.Product([n0]) == n0;
    assert Indexing.Product([n0, n1]) == n0 * n1;
    assert Indexing.Flat([a], [n0]) == a;
    assert Indexing.Flat([a, b], [n0, n1]) == a + b * n0;
  }

  /** An in-range position lies below the element count. */
  lemma OffsetBelow(a: nat, b: nat, c: nat, n0: nat, n1: nat, n2: nat)
    requires a <= n0 && b < n1 && c < n2
    ensures Offset(a, b, c, n0, n1) <= n0 * n1 * n2
    ensures a < n0 ==> Offset(a, b, c, n0, n1) < n0 * n1 * n2
  {
    Indexing.MulMonotone(b + 1, n1, n0);
    Indexing.MulMonotone(c + 1, n2, n0 * n1);
  }

  /** Two in-range positions share an offset exactly when they are the same position. */
  lemma OffsetInjective(a: nat, b: nat, c: nat, a': nat, b': nat, c': nat, n0: nat, n1: nat)
    requires a < n0 && a' < n0 && b < n1 && b' < n1
    ensures Offset(a, b, c, n0, n1) == Offset(a', b', c', n0, n1) <==> a == a' && b == b' && c == c'
  {
    Regroup(b, c, n0, n1);
    Regroup(b', c', n0, n1);
    TwoDigits(a, b + c * n1, a', b' + c' * n1, n0);
    TwoDigits(b, c, b', c', n1);
  }

  lemma Regroup(b: nat, c: nat, n0: nat, n1: nat)
    ensures b * n0 + c * (n0 * n1) == (b + c * n1) * n0
  {
  }

  /** A low digit below `n` and a high digit are read back from `low + high * n`. */
  lemma TwoDigits(a: nat, b: nat, a': nat, b': nat, n: nat)
    requires a < n && a' < n
    ensures a + b * n == a' + b' * n <==> a == a' && b == b'
  {
    Indexing.DivModUnique(a, b, n);
    Indexing.DivModUnique(a', b', n);
  }

  /**
   * The output dimensions `[e0, e1, depth]`; the input dimensions are
   * `[2 * e0, 2 * e1, depth]`.
   */
  datatype Shape = Shape(e0: nat, e1: nat, depth: nat)
  {
    function InCount(): nat
    {
      (2 * e0) * (2 * e1) * depth
    }

    function OutCount(): nat
    {
      e0 * e1 * depth
    }

    predicate Holds(t: Tuple3)
    {
      t.x < e0 && t.y < e1 && t.z < depth
    }

    /** Where output cell `t` sits in the activation. */
    function Out(t: Tuple3): (o: nat)
      requires Holds(t)
      ensures o < OutCount()
    {
      OffsetBelow(t.x, t.y, t.z, e0, e1, depth);
      Offset(t.x, t.y, t.z, e0, e1)
    }

    /**
     * Where corner `q` of block `t` sits in the input: corner 0 is `(2x, 2y)`,
     * 1 is `(2x + 1, 2y)`, 2 is `(2x, 2y + 1)` and 3 is `(2x + 1, 2y + 1)`.
     */
    function Corner(t: Tuple3, q: nat): (o: nat)
      requires Holds(t) && q < 4
      ensures o < InCount()
    {
      OffsetBelow(2 * t.x + q % 2, 2 * t.y + q / 2, t.z, 2 * e0, 2 * e1, depth);
      Offset(2 * t.x + q % 2, 2 * t.y + q / 2, t.z, 2 * e0, 2 * e1)
    }
  }

  /** Distinct output cells sit at distinct places. */
  lemma OutInjective(s: Shape, t: Tuple3, u: Tuple3)
    requires s.Holds(t) && s.Holds(u)
    ensures s.Out(t) == s.Out(u) <==> t == u
  {
    OffsetInjective(t.x, t.y, t.z, u.x, u.y, u.z, s.e0, s.e1);
  }

  /** Distinct corners, of the same block or of different ones, sit at distinct places. */
  lemma CornerInjective(s: Shape, t: Tuple3, q: nat, u: Tuple3, p: nat)
    requires s.Holds(t) && s.Holds(u) && q < 4 && p < 4
    ensures s.Corner(t, q) == s.Corner(u, p) <==> t == u && q == p
  {
    var a, b, a', b' := 2 * t.x + q % 2, 2 * t.y + q / 2, 2 * u.x + p % 2, 2 * u.y + p / 2;
    OffsetInjective(a, b, t.z, a', b', u.z, 2 * s.e0, 2 * s.e1);
    assert a == a' <==> t.x == u.x && q % 2 == p % 2;
    assert b == b' <==> t.y == u.y && q / 2 == p / 2;
    assert q == p <==> q % 2 == p % 2 && q / 2 == p / 2;
  }

  /** The last digit of `n` in base `base`, and the rest, which lies below `hi`. */
  lemma Digit(n: nat, base: nat, hi: nat) returns (low: nat, high: nat)
    requires n < base * hi
    ensures low < base && high < hi && n == low + high * base
  {
    assert base >= 1 by {
      Indexing.MulMonotone(0, hi, base);
    }
    Indexing.DivMod(n, base);
    Indexing.QuotientBelow(n, base, hi);
    low, high := n % base, n / base;
  }

  /** Every place of the activation belongs to one output cell. */
  lemma OutOnto(s: Shape, n: nat) returns (t: Tuple3)
    requires n < s.OutCount()
    ensures s.Holds(t) && s.Out(t) == n
  {
    var e0, e1, d := s.e0, s.e1, s.depth;
    assert n < e0 * (e1 * d);
    var a, m := Digit(n, e0, e1 * d);
    var b, c := Digit(m, e1, d);
    Regroup(b, c, e0, e1);
    t := Tuple3(a, b, c);
  }

  /** The four input cells of block `t`, in corner order. */
  function Block(x: seq<real>, s: Shape, t: Tuple3): (v: seq<real>)
    requires |x| == s.InCount() && s.Holds(t)
    ensures |v| == 4 && forall q :: 0 <= q < 4 ==> v[q] == x[s.Corner(t, q)]
  {
    [x[s.Corner(t, 0)], x[s.Corner(t, 1)], x[s.Corner(t, 2)], x[s.Corner(t, 3)]]
  }

  /** The first position of the largest value: a later value wins only when it is strictly larger. */
  function Winner(v: seq<real>): (m: nat)
    requires |v| > 0
    ensures m < |v|
    ensures forall l :: 0 <= l < |v| ==> v[l] <= v[m]
    ensures forall l :: 0 <= l < m ==> v[l] < v[m]
  {
    if |v| == 1 then 0
    else
      var m := Winner(v[..|v| - 1]);
      if v[|v| - 1] > v[m] then |v| - 1 else m
  }

  /** The comparison loop of `activate`: the index of the first largest value. */
  method ArgMax(values: seq<real>) returns (maxIndex: nat)
    requires |values| > 0
    ensures maxIndex == Winner(values)
  {
    maxIndex := 0;
    var index := 1;
    while index < |values|
      invariant 1 <= index <= |values|
      invariant maxIndex == Winner(values[..index])
    {
      assert values[..index + 1][..index] == values[..index];
      if values[index] > values[maxIndex] {
        maxIndex := index;
      }
      index := index + 1;
    }
    assert values[..index] == values;
  }

  /** The corner of block `t` that wins. */
  function Pick(x: seq<real>, s: Shape, t: Tuple3): (q: nat)
    requires |x| == s.InCount() && s.Holds(t)
    ensures q < 4
  {
    Winner(Block(x, s, t))
  }

  /** The pooled value of block `t`: the largest of its four cells, found at the winning corner. */
  function PoolEntry(x: seq<real>, s: Shape, t: Tuple3): (v: real)
    requires |x| == s.InCount() && s.Holds(t)
    ensures forall q :: 0 <= q < 4 ==> x[s.Corner(t, q)] <= v
    ensures v == x[s.Corner(t, Pick(x, s, t))]
    ensures forall q :: 0 <= q < Pick(x, s, t) ==> x[s.Corner(t, q)] < v
  {
    Block(x, s, t)[Pick(x, s, t)]
  }

  /** Every output cell placed before `n` holds the pooled value of its block. */
  ghost predicate PooledBelow(act: seq<real>, x: seq<real>, s: Shape, n: nat)
    requires |x| == s.InCount()
  {
    |act| == s.OutCount() &&
    forall t :: s.Holds(t) && s.Out(t) < n ==> act[s.Out(t)] == PoolEntry(x, s, t)
  }

  /**
   * Every output cell placed before `n` has its winning corner recorded; every
   * other key is as it was in `w0`.
   */
  ghost predicate PickedBelow(w: map<Tuple3, nat>, w0: map<Tuple3, nat>, x: seq<real>, s: Shape, n: nat)
    requires |x| == s.InCount()
  {
    (forall t :: s.Holds(t) && s.Out(t) < n ==> t in w && w[t] == Pick(x, s, t)) &&
    (forall t :: !(s.Holds(t) && s.Out(t) < n) ==> (t in w <==> t in w0) && (t in w0 ==> w[t] == w0[t]))
  }

  /** Pooling block `t`, placed at `n`, extends the pooled activation from below `n` to below `n + 1`. */
  lemma PoolStep(act: seq<real>, x: seq<real>, s: Shape, t: Tuple3)
    requires |x| == s.InCount() && s.Holds(t)
    requires PooledBelow(act, x, s, s.Out(t))
    ensures PooledBelow(act[s.Out(t) := PoolEntry(x, s, t)], x, s, s.Out(t) + 1)
  {
    var act' := act[s.Out(t) := PoolEntry(x, s, t)];
    forall u | s.Holds(u) && s.Out(u) < s.Out(t) + 1
      ensures act'[s.Out(u)] == PoolEntry(x, s, u)
    {
      OutInjective(s, u, t);
    }
  }

  /** Recording block `t`'s winner, placed at `n`, extends the recorded winners from below `n` to below `n + 1`. */
  lemma PickStep(w: map<Tuple3, nat>, w0: map<Tuple3, nat>, x: seq<real>, s: Shape, t: Tuple3)
    requires |x| == s.InCount() && s.Holds(t)
    requires PickedBelow(w, w0, x, s, s.Out(t))
    ensures PickedBelow(w[t := Pick(x, s, t)], w0, x, s, s.Out(t) + 1)
  {
    var w', n := w[t := Pick(x, s, t)], s.Out(t);
    forall u | s.Holds(u) && s.Out(u) < n + 1
      ensures u in w' && w'[u] == Pick(x, s, u)
    {
      OutInjective(s, u, t);
    }
    forall u | !(s.Holds(u) && s.Out(u) < n + 1)
      ensures (u in w' <==> u in w0) && (u in w0 ==> w'[u] == w0[u])
    {
      assert u != t;
    }
  }

  /** The place after the last cell of row `j` is the first cell of row `j + 1`. */
  lemma RowEnd(j: nat, k: nat, e0: nat, e1: nat)
    ensures Offset(e0, j, k, e0, e1) == Offset(0, j + 1, k, e0, e1)
  {
  }

  /** The place after row `j` of slice `k` is not beyond the slice's end. */
  lemma RowWithinSlice(j: nat, k: nat, e0: nat, e1: nat)
    requires j < e1
    ensures Offset(0, j + 1, k, e0, e1) <= Offset(0, 0, k + 1, e0, e1)
  {
    Indexing.MulMonotone(j + 1, e1, e0);
  }

  /** The place after the last row of slice `k` is the first cell of slice `k + 1`. */
  lemma SliceEnd(k: nat, e0: nat, e1: nat)
    ensures Offset(0, e1, k, e0, e1) == Offset(0, 0, k + 1, e0, e1)
  {
  }

  /** The row loop of `activate`: blocks `(0, j, k)` to `(e0 - 1, j, k)`. */
  method PoolRow(x: seq<real>, s: Shape, act: seq<real>, w: map<Tuple3, nat>, j: nat, k: nat, ghost w0: map<Tuple3, nat>)
    returns (act': seq<real>, w': map<Tuple3, nat>)
    requires |x| == s.InCount() && j < s.e1 && k < s.depth
    requires PooledBelow(act, x, s, Offset(0, j, k, s.e0, s.e1))
    requires PickedBelow(w, w0, x, s, Offset(0, j, k, s.e0, s.e1))
    ensures PooledBelow(act', x, s, Offset(0, j + 1, k, s.e0, s.e1))
    ensures PickedBelow(w', w0, x, s, Offset(0, j + 1, k, s.e0, s.e1))
  {
    act', w' := act, w;
    var i := 0;
    while i < s.e0
      invariant i <= s.e0
      invariant PooledBelow(act', x, s, Offset(i, j, k, s.e0, s.e1))
      invariant PickedBelow(w', w0, x, s, Offset(i, j, k, s.e0, s.e1))
    {
      var t := Tuple3(i, j, k);
      var values := Block(x, s, t);
      var maxIndex := ArgMax(values);
      PoolStep(act', x, s, t);
      PickStep(w', w0, x, s, t);
      w' := w'[t := maxIndex];
      act' := act'[s.Out(t) := values[maxIndex]];
      i := i + 1;
    }
    RowEnd(j, k, s.e0, s.e1);
  }

  /** The slice loop of `activate`: rows `0` to `e1 - 1` of slice `k`. */
  method PoolSlice(x: seq<real>, s: Shape, act: seq<real>, w: map<Tuple3, nat>, k: nat, ghost w0: map<Tuple3, nat>)
    returns (act': seq<real>, w': map<Tuple3, nat>)
    requires |x| == s.InCount() && k < s.depth
    requires PooledBelow(act, x, s, Offset(0, 0, k, s.e0, s.e1))
    requires PickedBelow(w, w0, x, s, Offset(0, 0, k, s.e0, s.e1))
    ensures PooledBelow(act', x, s, Offset(0, 0, k + 1, s.e0, s.e1))
    ensures PickedBelow(w', w0, x, s, Offset(0, 0, k + 1, s.e0, s.e1))
  {
    act', w' := act, w;
    var j := 0;
    while j < s.e1
      invariant j <= s.e1
      invariant PooledBelow(act', x, s, Offset(0, j, k, s.e0, s.e1))
      invariant PickedBelow(w', w0, x, s, Offset(0, j, k, s.e0, s.e1))
    {
      act', w' := PoolRow(x, s, act', w', j, k, w0);
      j := j + 1;
    }
    SliceEnd(k, s.e0, s.e1);
  }

  /**
   * The loops of `activate`: every block's largest value is written at its
   * output cell and its winning corner recorded under its key; keys of no
   * output cell keep their entries.
   */
  method Pool(x: seq<real>, s: Shape, act: seq<real>, w: map<Tuple3, nat>) returns (act': seq<real>, w': map<Tuple3, nat>)
    requires |x| == s.InCount() && |act| == s.OutCount()
    ensures |act'| == s.OutCount()
    ensures forall t :: s.Holds(t) ==> act'[s.Out(t)] == PoolEntry(x, s, t)
    ensures forall t :: s.Holds(t) ==> t in w' && w'[t] == Pick(x, s, t)
    ensures forall t :: !s.Holds(t) ==> (t in w' <==> t in w) && (t in w ==> w'[t] == w[t])
  {
    act', w' := act, w;
    var k := 0;
    while k < s.depth
      invariant k <= s.depth
      invariant PooledBelow(act', x, s, Offset(0, 0, k, s.e0, s.e1))
      invariant PickedBelow(w', w, x, s, Offset(0, 0, k, s.e0, s.e1))
    {
      act', w' := PoolSlice(x, s, act', w', k, w);
      k := k + 1;
    }
    assert Offset(0, 0, s.depth, s.e0, s.e1) == s.OutCount();
  }

  /** Every output cell is in the map. */
  ghost predicate Complete(w: map<Tuple3, nat>, s: Shape)
  {
    forall t :: s.Holds(t) ==> t in w
  }

  /** Every output cell placed before `n` is in the map. */
  ghost predicate RecordedBelow(w: map<Tuple3, nat>, s: Shape, n: nat)
  {
    forall t :: s.Holds(t) && s.Out(t) < n ==> t in w
  }

  /**
   * The blame routed for the output cells placed before `n`: each one's blame
   * at its winning corner, 0 at every other corner, and in total the blame of
   * those cells.
   */
  ghost predicate RoutedBelow(r: seq<real>, blame: seq<real>, w: map<Tuple3, nat>, s: Shape, n: nat)
    requires |blame| == s.OutCount()
  {
    |r| == s.InCount() && n <= |blame| && Sum(r) == Sum(blame[..n]) &&
    forall t, q :: s.Holds(t) && q < 4 ==>
      r[s.Corner(t, q)] == if s.Out(t) < n && t in w && w[t] == q then blame[s.Out(t)] else 0.0
  }

  /** Routing block `t`, placed at `n`, extends what holds below `n` to `n + 1`. */
  lemma RouteStep(r: seq<real>, blame: seq<real>, w: map<Tuple3, nat>, s: Shape, t: Tuple3)
    requires |blame| == s.OutCount() && s.Holds(t) && t in w && w[t] < 4
    requires RecordedBelow(w, s, s.Out(t)) && RoutedBelow(r, blame, w, s, s.Out(t))
    ensures RecordedBelow(w, s, s.Out(t) + 1)
    ensures RoutedBelow(r[s.Corner(t, w[t]) := blame[s.Out(t)]], blame, w, s, s.Out(t) + 1)
  {
    forall u | s.Holds(u) && s.Out(u) < s.Out(t) + 1
      ensures u in w
    {
      OutInjective(s, u, t);
    }
    var n, c := s.Out(t), s.Corner(t, w[t]);
    var r' := r[c := blame[n]];
    assert r[c] == 0.0;
    SumUpdate(r, c, blame[n]);
    assert blame[..n + 1][..n] == blame[..n];
    forall u, q | s.Holds(u) && q < 4
      ensures r'[s.Corner(u, q)] == if s.Out(u) < n + 1 && u in w && w[u] == q then blame[s.Out(u)] else 0.0
    {
      OutInjective(s, u, t);
      CornerInjective(s, u, q, t, w[t]);
    }
  }

  /** The row loop of `backPropagate`; a block without a recorded winner fails the lookup. */
  method RouteRow(blame: seq<real>, w: map<Tuple3, nat>, s: Shape, result: seq<real>, j: nat, k: nat) returns (r: Result<seq<real>>)
    requires |blame| == s.OutCount() && j < s.e1 && k < s.depth
    requires forall t :: t in w ==> w[t] < 4
    requires RecordedBelow(w, s, Offset(0, j, k, s.e0, s.e1))
    requires RoutedBelow(result, blame, w, s, Offset(0, j, k, s.e0, s.e1))
    ensures r.Err? <==> !RecordedBelow(w, s, Offset(0, j + 1, k, s.e0, s.e1))
    ensures r.Err? ==> r.error == NullPointer
    ensures r.Ok? ==> RoutedBelow(r.value, blame, w, s, Offset(0, j + 1, k, s.e0, s.e1))
  {
    var routed := result;
    var i := 0;
    while i < s.e0
      invariant i <= s.e0
      invariant RecordedBelow(w, s, Offset(i, j, k, s.e0, s.e1))
      invariant RoutedBelow(routed, blame, w, s, Offset(i, j, k, s.e0, s.e1))
    {
      var t := Tuple3(i, j, k);
      if t !in w {
        RowEnd(j, k, s.e0, s.e1);
        return Err(NullPointer);
      }
      var maxIndex := w[t];
      var value := blame[s.Out(t)];
      RouteStep(routed, blame, w, s, t);
      routed := routed[s.Corner(t, maxIndex) := value];
      i := i + 1;
    }
    RowEnd(j, k, s.e0, s.e1);
    return Ok(routed);
  }

  /** The slice loop of `backPropagate`. */
  method RouteSlice(blame: seq<real>, w: map<Tuple3, nat>, s: Shape, result: seq<real>, k: nat) returns (r: Result<seq<real>>)
    requires |blame| == s.OutCount() && k < s.depth
    requires forall t :: t in w ==> w[t] < 4
    requires RecordedBelow(w, s, Offset(0, 0, k, s.e0, s.e1))
    requires RoutedBelow(result, blame, w, s, Offset(0, 0, k, s.e0, s.e1))
    ensures r.Err? <==> !RecordedBelow(w, s, Offset(0, 0, k + 1, s.e0, s.e1))
    ensures r.Err? ==> r.error == NullPointer
    ensures r.Ok? ==> RoutedBelow(r.value, blame, w, s, Offset(0, 0, k + 1, s.e0, s.e1))
  {
    var routed := result;
    var j := 0;
    while j < s.e1
      invariant j <= s.e1
      invariant RecordedBelow(w, s, Offset(0, j, k, s.e0, s.e1))
      invariant RoutedBelow(routed, blame, w, s, Offset(0, j, k, s.e0, s.e1))
    {
      var row := RouteRow(blame, w, s, routed, j, k);
      if row.Err? {
        RowWithinSlice(j, k, s.e0, s.e1);
        NotRecordedLater(w, s, Offset(0, j + 1, k, s.e0, s.e1), Offset(0, 0, k + 1, s.e0, s.e1));
        return row;
      }
      routed := row.value;
      j := j + 1;
    }
    SliceEnd(k, s.e0, s.e1);
    return Ok(routed);
  }

  /** A key missing below `n` is missing below any later place. */
  lemma NotRecordedLater(w: map<Tuple3, nat>, s: Shape, n: nat, m: nat)
    requires n <= m
    ensures RecordedBelow(w, s, m) ==> RecordedBelow(w, s, n)
  {
  }

  /**
   * The loops of `backPropagate`: each output cell's blame goes to the winning
   * corner of its block and every other input cell stays 0, so the blame is
   * only moved, never created or lost; a cell without a recorded winner fails
   * the lookup.
   */
  method Route(blame: seq<real>, w: map<Tuple3, nat>, s: Shape) returns (r: Result<seq<real>>)
    requires |blame| == s.OutCount()
    requires forall t :: t in w ==> w[t] < 4
    ensures r.Err? <==> !Complete(w, s)
    ensures r.Err? ==> r.error == NullPointer
    ensures r.Ok? ==> |r.value| == s.InCount()
    ensures r.Ok? ==> forall t, q :: s.Holds(t) && q < 4 ==>
      r.value[s.Corner(t, q)] == if w[t] == q then blame[s.Out(t)] else 0.0
    ensures r.Ok? ==> Sum(r.value) == Sum(blame)
  {
    var routed := Constant(s.InCount(), 0.0);
    Grids.SumZero(routed);
    var k := 0;
    while k < s.depth
      invariant k <= s.depth
      invariant RecordedBelow(w, s, Offset(0, 0, k, s.e0, s.e1))
      invariant RoutedBelow(routed, blame, w, s, Offset(0, 0, k, s.e0, s.e1))
    {
      var slice := RouteSlice(blame, w, s, routed, k);
      if slice.Err? {
        Indexing.MulMonotone(k + 1, s.depth, s.e0 * s.e1);
        NotRecordedLater(w, s, Offset(0, 0, k + 1, s.e0, s.e1), s.OutCount());
        return slice;
      }
      routed := slice.value;
      k := k + 1;
    }
    assert Offset(0, 0, s.depth, s.e0, s.e1) == s.OutCount();
    assert blame[..s.OutCount()] == blame;
    return Ok(routed);
  }

  /** A corner strictly larger than the other three wins its block. */
  lemma Wins(x: seq<real>, s: Shape, t: Tuple3, q: nat)
    requires |x| == s.InCount() && s.Holds(t) && q < 4
    requires q != 0 ==> x[s.Corner(t, 0)] < x[s.Corner(t, q)]
    requires q != 1 ==> x[s.Corner(t, 1)] < x[s.Corner(t, q)]
    requires q != 2 ==> x[s.Corner(t, 2)] < x[s.Corner(t, q)]
    requires q != 3 ==> x[s.Corner(t, 3)] < x[s.Corner(t, q)]
    ensures Pick(x, s, t) == q && PoolEntry(x, s, t) == x[s.Corner(t, q)]
  {
    var m := Pick(x, s, t);
    assert x[s.Corner(t, q)] <= x[s.Corner(t, m)];
  }

  /** The shape of a valid input: both spatial dimensions halved, the depth kept. */
  function OfInput(dims: seq<nat>): Shape
    requires |dims| == 3
  {
    Shape(dims[0] / 2, dims[1] / 2, dims[2])
  }

  /** The element counts of an input with even spatial dimensions and of its pooled output. */
  lemma ShapeCounts(dims: seq<nat>)
    requires |dims| == 3 && dims[0] % 2 == 0 && dims[1] % 2 == 0
    ensures Indexing.Product(dims) == OfInput(dims).InCount()
    ensures Indexing.Product(dims) / 4 == OfInput(dims).OutCount()
  {
    var s := OfInput(dims);
    var a, b, c := dims[0], dims[1], dims[2];
    assert dims == [a, b, c];
    assert [a, b, c][..2] == [a, b] && [a, b][..1] == [a] && [a][..0] == [];
    assert Indexing.Product([a]) == a;
    assert Indexing.Product([a, b]) == a * b;
    assert s.InCount() == 4 * s.OutCount();
  }

  class MaxPooling2DLayer {
    const base: Layer
    const inputDimensions: seq<nat>
    const outputDimensions: seq<nat>
    /** `tupleToMaxValueMap`: for each output cell, the corner of its block that won at the last activation. */
    var tupleToMaxValueMap: map<Tuple3, nat>

    /** The output dimensions as a shape. */
    function Dims(): Shape
      requires |outputDimensions| == 3
    {
      Shape(outputDimensions[0], outputDimensions[1], outputDimensions[2])
    }

    /**
     * Three input dimensions, the first two even and halved in the output, the
     * base sized by the element counts; every recorded winner is a corner.
     */
    ghost predicate Valid()
      reads this
    {
      |inputDimensions| == 3 && |outputDimensions| == 3 &&
      inputDimensions == [2 * outputDimensions[0], 2 * outputDimensions[1], outputDimensions[2]] &&
      base.kind == MaxPooling2D && !base.connected &&
      base.inputs == Dims().InCount() && base.outputs == Dims().OutCount() &&
      forall t :: t in tupleToMaxValueMap ==> tupleToMaxValueMap[t] < 4
    }

    /**
     * `MaxPooling2DLayer(inputDimensions)` once its checks have passed: the base
     * has the input's element count as inputs and a quarter of it as outputs,
     * and no winner is recorded yet.
     */
    constructor (inputDimensions: seq<nat>)
      requires |inputDimensions| == 3 && inputDimensions[0] % 2 == 0 && inputDimensions[1] % 2 == 0
      ensures Valid() && fresh(base) && this.inputDimensions == inputDimensions
      ensures outputDimensions == [inputDimensions[0] / 2, inputDimensions[1] / 2, inputDimensions[2]]
      ensures base.inputs == Indexing.Product(inputDimensions) && base.outputs == Indexing.Product(inputDimensions) / 4
      ensures base.activation == Constant(base.outputs, 0.0) && base.blame == Constant(base.outputs, 0.0)
      ensures tupleToMaxValueMap == map[]
    {
      ShapeCounts(inputDimensions);
      var count := Indexing.Product(inputDimensions);
      base := new Layer(MaxPooling2D, false, count, count / 4);
      this.inputDimensions := inputDimensions;
      outputDimensions := [inputDimensions[0] / 2, inputDimensions[1] / 2, inputDimensions[2]];
      tupleToMaxValueMap := map[];
    }

    /**
     * `new MaxPooling2DLayer(inputDimensions)` with its checks: the input must
     * have three dimensions, the first two of them even.
     */
    static method Create(inputDimensions: seq<nat>) returns (r: Result<MaxPooling2DLayer>)
      ensures r.Err? <==> |inputDimensions| != 3 || inputDimensions[0] % 2 != 0 || inputDimensions[1] % 2 != 0
      ensures r.Err? && |inputDimensions| != 3 ==> r.error == IllegalArgument(NotThreeDimensional)
      ensures r.Err? && |inputDimensions| == 3 ==> r.error == IllegalArgument(OddDimensions)
      ensures r.Ok? ==> fresh(r.value) && fresh(r.value.base) && r.value.Valid()
      ensures r.Ok? ==> r.value.inputDimensions == inputDimensions && r.value.tupleToMaxValueMap == map[]
      ensures r.Ok? ==> r.value.base.inputs == Indexing.Product(inputDimensions)
      ensures r.Ok? ==> r.value.base.outputs == Indexing.Product(inputDimensions) / 4
    {
      if |inputDimensions| != 3 {
        return Err(IllegalArgument(NotThreeDimensional));
      }
      if inputDimensions[0] % 2 != 0 || inputDimensions[1] % 2 != 0 {
        return Err(IllegalArgument(OddDimensions));
      }
      var layer := new MaxPooling2DLayer(inputDimensions);
      return Ok(layer);
    }

    /** `copy()`: a fresh layer over the same input dimensions, with no winner recorded. */
    method Copy() returns (c: MaxPooling2DLayer)
      requires Valid()
      ensures fresh(c) && fresh(c.base) && c.Valid()
      ensures c.inputDimensions == inputDimensions && c.outputDimensions == outputDimensions
      ensures c.tupleToMaxValueMap == map[]
    {
      c := new MaxPooling2DLayer(inputDimensions);
    }

    /**
     * `activate(x)`: each output cell becomes the largest value of its 2 x 2
     * block and the winning corner is recorded under its key; an input or a
     * current activation of the wrong size is refused before anything changes.
     */
    method Activate(x: seq<real>) returns (r: Result<seq<real>>)
      requires Valid()
      modifies this, base
      ensures Valid() && base.blame == old(base.blame)
      ensures r.Err? <==> |x| != Dims().InCount() || |old(base.activation)| != Dims().OutCount()
      ensures r.Err? ==> r.error == Runtime(Tensors.CountMismatch)
      ensures r.Err? ==> base.activation == old(base.activation) && tupleToMaxValueMap == old(tupleToMaxValueMap)
      ensures r.Ok? ==> r.value == base.activation && |r.value| == Dims().OutCount()
      ensures r.Ok? ==> forall t :: Dims().Holds(t) ==>
        r.value[Dims().Out(t)] == PoolEntry(x, Dims(), t) &&
        t in tupleToMaxValueMap && tupleToMaxValueMap[t] == Pick(x, Dims(), t)
      ensures r.Ok? ==> forall t :: !Dims().Holds(t) ==>
        (t in tupleToMaxValueMap <==> t in old(tupleToMaxValueMap)) &&
        (t in old(tupleToMaxValueMap) ==> tupleToMaxValueMap[t] == old(tupleToMaxValueMap)[t])
    {
      var s := Dims();
      if |x| != s.InCount() || |base.activation| != s.OutCount() {
        return Err(Runtime(Tensors.CountMismatch));
      }
      var act, w := Pool(x, s, base.activation, tupleToMaxValueMap);
      tupleToMaxValueMap := w;
      base.SetActivation(act);
      return Ok(act);
    }

    /**
     * `backPropagate()`: each output cell's blame goes to the corner that won
     * its block, every other input cell gets 0, and so the total blame is kept;
     * a blame of the wrong size is refused, and a cell with no recorded winner
     * (no activation yet) fails the lookup.
     */
    method BackPropagate() returns (r: Result<seq<real>>)
      requires Valid()
      ensures r.Err? <==> |base.blame| != Dims().OutCount() || !Complete(tupleToMaxValueMap, Dims())
      ensures r.Err? && |base.blame| != Dims().OutCount() ==> r.error == Runtime(Tensors.CountMismatch)
      ensures r.Err? && |base.blame| == Dims().OutCount() ==> r.error == NullPointer
      ensures r.Ok? ==> |r.value| == Dims().InCount()
      ensures r.Ok? ==> forall t, q :: Dims().Holds(t) && q < 4 ==>
        r.value[Dims().Corner(t, q)] == if tupleToMaxValueMap[t] == q then base.blame[Dims().Out(t)] else 0.0
      ensures r.Ok? ==> Sum(r.value) == Sum(base.blame)
    {
      var s := Dims();
      if |base.blame| != s.OutCount() {
        return Err(Runtime(Tensors.CountMismatch));
      }
      r := Route(base.blame, tupleToMaxValueMap, s);
    }
  }
}
