// The N-dimensional convolution loop nest shared by both Tensor classes,
// with stride 1, and its specification as a sum over the clamped filter box.
module Convolution {
  import opened Indexing
  import opened Numeric

  /** Java's `x / 2`, which truncates toward zero. */
  function JavaHalf(x: int): int
  {
    if x >= 0 then x / 2 else -((-x) / 2)
  }

  function Min(a: int, b: int): int
  {
    if a <= b then a else b
  }

  /** The dimensions of input, filter and output. */
  datatype Shape = Shape(inDims: seq<nat>, filterDims: seq<nat>, outDims: seq<nat>)
  {
    predicate SameArity()
    {
      |inDims| == |filterDims| == |outDims|
    }

    /** `(out[i] - 1 + filter[i] - in[i]) / 2`, the symmetric padding for stride 1. */
    function Pad(i: nat): int
      requires SameArity() && i < |inDims|
    {
      JavaHalf(outDims[i] as int - 1 + filterDims[i] - inDims[i])
    }

    /**
     * The shapes the loop nest handles: at least one dimension, no empty
     * dimension, padding non-negative and smaller than the filter, and the
     * last output position still overlapping the input.
     */
    predicate Centred()
    {
      SameArity() && |inDims| >= 1 &&
      forall i :: 0 <= i < |inDims| ==>
        inDims[i] >= 1 && outDims[i] >= 1 && 0 <= Pad(i) < filterDims[i] && outDims[i] - 1 - Pad(i) < inDims[i]
    }

    /** First filter coordinate used at output coordinate `o`: `padding - min(padding, o)`. */
    function Lo(i: nat, o: int): int
      requires SameArity() && i < |inDims|
    {
      Pad(i) - Min(Pad(i), o)
    }

    /** One past the last filter coordinate used at output coordinate `o`. */
    function Hi(i: nat, o: int): int
      requires SameArity() && i < |inDims|
    {
      Min(filterDims[i], inDims[i] + Pad(i) - o)
    }

    function Los(o: seq<int>): (r: seq<int>)
      requires SameArity() && |o| == |inDims|
      ensures |r| == |o| && forall i :: 0 <= i < |o| ==> r[i] == Lo(i, o[i])
    {
      seq(|o|, i requires 0 <= i < |o| => Lo(i, o[i]))
    }

    /** The extent of the clamped filter box at output position `o`. */
    function Lens(o: seq<int>): (r: seq<nat>)
      requires SameArity() && |o| == |inDims|
      ensures |r| == |o|
    {
      seq(|o|, i requires 0 <= i < |o| => if Hi(i, o[i]) > Lo(i, o[i]) then Hi(i, o[i]) - Lo(i, o[i]) else 0)
    }

    /** The input position `o + k - pad` that filter position `k` reads at output `o`. */
    function InPos(o: seq<int>, k: seq<int>): (r: seq<int>)
      requires SameArity() && |o| == |inDims| && |k| == |inDims|
      ensures |r| == |o| && forall i :: 0 <= i < |o| ==> r[i] == o[i] + k[i] - Pad(i)
    {
      seq(|o|, i requires 0 <= i < |o| => o[i] + k[i] - Pad(i))
    }
  }

  /** A convolution problem: the shapes, the input and filter contents, and the flip flag. */
  datatype Conv = Conv(shape: Shape, input: seq<real>, filter: seq<real>, flip: bool)
  {
    predicate WellFormed()
    {
      shape.Centred() && |input| == Product(shape.inDims) && |filter| == Product(shape.filterDims)
    }
  }

  function Add(a: seq<int>, b: seq<int>): (r: seq<int>)
    requires |a| == |b|
    ensures |r| == |a| && forall i :: 0 <= i < |a| ==> r[i] == a[i] + b[i]
  {
    seq(|a|, i requires 0 <= i < |a| => a[i] + b[i])
  }

  function Sub(a: seq<int>, b: seq<int>): (r: seq<int>)
    requires |a| == |b|
    ensures |r| == |a| && forall i :: 0 <= i < |a| ==> r[i] == a[i] - b[i]
  {
    seq(|a|, i requires 0 <= i < |a| => a[i] - b[i])
  }

  /** `s[i]`, and 0 outside the sequence. */
  function At(s: seq<real>, i: int): real
  {
    if 0 <= i < |s| then s[i] else 0.0
  }

  /** The flat filter index read for filter position `k`; flipping reads `filterTail - fp`. */
  function FilterIndex(c: Conv, k: seq<int>): int
    requires |k| == |c.shape.filterDims|
  {
    var fp := Flat(k, c.shape.filterDims);
    if c.flip then Product(c.shape.filterDims) - 1 - fp else fp
  }

  /** One product `in[o + k - pad] * filter[k]`. */
  function Term(c: Conv, o: seq<int>, k: seq<int>): real
    requires c.shape.SameArity() && |o| == |c.shape.inDims| && |k| == |o|
  {
    At(c.input, Flat(c.shape.InPos(o, k), c.shape.inDims)) * At(c.filter, FilterIndex(c, k))
  }

  /** The products of the first `r` positions of the clamped box, in loop order. */
  function BoxPrefix(c: Conv, o: seq<int>, r: nat): real
    requires c.shape.SameArity() && |o| == |c.shape.inDims| && Positive(c.shape.Lens(o))
  {
    if r == 0 then 0.0
    else BoxPrefix(c, o, r - 1) + Term(c, o, Add(c.shape.Los(o), Unrank(r - 1, c.shape.Lens(o))))
  }

  /** The value added at output position `o`: the sum over the whole clamped box. */
  function ConvAt(c: Conv, o: seq<int>): real
    requires c.WellFormed() && InBox(o, c.shape.outDims)
  {
    LensPositive(c.shape, o);
    BoxPrefix(c, o, Product(c.shape.Lens(o)))
  }

  /** The values the loop nest adds to the output, in flat output order. */
  function Convolved(c: Conv): (r: seq<real>)
    requires c.WellFormed()
    ensures |r| == Product(c.shape.outDims)
  {
    var od := c.shape.outDims;
    assert Positive(od);
    seq(Product(od), j requires 0 <= j < Product(od) => FlatOfUnrank(j, od); ConvAt(c, Unrank(j, od)))
  }

  // ---------------------------------------------------------------------
  // Facts about the clamped box.

  lemma LensPositive(s: Shape, o: seq<int>)
    requires s.Centred() && InBox(o, s.outDims)
    ensures Positive(s.Lens(o))
    ensures forall i :: 0 <= i < |o| ==> 0 <= s.Lo(i, o[i]) < s.Hi(i, o[i]) <= s.filterDims[i]
    ensures forall i :: 0 <= i < |o| ==> s.Lens(o)[i] == s.Hi(i, o[i]) - s.Lo(i, o[i])
  {
  }

  /** A position of the clamped box is a filter position that reads inside the input. */
  lemma BoxPositionInRange(s: Shape, o: seq<int>, k: seq<int>)
    requires s.Centred() && InBox(o, s.outDims) && |k| == |o|
    requires forall i :: 0 <= i < |o| ==> s.Lo(i, o[i]) <= k[i] < s.Hi(i, o[i])
    ensures InBox(k, s.filterDims) && InBox(s.InPos(o, k), s.inDims)
  {
  }

  /** Positions of the clamped box and their offsets from `Los(o)`. */
  lemma BoxOffsets(s: Shape, o: seq<int>, k: seq<int>)
    requires s.Centred() && InBox(o, s.outDims) && |k| == |o|
    ensures InBox(Sub(k, s.Los(o)), s.Lens(o)) <==>
            forall i :: 0 <= i < |o| ==> s.Lo(i, o[i]) <= k[i] < s.Hi(i, o[i])
  {
    LensPositive(s, o);
  }

  lemma SubUpdate(k: seq<int>, lo: seq<int>, i: nat, v: int)
    requires |k| == |lo| && i < |k|
    ensures Sub(k[i := v], lo) == Sub(k, lo)[i := v - lo[i]]
  {
  }

  lemma UpdateTwice(k: seq<int>, i: nat, a: int, b: int)
    requires i < |k|
    ensures k[i := a][i := b] == k[i := b]
  {
  }

  lemma AddSub(lo: seq<int>, k: seq<int>)
    requires |k| == |lo|
    ensures Add(lo, Sub(k, lo)) == k
  {
  }

  lemma InPosMoveK(s: Shape, o: seq<int>, k: seq<int>, i: nat, delta: int)
    requires s.SameArity() && |o| == |s.inDims| && |k| == |o| && i < |o|
    ensures s.InPos(o, k[i := k[i] + delta]) == s.InPos(o, k)[i := s.InPos(o, k)[i] + delta]
  {
  }

  /** `FlatUpdate` for a coordinate moved by `delta`. */
  lemma FlatMove(p: seq<int>, d: seq<nat>, i: nat, delta: int)
    requires |p| == |d| && i < |p|
    ensures Flat(p[i := p[i] + delta], d) == Flat(p, d) + delta * Product(d[..i])
  {
    FlatUpdate(p, d, i, p[i] + delta);
  }

  lemma InPosUpdateO(s: Shape, o: seq<int>, k: seq<int>, i: nat, v: int)
    requires s.SameArity() && |o| == |s.inDims| && |k| == |o| && i < |o|
    ensures s.InPos(o[i := v], k) == s.InPos(o, k)[i := v + k[i] - s.Pad(i)]
  {
  }

  // ---------------------------------------------------------------------
  // The loop nest (Tensor.convolve with stride 1), split at its inner loops.

  /** The step tables `innerStep`, `filterStep`, `outerStep`. */
  method StepTables(s: Shape) returns (innerStep: seq<int>, filterStep: seq<int>, outerStep: seq<int>)
    requires s.SameArity() && |s.inDims| >= 1
    ensures innerStep == Strides(s.inDims) && filterStep == Strides(s.filterDims) && outerStep == Strides(s.outDims)
  {
    var n := |s.inDims|;
    innerStep, filterStep, outerStep := [1], [1], [1];
    var i := 1;
    while i < n
      invariant 1 <= i <= n
      invariant innerStep == Strides(s.inDims)[..i]
      invariant filterStep == Strides(s.filterDims)[..i]
      invariant outerStep == Strides(s.outDims)[..i]
    {
      ProductStep(s.inDims, i - 1);
      ProductStep(s.filterDims, i - 1);
      ProductStep(s.outDims, i - 1);
      innerStep := innerStep + [innerStep[i - 1] * s.inDims[i - 1]];
      filterStep := filterStep + [filterStep[i - 1] * s.filterDims[i - 1]];
      outerStep := outerStep + [outerStep[i - 1] * s.outDims[i - 1]];
      i := i + 1;
    }
  }

  /** Moves filter coordinate `i` by `delta`, keeping both cursors in step. */
  method MoveInner(s: Shape, outerK: seq<int>, innerK: seq<int>, ip: int, fp: int,
                   innerStep: seq<int>, filterStep: seq<int>, i: nat, delta: int)
    returns (innerK': seq<int>, ip': int, fp': int)
    requires s.SameArity() && |outerK| == |s.inDims| && |innerK| == |outerK| && i < |outerK|
    requires innerStep == Strides(s.inDims) && filterStep == Strides(s.filterDims)
    requires ip == Flat(s.InPos(outerK, innerK), s.inDims) && fp == Flat(innerK, s.filterDims)
    ensures innerK' == innerK[i := innerK[i] + delta]
    ensures ip' == Flat(s.InPos(outerK, innerK'), s.inDims) && fp' == Flat(innerK', s.filterDims)
  {
    innerK' := innerK[i := innerK[i] + delta];
    FlatMove(innerK, s.filterDims, i, delta);
    InPosMoveK(s, outerK, innerK, i, delta);
    FlatMove(s.InPos(outerK, innerK), s.inDims, i, delta);
    fp' := fp + delta * filterStep[i];
    ip' := ip + delta * innerStep[i];
  }

  /** The rank of a box position moves by the change times that digit's weight. */
  lemma RankSet(k: seq<int>, lo: seq<int>, lens: seq<nat>, i: nat, v: int)
    requires |k| == |lo| == |lens| && i < |k|
    ensures Flat(Sub(k[i := v], lo), lens) == Flat(Sub(k, lo), lens) + (v - k[i]) * Product(lens[..i])
  {
    SubUpdate(k, lo, i, v);
    FlatUpdate(Sub(k, lo), lens, i, v - lo[i]);
  }

  lemma RankAfterSet(k: seq<int>, next: seq<int>, lo: seq<int>, lens: seq<nat>, i: nat, v: int)
    requires |k| == |lo| == |lens| && i < |k| && next == k[i := v]
    ensures Flat(Sub(next, lo), lens) == Flat(Sub(k, lo), lens) + (v - k[i]) * Product(lens[..i])
  {
    RankSet(k, lo, lens, i, v);
  }

  lemma RankAfterMove(k: seq<int>, next: seq<int>, lo: seq<int>, lens: seq<nat>, i: nat, delta: int)
    requires |k| == |lo| == |lens| && i < |k| && next == k[i := k[i] + delta]
    ensures Flat(Sub(next, lo), lens) == Flat(Sub(k, lo), lens) + delta * Product(lens[..i])
  {
    RankMove(k, lo, lens, i, delta);
  }

  /** Incrementing digit `i` past the box end and resetting it lowers the rank by that digit's span. */
  lemma ResetRank(cur: seq<int>, bumped: seq<int>, next: seq<int>, lo: seq<int>, lens: seq<nat>, i: nat, v: int)
    requires |cur| == |lo| == |lens| && i < |cur|
    requires bumped == cur[i := cur[i] + 1] && next == bumped[i := v]
    requires v - bumped[i] == -(lens[i] as int)
    ensures Flat(Sub(next, lo), lens) + Product(lens[..i + 1]) == Flat(Sub(cur, lo), lens) + Product(lens[..i])
  {
    RankAfterMove(cur, bumped, lo, lens, i, 1);
    RankAfterSet(bumped, next, lo, lens, i, v);
    ProductStep(lens, i);
    ResetWeight(Product(lens[..i]), lens[i], v - bumped[i]);
  }

  lemma RankMove(k: seq<int>, lo: seq<int>, lens: seq<nat>, i: nat, delta: int)
    requires |k| == |lo| == |lens| && i < |k|
    ensures Flat(Sub(k[i := k[i] + delta], lo), lens) == Flat(Sub(k, lo), lens) + delta * Product(lens[..i])
  {
    SubUpdate(k, lo, i, k[i] + delta);
    FlatMove(Sub(k, lo), lens, i, delta);
  }

  /** "Fix up the initial innerK positions": move `innerK` to the box start for `outerK`. */
  method FixUp(s: Shape, outerK: seq<int>, innerK: seq<int>, ip: int, fp: int,
               innerStep: seq<int>, filterStep: seq<int>)
    returns (innerK': seq<int>, ip': int, fp': int)
    requires s.SameArity() && |outerK| == |s.inDims| && |innerK| == |outerK|
    requires innerStep == Strides(s.inDims) && filterStep == Strides(s.filterDims)
    requires ip == Flat(s.InPos(outerK, innerK), s.inDims) && fp == Flat(innerK, s.filterDims)
    ensures innerK' == s.Los(outerK)
    ensures ip' == Flat(s.InPos(outerK, innerK'), s.inDims) && fp' == Flat(innerK', s.filterDims)
  {
    var n := |s.inDims|;
    innerK', ip', fp' := innerK, ip, fp;
    var i := 0;
    while i < n
      invariant 0 <= i <= n && |innerK'| == n
      invariant forall j :: 0 <= j < i ==> innerK'[j] == s.Lo(j, outerK[j])
      invariant ip' == Flat(s.InPos(outerK, innerK'), s.inDims) && fp' == Flat(innerK', s.filterDims)
    {
      var padding := JavaHalf(s.outDims[i] as int - 1 + s.filterDims[i] - s.inDims[i]);
      var adj := (padding - Min(padding, outerK[i])) - innerK'[i];
      innerK', ip', fp' := MoveInner(s, outerK, innerK', ip', fp', innerStep, filterStep, i, adj);
      i := i + 1;
    }
  }

  /** The Java test that ends the carry at digit `i`: the digit is still inside the clamped box. */
  lemma DigitTest(s: Shape, o: seq<int>, i: nat, v: int)
    requires s.Centred() && InBox(o, s.outDims) && i < |o| && v >= s.Lo(i, o[i])
    ensures (v < s.filterDims[i] && o[i] + v - s.Pad(i) < s.inDims[i]) <==> v - s.Los(o)[i] < s.Lens(o)[i]
  {
    LensPositive(s, o);
  }

  /** The carry stopped at digit `i`: the new position is in the box. */
  lemma CarryStop(s: Shape, o: seq<int>, k0: seq<int>, k: seq<int>, i: nat)
    requires s.Centred() && InBox(o, s.outDims) && |k0| == |o| && |k| == |o| && i < |o|
    requires InBox(Sub(k0, s.Los(o)), s.Lens(o))
    requires forall j :: 0 <= j < i ==> k[j] == s.Los(o)[j]
    requires forall j :: i < j < |o| ==> k[j] == k0[j]
    requires k[i] == k0[i] + 1 && k[i] - s.Los(o)[i] < s.Lens(o)[i]
    ensures InBox(Sub(k, s.Los(o)), s.Lens(o))
  {
    LensPositive(s, o);
    var lo, lens := s.Los(o), s.Lens(o);
    forall j | 0 <= j < |o| ensures 0 <= Sub(k, lo)[j] < lens[j] {
      assert 0 <= Sub(k0, lo)[j] < lens[j];
    }
  }

  /** The carry goes past digit `i` only when that digit was at the end of the box. */
  lemma CarryOn(s: Shape, o: seq<int>, k0: seq<int>, i: nat)
    requires s.Centred() && InBox(o, s.outDims) && |k0| == |o| && i < |o|
    requires InBox(Sub(k0, s.Los(o)), s.Lens(o))
    requires k0[i] + 1 - s.Los(o)[i] >= s.Lens(o)[i]
    ensures s.Lo(i, o[i]) - (k0[i] + 1) == -(s.Lens(o)[i] as int)
  {
    assert 0 <= Sub(k0, s.Los(o))[i] < s.Lens(o)[i];
  }

  lemma ResetWeight(p: int, l: int, adj: int)
    requires adj == -l
    ensures adj * p == -(p * l)
  {
  }

  /** Resets filter coordinate `i` to the start of the clamped box, keeping both cursors in step. */
  method ResetDigit(s: Shape, outerK: seq<int>, cur: seq<int>, ip: int, fp: int,
                    innerStep: seq<int>, filterStep: seq<int>, i: nat)
    returns (next: seq<int>, ip': int, fp': int)
    requires s.SameArity() && |outerK| == |s.inDims| && |cur| == |outerK| && i < |outerK|
    requires innerStep == Strides(s.inDims) && filterStep == Strides(s.filterDims)
    requires ip == Flat(s.InPos(outerK, cur), s.inDims) && fp == Flat(cur, s.filterDims)
    ensures next == cur[i := s.Lo(i, outerK[i])]
    ensures ip' == Flat(s.InPos(outerK, next), s.inDims) && fp' == Flat(next, s.filterDims)
  {
    var padding := JavaHalf(s.outDims[i] as int - 1 + s.filterDims[i] - s.inDims[i]);
    var adj := (padding - Min(padding, outerK[i])) - cur[i];
    next, ip', fp' := MoveInner(s, outerK, cur, ip, fp, innerStep, filterStep, i, adj);
  }

  /** The cursors `ip` and `fp` are the flat input and filter offsets of filter position `k` at output `o`. */
  predicate Tracks(s: Shape, o: seq<int>, k: seq<int>, ip: int, fp: int)
  {
    s.SameArity() && |o| == |s.inDims| && |k| == |o| &&
    ip == Flat(s.InPos(o, k), s.inDims) && fp == Flat(k, s.filterDims)
  }

  /** `lo` and `lens` are the clamped box at output position `o`. */
  ghost predicate BoxAt(s: Shape, o: seq<int>, lo: seq<int>, lens: seq<nat>)
  {
    s.Centred() && InBox(o, s.outDims) && lo == s.Los(o) && lens == s.Lens(o)
  }

  /** Filter position `k` is inside the box with corner `lo` and extents `lens`, with both cursors in step. */
  ghost predicate InnerAt(s: Shape, o: seq<int>, lo: seq<int>, lens: seq<nat>, k: seq<int>, ip: int, fp: int)
  {
    Tracks(s, o, k, ip, fp) && |lo| == |k| && InBox(Sub(k, lo), lens)
  }

  /** The carry ran through every digit: the position it left was the last one of the box. */
  lemma WrapRank(k: seq<int>, lo: seq<int>, lens: seq<nat>, r0: int)
    requires |k| == |lo| == |lens|
    requires forall j :: 0 <= j < |k| ==> k[j] == lo[j]
    requires Flat(Sub(k, lo), lens) + Product(lens[..|k|]) == r0 + 1
    ensures r0 + 1 == Product(lens)
  {
    assert forall j :: 0 <= j < |k| ==> Sub(k, lo)[j] == Zeros(|k|)[j];
    assert Sub(k, lo) == Zeros(|k|);
    FlatZeros(lens);
    assert lens[..|k|] == lens;
  }

  /** The carry stops at digit `i`: the incremented position is the next one of the box. */
  lemma CarryStops(s: Shape, o: seq<int>, lo: seq<int>, lens: seq<nat>,
                   innerK: seq<int>, cur: seq<int>, next: seq<int>, i: nat)
    requires BoxAt(s, o, lo, lens) && |innerK| == |o| && |cur| == |o| && i < |o|
    requires InBox(Sub(innerK, lo), lens)
    requires forall j :: 0 <= j < i ==> cur[j] == lo[j]
    requires forall j :: i <= j < |cur| ==> cur[j] == innerK[j]
    requires next == cur[i := cur[i] + 1]
    requires next[i] < s.filterDims[i] && o[i] + next[i] - s.Pad(i) < s.inDims[i]
    ensures InBox(Sub(next, lo), lens)
    ensures Flat(Sub(next, lo), lens) == Flat(Sub(cur, lo), lens) + Product(lens[..i])
  {
    RankAfterMove(cur, next, lo, lens, i, 1);
    assert 0 <= Sub(innerK, lo)[i];
    DigitTest(s, o, i, next[i]);
    CarryStop(s, o, innerK, next, i);
  }

  /** The carry passes digit `i`: resetting it lowers the rank by the digit's span. */
  lemma CarryPasses(s: Shape, o: seq<int>, lo: seq<int>, lens: seq<nat>,
                    innerK: seq<int>, cur: seq<int>, bumped: seq<int>, next: seq<int>, i: nat)
    requires BoxAt(s, o, lo, lens) && |innerK| == |o| && |cur| == |o| && i < |o|
    requires InBox(Sub(innerK, lo), lens)
    requires forall j :: i <= j < |cur| ==> cur[j] == innerK[j]
    requires bumped == cur[i := cur[i] + 1] && next == bumped[i := s.Lo(i, o[i])]
    requires !(bumped[i] < s.filterDims[i] && o[i] + bumped[i] - s.Pad(i) < s.inDims[i])
    ensures next == cur[i := lo[i]]
    ensures Flat(Sub(next, lo), lens) + Product(lens[..i + 1]) == Flat(Sub(cur, lo), lens) + Product(lens[..i])
  {
    assert 0 <= Sub(innerK, lo)[i];
    DigitTest(s, o, i, bumped[i]);
    CarryOn(s, o, innerK, i);
    UpdateTwice(cur, i, cur[i] + 1, lo[i]);
    ResetRank(cur, bumped, next, lo, lens, i, s.Lo(i, o[i]));
  }

  /**
   * One round of the carry loop at digit `i`: increment the digit, and when it
   * leaves the clamped box reset it to the box start (`stop` is false).
   */
  method CarryDigit(s: Shape, outerK: seq<int>, ghost lo: seq<int>, ghost lens: seq<nat>,
                    innerK: seq<int>, cur: seq<int>, ip: int, fp: int,
                    innerStep: seq<int>, filterStep: seq<int>, i: nat)
    returns (next: seq<int>, ip': int, fp': int, stop: bool)
    requires BoxAt(s, outerK, lo, lens) && |innerK| == |outerK| && i < |outerK|
    requires innerStep == Strides(s.inDims) && filterStep == Strides(s.filterDims)
    requires InBox(Sub(innerK, lo), lens)
    requires Tracks(s, outerK, cur, ip, fp)
    requires forall j :: 0 <= j < i ==> cur[j] == lo[j]
    requires forall j :: i <= j < |cur| ==> cur[j] == innerK[j]
    ensures Tracks(s, outerK, next, ip', fp')
    ensures stop ==> InBox(Sub(next, lo), lens)
    ensures stop ==> Flat(Sub(next, lo), lens) == Flat(Sub(cur, lo), lens) + Product(lens[..i])
    ensures !stop ==> next == cur[i := lo[i]]
    ensures !stop ==> Flat(Sub(next, lo), lens) + Product(lens[..i + 1]) == Flat(Sub(cur, lo), lens) + Product(lens[..i])
  {
    next, ip', fp' := MoveInner(s, outerK, cur, ip, fp, innerStep, filterStep, i, 1);
    var padding := JavaHalf(s.outDims[i] as int - 1 + s.filterDims[i] - s.inDims[i]);
    if next[i] < s.filterDims[i] && outerK[i] + next[i] - padding < s.inDims[i] {
      CarryStops(s, outerK, lo, lens, innerK, cur, next, i);
      return next, ip', fp', true;
    }
    ghost var bumped := next;
    next, ip', fp' := ResetDigit(s, outerK, next, ip', fp', innerStep, filterStep, i);
    CarryPasses(s, outerK, lo, lens, innerK, cur, bumped, next, i);
    stop := false;
  }

  /** Resetting digit `i` to the box start extends the reset prefix by one digit and keeps the rest. */
  lemma ResetPrefix(cur: seq<int>, next: seq<int>, lo: seq<int>, k: seq<int>, i: nat)
    requires |cur| == |lo| == |k| && i < |cur| && next == cur[i := lo[i]]
    requires forall j :: 0 <= j < i ==> cur[j] == lo[j]
    requires forall j :: i <= j < |cur| ==> cur[j] == k[j]
    ensures forall j :: 0 <= j < i + 1 ==> next[j] == lo[j]
    ensures forall j :: i + 1 <= j < |next| ==> next[j] == k[j]
  {
  }

  /**
   * "increment the innerK position": advance `innerK` to the next position of
   * the clamped box in loop order; `wrapped` is the Java `i >= numDimensions`.
   */
  method StepInner(s: Shape, outerK: seq<int>, ghost lo: seq<int>, ghost lens: seq<nat>,
                   innerK: seq<int>, ip: int, fp: int, innerStep: seq<int>, filterStep: seq<int>)
    returns (innerK': seq<int>, ip': int, fp': int, wrapped: bool)
    requires BoxAt(s, outerK, lo, lens) && Tracks(s, outerK, innerK, ip, fp)
    requires innerStep == Strides(s.inDims) && filterStep == Strides(s.filterDims)
    requires InBox(Sub(innerK, lo), lens)
    ensures Tracks(s, outerK, innerK', ip', fp')
    ensures wrapped ==> Flat(Sub(innerK, lo), lens) + 1 == Product(lens)
    ensures !wrapped ==> InBox(Sub(innerK', lo), lens)
    ensures !wrapped ==> Flat(Sub(innerK', lo), lens) == Flat(Sub(innerK, lo), lens) + 1
  {
    var n := |s.inDims|;
    ghost var r0 := Flat(Sub(innerK, lo), lens);
    innerK', ip', fp', wrapped := innerK, ip, fp, false;
    var i := 0;
    while i < n
      invariant 0 <= i <= n && |innerK'| == n
      invariant ip' == Flat(s.InPos(outerK, innerK'), s.inDims) && fp' == Flat(innerK', s.filterDims)
      invariant forall j :: 0 <= j < i ==> innerK'[j] == lo[j]
      invariant forall j :: i <= j < n ==> innerK'[j] == innerK[j]
      invariant Flat(Sub(innerK', lo), lens) + Product(lens[..i]) == r0 + 1
    {
      var stop;
      ghost var cur := innerK';
      innerK', ip', fp', stop := CarryDigit(s, outerK, lo, lens, innerK, innerK', ip', fp', innerStep, filterStep, i);
      if stop {
        return;
      }
      ResetPrefix(cur, innerK', lo, innerK, i);
      i := i + 1;
    }
    wrapped := true;
    WrapRank(innerK', lo, lens, r0);
  }

  // ---------------------------------------------------------------------
  // The starting positions, the outer carry and the accumulation of one box.

  /** The clamped box at the all-zero output position starts at `ip == 0`, since the padding is non-negative. */
  lemma StartReadsZero(s: Shape)
    requires s.Centred()
    ensures Flat(s.InPos(Zeros(|s.inDims|), s.Los(Zeros(|s.inDims|))), s.inDims) == 0
  {
    var z := Zeros(|s.inDims|);
    assert s.InPos(z, s.Los(z)) == z;
    FlatZeros(s.inDims);
  }

  /** The loop before the outer loop: `outerK = 0` and `innerK` at the start of its clamped box; only `fp` moves. */
  method StartPositions(s: Shape, filterStep: seq<int>) returns (outerK: seq<int>, innerK: seq<int>, ip: int, fp: int)
    requires s.Centred() && filterStep == Strides(s.filterDims)
    ensures outerK == Zeros(|s.inDims|) && innerK == s.Los(outerK)
    ensures Tracks(s, outerK, innerK, ip, fp)
  {
    var n := |s.inDims|;
    outerK, innerK := Zeros(n), Zeros(n);
    ip, fp := 0, 0;
    FlatZeros(s.filterDims);
    var i := 0;
    while i < n
      invariant 0 <= i <= n && |innerK| == n
      invariant forall j :: 0 <= j < i ==> innerK[j] == s.Lo(j, 0)
      invariant forall j :: i <= j < n ==> innerK[j] == 0
      invariant fp == Flat(innerK, s.filterDims)
    {
      var padding := JavaHalf(s.outDims[i] as int - 1 + s.filterDims[i] - s.inDims[i]);
      var adj := (padding - Min(padding, outerK[i])) - innerK[i];
      FlatMove(innerK, s.filterDims, i, adj);
      innerK := innerK[i := innerK[i] + adj];
      fp := fp + adj * filterStep[i];
      i := i + 1;
    }
    StartReadsZero(s);
  }

  lemma InPosMoveO(s: Shape, o: seq<int>, k: seq<int>, i: nat, delta: int)
    requires s.SameArity() && |o| == |s.inDims| && |k| == |o| && i < |o|
    ensures s.InPos(o[i := o[i] + delta], k) == s.InPos(o, k)[i := s.InPos(o, k)[i] + delta]
  {
  }

  /** Moving output coordinate `i` by `delta` moves `op` and `ip` by `delta` strides. */
  lemma OuterMoved(s: Shape, o: seq<int>, o': seq<int>, k: seq<int>, i: nat, delta: int)
    requires s.SameArity() && |o| == |s.inDims| && |k| == |o| && i < |o| && o' == o[i := o[i] + delta]
    ensures |o'| == |o|
    ensures Flat(o', s.outDims) == Flat(o, s.outDims) + delta * Product(s.outDims[..i])
    ensures Flat(s.InPos(o', k), s.inDims) == Flat(s.InPos(o, k), s.inDims) + delta * Product(s.inDims[..i])
  {
    FlatMove(o, s.outDims, i, delta);
    InPosMoved(s, o, o', k, i, delta);
  }

  lemma InPosMoved(s: Shape, o: seq<int>, o': seq<int>, k: seq<int>, i: nat, delta: int)
    requires s.SameArity() && |o| == |s.inDims| && |k| == |o| && i < |o| && o' == o[i := o[i] + delta]
    ensures Flat(s.InPos(o', k), s.inDims) == Flat(s.InPos(o, k), s.inDims) + delta * Product(s.inDims[..i])
  {
    var p := s.InPos(o, k);
    InPosMoveO(s, o, k, i, delta);
    assert s.InPos(o', k) == p[i := p[i] + delta];
    FlatMove(p, s.inDims, i, delta);
  }

  /** Moves output coordinate `i` by `delta`, keeping `op` and `ip` in step. */
  method MoveOuter(s: Shape, outerK: seq<int>, innerK: seq<int>, op: int, ip: int,
                   outerStep: seq<int>, innerStep: seq<int>, i: nat, delta: int)
    returns (outerK': seq<int>, op': int, ip': int)
    requires s.SameArity() && |outerK| == |s.inDims| && |innerK| == |outerK| && i < |outerK|
    requires outerStep == Strides(s.outDims) && innerStep == Strides(s.inDims)
    requires op == Flat(outerK, s.outDims) && ip == Flat(s.InPos(outerK, innerK), s.inDims)
    ensures outerK' == outerK[i := outerK[i] + delta]
    ensures op' == Flat(outerK', s.outDims) && ip' == Flat(s.InPos(outerK', innerK), s.inDims)
  {
    outerK' := outerK[i := outerK[i] + delta];
    OuterMoved(s, outerK, outerK', innerK, i, delta);
    op' := op + delta * outerStep[i];
    ip' := ip + delta * innerStep[i];
  }

  /** The outer carry stops at digit `i`: the incremented position is the next output position. */
  lemma OuterStops(d: seq<nat>, o: seq<int>, cur: seq<int>, next: seq<int>, i: nat)
    requires InBox(o, d) && |cur| == |o| && i < |o|
    requires forall j :: 0 <= j < i ==> cur[j] == 0
    requires forall j :: i <= j < |cur| ==> cur[j] == o[j]
    requires next == cur[i := cur[i] + 1] && next[i] < d[i]
    ensures InBox(next, d) && Flat(next, d) == Flat(cur, d) + Product(d[..i])
  {
    FlatMove(cur, d, i, 1);
    forall j | 0 <= j < |d| ensures 0 <= next[j] < d[j] {
      if i < j { assert next[j] == o[j]; }
    }
  }

  lemma OuterResetWeight(p: int, l: int, x: int)
    requires x == l
    ensures (-x) * p == -(p * l)
  {
  }

  /** The outer carry passes digit `i`: resetting it lowers the rank by the digit's span. */
  lemma OuterPasses(d: seq<nat>, o: seq<int>, cur: seq<int>, bumped: seq<int>, next: seq<int>, i: nat)
    requires InBox(o, d) && |cur| == |o| && i < |o|
    requires forall j :: i <= j < |cur| ==> cur[j] == o[j]
    requires bumped == cur[i := cur[i] + 1] && !(bumped[i] < d[i])
    requires next == bumped[i := bumped[i] + -bumped[i]]
    ensures next == cur[i := 0]
    ensures Flat(next, d) + Product(d[..i + 1]) == Flat(cur, d) + Product(d[..i])
  {
    UpdateTwice(cur, i, cur[i] + 1, 0);
    FlatMove(cur, d, i, 1);
    FlatMove(bumped, d, i, -bumped[i]);
    ProductStep(d, i);
    OuterResetWeight(Product(d[..i]), d[i], bumped[i]);
  }

  /**
   * One round of the outer carry at digit `i`: `outerK[i]++`, and when it
   * reaches `out.dimensions[i]` reset it to 0 (`stop` is false).
   */
  method CarryOuterDigit(s: Shape, outerK: seq<int>, innerK: seq<int>, cur: seq<int>, op: int, ip: int,
                         outerStep: seq<int>, innerStep: seq<int>, i: nat)
    returns (next: seq<int>, op': int, ip': int, stop: bool)
    requires s.SameArity() && InBox(outerK, s.outDims) && |outerK| == |s.inDims| && |innerK| == |outerK|
    requires |cur| == |outerK| && i < |outerK|
    requires outerStep == Strides(s.outDims) && innerStep == Strides(s.inDims)
    requires op == Flat(cur, s.outDims) && ip == Flat(s.InPos(cur, innerK), s.inDims)
    requires forall j :: 0 <= j < i ==> cur[j] == 0
    requires forall j :: i <= j < |cur| ==> cur[j] == outerK[j]
    ensures |next| == |cur| && op' == Flat(next, s.outDims) && ip' == Flat(s.InPos(next, innerK), s.inDims)
    ensures stop ==> InBox(next, s.outDims) && Flat(next, s.outDims) == Flat(cur, s.outDims) + Product(s.outDims[..i])
    ensures !stop ==> next == cur[i := 0]
    ensures !stop ==> Flat(next, s.outDims) + Product(s.outDims[..i + 1]) == Flat(cur, s.outDims) + Product(s.outDims[..i])
  {
    next, op', ip' := MoveOuter(s, cur, innerK, op, ip, outerStep, innerStep, i, 1);
    if next[i] < s.outDims[i] {
      OuterStops(s.outDims, outerK, cur, next, i);
      return next, op', ip', true;
    }
    ghost var bumped := next;
    next, op', ip' := MoveOuter(s, next, innerK, op', ip', outerStep, innerStep, i, -next[i]);
    OuterPasses(s.outDims, outerK, cur, bumped, next, i);
    stop := false;
  }

  /** The outer carry ran through every digit: the position it left was the last output position. */
  lemma OuterWrap(k: seq<int>, d: seq<nat>, q0: int)
    requires |k| == |d|
    requires forall j :: 0 <= j < |k| ==> k[j] == 0
    requires Flat(k, d) + Product(d[..|k|]) == q0 + 1
    ensures q0 + 1 == Product(d)
  {
    assert k == Zeros(|k|);
    FlatZeros(d);
    assert d[..|k|] == d;
  }

  /**
   * "increment the outerK position": advance `outerK` to the next output
   * position in loop order; `wrapped` is the Java `i >= numDimensions`.
   */
  method StepOuter(s: Shape, outerK: seq<int>, innerK: seq<int>, op: int, ip: int,
                   outerStep: seq<int>, innerStep: seq<int>)
    returns (outerK': seq<int>, op': int, ip': int, wrapped: bool)
    requires s.SameArity() && InBox(outerK, s.outDims) && |outerK| == |s.inDims| && |innerK| == |outerK|
    requires outerStep == Strides(s.outDims) && innerStep == Strides(s.inDims)
    requires op == Flat(outerK, s.outDims) && ip == Flat(s.InPos(outerK, innerK), s.inDims)
    ensures |outerK'| == |outerK| && op' == Flat(outerK', s.outDims) && ip' == Flat(s.InPos(outerK', innerK), s.inDims)
    ensures wrapped ==> Flat(outerK, s.outDims) + 1 == Product(s.outDims)
    ensures !wrapped ==> InBox(outerK', s.outDims) && Flat(outerK', s.outDims) == Flat(outerK, s.outDims) + 1
  {
    var n := |s.inDims|;
    ghost var q0 := op;
    outerK', op', ip', wrapped := outerK, op, ip, false;
    var i := 0;
    while i < n
      invariant 0 <= i <= n && |outerK'| == n
      invariant op' == Flat(outerK', s.outDims) && ip' == Flat(s.InPos(outerK', innerK), s.inDims)
      invariant forall j :: 0 <= j < n ==> outerK'[j] == if j < i then 0 else outerK[j]
      invariant op' + Product(s.outDims[..i]) == q0 + 1
    {
      var stop;
      outerK', op', ip', stop := CarryOuterDigit(s, outerK, innerK, outerK', op', ip', outerStep, innerStep, i);
      if stop {
        return;
      }
      i := i + 1;
    }
    wrapped := true;
    OuterWrap(outerK', s.outDims, q0);
  }

  /** The box rank of the box start is 0. */
  lemma StartRank(lo: seq<int>, lens: seq<nat>)
    requires |lo| == |lens| && Positive(lens)
    ensures InBox(Sub(lo, lo), lens) && Flat(Sub(lo, lo), lens) == 0
  {
    assert Sub(lo, lo) == Zeros(|lo|);
    FlatZeros(lens);
  }

  /** The two reads of the inner loop body are in range. */
  lemma ReadsInRange(c: Conv, o: seq<int>, lo: seq<int>, lens: seq<nat>, k: seq<int>, ip: int, fp: int)
    requires c.WellFormed() && BoxAt(c.shape, o, lo, lens) && Positive(lens) && InnerAt(c.shape, o, lo, lens, k, ip, fp)
    ensures 0 <= ip < |c.input|
    ensures 0 <= FilterIndex(c, k) < |c.filter| && FilterIndex(c, k) == if c.flip then |c.filter| - 1 - fp else fp
  {
    var s := c.shape;
    BoxOffsets(s, o, k);
    BoxPositionInRange(s, o, k);
    FlatBounds(k, s.filterDims);
    FlatBounds(s.InPos(o, k), s.inDims);
  }

  /** The box position of rank `Flat(Sub(k, lo), lens)` is `k` itself. */
  lemma RankToPosition(k: seq<int>, lo: seq<int>, lens: seq<nat>)
    requires |k| == |lo| && InBox(Sub(k, lo), lens)
    ensures Positive(lens) && Flat(Sub(k, lo), lens) >= 0
    ensures Add(lo, Unrank(Flat(Sub(k, lo), lens), lens)) == k
  {
    UnrankOfFlat(Sub(k, lo), lens);
    AddSub(lo, k);
  }

  /** The inner loop body adds the next term of the box sum. */
  lemma TermAt(c: Conv, o: seq<int>, lo: seq<int>, lens: seq<nat>, k: seq<int>, ip: int, fp: int)
    requires c.WellFormed() && BoxAt(c.shape, o, lo, lens) && Positive(lens) && InnerAt(c.shape, o, lo, lens, k, ip, fp)
    ensures 0 <= ip < |c.input|
    ensures 0 <= FilterIndex(c, k) < |c.filter| && FilterIndex(c, k) == if c.flip then |c.filter| - 1 - fp else fp
    ensures Positive(lens) && Flat(Sub(k, lo), lens) >= 0
    ensures Term(c, o, Add(lo, Unrank(Flat(Sub(k, lo), lens), lens))) == c.input[ip] * c.filter[FilterIndex(c, k)]
  {
    ReadsInRange(c, o, lo, lens, k, ip, fp);
    RankToPosition(k, lo, lens);
    TermIs(c, o, k, ip);
  }

  lemma TermIs(c: Conv, o: seq<int>, k: seq<int>, ip: int)
    requires c.shape.SameArity() && |o| == |c.shape.inDims| && |k| == |o|
    requires ip == Flat(c.shape.InPos(o, k), c.shape.inDims) && 0 <= ip < |c.input|
    requires 0 <= FilterIndex(c, k) < |c.filter|
    ensures Term(c, o, k) == c.input[ip] * c.filter[FilterIndex(c, k)]
  {
  }

  /** `val += in.get(ip) * filter.get(...)`: the prefix sum grows by the term of the current box position. */
  method AddTerm(c: Conv, outerK: seq<int>, ghost lo: seq<int>, ghost lens: seq<nat>,
                 innerK: seq<int>, ip: int, fp: int, filterTail: int, val: real, ghost r: nat)
    returns (val': real)
    requires c.WellFormed() && BoxAt(c.shape, outerK, lo, lens) && Positive(lens) && InnerAt(c.shape, outerK, lo, lens, innerK, ip, fp) && filterTail == |c.filter| - 1
    requires r == Flat(Sub(innerK, lo), lens) && val == BoxPrefix(c, outerK, r)
    ensures val' == BoxPrefix(c, outerK, r + 1)
  {
    TermAt(c, outerK, lo, lens, innerK, ip, fp);
    var t := ReadTerm(c, innerK, ip, fp, filterTail);
    BoxPrefixStep(c, outerK, lo, lens, r, t);
    val' := val + t;
  }

  /**
   * One pass of the inner loop body: add the term of the current box
   * position to `val`, then advance to the next box position.
   */
  method BoxStep(c: Conv, outerK: seq<int>, ghost lo: seq<int>, ghost lens: seq<nat>,
                 innerK: seq<int>, ip: int, fp: int, innerStep: seq<int>, filterStep: seq<int>, filterTail: int,
                 val: real, ghost r: nat)
    returns (val': real, innerK': seq<int>, ip': int, fp': int, wrapped: bool)
    requires c.WellFormed() && BoxAt(c.shape, outerK, lo, lens) && Positive(lens) && InnerAt(c.shape, outerK, lo, lens, innerK, ip, fp)
    requires innerStep == Strides(c.shape.inDims) && filterStep == Strides(c.shape.filterDims) && filterTail == |c.filter| - 1
    requires r == Flat(Sub(innerK, lo), lens) && val == BoxPrefix(c, outerK, r)
    ensures Tracks(c.shape, outerK, innerK', ip', fp') && val' == BoxPrefix(c, outerK, r + 1)
    ensures wrapped ==> r + 1 == Product(lens)
    ensures !wrapped ==> InnerAt(c.shape, outerK, lo, lens, innerK', ip', fp') && Flat(Sub(innerK', lo), lens) == r + 1
  {
    val' := AddTerm(c, outerK, lo, lens, innerK, ip, fp, filterTail, val, r);
    innerK', ip', fp', wrapped := StepInner(c.shape, outerK, lo, lens, innerK, ip, fp, innerStep, filterStep);
  }

  /** The inner `while (true)`: sums the products over the whole clamped box, starting at its first position. */
  method AccumulateBox(c: Conv, outerK: seq<int>, ghost lo: seq<int>, ghost lens: seq<nat>,
                       innerK: seq<int>, ip: int, fp: int, innerStep: seq<int>, filterStep: seq<int>, filterTail: int)
    returns (val: real, innerK': seq<int>, ip': int, fp': int)
    requires c.WellFormed() && BoxAt(c.shape, outerK, lo, lens) && Tracks(c.shape, outerK, innerK, ip, fp)
    requires innerStep == Strides(c.shape.inDims) && filterStep == Strides(c.shape.filterDims)
    requires innerK == lo && filterTail == |c.filter| - 1
    ensures Tracks(c.shape, outerK, innerK', ip', fp')
    ensures val == ConvAt(c, outerK)
  {
    LensPositive(c.shape, outerK);
    ProductPositive(lens);
    StartRank(lo, lens);
    val, innerK', ip', fp' := 0.0, innerK, ip, fp;
    ghost var r := 0;
    while true
      invariant InnerAt(c.shape, outerK, lo, lens, innerK', ip', fp')
      invariant r == Flat(Sub(innerK', lo), lens) && 0 <= r < Product(lens)
      invariant val == BoxPrefix(c, outerK, r)
      decreases Product(lens) - r
    {
      var wrapped;
      val, innerK', ip', fp', wrapped := BoxStep(c, outerK, lo, lens, innerK', ip', fp', innerStep, filterStep, filterTail, val, r);
      if wrapped {
        WholeBox(c, outerK, lo, lens, r + 1, val);
        break;
      }
      r := r + 1;
      FlatBounds(Sub(innerK', lo), lens);
    }
  }

  /** `in.get(ip) * filter.get(flipFilter ? filterTail - fp : fp)`: the term of filter position `k`. */
  method ReadTerm(c: Conv, k: seq<int>, ip: int, fp: int, filterTail: int) returns (t: real)
    requires |k| == |c.shape.filterDims| && fp == Flat(k, c.shape.filterDims) && filterTail == |c.filter| - 1
    requires 0 <= ip < |c.input| && 0 <= FilterIndex(c, k) < |c.filter|
    requires |c.filter| == Product(c.shape.filterDims)
    ensures t == c.input[ip] * c.filter[FilterIndex(c, k)]
  {
    t := c.input[ip] * c.filter[if c.flip then filterTail - fp else fp];
  }

  /** One more position of the box adds its term to the prefix sum. */
  lemma BoxPrefixStep(c: Conv, o: seq<int>, lo: seq<int>, lens: seq<nat>, r: nat, t: real)
    requires BoxAt(c.shape, o, lo, lens) && Positive(lens)
    requires t == Term(c, o, Add(lo, Unrank(r, lens)))
    ensures BoxPrefix(c, o, r + 1) == BoxPrefix(c, o, r) + t
  {
  }

  lemma WholeBox(c: Conv, o: seq<int>, lo: seq<int>, lens: seq<nat>, r: nat, v: real)
    requires c.WellFormed() && BoxAt(c.shape, o, lo, lens) && Positive(lens)
    requires r == Product(lens) && v == BoxPrefix(c, o, r)
    ensures v == ConvAt(c, o)
  {
  }

  /** Entry `Flat(o)` of `Convolved` is the box sum at output position `o`. */
  lemma ConvolvedAt(c: Conv, o: seq<int>)
    requires c.WellFormed() && InBox(o, c.shape.outDims)
    ensures 0 <= Flat(o, c.shape.outDims) < |Convolved(c)| && Convolved(c)[Flat(o, c.shape.outDims)] == ConvAt(c, o)
  {
    FlatBounds(o, c.shape.outDims);
    UnrankOfFlat(o, c.shape.outDims);
  }

  /** `filterStep[n-1] * filter.dimensions[n-1] - 1`, the flat index of the last filter element. */
  lemma FilterTail(d: seq<nat>, steps: seq<int>)
    requires |d| >= 1 && steps == Strides(d)
    ensures steps[|d| - 1] * d[|d| - 1] - 1 == Product(d) - 1
  {
    ProductWhole(d);
  }

  /** `out.set(op, out.get(op) + val)` with `val` the next value of `v`: the added prefix of `v` grows by one. */
  method AddNext(out: array<real>, at: nat, ghost base: seq<real>, ghost v: seq<real>, q: nat, val: real)
    requires q < |v| && at + |v| <= |base| && out[..] == AddedInto(base, at, v[..q]) && val == v[q]
    modifies out
    ensures out[..] == AddedInto(base, at, v[..q + 1])
  {
    ghost var before := out[..];
    out[at + q] := out[at + q] + val;
    AddedStep(base, at, v, q, before, val, out[..]);
  }

  /** `base` with `v` added elementwise to its window from `at`. */
  function AddedInto(base: seq<real>, at: nat, v: seq<real>): (r: seq<real>)
    requires at + |v| <= |base|
    ensures |r| == |base|
  {
    seq(|base|, j requires 0 <= j < |base| => if at <= j < at + |v| then base[j] + v[j - at] else base[j])
  }

  /** Adding `v` at `at` adds `v[j - at]` to each position `j` of the window and leaves the rest alone. */
  lemma AddedIntoAt(base: seq<real>, at: nat, v: seq<real>)
    requires at + |v| <= |base|
    ensures forall j :: 0 <= j < |base| ==>
      AddedInto(base, at, v)[j] == if at <= j < at + |v| then base[j] + v[j - at] else base[j]
  {
  }

  lemma AddedNothing(base: seq<real>, at: nat, v: seq<real>)
    requires at + |v| <= |base|
    ensures AddedInto(base, at, v[..0]) == base
  {
    assert AddedInto(base, at, v[..0]) == base[..at] + base[at..];
  }

  lemma AddedAll(base: seq<real>, at: nat, v: seq<real>, q: nat)
    requires at + |v| <= |base| && q == |v|
    ensures AddedInto(base, at, v[..q]) == AddedInto(base, at, v)
  {
    assert v[..q] == v;
  }

  /** Adding `a` and then `b` at the same place adds their elementwise sum. */
  lemma AddedTwice(base: seq<real>, at: nat, a: seq<real>, b: seq<real>)
    requires |a| == |b| && at + |a| <= |base|
    ensures AddedInto(AddedInto(base, at, a), at, b) == AddedInto(base, at, Plus(a, b))
  {
    var lhs, rhs := AddedInto(AddedInto(base, at, a), at, b), AddedInto(base, at, Plus(a, b));
    AddedIntoAt(base, at, a);
    AddedIntoAt(AddedInto(base, at, a), at, b);
    AddedIntoAt(base, at, Plus(a, b));
    forall j | 0 <= j < |base| ensures lhs[j] == rhs[j] {
    }
  }

  /** Adding `a` and then `b` right after it (at `next`) adds `a + b` (concatenated). */
  lemma AddedConcat(base: seq<real>, at: nat, a: seq<real>, next: nat, b: seq<real>)
    requires next == at + |a| && next + |b| <= |base|
    ensures AddedInto(AddedInto(base, at, a), next, b) == AddedInto(base, at, a + b)
  {
    var mid := AddedInto(base, at, a);
    var lhs, rhs := AddedInto(mid, next, b), AddedInto(base, at, a + b);
    AddedIntoAt(base, at, a);
    AddedIntoAt(mid, next, b);
    AddedIntoAt(base, at, a + b);
    forall j | 0 <= j < |base| ensures lhs[j] == rhs[j] {
      if j < next {
        assert lhs[j] == mid[j];
      } else if j < next + |b| {
        assert (a + b)[j - at] == b[j - next];
      }
    }
  }

  /** Adding zeros changes nothing. */
  lemma AddedZeros(base: seq<real>, at: nat, n: nat)
    requires at + n <= |base|
    ensures AddedInto(base, at, Constant(n, 0.0)) == base
  {
    var lhs := AddedInto(base, at, Constant(n, 0.0));
    AddedIntoAt(base, at, Constant(n, 0.0));
    forall j | 0 <= j < |base| ensures lhs[j] == base[j] {
    }
  }

  /** Adding `v` to zeros of its own length gives `v`. */
  lemma AddedToZeros(v: seq<real>)
    ensures AddedInto(Constant(|v|, 0.0), 0, v) == v
  {
    AddedIntoAt(Constant(|v|, 0.0), 0, v);
  }

  /** Adding one more value of `v` extends the added prefix by one. */
  lemma AddedStep(base: seq<real>, at: nat, v: seq<real>, q: nat, cur: seq<real>, val: real, after: seq<real>)
    requires q < |v| && at + |v| <= |base| && cur == AddedInto(base, at, v[..q]) && val == v[q]
    requires after == cur[at + q := cur[at + q] + val]
    ensures after == AddedInto(base, at, v[..q + 1])
  {
    var next := AddedInto(base, at, v[..q + 1]);
    AddedIntoAt(base, at, v[..q]);
    AddedIntoAt(base, at, v[..q + 1]);
    forall j | 0 <= j < |base| ensures after[j] == next[j] {
    }
  }

  /** The value of output position `outerK`: fix up `innerK` to its box start and sum the box. */
  method OutputValue(c: Conv, outerK: seq<int>, innerK: seq<int>, ip: int, fp: int,
                     innerStep: seq<int>, filterStep: seq<int>, filterTail: int)
    returns (val: real, innerK': seq<int>, ip': int, fp': int)
    requires c.WellFormed() && InBox(outerK, c.shape.outDims) && Tracks(c.shape, outerK, innerK, ip, fp)
    requires innerStep == Strides(c.shape.inDims) && filterStep == Strides(c.shape.filterDims) && filterTail == |c.filter| - 1
    ensures Tracks(c.shape, outerK, innerK', ip', fp')
    ensures 0 <= Flat(outerK, c.shape.outDims) < |Convolved(c)| && val == Convolved(c)[Flat(outerK, c.shape.outDims)]
  {
    var s := c.shape;
    innerK', ip', fp' := FixUp(s, outerK, innerK, ip, fp, innerStep, filterStep);
    ghost var lo, lens := s.Los(outerK), s.Lens(outerK);
    val, innerK', ip', fp' := AccumulateBox(c, outerK, lo, lens, innerK', ip', fp', innerStep, filterStep, filterTail);
    ConvolvedAt(c, outerK);
  }

  /** One output position (the body of the outer loop): fix up `innerK`, sum its box, add the sum at `op`. */
  method OutputStep(c: Conv, out: array<real>, outStart: nat, ghost base: seq<real>,
                    outerK: seq<int>, innerK: seq<int>, op: int, ip: int, fp: int,
                    innerStep: seq<int>, filterStep: seq<int>, filterTail: int)
    returns (innerK': seq<int>, ip': int, fp': int)
    requires c.WellFormed() && outStart + |Convolved(c)| <= |base| && out.Length == |base|
    requires InBox(outerK, c.shape.outDims) && op == Flat(outerK, c.shape.outDims) && 0 <= op < |Convolved(c)|
    requires Tracks(c.shape, outerK, innerK, ip, fp)
    requires innerStep == Strides(c.shape.inDims) && filterStep == Strides(c.shape.filterDims) && filterTail == |c.filter| - 1
    requires out[..] == AddedInto(base, outStart, Convolved(c)[..op])
    modifies out
    ensures Tracks(c.shape, outerK, innerK', ip', fp')
    ensures out[..] == AddedInto(base, outStart, Convolved(c)[..op + 1])
  {
    var val;
    val, innerK', ip', fp' := OutputValue(c, outerK, innerK, ip, fp, innerStep, filterStep, filterTail);
    AddNext(out, outStart, base, Convolved(c), op, val);
  }

  /**
   * `Tensor.convolve` with stride 1 on the flat contents: input and filter are
   * read through `c`, the output tensor is the window of `out` from `outStart`.
   * The result is ADDED to what `out` holds; nothing outside the window changes.
   */
  method Convolve(c: Conv, out: array<real>, outStart: nat)
    requires c.WellFormed() && outStart + Product(c.shape.outDims) <= out.Length
    modifies out
    ensures out[..] == AddedInto(old(out[..]), outStart, Convolved(c))
  {
    var s := c.shape;
    var n := |s.inDims|;
    var innerStep, filterStep, outerStep := StepTables(s);
    FilterTail(s.filterDims, filterStep);
    var filterTail := filterStep[n - 1] * s.filterDims[n - 1] - 1;
    var outerK, innerK, ip, fp := StartPositions(s, filterStep);
    FlatZeros(s.outDims);
    ProductPositive(s.outDims);
    OutputLoop(c, out, outStart, out[..], outerK, innerK, ip, fp, innerStep, filterStep, outerStep, filterTail);
  }

  /** The outer loop of `convolve`: one output position per pass, in row-major order, until the position wraps. */
  method OutputLoop(c: Conv, out: array<real>, outStart: nat, ghost base: seq<real>,
                    outerK0: seq<int>, innerK0: seq<int>, ip0: int, fp0: int,
                    innerStep: seq<int>, filterStep: seq<int>, outerStep: seq<int>, filterTail: int)
    requires c.WellFormed() && outStart + |Convolved(c)| <= |base| && out.Length == |base| && out[..] == base
    requires InBox(outerK0, c.shape.outDims) && Flat(outerK0, c.shape.outDims) == 0 < |Convolved(c)|
    requires Tracks(c.shape, outerK0, innerK0, ip0, fp0)
    requires innerStep == Strides(c.shape.inDims) && filterStep == Strides(c.shape.filterDims)
    requires outerStep == Strides(c.shape.outDims) && filterTail == |c.filter| - 1
    modifies out
    ensures out[..] == AddedInto(base, outStart, Convolved(c))
  {
    var s := c.shape;
    var outerK, innerK, ip, fp, op := outerK0, innerK0, ip0, fp0, 0;
    ghost var conv := Convolved(c);
    AddedNothing(base, outStart, conv);
    while true
      invariant InBox(outerK, s.outDims) && op == Flat(outerK, s.outDims) && 0 <= op < |conv|
      invariant Tracks(s, outerK, innerK, ip, fp)
      invariant out[..] == AddedInto(base, outStart, conv[..op])
      decreases |conv| - op
    {
      innerK, ip, fp := OutputStep(c, out, outStart, base, outerK, innerK, op, ip, fp, innerStep, filterStep, filterTail);
      var wrapped;
      ghost var q := op;
      outerK, op, ip, wrapped := StepOuter(s, outerK, innerK, op, ip, outerStep, innerStep);
      if wrapped {
        AddedAll(base, outStart, conv, q + 1);
        break;
      }
      FlatBounds(outerK, s.outDims);
    }
  }
}
