module Fixtures {
  import opened Indexing
  import opened Numeric
  import opened Convolution
  import opened Wrappers
  import opened Vectors

  const Wrong := "wrong"

  /** The square of the `1e-10` tolerance of the self-tests: `sqrt(d) > 1e-10` iff `d > 1e-20`. */
  const ToleranceSquared: real := 0.00000000000000000001

  /** A fresh array holding `s`. */
  method ArrayOf(s: seq<real>) returns (a: array<real>)
    ensures fresh(a) && a[..] == s
  {
    a := new real[|s|](i requires 0 <= i < |s| => s[i]);
  }

  /** The common tail of both self-tests: compare `out` with the expected values within the tolerance. */
  method CheckOutput(out: Vector, expected: seq<real>) returns (status: Outcome)
    requires out.Valid() && out.Elements() == expected
    ensures status == Pass
  {
    var e := ArrayOf(expected);
    var ev := new Vector.Wrap(e);
    assert ev.Elements() == e[..] == expected;
    var d := out.SquaredDistance(ev);
    SquaredDistSelf(expected);
    if d.Err? || d.value > ToleranceSquared {
      return Fail(Runtime(Wrong));
    }
    return Pass;
  }


  lemma Flat1(p: seq<int>, d: seq<nat>)
    requires |p| == 1 && |d| == 1
    ensures Flat(p, d) == p[0] && Product(d) == d[0]
  {
    assert Product(d[..0]) == 1;
  }

  lemma Unrank1(q: nat, d: seq<nat>)
    requires |d| == 1 && q < d[0]
    ensures Positive(d) && Unrank(q, d) == [q]
  {
    assert Product(d[..0]) == 1;
  }

  /** Filter tap `t` of a rank-one convolution at output `o`: input `o + t - pad` times filter `t` (mirrored when flipped). */
  function Tap1(input: seq<real>, filter: seq<real>, flip: bool, pad: int, o: int, t: int): real
  {
    At(input, o + t - pad) * At(filter, if flip then |filter| - 1 - t else t)
  }

  /** The taps `k .. k + n - 1` of a rank-one filter at output `o`, summed in order. */
  function Taps1(input: seq<real>, filter: seq<real>, flip: bool, pad: int, o: int, k: int, n: nat): real
  {
    if n == 0 then 0.0 else Taps1(input, filter, flip, pad, o, k, n - 1) + Tap1(input, filter, flip, pad, o, k + n - 1)
  }

  lemma Term1(c: Conv, o: seq<int>, k: seq<int>)
    requires c.shape.SameArity() && |c.shape.inDims| == 1 && |o| == 1 && |k| == 1 && |c.filter| == c.shape.filterDims[0]
    ensures Term(c, o, k) == Tap1(c.input, c.filter, c.flip, c.shape.Pad(0), o[0], k[0])
  {
    Flat1(k, c.shape.filterDims);
    Flat1(c.shape.InPos(o, k), c.shape.inDims);
  }

  /** A rank-one box step: position `r` of the box at `o` is filter coordinate `lo + r`. */
  lemma Box1(c: Conv, o: seq<int>, lo: int, r: nat)
    requires c.shape.SameArity() && |c.shape.inDims| == 1 && |o| == 1 && |c.filter| == c.shape.filterDims[0]
    requires lo == c.shape.Lo(0, o[0]) && r < c.shape.Lens(o)[0]
    ensures Positive(c.shape.Lens(o))
    ensures BoxPrefix(c, o, r + 1) == BoxPrefix(c, o, r) + Tap1(c.input, c.filter, c.flip, c.shape.Pad(0), o[0], lo + r)
  {
    var s := c.shape;
    Unrank1(r, s.Lens(o));
    assert Add(s.Los(o), Unrank(r, s.Lens(o))) == [lo + r];
    Term1(c, o, [lo + r]);
  }

  lemma {:induction false} BoxTaps1(c: Conv, o: seq<int>, lo: int, r: nat)
    requires c.shape.SameArity() && |c.shape.inDims| == 1 && |o| == 1 && |c.filter| == c.shape.filterDims[0]
    requires Positive(c.shape.Lens(o)) && lo == c.shape.Lo(0, o[0]) && r <= c.shape.Lens(o)[0]
    ensures BoxPrefix(c, o, r) == Taps1(c.input, c.filter, c.flip, c.shape.Pad(0), o[0], lo, r)
  {
    if r > 0 {
      var q := r - 1;
      BoxTaps1(c, o, lo, q);
      Box1(c, o, lo, q);
    }
  }

  /** `Lo` and the box length along one dimension, from plain integers. */
  function ClampLo(pad: int, o: int): int
  {
    pad - Min(pad, o)
  }

  function ClampLen(pad: int, f: int, n: int, o: int): nat
  {
    var lo, hi := ClampLo(pad, o), Min(f, n + pad - o);
    if hi > lo then hi - lo else 0
  }

  /** The first `m` outputs of a rank-one convolution, from its plain integer shape. */
  function Row1(input: seq<real>, filter: seq<real>, flip: bool, pad: int, n: int, m: nat): (r: seq<real>)
    ensures |r| == m
  {
    if m == 0 then []
    else
      var o := m - 1;
      Row1(input, filter, flip, pad, n, m - 1) + [Taps1(input, filter, flip, pad, o, ClampLo(pad, o), ClampLen(pad, |filter|, n, o))]
  }

  lemma {:induction false} Row1At(input: seq<real>, filter: seq<real>, flip: bool, pad: int, n: int, m: nat, o: nat)
    requires o < m
    ensures Row1(input, filter, flip, pad, n, m)[o] == Taps1(input, filter, flip, pad, o, ClampLo(pad, o), ClampLen(pad, |filter|, n, o))
  {
    if o < m - 1 {
      Row1At(input, filter, flip, pad, n, m - 1, o);
    }
  }

  /** Output entry `j` is the sum over the clamped box at the position `j` stands for. */
  lemma EntryBox(c: Conv, j: nat)
    requires c.WellFormed() && j < Product(c.shape.outDims)
    ensures Positive(c.shape.outDims) && Positive(c.shape.Lens(Unrank(j, c.shape.outDims)))
    ensures j < |Convolved(c)| &&
      Convolved(c)[j] == BoxPrefix(c, Unrank(j, c.shape.outDims), Product(c.shape.Lens(Unrank(j, c.shape.outDims))))
  {
    FlatOfUnrank(j, c.shape.outDims);
    LensPositive(c.shape, Unrank(j, c.shape.outDims));
  }

  /** `Lo` and `Lens` of a shape agree with the plain integer ones along dimension `i`. */
  lemma Clamps(s: Shape, o: seq<int>, i: nat)
    requires s.SameArity() && |o| == |s.inDims| && i < |o|
    ensures s.Lo(i, o[i]) == ClampLo(s.Pad(i), o[i])
    ensures s.Lens(o)[i] == ClampLen(s.Pad(i), s.filterDims[i], s.inDims[i], o[i])
  {
  }

  /** The whole rank-one box at output `j` in terms of plain integers. */
  lemma WholeBox1(c: Conv, j: int)
    requires c.shape.SameArity() && |c.shape.inDims| == 1 && |c.filter| == c.shape.filterDims[0] && Positive(c.shape.Lens([j]))
    ensures var s := c.shape; var pad := s.Pad(0);
      BoxPrefix(c, [j], s.Lens([j])[0]) == Taps1(c.input, c.filter, c.flip, pad, j, ClampLo(pad, j), ClampLen(pad, |c.filter|, s.inDims[0], j))
  {
    Clamps(c.shape, [j], 0);
    BoxTaps1(c, [j], c.shape.Lo(0, j), c.shape.Lens([j])[0]);
  }

  /** A rank-one output entry is the sum of its taps. */
  lemma Entry1(c: Conv, j: nat)
    requires c.WellFormed() && |c.shape.inDims| == 1 && j < c.shape.outDims[0]
    ensures j < |Convolved(c)|
    ensures var s := c.shape; var pad := s.Pad(0);
      Convolved(c)[j] == Taps1(c.input, c.filter, c.flip, pad, j, ClampLo(pad, j), ClampLen(pad, |c.filter|, s.inDims[0], j))
  {
    var s := c.shape;
    Flat1([j], s.outDims);
    Unrank1(j, s.outDims);
    EntryBox(c, j);
    Flat1([j], s.Lens([j]));
    Flat1([0], s.filterDims);
    WholeBox1(c, j);
  }

  /** A rank-one convolution is the row of tap sums. */
  lemma Convolved1(c: Conv)
    requires c.WellFormed() && |c.shape.inDims| == 1
    ensures Convolved(c) == Row1(c.input, c.filter, c.flip, c.shape.Pad(0), c.shape.inDims[0], c.shape.outDims[0])
  {
    var s := c.shape;
    Flat1([0], s.outDims);
    var row := Row1(c.input, c.filter, c.flip, s.Pad(0), s.inDims[0], s.outDims[0]);
    forall j | 0 <= j < |row| ensures Convolved(c)[j] == row[j] {
      Entry1(c, j);
      Row1At(c.input, c.filter, c.flip, s.Pad(0), s.inDims[0], s.outDims[0], j);
    }
  }

  lemma Flat2(p: seq<int>, d: seq<nat>)
    requires |p| == 2 && |d| == 2
    ensures Flat(p, d) == p[0] + p[1] * d[0] && Product(d) == d[0] * d[1]
  {
    Flat1(p[..1], d[..1]);
  }

  lemma Unrank2(q: nat, d: seq<nat>)
    requires |d| == 2 && d[0] >= 1 && d[1] >= 1
    ensures Positive(d) && Unrank(q, d) == [q % d[0], q / d[0]]
  {
    Unrank1(q % d[0], d[..1]);
  }

  /** Filter tap `(t0, t1)` of a rank-two convolution at output `(o0, o1)`. */
  function Tap2(input: seq<real>, filter: seq<real>, flip: bool, s: Shape, o0: int, o1: int, t0: int, t1: int): real
    requires s.SameArity() && |s.inDims| == 2
  {
    var f := t0 + t1 * s.filterDims[0];
    At(input, (o0 + t0 - s.Pad(0)) + (o1 + t1 - s.Pad(1)) * s.inDims[0]) * At(filter, if flip then |filter| - 1 - f else f)
  }

  /** Taps `(lo0 .. lo0 + n - 1, t1)`: part of one row of the box, summed in order. */
  function Cols2(input: seq<real>, filter: seq<real>, flip: bool, s: Shape, o0: int, o1: int, lo0: int, t1: int, n: nat): real
    requires s.SameArity() && |s.inDims| == 2
  {
    if n == 0 then 0.0 else Cols2(input, filter, flip, s, o0, o1, lo0, t1, n - 1) + Tap2(input, filter, flip, s, o0, o1, lo0 + n - 1, t1)
  }

  /** Rows `lo1 .. lo1 + n - 1` of a box of width `l0` whose corner is `(lo0, lo1)`. */
  function Rows2(input: seq<real>, filter: seq<real>, flip: bool, s: Shape, o0: int, o1: int, lo0: int, lo1: int, l0: nat, n: nat): real
    requires s.SameArity() && |s.inDims| == 2
  {
    if n == 0 then 0.0 else Rows2(input, filter, flip, s, o0, o1, lo0, lo1, l0, n - 1) + Cols2(input, filter, flip, s, o0, o1, lo0, lo1 + n - 1, l0)
  }

  lemma Term2(c: Conv, o: seq<int>, k: seq<int>)
    requires c.shape.SameArity() && |c.shape.inDims| == 2 && |o| == 2 && |k| == 2 && |c.filter| == Product(c.shape.filterDims)
    ensures Term(c, o, k) == Tap2(c.input, c.filter, c.flip, c.shape, o[0], o[1], k[0], k[1])
  {
    Flat2(k, c.shape.filterDims);
    Flat2(c.shape.InPos(o, k), c.shape.inDims);
  }

  /** A rank-two box step: position `r - 1` of a box of width `l0` is filter coordinate `(lo0 + (r - 1) % l0, lo1 + (r - 1) / l0)`. */
  lemma Box2(c: Conv, o: seq<int>, lo0: int, lo1: int, l0: nat, r: nat)
    requires c.shape.SameArity() && |c.shape.inDims| == 2 && |o| == 2 && |c.filter| == Product(c.shape.filterDims)
    requires Positive(c.shape.Lens(o)) && lo0 == c.shape.Lo(0, o[0]) && lo1 == c.shape.Lo(1, o[1]) && l0 == c.shape.Lens(o)[0]
    requires r >= 1
    ensures l0 >= 1
    ensures BoxPrefix(c, o, r) ==
      BoxPrefix(c, o, r - 1) + Tap2(c.input, c.filter, c.flip, c.shape, o[0], o[1], lo0 + (r - 1) % l0, lo1 + (r - 1) / l0)
  {
    var s := c.shape;
    assert s.Lens(o)[0] >= 1;
    Unrank2(r - 1, s.Lens(o));
    var k := [lo0 + (r - 1) % l0, lo1 + (r - 1) / l0];
    assert Add(s.Los(o), Unrank(r - 1, s.Lens(o))) == k;
    Term2(c, o, k);
  }

  /** The first `r` taps of a box of width `l0` whose corner is `(lo0, lo1)`, row by row. */
  function Lin2(input: seq<real>, filter: seq<real>, flip: bool, s: Shape, o0: int, o1: int, lo0: int, lo1: int, l0: nat, r: nat): real
    requires s.SameArity() && |s.inDims| == 2 && l0 >= 1
  {
    if r == 0 then 0.0
    else Lin2(input, filter, flip, s, o0, o1, lo0, lo1, l0, r - 1) + Tap2(input, filter, flip, s, o0, o1, lo0 + (r - 1) % l0, lo1 + (r - 1) / l0)
  }

  /** The box prefix of length `r` is the first `r` taps in row order. */
  lemma {:induction false} BoxLin2(c: Conv, o: seq<int>, lo0: int, lo1: int, l0: nat, r: nat)
    requires c.shape.SameArity() && |c.shape.inDims| == 2 && |o| == 2 && |c.filter| == Product(c.shape.filterDims)
    requires Positive(c.shape.Lens(o)) && lo0 == c.shape.Lo(0, o[0]) && lo1 == c.shape.Lo(1, o[1]) && l0 == c.shape.Lens(o)[0]
    ensures l0 >= 1 && BoxPrefix(c, o, r) == Lin2(c.input, c.filter, c.flip, c.shape, o[0], o[1], lo0, lo1, l0, r)
  {
    assert c.shape.Lens(o)[0] >= 1;
    if r > 0 {
      BoxLin2(c, o, lo0, lo1, l0, r - 1);
      BoxLinStep(c, o, lo0, lo1, l0, r);
    }
  }

  /** If the box prefix of length `r - 1` is the first `r - 1` taps in row order, the one of length `r` is the first `r`. */
  lemma BoxLinStep(c: Conv, o: seq<int>, lo0: int, lo1: int, l0: nat, r: nat)
    requires c.shape.SameArity() && |c.shape.inDims| == 2 && |o| == 2 && |c.filter| == Product(c.shape.filterDims)
    requires Positive(c.shape.Lens(o)) && lo0 == c.shape.Lo(0, o[0]) && lo1 == c.shape.Lo(1, o[1]) && l0 == c.shape.Lens(o)[0]
    requires r >= 1 && l0 >= 1
    requires BoxPrefix(c, o, r - 1) == Lin2(c.input, c.filter, c.flip, c.shape, o[0], o[1], lo0, lo1, l0, r - 1)
    ensures BoxPrefix(c, o, r) == Lin2(c.input, c.filter, c.flip, c.shape, o[0], o[1], lo0, lo1, l0, r)
  {
    Box2(c, o, lo0, lo1, l0, r);
    LinStep(c.input, c.filter, c.flip, c.shape, o[0], o[1], lo0, lo1, l0, r, BoxPrefix(c, o, r - 1), BoxPrefix(c, o, r));
  }

  /** One more tap: a running sum equal to the first `r - 1` taps, plus tap `r - 1`, is the first `r` taps. */
  lemma LinStep(input: seq<real>, filter: seq<real>, flip: bool, s: Shape, o0: int, o1: int, lo0: int, lo1: int, l0: nat, r: nat,
                prev: real, next: real)
    requires s.SameArity() && |s.inDims| == 2 && l0 >= 1 && r >= 1
    requires prev == Lin2(input, filter, flip, s, o0, o1, lo0, lo1, l0, r - 1)
    requires next == prev + Tap2(input, filter, flip, s, o0, o1, lo0 + (r - 1) % l0, lo1 + (r - 1) / l0)
    ensures next == Lin2(input, filter, flip, s, o0, o1, lo0, lo1, l0, r)
  {
  }

  /** `x = a + b * m` with `0 <= a < m` splits into quotient `b` and remainder `a`. */
  lemma DivModAt(x: int, a: int, b: int, m: int)
    requires 0 <= a < m && b >= 0 && x == a + b * m
    ensures x / m == b && x % m == a
  {
    DivModUnique(a, b, m);
  }

  lemma MulPred(n: nat, m: nat)
    requires n >= 1
    ensures n * m == m + (n - 1) * m
  {
  }

  /** The first `r = t0 + n1 * l0` taps are the first `n1` rows and `t0` taps of the next. */
  lemma {:induction false} LinRows2(input: seq<real>, filter: seq<real>, flip: bool, s: Shape, o0: int, o1: int,
                                    lo0: int, lo1: int, l0: nat, n1: nat, t0: nat, r: nat)
    requires s.SameArity() && |s.inDims| == 2 && l0 >= 1
    requires t0 <= l0 && r == t0 + n1 * l0
    ensures Lin2(input, filter, flip, s, o0, o1, lo0, lo1, l0, r) ==
      Rows2(input, filter, flip, s, o0, o1, lo0, lo1, l0, n1) + Cols2(input, filter, flip, s, o0, o1, lo0, lo1 + n1, t0)
    decreases n1, t0
  {
    if t0 > 0 {
      LinRows2(input, filter, flip, s, o0, o1, lo0, lo1, l0, n1, t0 - 1, r - 1);
      DivModAt(r - 1, t0 - 1, n1, l0);
      ColsStep(input, filter, flip, s, o0, o1, lo0, lo1, l0, n1, t0, (r - 1) % l0, (r - 1) / l0,
        Lin2(input, filter, flip, s, o0, o1, lo0, lo1, l0, r - 1), Lin2(input, filter, flip, s, o0, o1, lo0, lo1, l0, r));
    } else if n1 > 0 {
      MulPred(n1, l0);
      LinRows2(input, filter, flip, s, o0, o1, lo0, lo1, l0, n1 - 1, l0, r);
      RowsStep(input, filter, flip, s, o0, o1, lo0, lo1, l0, n1, t0, Lin2(input, filter, flip, s, o0, o1, lo0, lo1, l0, r));
    } else {
      NoRows(input, filter, flip, s, o0, o1, lo0, lo1, l0, n1, t0);
    }
  }

  /** One more tap in row `n1`: a running sum `prev` of `n1` rows and `t0 - 1` taps, plus tap `(a, b) = (t0 - 1, n1)`. */
  lemma ColsStep(input: seq<real>, filter: seq<real>, flip: bool, s: Shape, o0: int, o1: int, lo0: int, lo1: int, l0: nat,
                 n1: nat, t0: nat, a: int, b: int, prev: real, next: real)
    requires s.SameArity() && |s.inDims| == 2 && t0 >= 1 && a == t0 - 1 && b == n1
    requires prev == Rows2(input, filter, flip, s, o0, o1, lo0, lo1, l0, n1) + Cols2(input, filter, flip, s, o0, o1, lo0, lo1 + n1, t0 - 1)
    requires next == prev + Tap2(input, filter, flip, s, o0, o1, lo0 + a, lo1 + b)
    ensures next == Rows2(input, filter, flip, s, o0, o1, lo0, lo1, l0, n1) + Cols2(input, filter, flip, s, o0, o1, lo0, lo1 + n1, t0)
  {
  }

  /** A whole row of `l0` taps closes row `n1 - 1`; no tap of row `n1` is taken yet. */
  lemma RowsStep(input: seq<real>, filter: seq<real>, flip: bool, s: Shape, o0: int, o1: int, lo0: int, lo1: int, l0: nat,
                 n1: nat, t0: nat, v: real)
    requires s.SameArity() && |s.inDims| == 2 && n1 >= 1 && t0 == 0
    requires v == Rows2(input, filter, flip, s, o0, o1, lo0, lo1, l0, n1 - 1) + Cols2(input, filter, flip, s, o0, o1, lo0, lo1 + (n1 - 1), l0)
    ensures v == Rows2(input, filter, flip, s, o0, o1, lo0, lo1, l0, n1) + Cols2(input, filter, flip, s, o0, o1, lo0, lo1 + n1, t0)
  {
  }

  lemma NoRows(input: seq<real>, filter: seq<real>, flip: bool, s: Shape, o0: int, o1: int, lo0: int, lo1: int, l0: nat,
               n1: nat, t0: nat)
    requires s.SameArity() && |s.inDims| == 2 && n1 == 0 && t0 == 0
    ensures Rows2(input, filter, flip, s, o0, o1, lo0, lo1, l0, n1) + Cols2(input, filter, flip, s, o0, o1, lo0, lo1 + n1, t0) == 0.0
  {
  }

  /** The box prefix of length `r`, which ends `t0` taps into row `n1`, is the first `n1` rows and part of the next. */
  lemma BoxRows2(c: Conv, o: seq<int>, lo0: int, lo1: int, l0: nat, n1: nat, t0: nat, r: nat)
    requires c.shape.SameArity() && |c.shape.inDims| == 2 && |o| == 2 && |c.filter| == Product(c.shape.filterDims)
    requires Positive(c.shape.Lens(o)) && lo0 == c.shape.Lo(0, o[0]) && lo1 == c.shape.Lo(1, o[1]) && l0 == c.shape.Lens(o)[0]
    requires t0 <= l0 && r == t0 + n1 * l0
    ensures BoxPrefix(c, o, r) ==
      Rows2(c.input, c.filter, c.flip, c.shape, o[0], o[1], lo0, lo1, l0, n1) + Cols2(c.input, c.filter, c.flip, c.shape, o[0], o[1], lo0, lo1 + n1, t0)
  {
    BoxLin2(c, o, lo0, lo1, l0, r);
    LinRows2(c.input, c.filter, c.flip, c.shape, o[0], o[1], lo0, lo1, l0, n1, t0, r);
  }

  /** Output `j` of a rank-two convolution, from its shape, as a sum of rows of taps. */
  function GridEntry2(input: seq<real>, filter: seq<real>, flip: bool, s: Shape, j: nat): real
    requires s.SameArity() && |s.inDims| == 2 && s.outDims[0] >= 1
  {
    var m0 := s.outDims[0];
    var o0, o1 := j % m0, j / m0;
    var p0, p1 := s.Pad(0), s.Pad(1);
    Rows2(input, filter, flip, s, o0, o1, ClampLo(p0, o0), ClampLo(p1, o1),
      ClampLen(p0, s.filterDims[0], s.inDims[0], o0), ClampLen(p1, s.filterDims[1], s.inDims[1], o1))
  }

  /** The whole rank-two box at output `(o0, o1)` in terms of plain integers. */
  lemma WholeBox2(c: Conv, o0: int, o1: int)
    requires c.shape.SameArity() && |c.shape.inDims| == 2 && |c.filter| == Product(c.shape.filterDims)
    requires Positive(c.shape.Lens([o0, o1]))
    ensures var s := c.shape; var p0, p1 := s.Pad(0), s.Pad(1);
      BoxPrefix(c, [o0, o1], s.Lens([o0, o1])[0] * s.Lens([o0, o1])[1]) ==
      Rows2(c.input, c.filter, c.flip, s, o0, o1, ClampLo(p0, o0), ClampLo(p1, o1),
        ClampLen(p0, s.filterDims[0], s.inDims[0], o0), ClampLen(p1, s.filterDims[1], s.inDims[1], o1))
  {
    var s, o := c.shape, [o0, o1];
    Clamps(s, o, 0);
    Clamps(s, o, 1);
    var l0, l1 := s.Lens(o)[0], s.Lens(o)[1];
    BoxRows2(c, o, s.Lo(0, o0), s.Lo(1, o1), l0, l1, 0, l0 * l1);
  }

  /** A rank-two output entry is the sum of its taps. */
  lemma Entry2(c: Conv, j: nat)
    requires c.WellFormed() && |c.shape.inDims| == 2 && j < Product(c.shape.outDims)
    ensures j < |Convolved(c)| && c.shape.outDims[0] >= 1
    ensures Convolved(c)[j] == GridEntry2(c.input, c.filter, c.flip, c.shape, j)
  {
    var s := c.shape;
    var m0 := s.outDims[0];
    Flat2([0, 0], s.outDims);
    Unrank2(j, s.outDims);
    EntryBox(c, j);
    Flat2([0, 0], s.Lens([j % m0, j / m0]));
    WholeBox2(c, j % m0, j / m0);
  }

  /** `test1D`: a length-5 signal against a flipped length-3 kernel, full output of length 7. */
  lemma OneDFixture(input: seq<real>, filter: seq<real>)
    requires input == [2.0, 3.0, 1.0, 0.0, 1.0] && filter == [1.0, 0.0, 2.0]
    ensures var c := Conv(Shape([5], [3], [7]), input, filter, true);
      c.WellFormed() && Convolved(c) == [2.0, 3.0, 5.0, 6.0, 3.0, 0.0, 2.0]
  {
    var c := Conv(Shape([5], [3], [7]), input, filter, true);
    assert c.shape.Pad(0) == 2;
    assert c.WellFormed();
    Convolved1(c);
    OneDRow(input, filter);
  }

  /** Three taps written out, so no unfolding of `Taps1` is left to the solver. */
  lemma Taps1Three(input: seq<real>, filter: seq<real>, flip: bool, pad: int, o: int, k: int)
    ensures Taps1(input, filter, flip, pad, o, k, 1) == Tap1(input, filter, flip, pad, o, k)
    ensures Taps1(input, filter, flip, pad, o, k, 2) == Tap1(input, filter, flip, pad, o, k) + Tap1(input, filter, flip, pad, o, k + 1)
    ensures Taps1(input, filter, flip, pad, o, k, 3) ==
      Tap1(input, filter, flip, pad, o, k) + Tap1(input, filter, flip, pad, o, k + 1) + Tap1(input, filter, flip, pad, o, k + 2)
  {
    assert Taps1(input, filter, flip, pad, o, k, 1) == Tap1(input, filter, flip, pad, o, k);
    assert Taps1(input, filter, flip, pad, o, k, 2) == Taps1(input, filter, flip, pad, o, k, 1) + Tap1(input, filter, flip, pad, o, k + 1);
  }

  lemma OneDRow(input: seq<real>, filter: seq<real>)
    requires input == [2.0, 3.0, 1.0, 0.0, 1.0] && filter == [1.0, 0.0, 2.0]
    ensures Row1(input, filter, true, 2, 5, 7) == [2.0, 3.0, 5.0, 6.0, 3.0, 0.0, 2.0]
  {
    var r := Row1(input, filter, true, 2, 5, 7);
    var e := [2.0, 3.0, 5.0, 6.0, 3.0, 0.0, 2.0];
    forall o | 0 <= o < 7 ensures r[o] == e[o] {
      Row1At(input, filter, true, 2, 5, 7, o);
      Taps1Three(input, filter, true, 2, o, ClampLo(2, o));
    }
  }

  /** Up to three rows written out, so no unfolding of `Rows2` is left to the solver. */
  lemma Rows2Three(input: seq<real>, filter: seq<real>, flip: bool, s: Shape, o0: int, o1: int, lo0: int, lo1: int, l0: nat)
    requires s.SameArity() && |s.inDims| == 2
    ensures Rows2(input, filter, flip, s, o0, o1, lo0, lo1, l0, 2) == Cols2(input, filter, flip, s, o0, o1, lo0, lo1 + 0, l0) + Cols2(input, filter, flip, s, o0, o1, lo0, lo1 + 1, l0)
    ensures Rows2(input, filter, flip, s, o0, o1, lo0, lo1, l0, 3) == Cols2(input, filter, flip, s, o0, o1, lo0, lo1 + 0, l0) + Cols2(input, filter, flip, s, o0, o1, lo0, lo1 + 1, l0) + Cols2(input, filter, flip, s, o0, o1, lo0, lo1 + 2, l0)
  {
    assert Rows2(input, filter, flip, s, o0, o1, lo0, lo1, l0, 1) == Cols2(input, filter, flip, s, o0, o1, lo0, lo1 + 0, l0);
  }

  /** `test2D`: a 3x3 image against an unflipped 3x3 edge kernel, output of the same shape. */
  lemma TwoDFixture(input: seq<real>, filter: seq<real>)
    requires input == [1.0, 2.0, 3.0, 4.0, 5.0, 6.0, 7.0, 8.0, 9.0]
    requires filter == [1.0, 2.0, 1.0, 0.0, 0.0, 0.0, -1.0, -2.0, -1.0]
    ensures var c := Conv(Square3, input, filter, false);
      c.WellFormed() && Convolved(c) == [-13.0, -20.0, -17.0, -18.0, -24.0, -18.0, 13.0, 20.0, 17.0]
  {
    var c := Conv(Square3, input, filter, false);
    assert c.shape.Pad(0) == 1 && c.shape.Pad(1) == 1;
    assert c.WellFormed();
    TwoDConvolved(c);
  }

  /** The shape of `test2D`: input, filter and output all 3x3. */
  const Square3 := Shape([3, 3], [3, 3], [3, 3])

  /** A tap of `test2D` reads input `(o + t - 1)` against filter `t`, padding one on each side. */
  lemma Square3Tap(input: seq<real>, filter: seq<real>, o0: int, o1: int, t0: int, t1: int)
    ensures Square3.SameArity() && |Square3.inDims| == 2
    ensures Tap2(input, filter, false, Square3, o0, o1, t0, t1) == At(input, (o0 + t0 - 1) + (o1 + t1 - 1) * 3) * At(filter, t0 + t1 * 3)
  {
    assert Square3.Pad(0) == 1 && Square3.Pad(1) == 1;
  }

  /** Two or three taps of a row of `test2D`, each written as the product it reads. */
  lemma Cols2Sq(input: seq<real>, filter: seq<real>, o0: int, o1: int, lo0: int, t1: int)
    ensures Square3.SameArity() && |Square3.inDims| == 2
    ensures Cols2(input, filter, false, Square3, o0, o1, lo0, t1, 2) ==
      At(input, (o0 + lo0 - 1) + (o1 + t1 - 1) * 3) * At(filter, lo0 + t1 * 3) +
      At(input, (o0 + (lo0 + 1) - 1) + (o1 + t1 - 1) * 3) * At(filter, (lo0 + 1) + t1 * 3)
    ensures Cols2(input, filter, false, Square3, o0, o1, lo0, t1, 3) ==
      Cols2(input, filter, false, Square3, o0, o1, lo0, t1, 2) +
      At(input, (o0 + (lo0 + 2) - 1) + (o1 + t1 - 1) * 3) * At(filter, (lo0 + 2) + t1 * 3)
  {
    Square3Tap(input, filter, o0, o1, lo0 + 0, t1);
    Square3Tap(input, filter, o0, o1, lo0 + 1, t1);
    Square3Tap(input, filter, o0, o1, lo0 + 2, t1);
    assert Cols2(input, filter, false, Square3, o0, o1, lo0, t1, 1) == Tap2(input, filter, false, Square3, o0, o1, lo0 + 0, t1);
  }

  /** Output `j` of `test2D` is the rows of taps of its clamped box, whatever the data. */
  lemma GridEntrySq(input: seq<real>, filter: seq<real>, j: nat, o0: int, o1: int, lo0: int, lo1: int, l0: nat, l1: nat)
    requires 0 <= o0 < 3 && 0 <= o1 < 3 && j == o0 + o1 * 3
    requires lo0 == (if o0 == 0 then 1 else 0) && lo1 == (if o1 == 0 then 1 else 0)
    requires l0 == (if o0 == 1 then 3 else 2) && l1 == (if o1 == 1 then 3 else 2)
    ensures GridEntry2(input, filter, false, Square3, j) == Rows2(input, filter, false, Square3, o0, o1, lo0, lo1, l0, l1)
  {
    assert Square3.Pad(0) == 1 && Square3.Pad(1) == 1;
    DivModAt(j, o0, o1, 3);
    ClampSq(o0);
    ClampSq(o1);
  }

  /** With padding one on a side of three, the box starts at 1 on the first row and is full on the middle one. */
  lemma ClampSq(o: int)
    requires 0 <= o < 3
    ensures ClampLo(1, o) == (if o == 0 then 1 else 0) && ClampLen(1, 3, 3, o) == (if o == 1 then 3 else 2)
  {
  }

  /** The rows of `test2D`'s clamped box at output `(0, 0)`, each summed. */
  lemma TwoDRows0(input: seq<real>, filter: seq<real>)
    requires input == [1.0, 2.0, 3.0, 4.0, 5.0, 6.0, 7.0, 8.0, 9.0]
    requires filter == [1.0, 2.0, 1.0, 0.0, 0.0, 0.0, -1.0, -2.0, -1.0]
    ensures Cols2(input, filter, false, Square3, 0, 0, 1, 1, 2) == 0.0
    ensures Cols2(input, filter, false, Square3, 0, 0, 1, 2, 2) == -13.0
  {
    Cols2Sq(input, filter, 0, 0, 1, 1);
    Cols2Sq(input, filter, 0, 0, 1, 2);
  }

  /** Output `(0, 0)` of `test2D`'s shape is the sum of its box's rows, whatever the data. */
  lemma TwoDSplit0(input: seq<real>, filter: seq<real>)
    ensures GridEntry2(input, filter, false, Square3, 0) == Cols2(input, filter, false, Square3, 0, 0, 1, 1, 2) + Cols2(input, filter, false, Square3, 0, 0, 1, 2, 2)
  {
    GridEntrySq(input, filter, 0, 0, 0, 1, 1, 2, 2);
    Rows2Three(input, filter, false, Square3, 0, 0, 1, 1, 2);
  }

  /** `test2D` at output `(0, 0)`. */
  lemma TwoDOut0(input: seq<real>, filter: seq<real>)
    requires input == [1.0, 2.0, 3.0, 4.0, 5.0, 6.0, 7.0, 8.0, 9.0]
    requires filter == [1.0, 2.0, 1.0, 0.0, 0.0, 0.0, -1.0, -2.0, -1.0]
    ensures GridEntry2(input, filter, false, Square3, 0) == -13.0
  {
    TwoDSplit0(input, filter);
    TwoDRows0(input, filter);
  }

  /** The rows of `test2D`'s clamped box at output `(1, 0)`, each summed. */
  lemma TwoDRows1(input: seq<real>, filter: seq<real>)
    requires input == [1.0, 2.0, 3.0, 4.0, 5.0, 6.0, 7.0, 8.0, 9.0]
    requires filter == [1.0, 2.0, 1.0, 0.0, 0.0, 0.0, -1.0, -2.0, -1.0]
    ensures Cols2(input, filter, false, Square3, 1, 0, 0, 1, 3) == 0.0
    ensures Cols2(input, filter, false, Square3, 1, 0, 0, 2, 3) == -20.0
  {
    Cols2Sq(input, filter, 1, 0, 0, 1);
    Cols2Sq(input, filter, 1, 0, 0, 2);
  }

  /** Output `(1, 0)` of `test2D`'s shape is the sum of its box's rows, whatever the data. */
  lemma TwoDSplit1(input: seq<real>, filter: seq<real>)
    ensures GridEntry2(input, filter, false, Square3, 1) == Cols2(input, filter, false, Square3, 1, 0, 0, 1, 3) + Cols2(input, filter, false, Square3, 1, 0, 0, 2, 3)
  {
    GridEntrySq(input, filter, 1, 1, 0, 0, 1, 3, 2);
    Rows2Three(input, filter, false, Square3, 1, 0, 0, 1, 3);
  }

  /** `test2D` at output `(1, 0)`. */
  lemma TwoDOut1(input: seq<real>, filter: seq<real>)
    requires input == [1.0, 2.0, 3.0, 4.0, 5.0, 6.0, 7.0, 8.0, 9.0]
    requires filter == [1.0, 2.0, 1.0, 0.0, 0.0, 0.0, -1.0, -2.0, -1.0]
    ensures GridEntry2(input, filter, false, Square3, 1) == -20.0
  {
    TwoDSplit1(input, filter);
    TwoDRows1(input, filter);
  }

  /** The rows of `test2D`'s clamped box at output `(2, 0)`, each summed. */
  lemma TwoDRows2(input: seq<real>, filter: seq<real>)
    requires input == [1.0, 2.0, 3.0, 4.0, 5.0, 6.0, 7.0, 8.0, 9.0]
    requires filter == [1.0, 2.0, 1.0, 0.0, 0.0, 0.0, -1.0, -2.0, -1.0]
    ensures Cols2(input, filter, false, Square3, 2, 0, 0, 1, 2) == 0.0
    ensures Cols2(input, filter, false, Square3, 2, 0, 0, 2, 2) == -17.0
  {
    Cols2Sq(input, filter, 2, 0, 0, 1);
    Cols2Sq(input, filter, 2, 0, 0, 2);
  }

  /** Output `(2, 0)` of `test2D`'s shape is the sum of its box's rows, whatever the data. */
  lemma TwoDSplit2(input: seq<real>, filter: seq<real>)
    ensures GridEntry2(input, filter, false, Square3, 2) == Cols2(input, filter, false, Square3, 2, 0, 0, 1, 2) + Cols2(input, filter, false, Square3, 2, 0, 0, 2, 2)
  {
    GridEntrySq(input, filter, 2, 2, 0, 0, 1, 2, 2);
    Rows2Three(input, filter, false, Square3, 2, 0, 0, 1, 2);
  }

  /** `test2D` at output `(2, 0)`. */
  lemma TwoDOut2(input: seq<real>, filter: seq<real>)
    requires input == [1.0, 2.0, 3.0, 4.0, 5.0, 6.0, 7.0, 8.0, 9.0]
    requires filter == [1.0, 2.0, 1.0, 0.0, 0.0, 0.0, -1.0, -2.0, -1.0]
    ensures GridEntry2(input, filter, false, Square3, 2) == -17.0
  {
    TwoDSplit2(input, filter);
    TwoDRows2(input, filter);
  }

  /** The rows of `test2D`'s clamped box at output `(0, 1)`, each summed. */
  lemma TwoDRows3(input: seq<real>, filter: seq<real>)
    requires input == [1.0, 2.0, 3.0, 4.0, 5.0, 6.0, 7.0, 8.0, 9.0]
    requires filter == [1.0, 2.0, 1.0, 0.0, 0.0, 0.0, -1.0, -2.0, -1.0]
    ensures Cols2(input, filter, false, Square3, 0, 1, 1, 0, 2) == 4.0
    ensures Cols2(input, filter, false, Square3, 0, 1, 1, 1, 2) == 0.0
    ensures Cols2(input, filter, false, Square3, 0, 1, 1, 2, 2) == -22.0
  {
    Cols2Sq(input, filter, 0, 1, 1, 0);
    Cols2Sq(input, filter, 0, 1, 1, 1);
    Cols2Sq(input, filter, 0, 1, 1, 2);
  }

  /** Output `(0, 1)` of `test2D`'s shape is the sum of its box's rows, whatever the data. */
  lemma TwoDSplit3(input: seq<real>, filter: seq<real>)
    ensures GridEntry2(input, filter, false, Square3, 3) == Cols2(input, filter, false, Square3, 0, 1, 1, 0, 2) + Cols2(input, filter, false, Square3, 0, 1, 1, 1, 2) + Cols2(input, filter, false, Square3, 0, 1, 1, 2, 2)
  {
    GridEntrySq(input, filter, 3, 0, 1, 1, 0, 2, 3);
    Rows2Three(input, filter, false, Square3, 0, 1, 1, 0, 2);
  }

  /** `test2D` at output `(0, 1)`. */
  lemma TwoDOut3(input: seq<real>, filter: seq<real>)
    requires input == [1.0, 2.0, 3.0, 4.0, 5.0, 6.0, 7.0, 8.0, 9.0]
    requires filter == [1.0, 2.0, 1.0, 0.0, 0.0, 0.0, -1.0, -2.0, -1.0]
    ensures GridEntry2(input, filter, false, Square3, 3) == -18.0
  {
    TwoDSplit3(input, filter);
    TwoDRows3(input, filter);
  }

  /** The rows of `test2D`'s clamped box at output `(1, 1)`, each summed. */
  lemma TwoDRows4(input: seq<real>, filter: seq<real>)
    requires input == [1.0, 2.0, 3.0, 4.0, 5.0, 6.0, 7.0, 8.0, 9.0]
    requires filter == [1.0, 2.0, 1.0, 0.0, 0.0, 0.0, -1.0, -2.0, -1.0]
    ensures Cols2(input, filter, false, Square3, 1, 1, 0, 0, 3) == 8.0
    ensures Cols2(input, filter, false, Square3, 1, 1, 0, 1, 3) == 0.0
    ensures Cols2(input, filter, false, Square3, 1, 1, 0, 2, 3) == -32.0
  {
    Cols2Sq(input, filter, 1, 1, 0, 0);
    Cols2Sq(input, filter, 1, 1, 0, 1);
    Cols2Sq(input, filter, 1, 1, 0, 2);
  }

  /** Output `(1, 1)` of `test2D`'s shape is the sum of its box's rows, whatever the data. */
  lemma TwoDSplit4(input: seq<real>, filter: seq<real>)
    ensures GridEntry2(input, filter, false, Square3, 4) == Cols2(input, filter, false, Square3, 1, 1, 0, 0, 3) + Cols2(input, filter, false, Square3, 1, 1, 0, 1, 3) + Cols2(input, filter, false, Square3, 1, 1, 0, 2, 3)
  {
    GridEntrySq(input, filter, 4, 1, 1, 0, 0, 3, 3);
    Rows2Three(input, filter, false, Square3, 1, 1, 0, 0, 3);
  }

  /** `test2D` at output `(1, 1)`. */
  lemma TwoDOut4(input: seq<real>, filter: seq<real>)
    requires input == [1.0, 2.0, 3.0, 4.0, 5.0, 6.0, 7.0, 8.0, 9.0]
    requires filter == [1.0, 2.0, 1.0, 0.0, 0.0, 0.0, -1.0, -2.0, -1.0]
    ensures GridEntry2(input, filter, false, Square3, 4) == -24.0
  {
    TwoDSplit4(input, filter);
    TwoDRows4(input, filter);
  }

  /** The rows of `test2D`'s clamped box at output `(2, 1)`, each summed. */
  lemma TwoDRows5(input: seq<real>, filter: seq<real>)
    requires input == [1.0, 2.0, 3.0, 4.0, 5.0, 6.0, 7.0, 8.0, 9.0]
    requires filter == [1.0, 2.0, 1.0, 0.0, 0.0, 0.0, -1.0, -2.0, -1.0]
    ensures Cols2(input, filter, false, Square3, 2, 1, 0, 0, 2) == 8.0
    ensures Cols2(input, filter, false, Square3, 2, 1, 0, 1, 2) == 0.0
    ensures Cols2(input, filter, false, Square3, 2, 1, 0, 2, 2) == -26.0
  {
    Cols2Sq(input, filter, 2, 1, 0, 0);
    Cols2Sq(input, filter, 2, 1, 0, 1);
    Cols2Sq(input, filter, 2, 1, 0, 2);
  }

  /** Output `(2, 1)` of `test2D`'s shape is the sum of its box's rows, whatever the data. */
  lemma TwoDSplit5(input: seq<real>, filter: seq<real>)
    ensures GridEntry2(input, filter, false, Square3, 5) == Cols2(input, filter, false, Square3, 2, 1, 0, 0, 2) + Cols2(input, filter, false, Square3, 2, 1, 0, 1, 2) + Cols2(input, filter, false, Square3, 2, 1, 0, 2, 2)
  {
    GridEntrySq(input, filter, 5, 2, 1, 0, 0, 2, 3);
    Rows2Three(input, filter, false, Square3, 2, 1, 0, 0, 2);
  }

  /** `test2D` at output `(2, 1)`. */
  lemma TwoDOut5(input: seq<real>, filter: seq<real>)
    requires input == [1.0, 2.0, 3.0, 4.0, 5.0, 6.0, 7.0, 8.0, 9.0]
    requires filter == [1.0, 2.0, 1.0, 0.0, 0.0, 0.0, -1.0, -2.0, -1.0]
    ensures GridEntry2(input, filter, false, Square3, 5) == -18.0
  {
    TwoDSplit5(input, filter);
    TwoDRows5(input, filter);
  }

  /** The rows of `test2D`'s clamped box at output `(0, 2)`, each summed. */
  lemma TwoDRows6(input: seq<real>, filter: seq<real>)
    requires input == [1.0, 2.0, 3.0, 4.0, 5.0, 6.0, 7.0, 8.0, 9.0]
    requires filter == [1.0, 2.0, 1.0, 0.0, 0.0, 0.0, -1.0, -2.0, -1.0]
    ensures Cols2(input, filter, false, Square3, 0, 2, 1, 0, 2) == 13.0
    ensures Cols2(input, filter, false, Square3, 0, 2, 1, 1, 2) == 0.0
  {
    Cols2Sq(input, filter, 0, 2, 1, 0);
    Cols2Sq(input, filter, 0, 2, 1, 1);
  }

  /** Output `(0, 2)` of `test2D`'s shape is the sum of its box's rows, whatever the data. */
  lemma TwoDSplit6(input: seq<real>, filter: seq<real>)
    ensures GridEntry2(input, filter, false, Square3, 6) == Cols2(input, filter, false, Square3, 0, 2, 1, 0, 2) + Cols2(input, filter, false, Square3, 0, 2, 1, 1, 2)
  {
    GridEntrySq(input, filter, 6, 0, 2, 1, 0, 2, 2);
    Rows2Three(input, filter, false, Square3, 0, 2, 1, 0, 2);
  }

  /** `test2D` at output `(0, 2)`. */
  lemma TwoDOut6(input: seq<real>, filter: seq<real>)
    requires input == [1.0, 2.0, 3.0, 4.0, 5.0, 6.0, 7.0, 8.0, 9.0]
    requires filter == [1.0, 2.0, 1.0, 0.0, 0.0, 0.0, -1.0, -2.0, -1.0]
    ensures GridEntry2(input, filter, false, Square3, 6) == 13.0
  {
    TwoDSplit6(input, filter);
    TwoDRows6(input, filter);
  }

  /** The rows of `test2D`'s clamped box at output `(1, 2)`, each summed. */
  lemma TwoDRows7(input: seq<real>, filter: seq<real>)
    requires input == [1.0, 2.0, 3.0, 4.0, 5.0, 6.0, 7.0, 8.0, 9.0]
    requires filter == [1.0, 2.0, 1.0, 0.0, 0.0, 0.0, -1.0, -2.0, -1.0]
    ensures Cols2(input, filter, false, Square3, 1, 2, 0, 0, 3) == 20.0
    ensures Cols2(input, filter, false, Square3, 1, 2, 0, 1, 3) == 0.0
  {
    Cols2Sq(input, filter, 1, 2, 0, 0);
    Cols2Sq(input, filter, 1, 2, 0, 1);
  }

  /** Output `(1, 2)` of `test2D`'s shape is the sum of its box's rows, whatever the data. */
  lemma TwoDSplit7(input: seq<real>, filter: seq<real>)
    ensures GridEntry2(input, filter, false, Square3, 7) == Cols2(input, filter, false, Square3, 1, 2, 0, 0, 3) + Cols2(input, filter, false, Square3, 1, 2, 0, 1, 3)
  {
    GridEntrySq(input, filter, 7, 1, 2, 0, 0, 3, 2);
    Rows2Three(input, filter, false, Square3, 1, 2, 0, 0, 3);
  }

  /** `test2D` at output `(1, 2)`. */
  lemma TwoDOut7(input: seq<real>, filter: seq<real>)
    requires input == [1.0, 2.0, 3.0, 4.0, 5.0, 6.0, 7.0, 8.0, 9.0]
    requires filter == [1.0, 2.0, 1.0, 0.0, 0.0, 0.0, -1.0, -2.0, -1.0]
    ensures GridEntry2(input, filter, false, Square3, 7) == 20.0
  {
    TwoDSplit7(input, filter);
    TwoDRows7(input, filter);
  }

  /** The rows of `test2D`'s clamped box at output `(2, 2)`, each summed. */
  lemma TwoDRows8(input: seq<real>, filter: seq<real>)
    requires input == [1.0, 2.0, 3.0, 4.0, 5.0, 6.0, 7.0, 8.0, 9.0]
    requires filter == [1.0, 2.0, 1.0, 0.0, 0.0, 0.0, -1.0, -2.0, -1.0]
    ensures Cols2(input, filter, false, Square3, 2, 2, 0, 0, 2) == 17.0
    ensures Cols2(input, filter, false, Square3, 2, 2, 0, 1, 2) == 0.0
  {
    Cols2Sq(input, filter, 2, 2, 0, 0);
    Cols2Sq(input, filter, 2, 2, 0, 1);
  }

  /** Output `(2, 2)` of `test2D`'s shape is the sum of its box's rows, whatever the data. */
  lemma TwoDSplit8(input: seq<real>, filter: seq<real>)
    ensures GridEntry2(input, filter, false, Square3, 8) == Cols2(input, filter, false, Square3, 2, 2, 0, 0, 2) + Cols2(input, filter, false, Square3, 2, 2, 0, 1, 2)
  {
    GridEntrySq(input, filter, 8, 2, 2, 0, 0, 2, 2);
    Rows2Three(input, filter, false, Square3, 2, 2, 0, 0, 2);
  }

  /** `test2D` at output `(2, 2)`. */
  lemma TwoDOut8(input: seq<real>, filter: seq<real>)
    requires input == [1.0, 2.0, 3.0, 4.0, 5.0, 6.0, 7.0, 8.0, 9.0]
    requires filter == [1.0, 2.0, 1.0, 0.0, 0.0, 0.0, -1.0, -2.0, -1.0]
    ensures GridEntry2(input, filter, false, Square3, 8) == 17.0
  {
    TwoDSplit8(input, filter);
    TwoDRows8(input, filter);
  }

  lemma TwoDConv0(c: Conv)
    requires c == Conv(Square3, [1.0, 2.0, 3.0, 4.0, 5.0, 6.0, 7.0, 8.0, 9.0], [1.0, 2.0, 1.0, 0.0, 0.0, 0.0, -1.0, -2.0, -1.0], false)
    requires c.WellFormed()
    ensures 0 < |Convolved(c)| && Convolved(c)[0] == -13.0
  {
    Entry2(c, 0);
    TwoDOut0(c.input, c.filter);
  }

  lemma TwoDConv1(c: Conv)
    requires c == Conv(Square3, [1.0, 2.0, 3.0, 4.0, 5.0, 6.0, 7.0, 8.0, 9.0], [1.0, 2.0, 1.0, 0.0, 0.0, 0.0, -1.0, -2.0, -1.0], false)
    requires c.WellFormed()
    ensures 1 < |Convolved(c)| && Convolved(c)[1] == -20.0
  {
    Entry2(c, 1);
    TwoDOut1(c.input, c.filter);
  }

  lemma TwoDConv2(c: Conv)
    requires c == Conv(Square3, [1.0, 2.0, 3.0, 4.0, 5.0, 6.0, 7.0, 8.0, 9.0], [1.0, 2.0, 1.0, 0.0, 0.0, 0.0, -1.0, -2.0, -1.0], false)
    requires c.WellFormed()
    ensures 2 < |Convolved(c)| && Convolved(c)[2] == -17.0
  {
    Entry2(c, 2);
    TwoDOut2(c.input, c.filter);
  }

  lemma TwoDConv3(c: Conv)
    requires c == Conv(Square3, [1.0, 2.0, 3.0, 4.0, 5.0, 6.0, 7.0, 8.0, 9.0], [1.0, 2.0, 1.0, 0.0, 0.0, 0.0, -1.0, -2.0, -1.0], false)
    requires c.WellFormed()
    ensures 3 < |Convolved(c)| && Convolved(c)[3] == -18.0
  {
    Entry2(c, 3);
    TwoDOut3(c.input, c.filter);
  }

  lemma TwoDConv4(c: Conv)
    requires c == Conv(Square3, [1.0, 2.0, 3.0, 4.0, 5.0, 6.0, 7.0, 8.0, 9.0], [1.0, 2.0, 1.0, 0.0, 0.0, 0.0, -1.0, -2.0, -1.0], false)
    requires c.WellFormed()
    ensures 4 < |Convolved(c)| && Convolved(c)[4] == -24.0
  {
    Entry2(c, 4);
    TwoDOut4(c.input, c.filter);
  }

  lemma TwoDConv5(c: Conv)
    requires c == Conv(Square3, [1.0, 2.0, 3.0, 4.0, 5.0, 6.0, 7.0, 8.0, 9.0], [1.0, 2.0, 1.0, 0.0, 0.0, 0.0, -1.0, -2.0, -1.0], false)
    requires c.WellFormed()
    ensures 5 < |Convolved(c)| && Convolved(c)[5] == -18.0
  {
    Entry2(c, 5);
    TwoDOut5(c.input, c.filter);
  }

  lemma TwoDConv6(c: Conv)
    requires c == Conv(Square3, [1.0, 2.0, 3.0, 4.0, 5.0, 6.0, 7.0, 8.0, 9.0], [1.0, 2.0, 1.0, 0.0, 0.0, 0.0, -1.0, -2.0, -1.0], false)
    requires c.WellFormed()
    ensures 6 < |Convolved(c)| && Convolved(c)[6] == 13.0
  {
    Entry2(c, 6);
    TwoDOut6(c.input, c.filter);
  }

  lemma TwoDConv7(c: Conv)
    requires c == Conv(Square3, [1.0, 2.0, 3.0, 4.0, 5.0, 6.0, 7.0, 8.0, 9.0], [1.0, 2.0, 1.0, 0.0, 0.0, 0.0, -1.0, -2.0, -1.0], false)
    requires c.WellFormed()
    ensures 7 < |Convolved(c)| && Convolved(c)[7] == 20.0
  {
    Entry2(c, 7);
    TwoDOut7(c.input, c.filter);
  }

  lemma TwoDConv8(c: Conv)
    requires c == Conv(Square3, [1.0, 2.0, 3.0, 4.0, 5.0, 6.0, 7.0, 8.0, 9.0], [1.0, 2.0, 1.0, 0.0, 0.0, 0.0, -1.0, -2.0, -1.0], false)
    requires c.WellFormed()
    ensures 8 < |Convolved(c)| && Convolved(c)[8] == 17.0
  {
    Entry2(c, 8);
    TwoDOut8(c.input, c.filter);
  }

  /** Every output of `test2D`, three entries at a time. */
  lemma TwoDConvolved(c: Conv)
    requires c == Conv(Square3, [1.0, 2.0, 3.0, 4.0, 5.0, 6.0, 7.0, 8.0, 9.0], [1.0, 2.0, 1.0, 0.0, 0.0, 0.0, -1.0, -2.0, -1.0], false)
    requires c.WellFormed()
    ensures Convolved(c) == [-13.0, -20.0, -17.0, -18.0, -24.0, -18.0, 13.0, 20.0, 17.0]
  {
    var v := Convolved(c);
    TwoDConv0(c);
    TwoDConv1(c);
    TwoDConv2(c);
    TwoDConv3(c);
    TwoDConv4(c);
    TwoDConv5(c);
    TwoDConv6(c);
    TwoDConv7(c);
    TwoDConv8(c);
    Flat2([0, 0], Square3.outDims);
    assert |v| == 9;
    NineEntries(v);
  }

  /** A sequence of nine entries is the display of its entries. */
  lemma NineEntries(v: seq<real>)
    requires |v| == 9
    ensures v == [v[0], v[1], v[2], v[3], v[4], v[5], v[6], v[7], v[8]]
  {
  }

}
