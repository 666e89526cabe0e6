// The root package's ConvolutionLayer: the weights are a stack of filters
// (the last filter dimension counts them), the bias holds one value per
// filter, and activation, back-propagation and the weight gradient are the
// tensor convolutions of module Tensors. The layer's values are kept flat,
// in the tensors' element order (dimension 0 fastest).
module ConvolutionLayers {
  import opened Wrappers
  import opened Numeric
  import opened Indexing
  import opened Convolution
  import opened Vectors
  import opened Tensors
  import Grids
  import Fixtures
  import Layers

  const BiasLength := "The bias length must be the same as the number of filters."

  // ---------------------------------------------------------------------
  // The dimensions.

  /** `d` followed by 1s up to length `n`. */
  function Padded(d: seq<nat>, n: nat): (r: seq<nat>)
    requires |d| <= n
    ensures |r| == n && r[..|d|] == d && forall i :: |d| <= i < n ==> r[i] == 1
  {
    d + seq(n - |d|, _ => 1)
  }

  /** `longer` is `shorter` with trailing 1s. */
  predicate Extends(longer: seq<nat>, shorter: seq<nat>)
  {
    |shorter| <= |longer| && longer[..|shorter|] == shorter && forall i :: |shorter| <= i < |longer| ==> longer[i] == 1
  }

  /** All dimensions but the last. */
  function Front(d: seq<nat>): seq<nat>
    requires |d| >= 1
  {
    d[..|d| - 1]
  }

  function Last(d: seq<nat>): nat
    requires |d| >= 1
  {
    d[|d| - 1]
  }

  /** The input, filter and output dimensions of a convolution layer. */
  datatype Dims = Dims(input: seq<nat>, filter: seq<nat>, output: seq<nat>)
  {
    /** The three have the same number of dimensions, as `normalizeDimensions` leaves them. */
    predicate Normal()
    {
      |input| == |filter| == |output|
    }

    function Arity(): nat
    {
      |input|
    }

    /** The whole convolution, as `convolve` sees it. */
    function Full(): Shape
    {
      Shape(input, filter, output)
    }

    /** The slices `activate` convolves when the input has one layer: input, filter, output. */
    function Sliced(): Shape
      requires Normal() && Arity() >= 1
    {
      Shape(Front(input), Front(filter), Front(output))
    }

    /** The slices `backPropagate` convolves: the filters with the blame, into the input. */
    function Back(): Shape
      requires Normal() && Arity() >= 1
    {
      Shape(Front(filter), Front(output), Front(input))
    }

    /** The slices `updateGradient` convolves: the input with the blame, into the filters. */
    function Grad(): Shape
      requires Normal() && Arity() >= 1
    {
      Shape(Front(input), Front(output), Front(filter))
    }

    /** `activate` gets past the convolution: one filter per output layer when the input has one layer. */
    predicate ForwardPasses()
      requires Normal() && Arity() >= 1
    {
      Last(input) == 1 ==> Last(filter) == Last(output) && Arity() >= 2
    }

    /** `backPropagate` gets past the convolution: as many filters as output layers, one input layer. */
    predicate BackwardPasses()
      requires Normal() && Arity() >= 1
    {
      Last(filter) == Last(output) && Last(input) == 1 && Arity() >= 2
    }

    /** `updateGradient` gets past the convolution: one input layer, as many output layers as filters. */
    predicate GradientPasses()
      requires Normal() && Arity() >= 1
    {
      Last(input) == 1 && Last(output) == Last(filter) && Arity() >= 2
    }

    /** The shapes the stride-1 convolution kernel is proved for, where `activate` reaches it. */
    predicate ForwardSupported()
    {
      Normal() && Arity() >= 1 ==>
        if Last(input) == 1 then (ForwardPasses() && Last(filter) >= 1 ==> Sliced().Centred())
        else Full().Centred()
    }

    /** The shapes the kernel is proved for, where `backPropagate` reaches it. */
    predicate BackwardSupported()
    {
      Normal() && Arity() >= 1 ==> (BackwardPasses() && Last(filter) >= 1 ==> Back().Centred())
    }

    /** The shapes the kernel is proved for, where `updateGradient` reaches it. */
    predicate GradientSupported()
    {
      Normal() && Arity() >= 1 ==> (GradientPasses() && Last(output) >= 1 ==> Grad().Centred())
    }
  }

  function Max(a: nat, b: nat): nat
  {
    if a >= b then a else b
  }

  /**
   * `normalizeDimensions`: the three dimension lists padded with trailing 1s
   * to the length of the longest.
   */
  function Normalize(d: Dims): (r: Dims)
    ensures r.Normal() && r.Arity() == Max(Max(|d.input|, |d.filter|), |d.output|)
    ensures Extends(r.input, d.input) && Extends(r.filter, d.filter) && Extends(r.output, d.output)
  {
    var n := Max(Max(|d.input|, |d.filter|), |d.output|);
    Dims(Padded(d.input, n), Padded(d.filter, n), Padded(d.output, n))
  }

  /** Trailing 1s do not change the element count. */
  lemma {:induction false} ExtendsKeepsCount(longer: seq<nat>, shorter: seq<nat>)
    requires Extends(longer, shorter)
    ensures Product(longer) == Product(shorter)
  {
    if |longer| > |shorter| {
      var n := |longer| - 1;
      assert Extends(longer[..n], shorter) by {
        assert longer[..n][..|shorter|] == longer[..|shorter|];
      }
      ExtendsKeepsCount(longer[..n], shorter);
    } else {
      assert longer == longer[..|shorter|];
    }
  }

  /** Normalizing keeps the element counts the layer's sizes are taken from. */
  lemma NormalizeKeepsCounts(d: Dims)
    ensures Product(Normalize(d).input) == Product(d.input)
    ensures Product(Normalize(d).filter) == Product(d.filter)
    ensures Product(Normalize(d).output) == Product(d.output)
  {
    var r := Normalize(d);
    ExtendsKeepsCount(r.input, d.input);
    ExtendsKeepsCount(r.filter, d.filter);
    ExtendsKeepsCount(r.output, d.output);
  }

  /** Dimensions of equal length are left as they are. */
  lemma NormalizeNormal(d: Dims)
    requires d.Normal()
    ensures Normalize(d) == d
  {
    var r := Normalize(d);
    assert r.input == d.input + [];
    assert r.filter == d.filter + [];
    assert r.output == d.output + [];
  }

  /** Normalizing twice is normalizing once: a copy has its original's dimensions. */
  lemma NormalizeIdempotent(d: Dims)
    ensures Normalize(Normalize(d)) == Normalize(d)
  {
    NormalizeNormal(Normalize(d));
  }

  // ---------------------------------------------------------------------
  // What the layer computes.

  /** What `activate` convolves into the zeroed activation, before the biases. */
  ghost function Forward(d: Dims, x: seq<real>, w: seq<real>): (r: seq<real>)
    requires d.Normal() && d.Arity() >= 1 && d.ForwardSupported() && d.ForwardPasses()
    requires |x| == Product(d.input) && |w| == Product(d.filter)
    ensures |r| == Product(d.output)
  {
    if Last(d.input) == 1 then
      ProductWhole(d.input);
      ProductWhole(d.filter);
      ProductWhole(d.output);
      PerFilter(d.Sliced(), x, w, false, Last(d.filter))
    else
      assert d.Full().Centred();
      Convolved(Conv(d.Full(), x, w, false))
  }

  /** What `backPropagate` returns: the sum over the filters of each filter convolved, flipped, with its blame layer. */
  ghost function Backward(d: Dims, w: seq<real>, blame: seq<real>): (r: seq<real>)
    requires d.Normal() && d.Arity() >= 1 && d.BackwardSupported() && d.BackwardPasses()
    requires |w| == Product(d.filter) && |blame| == Product(d.output)
    ensures |r| == Product(d.input)
  {
    ProductWhole(d.input);
    ProductWhole(d.filter);
    ProductWhole(d.output);
    PerLayer(d.Back(), w, blame, true, Last(d.filter))
  }

  /** What `updateGradient` adds to the weight gradient: the input convolved with each blame layer. */
  ghost function GradientStep(d: Dims, x: seq<real>, blame: seq<real>): (r: seq<real>)
    requires d.Normal() && d.Arity() >= 1 && d.GradientSupported() && d.GradientPasses()
    requires |x| == Product(d.input) && |blame| == Product(d.output)
    ensures |r| == Product(d.filter)
  {
    ProductWhole(d.input);
    ProductWhole(d.filter);
    ProductWhole(d.output);
    PerFilter(d.Grad(), x, blame, false, Last(d.output))
  }

  /** `s` with `c` added to every element. */
  function Shifted(s: seq<real>, c: real): (r: seq<real>)
    ensures |r| == |s| && forall j :: 0 <= j < |s| ==> r[j] == s[j] + c
  {
    seq(|s|, j requires 0 <= j < |s| => s[j] + c)
  }

  /** `s` with `c` added to each of the `len` elements from `at` on. */
  function AddedToBlock(s: seq<real>, at: nat, len: nat, c: real): (r: seq<real>)
    requires at + len <= |s|
    ensures |r| == |s|
  {
    s[..at] + Shifted(s[at..at + len], c) + s[at + len..]
  }

  /** Adding to a block leaves what precedes it, shifts the block and leaves what follows it. */
  lemma AddedToBlockParts(s: seq<real>, at: nat, len: nat, c: real)
    requires at + len <= |s|
    ensures AddedToBlock(s, at, len, c)[..at] == s[..at]
    ensures AddedToBlock(s, at, len, c)[at..at + len] == Shifted(s[at..at + len], c)
    ensures AddedToBlock(s, at, len, c)[at + len..] == s[at + len..]
  {
    var front, block := s[..at], Shifted(s[at..at + len], c);
    assert (front + block + s[at + len..])[..at] == front;
    assert (front + block + s[at + len..])[at..at + len] == block;
  }

  /** Block `i` of `len` ends where block `i + 1` starts, within the first `count` blocks. */
  lemma NextBlock(i: nat, len: nat, count: nat)
    requires i < count
    ensures i * len + len == (i + 1) * len <= count * len
  {
    MulMonotone(i + 1, count, len);
  }

  /**
   * `v` cut into blocks of `len` values, with `b[i]` added to each element of
   * block `i` for the first `count` blocks, one block after the other.
   */
  function Biased(v: seq<real>, b: seq<real>, len: nat, count: nat): (r: seq<real>)
    requires count * len <= |v| && count <= |b|
    ensures |r| == |v|
  {
    if count == 0 then v
    else
      NextBlock(count - 1, len, count);
      AddedToBlock(Biased(v, b, len, count - 1), (count - 1) * len, len, b[count - 1])
  }

  /** The blocks not biased yet are as they were. */
  lemma {:induction false} BiasedRest(v: seq<real>, b: seq<real>, len: nat, count: nat)
    requires count * len <= |v| && count <= |b|
    ensures Biased(v, b, len, count)[count * len..] == v[count * len..]
  {
    if count > 0 {
      var k := count - 1;
      MulMonotone(k, count, len);
      assert k * len + len == count * len;
      var before := Biased(v, b, len, k);
      BiasedRest(v, b, len, k);
      AddedToBlockParts(before, k * len, len, b[k]);
      assert before[k * len + len..] == before[k * len..][len..];
      assert v[k * len + len..] == v[k * len..][len..];
    }
  }

  /** Biasing block `k` leaves the earlier blocks as they were. */
  lemma BiasedKeepsEarlier(v: seq<real>, b: seq<real>, len: nat, k: nat, i: nat)
    requires (k + 1) * len <= |v| && k < |b| && i < k
    ensures i * len + len <= k * len && k * len <= (k + 1) * len
    ensures Biased(v, b, len, k + 1)[i * len..i * len + len] == Biased(v, b, len, k)[i * len..i * len + len]
  {
    MulMonotone(i + 1, k, len);
    MulMonotone(k, k + 1, len);
    var before, at := Biased(v, b, len, k), k * len;
    assert at + len == (k + 1) * len;
    var after := Biased(v, b, len, k + 1);
    assert after == AddedToBlock(before, at, len, b[k]);
    AddedToBlockParts(before, at, len, b[k]);
    assert after[i * len..i * len + len] == after[..at][i * len..i * len + len];
    assert before[i * len..i * len + len] == before[..at][i * len..i * len + len];
  }

  /** Biasing block `k` shifts it by `b[k]`. */
  lemma BiasedLast(v: seq<real>, b: seq<real>, len: nat, k: nat)
    requires (k + 1) * len <= |v| && k < |b|
    ensures k * len + len == (k + 1) * len
    ensures Biased(v, b, len, k + 1)[k * len..k * len + len] == Shifted(v[k * len..k * len + len], b[k])
  {
    MulMonotone(k, k + 1, len);
    var before, at := Biased(v, b, len, k), k * len;
    assert at + len == (k + 1) * len;
    assert Biased(v, b, len, k + 1) == AddedToBlock(before, at, len, b[k]);
    AddedToBlockParts(before, at, len, b[k]);
    BiasedRest(v, b, len, k);
    assert before[at..at + len] == before[at..][..len];
    assert v[at..at + len] == v[at..][..len];
  }

  /** Block `i` of the biased values is block `i` of the values with `b[i]` added to each element. */
  lemma {:induction false} BiasedSlice(v: seq<real>, b: seq<real>, len: nat, count: nat, i: nat)
    requires count * len <= |v| && count <= |b| && i < count
    ensures i * len + len <= count * len
    ensures Biased(v, b, len, count)[i * len..i * len + len] == Shifted(v[i * len..i * len + len], b[i])
  {
    MulMonotone(i + 1, count, len);
    var k := count - 1;
    if i < k {
      MulMonotone(k, count, len);
      BiasedSlice(v, b, len, k, i);
      BiasedKeepsEarlier(v, b, len, k, i);
    } else {
      BiasedLast(v, b, len, k);
    }
  }

  /** `v` with the biases added to as many of its `count` blocks as there are bias entries. */
  function AllBiased(v: seq<real>, b: seq<real>, len: nat, count: nat): (r: seq<real>)
    requires count * len == |v|
    ensures |r| == |v|
  {
    var k := if |b| < count then |b| else count;
    MulMonotone(k, count, len);
    Biased(v, b, len, k)
  }

  /** With a bias entry for every block, block `i` of the result is block `i` of `v` shifted by `b[i]`. */
  lemma AllBiasedSlice(v: seq<real>, b: seq<real>, len: nat, count: nat, i: nat)
    requires count * len == |v| && count <= |b| && i < count
    ensures (i + 1) * len <= |v|
    ensures Slice(AllBiased(v, b, len, count), len, i) == Shifted(Slice(v, len, i), b[i])
  {
    NextBlock(i, len, count);
    BiasedSlice(v, b, len, count, i);
    assert Slice(AllBiased(v, b, len, count), len, i) == AllBiased(v, b, len, count)[i * len..i * len + len];
    assert Slice(v, len, i) == v[i * len..i * len + len];
  }

  /** The sum of each block of `len` of the blame, for the first `count` blocks. */
  function SliceSums(blame: seq<real>, len: nat, count: nat): (s: seq<real>)
    requires count * len <= |blame|
    ensures |s| == count
  {
    seq(count, i requires 0 <= i < count => MulMonotone(i + 1, count, len); Sum(Slice(blame, len, i)))
  }

  /** The block sums add up to the sum of the blocks they cover. */
  lemma {:induction false} SliceSumsPrefix(blame: seq<real>, len: nat, count: nat)
    requires count * len <= |blame|
    ensures Sum(SliceSums(blame, len, count)) == Sum(blame[..count * len])
  {
    if count > 0 {
      var k := count - 1;
      MulMonotone(k, count, len);
      SliceSumsPrefix(blame, len, k);
      var s := SliceSums(blame, len, count);
      assert s[..k] == SliceSums(blame, len, k);
      assert blame[..count * len] == blame[..k * len] + Slice(blame, len, k);
      SumAppend(blame[..k * len], Slice(blame, len, k));
    } else {
      assert blame[..0] == [];
    }
  }

  /** Over all the blocks, the bias gradient holds the whole blame: its total is the blame's total. */
  lemma SliceSumsTotal(blame: seq<real>, len: nat, count: nat)
    requires count * len == |blame|
    ensures Sum(SliceSums(blame, len, count)) == Sum(blame)
  {
    SliceSumsPrefix(blame, len, count);
    assert blame[..count * len] == blame;
  }

  /** `Math.max(0.01, 1.0 / filterElements)`, the spread of the initial weights. */
  function InitialScale(filterElements: nat): (s: real)
    ensures s >= 0.01
    ensures filterElements > 0 ==> s >= 1.0 / (filterElements as real)
  {
    if filterElements == 0 || 1.0 / (filterElements as real) <= 0.01 then 0.01 else 1.0 / (filterElements as real)
  }

  /** The supplier `initialize` fills with: draw `i` is the scale times Gaussian draw `i`. */
  function ScaledDraws(gaussian: nat -> real, scale: real): (source: nat -> real)
    ensures forall i :: source(i) == scale * gaussian(i)
  {
    (i: nat) => scale * gaussian(i)
  }

  // ---------------------------------------------------------------------
  // The steps of the layer's operations.

  /** `Tensor.asTensor` of a plain vector holding `values`: a fresh tensor of dimensions `dims`. */
  method View(values: seq<real>, dims: seq<nat>) returns (r: Result<Tensor>)
    ensures r.Err? <==> |values| != Product(dims) || |dims| == 0
    ensures r.Err? && |values| != Product(dims) ==> r.error == Runtime(CountMismatch)
    ensures r.Err? && |values| == Product(dims) ==> r.error == IndexOutOfBounds
    ensures r.Ok? ==> fresh(r.value) && fresh(r.value.vec) && fresh(r.value.vec.vals) && r.value.Valid()
    ensures r.Ok? ==> r.value.dims == dims && r.value.Elements() == values && r.value.vec.vals[..] == values
    ensures r.Ok? ==> !r.value.vec.nullBacked
  {
    var a := Fixtures.ArrayOf(values);
    var v := new Vector.Wrap(a);
    r := Tensor.AsTensor(v, None, dims);
    if r.Ok? {
      assert r.value.vec.vals[..] == r.value.vec.vals[0..|values|];
    }
  }

  /** A fresh tensor holding `values` whose count already fits `dims`. */
  method Wrapped(values: seq<real>, dims: seq<nat>) returns (t: Tensor)
    requires |values| == Product(dims) && |dims| >= 1
    ensures fresh(t) && fresh(t.vec) && fresh(t.vec.vals) && t.Valid()
    ensures t.dims == dims && t.vec.start == 0 && t.vec.vals[..] == values && t.Elements() == values
  {
    var a := Fixtures.ArrayOf(values);
    var v := new Vector.Wrap(a);
    t := new Tensor.Init(v, dims, Strides(dims));
  }

  /** Adding to zeros from the start gives what was added. */
  lemma AddedToZeros(n: nat, v: seq<real>)
    requires |v| == n
    ensures AddedInto(Constant(n, 0.0), 0, v) == v
  {
  }

  /** Adding to a sequence from the start is the elementwise sum. */
  lemma AddedFromStart(base: seq<real>, v: seq<real>)
    requires |v| == |base|
    ensures AddedInto(base, 0, v) == Plus(base, v)
  {
  }

  /** A slice as long as the whole sequence is the sequence. */
  lemma WholeSlice(e: seq<real>)
    ensures Slice(e, |e|, 0) == e
  {
  }

  /**
   * The convolution step of `activate`: into a zeroed tensor of the output
   * dimensions, `convolvePerFilter` when the input has one layer and
   * `convolve` otherwise.
   */
  method ConvolveForward(d: Dims, input: Tensor, w: seq<real>) returns (r: Result<seq<real>>)
    requires d.Normal() && d.Arity() >= 1 && d.ForwardSupported()
    requires input.Valid() && input.dims == d.input && |w| == Product(d.filter)
    ensures r.Err? <==> !d.ForwardPasses()
    ensures r.Err? ==> r.error == if Last(d.filter) != Last(d.output) then IllegalArgument(FilterCountDiffers) else IndexOutOfBounds
    ensures r.Ok? ==> r.value == Forward(d, input.Elements(), w)
  {
    var filter := Wrapped(w, d.filter);
    var out := Wrapped(Constant(Product(d.output), 0.0), d.output);
    ghost var x := input.Elements();
    var status;
    if input.LastDimension() == 1 {
      status := Tensor.ConvolvePerFilter(input, filter, out, false);
      if status.Fail? {
        return Err(status.error);
      }
      ForwardPerFilter(d, input, filter, out, x, w);
    } else {
      status := Tensor.Convolve(input, filter, out, false);
      ForwardWhole(d, input, filter, out, x, w);
    }
    r := Ok(out.Elements());
  }

  /** What `convolvePerFilter` leaves in the zeroed output is `Forward`. */
  lemma ForwardPerFilter(d: Dims, input: Tensor, filter: Tensor, out: Tensor, x: seq<real>, w: seq<real>)
    requires d.Normal() && d.Arity() >= 1 && d.ForwardSupported() && Last(d.input) == 1
    requires input.Valid() && filter.Valid() && out.Valid() && out.vec.start == 0 && out.vec.len == out.vec.vals.Length
    requires input.dims == d.input && filter.dims == d.filter && out.dims == d.output
    requires input.Elements() == x && filter.Elements() == w
    requires Tensor.PerFilterReady(input, filter, out)
    requires out.vec.vals[..] == AddedInto(Constant(Product(d.output), 0.0), 0, Tensor.FilterSum(input, filter, out, false, filter.LastDimension()))
    ensures d.ForwardPasses() && out.Elements() == Forward(d, x, w)
  {
    ProductWhole(d.input);
    WholeSlice(x);
    out.vec.WholeWindow();
  }

  /** What `convolve` leaves in the zeroed output is `Forward`. */
  lemma ForwardWhole(d: Dims, input: Tensor, filter: Tensor, out: Tensor, x: seq<real>, w: seq<real>)
    requires d.Normal() && d.Arity() >= 1 && d.ForwardSupported() && Last(d.input) != 1
    requires input.Valid() && filter.Valid() && out.Valid() && out.vec.start == 0 && out.vec.len == out.vec.vals.Length
    requires input.dims == d.input && filter.dims == d.filter && out.dims == d.output
    requires input.Elements() == x && filter.Elements() == w
    requires out.vec.vals[..] == AddedInto(Constant(Product(d.output), 0.0), 0, Convolved(Tensor.ConvOf(input, filter, out, false)))
    ensures d.ForwardPasses() && out.Elements() == Forward(d, x, w)
  {
    out.vec.WholeWindow();
  }

  /**
   * The convolution step of `backPropagate`: `convolvePerLayer(weights, blame,
   * result, true)` into a zeroed tensor of the input dimensions.
   */
  method ConvolveBackward(d: Dims, w: seq<real>, blame: Tensor) returns (r: Result<seq<real>>)
    requires d.Normal() && d.Arity() >= 1 && d.BackwardSupported()
    requires blame.Valid() && blame.dims == d.output && |w| == Product(d.filter)
    ensures r.Err? <==> !d.BackwardPasses()
    ensures r.Err? && Last(d.filter) != Last(d.output) ==> r.error == IllegalArgument(LayerCountDiffers)
    ensures r.Err? && Last(d.filter) == Last(d.output) && Last(d.input) != 1 ==> r.error == IllegalArgument(ResultNotOneLayer)
    ensures r.Err? && Last(d.filter) == Last(d.output) && Last(d.input) == 1 ==> r.error == IndexOutOfBounds
    ensures r.Ok? ==> r.value == Backward(d, w, blame.Elements())
  {
    var weights := Wrapped(w, d.filter);
    var result := Wrapped(Constant(Product(d.input), 0.0), d.input);
    ghost var e := blame.Elements();
    var status := Tensor.ConvolvePerLayer(weights, blame, result, true);
    if status.Fail? {
      return Err(status.error);
    }
    BackwardLink(d, weights, blame, result, w, e);
    r := Ok(result.Elements());
  }

  /** What `convolvePerLayer` leaves in the zeroed result is `Backward`. */
  lemma BackwardLink(d: Dims, weights: Tensor, blame: Tensor, result: Tensor, w: seq<real>, e: seq<real>)
    requires d.Normal() && d.Arity() >= 1 && d.BackwardSupported()
    requires weights.Valid() && blame.Valid() && result.Valid() && result.vec.start == 0 && result.vec.len == result.vec.vals.Length
    requires weights.dims == d.filter && blame.dims == d.output && result.dims == d.input
    requires weights.Elements() == w && blame.Elements() == e
    requires Tensor.PerLayerReady(weights, blame, result)
    requires result.vec.vals[..] == AddedInto(Constant(Product(d.input), 0.0), 0, Tensor.LayerSum(weights, blame, result, true, weights.LastDimension()))
    ensures d.BackwardPasses() && result.Elements() == Backward(d, w, e)
  {
    ProductWhole(d.input);
    result.vec.WholeWindow();
  }

  /**
   * The convolution step of `updateGradient`: `convolvePerFilter(input, blame,
   * weightsGradient)`, which adds to the gradient.
   */
  method ConvolveGradient(d: Dims, input: Tensor, blame: Tensor, g: seq<real>) returns (r: Result<seq<real>>)
    requires d.Normal() && d.Arity() >= 1 && d.GradientSupported()
    requires input.Valid() && blame.Valid() && input.dims == d.input && blame.dims == d.output && |g| == Product(d.filter)
    ensures r.Err? <==> !d.GradientPasses()
    ensures r.Err? && Last(d.input) != 1 ==> r.error == IllegalArgument(InputNotOneLayer)
    ensures r.Err? && Last(d.input) == 1 && Last(d.output) != Last(d.filter) ==> r.error == IllegalArgument(FilterCountDiffers)
    ensures r.Err? && Last(d.input) == 1 && Last(d.output) == Last(d.filter) ==> r.error == IndexOutOfBounds
    ensures r.Ok? ==> r.value == Plus(g, GradientStep(d, input.Elements(), blame.Elements()))
  {
    var gradient := Wrapped(g, d.filter);
    ghost var x, e := input.Elements(), blame.Elements();
    var status := Tensor.ConvolvePerFilter(input, blame, gradient, false);
    if status.Fail? {
      return Err(status.error);
    }
    GradientLink(d, input, blame, gradient, x, e, g);
    r := Ok(gradient.Elements());
  }

  /** What `convolvePerFilter` leaves in the gradient is the gradient plus `GradientStep`. */
  lemma GradientLink(d: Dims, input: Tensor, blame: Tensor, gradient: Tensor, x: seq<real>, e: seq<real>, g: seq<real>)
    requires d.Normal() && d.Arity() >= 1 && d.GradientSupported()
    requires input.Valid() && blame.Valid() && gradient.Valid() && gradient.vec.start == 0 && gradient.vec.len == gradient.vec.vals.Length
    requires input.dims == d.input && blame.dims == d.output && gradient.dims == d.filter
    requires input.Elements() == x && blame.Elements() == e && |g| == Product(d.filter)
    requires Tensor.PerFilterReady(input, blame, gradient)
    requires gradient.vec.vals[..] == AddedInto(g, 0, Tensor.FilterSum(input, blame, gradient, false, blame.LastDimension()))
    ensures d.GradientPasses() && gradient.Elements() == Plus(g, GradientStep(d, x, e))
  {
    ProductWhole(d.input);
    assert input.SliceLength() == |x|;
    WholeSlice(x);
    assert Tensor.Lowered(input, blame, gradient) == d.Grad();
    var step := Tensor.FilterSum(input, blame, gradient, false, blame.LastDimension());
    assert step == GradientStep(d, x, e);
    AddedFromStart(g, step);
    gradient.vec.WholeWindow();
  }

  /**
   * `addBiasesByLastDimension` over the `count` slices of `len` values: slice
   * `i` gets `bias[i]` added to each of its elements. A missing bias throws at
   * the first slice, a bias with too few entries at the first slice past its
   * end; the slices before that keep their bias.
   */
  method AddBiases(v: seq<real>, bias: Option<seq<real>>, len: nat, count: nat) returns (r: seq<real>, status: Outcome)
    requires count * len == |v|
    ensures status.Fail? <==> count > 0 && (bias.None? || |bias.value| < count)
    ensures status.Fail? ==> status.error == if bias.None? then NullPointer else IndexOutOfBounds
    ensures bias.None? ==> r == v
    ensures bias.Some? ==> r == AllBiased(v, bias.value, len, count)
  {
    if bias.None? {
      return v, if count > 0 then Fail(NullPointer) else Pass;
    }
    r, status := AddEachBias(v, bias.value, len, count);
  }

  /** The loop of `AddBiases` once the bias is known to be there. */
  method AddEachBias(v: seq<real>, b: seq<real>, len: nat, count: nat) returns (r: seq<real>, status: Outcome)
    requires count * len == |v|
    ensures status.Fail? <==> |b| < count
    ensures status.Fail? ==> status.error == IndexOutOfBounds
    ensures status.Pass? ==> r == Biased(v, b, len, count)
    ensures status.Fail? ==> r == Biased(v, b, len, |b|)
  {
    r := v;
    assert r == Biased(v, b, len, 0);
    var i := 0;
    while i < count && i < |b|
      invariant 0 <= i <= count && i <= |b|
      invariant r == Biased(v, b, len, i)
    {
      var at := i * len;
      NextBlock(i, len, count);
      r := AddedToBlock(r, at, len, b[i]);
      i := i + 1;
    }
    // the slice past the last bias entry reads outside the bias array
    status := if i < count then Fail(IndexOutOfBounds) else Pass;
  }

  /**
   * The bias-gradient loop of `updateGradient`: entry `i` of the gradient is
   * set to the sum of blame slice `i`, whatever it held before.
   */
  method SetSliceSums(g: seq<real>, blame: seq<real>, len: nat) returns (r: seq<real>)
    requires |g| * len <= |blame|
    ensures r == SliceSums(blame, len, |g|)
  {
    r := g;
    var i := 0;
    while i < |g|
      invariant 0 <= i <= |g| && |r| == |g|
      invariant r[..i] == SliceSums(blame, len, i)
    {
      MulMonotone(i + 1, |g|, len);
      r := r[i := Sum(Slice(blame, len, i))];
      assert r[..i + 1] == SliceSums(blame, len, i + 1) by {
        assert forall k :: 0 <= k < i ==> r[k] == SliceSums(blame, len, i)[k];
      }
      i := i + 1;
    }
    assert r == r[..|g|];
  }

  /**
   * The bias-gradient loop of `updateGradient` as written, over the blame
   * viewed with its dimensions: entry `i` is set to `reduce()` of blame
   * slice `i`. `splitByLastDimension` makes each slice a view of the blame's
   * own backing array, and `reduce()` sums the whole backing array, not the
   * view's window, so every entry gets the sum of the whole blame. An entry
   * with no slice throws once the entries before it are set.
   */
  method SliceReducesAsWritten(g: seq<real>, blame: seq<real>, dims: seq<nat>) returns (r: seq<real>, status: Outcome)
    requires |dims| >= 1 && |blame| == Product(dims)
    ensures |dims| == 1 && dims[0] > 0 ==> r == g && status == Fail(IndexOutOfBounds)
    ensures !(|dims| == 1 && dims[0] > 0) ==>
      var n := if |g| <= Last(dims) then |g| else Last(dims);
      r == Constant(n, Sum(blame)) + g[n..] &&
      status == if |g| <= Last(dims) then Pass else Fail(IndexOutOfBounds)
  {
    var e := View(blame, dims);
    var slices := e.value.SplitByLastDimension();
    if slices.Err? {
      return g, Fail(slices.error);
    }
    r, status := ReduceEach(g, slices.value, blame);
  }

  /** The loop of `SliceReducesAsWritten`, over slices that all view the blame's whole backing array. */
  method ReduceEach(g: seq<real>, slices: seq<Tensor>, ghost blame: seq<real>) returns (r: seq<real>, status: Outcome)
    requires forall k :: 0 <= k < |slices| ==>
      slices[k].Valid() && !slices[k].vec.nullBacked && slices[k].vec.vals[..] == blame
    ensures var n := if |g| <= |slices| then |g| else |slices|;
      r == Constant(n, Sum(blame)) + g[n..] &&
      status == if |g| <= |slices| then Pass else Fail(IndexOutOfBounds)
  {
    r := g;
    var i := 0;
    while i < |g|
      invariant 0 <= i <= |g| && i <= |slices| && |r| == |g|
      invariant forall k :: 0 <= k < |g| ==> r[k] == if k < i then Sum(blame) else g[k]
    {
      if i >= |slices| {
        SetPrefix(r, g, i, Sum(blame));
        return r, Fail(IndexOutOfBounds);
      }
      var sum := slices[i].vec.Reduce();
      r := r[i := sum.value];
      i := i + 1;
    }
    SetPrefix(r, g, i, Sum(blame));
    status := Pass;
  }

  /** `r` holds `v` before `n` and `g` from there on. */
  lemma SetPrefix(r: seq<real>, g: seq<real>, n: nat, v: real)
    requires |r| == |g| && n <= |g|
    requires forall k :: 0 <= k < |g| ==> r[k] == if k < n then v else g[k]
    ensures r == Constant(n, v) + g[n..]
  {
    assert forall k :: 0 <= k < |g| ==> (Constant(n, v) + g[n..])[k] == r[k];
  }

  /**
   * With two or more slices and a blame whose sum is not zero, the entries
   * `reduce()` gives are not the slice sums: their total is `count` times the
   * blame's sum, where the slice sums add up to the blame's sum once.
   */
  lemma SliceReducesDiffer(blame: seq<real>, len: nat, count: nat)
    requires count * len == |blame| && count >= 2 && Sum(blame) != 0.0
    ensures Constant(count, Sum(blame)) != SliceSums(blame, len, count)
  {
    SliceSumsTotal(blame, len, count);
    SumConstant(count, Sum(blame));
    MoreThanOnce(count as real, Sum(blame));
  }

  /** `k` copies of a non-zero `c`, for `k` at least 2, are not one copy. */
  lemma MoreThanOnce(k: real, c: real)
    requires k >= 2.0 && c != 0.0
    ensures k * c != c
  {
    assert k * c - c == (k - 1.0) * c;
    if c > 0.0 {
      assert (k - 1.0) * c >= c;
    } else {
      assert (k - 1.0) * c <= c;
    }
  }

  /** The total of `n` copies of `v`. */
  lemma {:induction false} SumConstant(n: nat, v: real)
    ensures Sum(Constant(n, v)) == (n as real) * v
  {
    if n > 0 {
      SumConstant(n - 1, v);
      assert Constant(n, v) == Constant(n - 1, v) + [v];
      SumAppend(Constant(n - 1, v), [v]);
      assert [v][..0] == [];
    }
  }

  /** Blame `[1, 2, 3, 4]` with dimensions `[2, 2]`: `reduce()` gives `[10, 10]`, the slice sums are `[3, 7]`. */
  lemma SliceReducesExample()
    ensures Constant(2, Sum([1.0, 2.0, 3.0, 4.0])) == [10.0, 10.0]
    ensures SliceSums([1.0, 2.0, 3.0, 4.0], 2, 2) == [3.0, 7.0]
  {
    var b := [1.0, 2.0, 3.0, 4.0];
    assert [1.0][..0] == [] && [3.0][..0] == [];
    assert Sum([1.0]) == 1.0 && Sum([3.0]) == 3.0;
    assert [1.0, 2.0][..1] == [1.0] && [3.0, 4.0][..1] == [3.0];
    assert Sum([1.0, 2.0]) == 3.0 && Sum([3.0, 4.0]) == 7.0;
    assert [1.0, 2.0, 3.0][..2] == [1.0, 2.0];
    assert Sum([1.0, 2.0, 3.0]) == 6.0;
    assert b[..3] == [1.0, 2.0, 3.0];
    assert Sum(b) == 10.0;
    assert Slice(b, 2, 0) == [1.0, 2.0] && Slice(b, 2, 1) == [3.0, 4.0];
  }

  /**
   * With a one-layer input, output slice `i` of the activation is filter `i`
   * convolved over the input, plus bias `i`.
   */
  lemma ActivationSlice(d: Dims, x: seq<real>, w: seq<real>, b: seq<real>, i: nat)
    requires d.Normal() && d.Arity() >= 1 && d.ForwardSupported() && d.ForwardPasses() && Last(d.input) == 1
    requires |x| == Product(d.input) && |w| == Product(d.filter) && |b| == Last(d.filter) && i < Last(d.filter)
    ensures Product(d.output) == Last(d.output) * Product(Front(d.output))
    ensures (i + 1) * Product(Front(d.output)) <= Product(d.output)
    ensures (i + 1) * Product(Front(d.filter)) <= |w| && |x| == Product(Front(d.input))
    ensures Slice(AllBiased(Forward(d, x, w), b, Product(Front(d.output)), Last(d.output)), Product(Front(d.output)), i) ==
            Shifted(Convolved(Conv(d.Sliced(), x, Slice(w, Product(Front(d.filter)), i), false)), b[i])
  {
    ForwardSlice(d, x, w, i);
    AllBiasedSlice(Forward(d, x, w), b, Product(Front(d.output)), Last(d.output), i);
  }

  /** With a one-layer input, output slice `i` of `Forward` is filter `i` convolved over the input. */
  lemma ForwardSlice(d: Dims, x: seq<real>, w: seq<real>, i: nat)
    requires d.Normal() && d.Arity() >= 1 && d.ForwardSupported() && d.ForwardPasses() && Last(d.input) == 1
    requires |x| == Product(d.input) && |w| == Product(d.filter) && i < Last(d.filter)
    ensures Product(d.output) == Last(d.output) * Product(Front(d.output))
    ensures (i + 1) * Product(Front(d.output)) <= Product(d.output)
    ensures (i + 1) * Product(Front(d.filter)) <= |w| && |x| == Product(Front(d.input))
    ensures Slice(Forward(d, x, w), Product(Front(d.output)), i) ==
            Convolved(Conv(d.Sliced(), x, Slice(w, Product(Front(d.filter)), i), false))
  {
    ProductWhole(d.input);
    ProductWhole(d.filter);
    ProductWhole(d.output);
    PerFilterBlock(d.Sliced(), x, w, false, Last(d.filter), i);
  }

  /** Entry `j` of `backPropagate`'s result sums, over the filters, filter `k` flipped against blame layer `k` at `j`. */
  lemma BackwardEntry(d: Dims, w: seq<real>, blame: seq<real>, j: nat)
    requires d.Normal() && d.Arity() >= 1 && d.BackwardSupported() && d.BackwardPasses()
    requires |w| == Product(d.filter) && |blame| == Product(d.output) && j < Product(d.input)
    ensures Last(d.filter) * Product(Front(d.filter)) <= |w| && Last(d.filter) * Product(Front(d.output)) <= |blame|
    ensures j < Product(Front(d.input))
    ensures Backward(d, w, blame)[j] == Sum(Column(d.Back(), w, blame, true, Last(d.filter), j))
  {
    ProductWhole(d.input);
    ProductWhole(d.filter);
    ProductWhole(d.output);
    var s, count := d.Back(), Last(d.filter);
    assert count * Product(s.inDims) <= |w| && count * Product(s.filterDims) <= |blame| && j < Product(s.outDims);
    PerLayerSum(s, w, blame, true, count, j);
  }

  /** Block `i` of the weight-gradient step is the input convolved with blame layer `i`. */
  lemma GradientSlice(d: Dims, x: seq<real>, blame: seq<real>, i: nat)
    requires d.Normal() && d.Arity() >= 1 && d.GradientSupported() && d.GradientPasses()
    requires |x| == Product(d.input) && |blame| == Product(d.output) && i < Last(d.output)
    ensures Product(d.filter) == Last(d.filter) * Product(Front(d.filter)) && |x| == Product(Front(d.input))
    ensures (i + 1) * Product(Front(d.filter)) <= Product(d.filter) && (i + 1) * Product(Front(d.output)) <= |blame|
    ensures Slice(GradientStep(d, x, blame), Product(Front(d.filter)), i) ==
            Convolved(Conv(d.Grad(), x, Slice(blame, Product(Front(d.output)), i), false))
  {
    ProductWhole(d.input);
    ProductWhole(d.filter);
    ProductWhole(d.output);
    MulMonotone(i + 1, Last(d.filter), Product(Front(d.filter)));
    PerFilterBlock(d.Grad(), x, blame, false, Last(d.output), i);
  }

  /**
   * What `activate` does once the convolution `f` is in the activation:
   * splitting a one-dimensional activation throws; otherwise the biases are
   * added slice by slice, a missing bias throwing at the first slice and a
   * short one at the first slice past its end.
   */
  predicate Biases(d: Dims, f: seq<real>, bias: Option<seq<real>>, after: seq<real>, r: Result<seq<real>>)
    requires d.Normal() && d.Arity() >= 1 && |f| == Product(d.output)
  {
    var len, count := Product(Front(d.output)), Last(d.output);
    if d.Arity() == 1 && count > 0 then r == Err(IndexOutOfBounds) && after == f
    else if bias.None? then after == f && r == if count > 0 then Err(NullPointer) else Ok(after)
    else
      ProductWhole(d.output);
      after == AllBiased(f, bias.value, len, count) &&
      r == if |bias.value| < count then Err(IndexOutOfBounds) else Ok(after)
  }

  /**
   * What `activate(x)` does to an activation `act` with the given weights and
   * bias: `after` is the activation once the first failing step has thrown
   * (or all have run), `r` what the call returns or throws. The input and the
   * current activation are viewed with their dimensions, then the activation
   * is zeroed and the convolution written into it.
   */
  ghost predicate Activates(d: Dims, x: seq<real>, act: seq<real>, weights: Option<seq<real>>, bias: Option<seq<real>>,
                            after: seq<real>, r: Result<seq<real>>)
    requires d.Normal() && d.ForwardSupported()
    requires weights.Some? ==> |weights.value| == Product(d.filter)
  {
    if |x| != Product(d.input) then r == Err(Runtime(CountMismatch)) && after == act
    else if d.Arity() == 0 then r == Err(IndexOutOfBounds) && after == act
    else if |act| != Product(d.output) then r == Err(Runtime(CountMismatch)) && after == act
    else if weights.None? then r == Err(NullPointer) && after == Constant(Product(d.output), 0.0)
    else if !d.ForwardPasses() then
      r == Err(if Last(d.filter) != Last(d.output) then IllegalArgument(FilterCountDiffers) else IndexOutOfBounds) &&
      after == Constant(Product(d.output), 0.0)
    else Biases(d, Forward(d, x, weights.value), bias, after, r)
  }

  /** `activate(x)` on the layer's values, one step after the other. */
  method ActivateSteps(d: Dims, x: seq<real>, act: seq<real>, weights: Option<seq<real>>, bias: Option<seq<real>>)
    returns (after: seq<real>, r: Result<seq<real>>)
    requires d.Normal() && d.ForwardSupported()
    requires weights.Some? ==> |weights.value| == Product(d.filter)
    ensures Activates(d, x, act, weights, bias, after, r)
  {
    var input := View(x, d.input);
    if input.Err? {
      return act, Err(input.error);
    }
    if |act| != Product(d.output) {
      return act, Err(Runtime(CountMismatch));
    }
    after := Constant(Product(d.output), 0.0);
    if weights.None? {
      return after, Err(NullPointer);
    }
    var conv := ConvolveForward(d, input.value, weights.value);
    if conv.Err? {
      return after, Err(conv.error);
    }
    after, r := BiasSteps(d, conv.value, bias);
  }

  /** The steps of `activate` after the convolution `f` was written into the activation. */
  method BiasSteps(d: Dims, f: seq<real>, bias: Option<seq<real>>) returns (after: seq<real>, r: Result<seq<real>>)
    requires d.Normal() && d.Arity() >= 1 && |f| == Product(d.output)
    ensures Biases(d, f, bias, after, r)
  {
    // `splitByLastDimension` of a one-dimensional activation throws
    if d.Arity() == 1 && Last(d.output) > 0 {
      return f, Err(IndexOutOfBounds);
    }
    ProductWhole(d.output);
    var status;
    after, status := AddBiases(f, bias, Product(Front(d.output)), Last(d.output));
    r := if status.Fail? then Err(status.error) else Ok(after);
  }

  /**
   * What `backPropagate()` returns or throws for the given weights and blame:
   * a new tensor of the input dimensions (which throws when there are none),
   * the blame viewed with the output dimensions, then `convolvePerLayer` of
   * the weights, flipped, with the blame.
   */
  ghost predicate BacksUp(d: Dims, weights: Option<seq<real>>, blame: seq<real>, r: Result<seq<real>>)
    requires d.Normal() && d.BackwardSupported()
    requires weights.Some? ==> |weights.value| == Product(d.filter)
  {
    if d.Arity() == 0 then r == Err(IndexOutOfBounds)
    else if |blame| != Product(d.output) then r == Err(Runtime(CountMismatch))
    else if weights.None? then r == Err(NullPointer)
    else if Last(d.filter) != Last(d.output) then r == Err(IllegalArgument(LayerCountDiffers))
    else if Last(d.input) != 1 then r == Err(IllegalArgument(ResultNotOneLayer))
    else if d.Arity() == 1 then r == Err(IndexOutOfBounds)
    else r == Ok(Backward(d, weights.value, blame))
  }

  /** `backPropagate()` on the layer's values, one step after the other. */
  method BackwardSteps(d: Dims, weights: Option<seq<real>>, blame: seq<real>) returns (r: Result<seq<real>>)
    requires d.Normal() && d.BackwardSupported()
    requires weights.Some? ==> |weights.value| == Product(d.filter)
    ensures BacksUp(d, weights, blame, r)
  {
    if d.Arity() == 0 {
      return Err(IndexOutOfBounds);
    }
    var e := View(blame, d.output);
    if e.Err? {
      return Err(e.error);
    }
    if weights.None? {
      return Err(NullPointer);
    }
    r := ConvolveBackward(d, weights.value, e.value);
  }

  /**
   * What `updateGradient(x)` does to the gradients `wg` and `bg`, given the
   * blame: `wg'` and `bg'` are the gradients once the first failing step has
   * thrown (or all have run). The input and the blame are viewed with their
   * dimensions, `convolvePerFilter` adds the input convolved with the blame
   * to the weight gradient, then each bias-gradient entry is set to its blame
   * slice's sum. A missing weight gradient throws before anything changes, a
   * missing bias gradient after the weight gradient was updated.
   */
  ghost predicate UpdatesGradient(d: Dims, x: seq<real>, blame: seq<real>, wg: Option<seq<real>>, bg: Option<seq<real>>,
                                  wg': Option<seq<real>>, bg': Option<seq<real>>, status: Outcome)
    requires d.Normal() && d.GradientSupported()
    requires wg.Some? ==> |wg.value| == Product(d.filter)
  {
    if |x| != Product(d.input) then status == Fail(Runtime(CountMismatch)) && wg' == wg && bg' == bg
    else if d.Arity() == 0 then status == Fail(IndexOutOfBounds) && wg' == wg && bg' == bg
    else if |blame| != Product(d.output) then status == Fail(Runtime(CountMismatch)) && wg' == wg && bg' == bg
    else if wg.None? then status == Fail(NullPointer) && wg' == wg && bg' == bg
    else if !d.GradientPasses() then
      status == Fail(if Last(d.input) != 1 then IllegalArgument(InputNotOneLayer)
                     else if Last(d.output) != Last(d.filter) then IllegalArgument(FilterCountDiffers)
                     else IndexOutOfBounds) &&
      wg' == wg && bg' == bg
    else
      wg' == Some(Plus(wg.value, GradientStep(d, x, blame))) &&
      if bg.None? then status == Fail(NullPointer) && bg' == bg
      else
        ProductWhole(d.output);
        status == Pass && bg' == Some(SliceSums(blame, Product(Front(d.output)), Last(d.output)))
  }

  /** `updateGradient(x)` on the layer's values, one step after the other. */
  method GradientSteps(d: Dims, x: seq<real>, blame: seq<real>, wg: Option<seq<real>>, bg: Option<seq<real>>)
    returns (wg': Option<seq<real>>, bg': Option<seq<real>>, status: Outcome)
    requires d.Normal() && d.GradientSupported()
    requires wg.Some? ==> |wg.value| == Product(d.filter)
    requires bg.Some? ==> d.Arity() >= 1 && |bg.value| == Last(d.filter)
    ensures UpdatesGradient(d, x, blame, wg, bg, wg', bg', status)
  {
    wg', bg' := wg, bg;
    var input := View(x, d.input);
    if input.Err? {
      return wg', bg', Fail(input.error);
    }
    var e := View(blame, d.output);
    if e.Err? {
      return wg', bg', Fail(e.error);
    }
    if wg.None? {
      return wg', bg', Fail(NullPointer);
    }
    var sum := ConvolveGradient(d, input.value, e.value, wg.value);
    if sum.Err? {
      return wg', bg', Fail(sum.error);
    }
    wg' := Some(sum.value);
    if bg.None? {
      return wg', bg', Fail(NullPointer);
    }
    ProductWhole(d.output);
    var sums := SetSliceSums(bg.value, blame, Product(Front(d.output)));
    bg' := Some(sums);
    status := Pass;
  }

  /** `Tensor.asTensor(tensor, dims)` of a tensor of dimensions `given` holding `values`: the values, seen with `dims`. */
  method Reshape(values: seq<real>, given: seq<nat>, dims: seq<nat>) returns (r: Result<seq<real>>)
    requires |given| >= 1 && |values| == Product(given)
    ensures r.Ok? <==> given == dims || (|values| == Product(dims) && |dims| >= 1)
    ensures r.Err? && |values| != Product(dims) ==> r.error == IllegalArgument(DimensionsDiffer)
    ensures r.Err? && |values| == Product(dims) ==> r.error == IndexOutOfBounds
    ensures r.Ok? ==> r.value == values
  {
    var t := Wrapped(values, given);
    var v := Tensor.AsTensor(t.vec, Some(t), dims);
    if v.Err? {
      return Err(v.error);
    }
    r := Ok(v.value.Elements());
  }

  /**
   * The root package's `ConvolutionLayer`, with what it inherits from
   * `ConnectedLayer`. Parameters and gradients are held as flat values; a
   * null one is `None`.
   */
  class ConvolutionLayer {
    const base: Layers.Layer
    const inputDimensions: seq<nat>
    const filterDimensions: seq<nat>
    const outputDimensions: seq<nat>
    var weights: Option<seq<real>>
    var bias: Option<seq<real>>
    var weightsGradient: Option<seq<real>>
    var biasGradient: Option<seq<real>>

    function Dimensions(): Dims
    {
      Dims(inputDimensions, filterDimensions, outputDimensions)
    }

    /**
     * The dimensions are normalized and give the base its sizes; weights and
     * weight gradient have the filter's element count, bias and bias gradient
     * one entry per filter.
     */
    ghost predicate Valid()
      reads this
    {
      var d := Dimensions();
      d.Normal() && base.kind == Layers.Convolution && !base.connected &&
      base.inputs == Product(d.input) && base.outputs == Product(d.output) &&
      (weights.Some? ==> d.Arity() >= 1 && |weights.value| == Product(d.filter)) &&
      (weightsGradient.Some? ==> d.Arity() >= 1 && |weightsGradient.value| == Product(d.filter)) &&
      (bias.Some? ==> d.Arity() >= 1 && |bias.value| == Last(d.filter)) &&
      (biasGradient.Some? ==> d.Arity() >= 1 && |biasGradient.value| == Last(d.filter))
    }

    /**
     * `ConvolutionLayer(inputDimensions, filterDimensions, outputDimensions)`:
     * the base takes the element counts as its sizes, the dimensions are
     * normalized, and there are no parameters or gradients yet.
     */
    constructor (inputDimensions: seq<nat>, filterDimensions: seq<nat>, outputDimensions: seq<nat>)
      ensures Valid() && fresh(base)
      ensures Dimensions() == Normalize(Dims(inputDimensions, filterDimensions, outputDimensions))
      ensures base.inputs == Product(inputDimensions) && base.outputs == Product(outputDimensions)
      ensures base.activation == Constant(base.outputs, 0.0) && base.blame == Constant(base.outputs, 0.0)
      ensures weights == None && bias == None && weightsGradient == None && biasGradient == None
    {
      var given := Dims(inputDimensions, filterDimensions, outputDimensions);
      var d := Normalize(given);
      NormalizeKeepsCounts(given);
      base := new Layers.Layer(Layers.Convolution, false, Product(inputDimensions), Product(outputDimensions));
      this.inputDimensions, this.filterDimensions, this.outputDimensions := d.input, d.filter, d.output;
      weights, bias, weightsGradient, biasGradient := None, None, None, None;
    }

    /** `copy()`: a new layer of the same dimensions and sizes, without parameters or gradients. */
    method Copy() returns (c: ConvolutionLayer)
      requires Valid()
      ensures fresh(c) && fresh(c.base) && c.Valid() && c.Dimensions() == Dimensions()
      ensures c.base.inputs == base.inputs && c.base.outputs == base.outputs
      ensures c.weights == None && c.bias == None && c.weightsGradient == None && c.biasGradient == None
    {
      c := new ConvolutionLayer(inputDimensions, filterDimensions, outputDimensions);
      NormalizeNormal(Dimensions());
    }

    /**
     * `setWeights(filter)` for a filter tensor of dimensions `given`: it is
     * viewed with the filter dimensions, which fails when the counts differ.
     * The check against the current weights that follows can never throw,
     * since both have the filter dimensions by then.
     */
    method SetWeights(w: seq<real>, given: seq<nat>) returns (status: Outcome)
      requires Valid() && |given| >= 1 && |w| == Product(given)
      modifies this
      ensures Valid() && bias == old(bias) && weightsGradient == old(weightsGradient) && biasGradient == old(biasGradient)
      ensures status.Fail? <==> given != filterDimensions && (|w| != Product(filterDimensions) || |filterDimensions| == 0)
      ensures status.Fail? && |w| != Product(filterDimensions) ==> status.error == IllegalArgument(DimensionsDiffer)
      ensures status.Fail? && |w| == Product(filterDimensions) ==> status.error == IndexOutOfBounds
      ensures status.Fail? ==> weights == old(weights)
      ensures status.Pass? ==> weights == Some(w)
    {
      var filter := Reshape(w, given, filterDimensions);
      if filter.Err? {
        return Fail(filter.error);
      }
      weights := Some(filter.value);
      status := Pass;
    }

    /** `setBias(bias)`: it must have one entry per filter. */
    method SetBias(b: seq<real>) returns (status: Outcome)
      requires Valid()
      modifies this
      ensures Valid() && weights == old(weights) && weightsGradient == old(weightsGradient) && biasGradient == old(biasGradient)
      ensures status.Fail? <==> |filterDimensions| == 0 || |b| != Last(filterDimensions)
      ensures |filterDimensions| == 0 ==> status == Fail(IndexOutOfBounds)
      ensures |filterDimensions| >= 1 && |b| != Last(filterDimensions) ==> status == Fail(IllegalArgument(BiasLength))
      ensures status.Fail? ==> bias == old(bias)
      ensures status.Pass? ==> bias == Some(b)
    {
      if |filterDimensions| == 0 {
        return Fail(IndexOutOfBounds);
      }
      if |b| != Last(filterDimensions) {
        return Fail(IllegalArgument(BiasLength));
      }
      bias := Some(b);
      status := Pass;
    }

    /**
     * `resetGradient()`: missing gradients are created with the filter's
     * shape (which throws when there are no dimensions), then both are
     * filled with zeros.
     */
    method ResetGradient() returns (status: Outcome)
      requires Valid()
      modifies this
      ensures Valid() && weights == old(weights) && bias == old(bias)
      ensures status.Fail? <==> |filterDimensions| == 0
      ensures status.Fail? ==> status.error == IndexOutOfBounds
      ensures status.Fail? ==> weightsGradient == old(weightsGradient) && biasGradient == old(biasGradient)
      ensures status.Pass? ==> weightsGradient == Some(Constant(Product(filterDimensions), 0.0))
      ensures status.Pass? ==> biasGradient == Some(Constant(Last(filterDimensions), 0.0))
    {
      if weightsGradient.None? {
        if |filterDimensions| == 0 {
          return Fail(IndexOutOfBounds);
        }
        weightsGradient := Some(Constant(Product(filterDimensions), 0.0));
      }
      if biasGradient.None? {
        biasGradient := Some(Constant(Last(filterDimensions), 0.0));
      }
      weightsGradient := Some(Constant(|weightsGradient.value|, 0.0));
      biasGradient := Some(Constant(|biasGradient.value|, 0.0));
      status := Pass;
    }

    /**
     * `fillAll(supplier)`: the weights take successive draws in element
     * order, then the bias the draws after those; null weights throw before
     * any draw, a null bias after the weights were filled. `next` is the
     * first draw left unused.
     */
    method FillAll(source: nat -> real, first: nat) returns (status: Outcome, next: nat)
      requires Valid()
      modifies this
      ensures Valid() && weightsGradient == old(weightsGradient) && biasGradient == old(biasGradient)
      ensures status.Fail? <==> old(weights).None? || old(bias).None?
      ensures status.Fail? ==> status.error == NullPointer && bias == old(bias)
      ensures old(weights).None? ==> weights == None && next == first
      ensures old(weights).Some? ==> weights == Some(Grids.Supplied(source, first, Product(filterDimensions)))
      ensures status.Pass? ==> bias == Some(Grids.Supplied(source, first + Product(filterDimensions), Last(filterDimensions)))
      ensures status.Pass? ==> next == first + Product(filterDimensions) + Last(filterDimensions)
    {
      next := first;
      if weights.None? {
        return Fail(NullPointer), next;
      }
      var n := |weights.value|;
      weights := Some(Grids.Supplied(source, next, n));
      next := next + n;
      if bias.None? {
        return Fail(NullPointer), next;
      }
      var m := |bias.value|;
      bias := Some(Grids.Supplied(source, next, m));
      next := next + m;
      status := Pass;
    }

    /**
     * `initialize()`: `resetGradient()`, a zero activation of the output
     * dimensions, zero weights of the filter dimensions and a zero bias of one
     * entry per filter, then `fillAll` with Gaussian draws scaled by
     * `InitialScale` of the filter's element count.
     */
    method Initialize(gaussian: nat -> real, first: nat) returns (status: Outcome, next: nat)
      requires Valid()
      modifies this, base
      ensures Valid() && base.blame == old(base.blame)
      ensures status.Fail? <==> |filterDimensions| == 0
      ensures status.Fail? ==> status.error == IndexOutOfBounds && next == first
      ensures status.Fail? ==> weights == old(weights) && bias == old(bias) && base.activation == old(base.activation)
      ensures status.Pass? ==> base.activation == Constant(Product(outputDimensions), 0.0)
      ensures status.Pass? ==> weightsGradient == Some(Constant(Product(filterDimensions), 0.0))
      ensures status.Pass? ==> biasGradient == Some(Constant(Last(filterDimensions), 0.0))
      ensures var source := ScaledDraws(gaussian, InitialScale(Product(filterDimensions)));
        status.Pass? ==> weights == Some(Grids.Supplied(source, first, Product(filterDimensions))) &&
                         bias == Some(Grids.Supplied(source, first + Product(filterDimensions), Last(filterDimensions))) &&
                         next == first + Product(filterDimensions) + Last(filterDimensions)
    {
      next := first;
      status := ResetGradient();
      if status.Fail? {
        return;
      }
      base.SetActivation(Constant(Product(outputDimensions), 0.0));
      var ignored := SetWeights(Constant(Product(filterDimensions), 0.0), filterDimensions);
      ignored := SetBias(Constant(Last(filterDimensions), 0.0));
      status, next := FillAll(ScaledDraws(gaussian, InitialScale(Product(filterDimensions))), first);
    }

    /**
     * `activate(x)`: the activation becomes the convolution of `x` with the
     * filters plus the biases, slice by slice, and is returned; see
     * `Activates` for the steps and what each failing one leaves behind.
     */
    method Activate(x: seq<real>) returns (r: Result<seq<real>>)
      requires Valid() && Dimensions().ForwardSupported()
      modifies base
      ensures base.blame == old(base.blame)
      ensures Activates(Dimensions(), x, old(base.activation), weights, bias, base.activation, r)
    {
      var after;
      after, r := ActivateSteps(Dimensions(), x, base.activation, weights, bias);
      base.SetActivation(after);
    }

    /** `backPropagate()`: the weights, flipped, convolved with the blame; nothing changes. */
    method BackPropagate() returns (r: Result<seq<real>>)
      requires Valid() && Dimensions().BackwardSupported()
      ensures BacksUp(Dimensions(), weights, base.blame, r)
    {
      r := BackwardSteps(Dimensions(), weights, base.blame);
    }

    /**
     * `updateGradient(x)`: the weight gradient grows by the input convolved
     * with the blame, and the bias gradient is set to the blame's slice sums.
     */
    method UpdateGradient(x: seq<real>) returns (status: Outcome)
      requires Valid() && Dimensions().GradientSupported()
      modifies this
      ensures Valid() && weights == old(weights) && bias == old(bias)
      ensures UpdatesGradient(Dimensions(), x, base.blame, old(weightsGradient), old(biasGradient),
                              weightsGradient, biasGradient, status)
    {
      var wg, bg;
      wg, bg, status := GradientSteps(Dimensions(), x, base.blame, weightsGradient, biasGradient);
      weightsGradient, biasGradient := wg, bg;
    }

    /** Everything `applyGradient` touches exists. */
    predicate Applicable()
      reads this
    {
      weights.Some? && weightsGradient.Some? && bias.Some? && biasGradient.Some?
    }

    /**
     * `applyGradient(learningRate, momentum)`: the weights and the bias move
     * by `learningRate` times their gradients, then the gradients are scaled
     * by `momentum`. Null weights or weight gradient throw before anything
     * changes; a null bias or bias gradient after the weights have moved.
     */
    method ApplyGradient(learningRate: real, momentum: real) returns (status: Outcome)
      requires Valid()
      modifies this
      ensures Valid()
      ensures status.Fail? <==> !old(Applicable())
      ensures status.Fail? ==> status.error == NullPointer
      ensures status.Fail? ==> bias == old(bias) && weightsGradient == old(weightsGradient) && biasGradient == old(biasGradient)
      ensures old(weights).None? || old(weightsGradient).None? ==> weights == old(weights)
      ensures old(weights).Some? && old(weightsGradient).Some? ==>
        weights == Some(PlusScaled(old(weights).value, learningRate, old(weightsGradient).value))
      ensures status.Pass? ==> bias == Some(PlusScaled(old(bias).value, learningRate, old(biasGradient).value))
      ensures status.Pass? ==> weightsGradient == Some(Scaled(old(weightsGradient).value, momentum))
      ensures status.Pass? ==> biasGradient == Some(Scaled(old(biasGradient).value, momentum))
    {
      if weights.None? || weightsGradient.None? {
        return Fail(NullPointer);
      }
      var g := weightsGradient.value;
      weights := Some(PlusScaled(weights.value, learningRate, g));
      if bias.None? || biasGradient.None? {
        return Fail(NullPointer);
      }
      var bg := biasGradient.value;
      bias := Some(PlusScaled(bias.value, learningRate, bg));
      weightsGradient := Some(Scaled(g, momentum));
      biasGradient := Some(Scaled(bg, momentum));
      status := Pass;
    }

    /** `applyGradient(learningRate)`: no momentum, so the gradients end up all zero. */
    method ApplyGradientNoMomentum(learningRate: real) returns (status: Outcome)
      requires Valid()
      modifies this
      ensures Valid()
      ensures status.Fail? <==> !old(Applicable())
      ensures status.Pass? ==> weights == Some(PlusScaled(old(weights).value, learningRate, old(weightsGradient).value))
      ensures status.Pass? ==> bias == Some(PlusScaled(old(bias).value, learningRate, old(biasGradient).value))
      ensures status.Pass? ==> weightsGradient == Some(Constant(Product(filterDimensions), 0.0))
      ensures status.Pass? ==> biasGradient == Some(Constant(Last(filterDimensions), 0.0))
    {
      status := ApplyGradient(learningRate, 0.0);
      if status.Pass? {
        assert Scaled(old(weightsGradient).value, 0.0) == Constant(Product(filterDimensions), 0.0);
        assert Scaled(old(biasGradient).value, 0.0) == Constant(Last(filterDimensions), 0.0);
      }
    }
  }
}
