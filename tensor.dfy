// The com.jace Tensor: a strided N-dimensional view over a Vector, with
// dimension 0 varying fastest, and the convolution entry points built on
// the loop nest of module Convolution.
module Tensors {
  import opened Wrappers
  import opened Indexing
  import opened Numeric
  import opened Vectors
  import opened Convolution
  import Fixtures

  // The messages of the exceptions the tensor code throws.
  const InvalidPosition := "Invalid number of dimensions for position"
  const CountMismatch := "Mismatching sizes"
  const DimensionsDiffer := "The desired dimensions are different than the existing com.jace.math.Tensor's dimensions."
  const ArityDiffers := "Expected tensors with the same number of dimensions."
  const InputNotOneLayer := "Expected the input tensor to be 1 in the last dimension."
  const FilterCountDiffers := "Expected the number of output tensors to be the same as the number of filters."
  const LayerCountDiffers := "Expected the input and filter to have the same last dimension."
  const ResultNotOneLayer := "Expected the result com.jace.math.Tensor to have a final dimension of 1."

  /** `sizesEqual`: the two dimension arrays have the same length and the same entries. */
  method SizesEqual(first: seq<nat>, second: seq<nat>) returns (r: bool)
    ensures r <==> first == second
  {
    if |first| != |second| {
      return false;
    }
    var i := 0;
    while i < |first|
      invariant 0 <= i <= |first|
      invariant first[..i] == second[..i]
    {
      if first[i] != second[i] {
        return false;
      }
      assert first[..i + 1] == first[..i] + [first[i]];
      assert second[..i + 1] == second[..i] + [second[i]];
      i := i + 1;
    }
    assert first == first[..i] && second == second[..i];
    return true;
  }

  /** `initializeDimensionSteps`: `steps[0] = 1` (which throws for no dimensions), `steps[i] = steps[i-1] * dims[i-1]`. */
  method InitializeDimensionSteps(dims: seq<nat>) returns (r: Result<seq<nat>>)
    ensures r.Err? <==> |dims| == 0
    ensures r.Err? ==> r.error == IndexOutOfBounds
    ensures r.Ok? ==> r.value == Strides(dims)
  {
    if |dims| == 0 {
      return Err(IndexOutOfBounds);
    }
    var steps: seq<nat> := [1];
    var i := 1;
    while i < |dims|
      invariant 1 <= i <= |dims|
      invariant steps == Strides(dims)[..i]
    {
      ProductStep(dims, i - 1);
      steps := steps + [steps[i - 1] * dims[i - 1]];
      i := i + 1;
    }
    return Ok(steps);
  }

  /** Writing one in-range position changes that position and no other one. */
  lemma {:induction false} WriteAt(before: seq<real>, after: seq<real>, d: seq<nat>, p: seq<int>, v: real)
    requires |before| == Product(d) && InBox(p, d)
    requires 0 <= Flat(p, d) < |before| && after == before[Flat(p, d) := v]
    ensures forall q :: InBox(q, d) ==>
      0 <= Flat(q, d) < |after| && after[Flat(q, d)] == if q == p then v else before[Flat(q, d)]
  {
    forall q | InBox(q, d)
      ensures 0 <= Flat(q, d) < |after| && after[Flat(q, d)] == if q == p then v else before[Flat(q, d)]
    {
      FlatBounds(q, d);
      if q != p && Flat(q, d) == Flat(p, d) {
        FlatInjective(q, p, d);
      }
    }
  }

  /** Block `i` of `Product(d[..n-1])` elements ends inside the whole tensor. */
  lemma SliceBound(d: seq<nat>, i: nat)
    requires |d| >= 1 && i < d[|d| - 1]
    ensures (i + 1) * Product(d[..|d| - 1]) <= Product(d)
  {
    MulMonotone(i + 1, d[|d| - 1], Product(d[..|d| - 1]));
  }

  /** Block `i` of length `len` of a flat sequence. */
  function Slice(e: seq<real>, len: nat, i: nat): (r: seq<real>)
    requires (i + 1) * len <= |e|
    ensures |r| == len && forall j :: 0 <= j < len ==> r[j] == e[i * len + j]
  {
    seq(len, j requires 0 <= j < len => e[i * len + j])
  }

  /**
   * What `convolvePerFilter` adds to the output: output block `i` receives the
   * convolution of the input with filter block `i`, for the first `count` filters.
   */
  ghost function PerFilter(s: Shape, input: seq<real>, filters: seq<real>, flip: bool, count: nat): (r: seq<real>)
    requires count > 0 ==> s.Centred()
    requires |input| == Product(s.inDims) && count * Product(s.filterDims) <= |filters|
    ensures |r| == count * Product(s.outDims)
  {
    if count == 0 then []
    else
      MulMonotone(count - 1, count, Product(s.filterDims));
      PerFilter(s, input, filters, flip, count - 1) +
      Convolved(Conv(s, input, Slice(filters, Product(s.filterDims), count - 1), flip))
  }

  /**
   * What `convolvePerLayer` adds to the result: the sum over the first `count`
   * layers of the convolution of input block `i` with filter block `i`.
   */
  ghost function PerLayer(s: Shape, inputs: seq<real>, filters: seq<real>, flip: bool, count: nat): (r: seq<real>)
    requires count > 0 ==> s.Centred()
    requires count * Product(s.inDims) <= |inputs| && count * Product(s.filterDims) <= |filters|
    ensures |r| == Product(s.outDims)
  {
    if count == 0 then Constant(Product(s.outDims), 0.0)
    else
      MulMonotone(count - 1, count, Product(s.inDims));
      MulMonotone(count - 1, count, Product(s.filterDims));
      var layer := Convolved(Conv(s, Slice(inputs, Product(s.inDims), count - 1),
                                  Slice(filters, Product(s.filterDims), count - 1), flip));
      Plus(PerLayer(s, inputs, filters, flip, count - 1), layer)
  }

  /** Output block `i` of the per-filter result is the convolution with filter block `i` alone. */
  lemma {:induction false} PerFilterBlock(s: Shape, input: seq<real>, filters: seq<real>, flip: bool, count: nat, i: nat)
    requires s.Centred() && |input| == Product(s.inDims) && count * Product(s.filterDims) <= |filters|
    requires i < count
    ensures (i + 1) * Product(s.filterDims) <= |filters| && (i + 1) * Product(s.outDims) <= count * Product(s.outDims)
    ensures Slice(PerFilter(s, input, filters, flip, count), Product(s.outDims), i) ==
            Convolved(Conv(s, input, Slice(filters, Product(s.filterDims), i), flip))
  {
    var f, o := Product(s.filterDims), Product(s.outDims);
    MulMonotone(i + 1, count, f);
    MulMonotone(i + 1, count, o);
    var whole := PerFilter(s, input, filters, flip, count);
    if i < count - 1 {
      MulMonotone(count - 1, count, f);
      MulMonotone(i + 1, count - 1, o);
      PerFilterBlock(s, input, filters, flip, count - 1, i);
      var front := PerFilter(s, input, filters, flip, count - 1);
      assert whole[..|front|] == front;
      assert Slice(whole, o, i) == Slice(front, o, i);
    } else {
      assert |PerFilter(s, input, filters, flip, count - 1)| == i * o;
    }
  }

  /** Element `j` of each of the first `count` layer convolutions, in layer order. */
  ghost function Column(s: Shape, inputs: seq<real>, filters: seq<real>, flip: bool, count: nat, j: nat): (r: seq<real>)
    requires count > 0 ==> s.Centred()
    requires count * Product(s.inDims) <= |inputs| && count * Product(s.filterDims) <= |filters|
    requires j < Product(s.outDims)
    ensures |r| == count
  {
    if count == 0 then []
    else
      MulMonotone(count - 1, count, Product(s.inDims));
      MulMonotone(count - 1, count, Product(s.filterDims));
      var layer := Convolved(Conv(s, Slice(inputs, Product(s.inDims), count - 1),
                                  Slice(filters, Product(s.filterDims), count - 1), flip));
      Column(s, inputs, filters, flip, count - 1, j) + [layer[j]]
  }

  /** Each element of the per-layer result is the sum of that element over the layers. */
  lemma {:induction false} PerLayerSum(s: Shape, inputs: seq<real>, filters: seq<real>, flip: bool, count: nat, j: nat)
    requires count > 0 ==> s.Centred()
    requires count * Product(s.inDims) <= |inputs| && count * Product(s.filterDims) <= |filters|
    requires j < Product(s.outDims)
    ensures PerLayer(s, inputs, filters, flip, count)[j] == Sum(Column(s, inputs, filters, flip, count, j))
  {
    if count > 0 {
      MulMonotone(count - 1, count, Product(s.inDims));
      MulMonotone(count - 1, count, Product(s.filterDims));
      PerLayerSum(s, inputs, filters, flip, count - 1, j);
      var col := Column(s, inputs, filters, flip, count, j);
      assert col[..count - 1] == Column(s, inputs, filters, flip, count - 1, j);
    }
  }

  class Tensor {
    /** The Vector this tensor extends: a view of the whole of the wrapped vector. */
    const vec: Vector
    const dims: seq<nat>
    const steps: seq<nat>

    ghost predicate Valid()
    {
      vec.Valid() && |dims| >= 1 && Product(dims) == vec.len && steps == Strides(dims)
    }

    /** The elements in flat order (dimension 0 fastest). */
    function Elements(): (s: seq<real>)
      reads vec.vals
      requires Valid()
      ensures |s| == Product(dims)
    {
      vec.Elements()
    }

    /** The element at an in-range position. */
    function At(p: seq<int>): real
      reads vec.vals
      requires Valid() && InBox(p, dims)
    {
      FlatBounds(p, dims);
      Elements()[Flat(p, dims)]
    }

    function LastDimension(): nat
      requires Valid()
    {
      dims[|dims| - 1]
    }

    constructor Init(v: Vector, d: seq<nat>, st: seq<nat>)
      requires v.Valid() && |d| >= 1 && Product(d) == v.len && st == Strides(d)
      ensures Valid() && vec == v && dims == d
    {
      vec := v;
      dims := d;
      steps := st;
    }

    /** `new Tensor(int[] dimensions)`: a fresh zero vector of the element count. */
    static method Create(d: seq<nat>) returns (r: Result<Tensor>)
      ensures r.Err? <==> |d| == 0
      ensures r.Err? ==> r.error == IndexOutOfBounds
      ensures r.Ok? ==> fresh(r.value) && fresh(r.value.vec) && fresh(r.value.vec.vals) && r.value.Valid()
      ensures r.Ok? ==> r.value.dims == d && r.value.Elements() == Constant(Product(d), 0.0)
    {
      var v := new Vector.Make(Product(d));
      var st := InitializeDimensionSteps(d);
      if st.Err? {
        return Err(st.error);
      }
      var t := new Tensor.Init(v, d, st.value);
      return Ok(t);
    }

    /** `new Tensor(Vector, int[])`: a view of `values`; throws unless the element counts agree. */
    static method FromVector(values: Vector, d: seq<nat>) returns (r: Result<Tensor>)
      requires values.Valid()
      ensures r.Err? <==> Product(d) != values.len || |d| == 0
      ensures r.Err? && Product(d) != values.len ==> r.error == Runtime(CountMismatch)
      ensures r.Err? && Product(d) == values.len ==> r.error == IndexOutOfBounds
      ensures r.Ok? ==> fresh(r.value) && fresh(r.value.vec) && r.value.Valid() && r.value.dims == d
      ensures r.Ok? ==> r.value.vec.vals == values.vals && r.value.vec.start == values.start
      ensures r.Ok? ==> r.value.vec.nullBacked == values.nullBacked && r.value.Elements() == values.Elements()
    {
      var v := new Vector.View(values, 0, values.len);
      var total := Product(d);
      if total != values.len {
        return Err(Runtime(CountMismatch));
      }
      var st := InitializeDimensionSteps(d);
      if st.Err? {
        return Err(st.error);
      }
      var t := new Tensor.Init(v, d, st.value);
      return Ok(t);
    }

    /** The copy constructor: wraps the same values, owns its own dimensions. */
    static method CopyOf(other: Tensor) returns (t: Tensor)
      requires other.Valid()
      ensures fresh(t) && fresh(t.vec) && t.Valid() && t.dims == other.dims
      ensures t.vec.vals == other.vec.vals && t.vec.start == other.vec.start && t.Elements() == other.Elements()
    {
      var v := new Vector.View(other.vec, 0, other.vec.len);
      var st := InitializeDimensionSteps(other.dims);
      t := new Tensor.Init(v, other.dims, st.value);
    }

    /** `calculateIndex`: `Σ position[i] * steps[i]`; no bounds check on the coordinates. */
    method CalculateIndex(position: seq<int>) returns (r: Result<int>)
      requires Valid()
      ensures r.Err? <==> |position| != |dims|
      ensures r.Err? ==> r.error == IllegalArgument(InvalidPosition)
      ensures r.Ok? ==> r.value == Flat(position, dims)
    {
      if |position| != |dims| {
        return Err(IllegalArgument(InvalidPosition));
      }
      var index := 0;
      var i := 0;
      while i < |dims|
        invariant 0 <= i <= |dims|
        invariant index == Flat(position[..i], dims[..i])
      {
        assert position[..i + 1][..i] == position[..i] && dims[..i + 1][..i] == dims[..i];
        index := index + position[i] * steps[i];
        i := i + 1;
      }
      assert position[..i] == position && dims[..i] == dims;
      return Ok(index);
    }

    /** `get(position)`: reads the backing array at `start + index`, which may lie outside the window. */
    method Get(position: seq<int>) returns (r: Result<real>)
      requires Valid()
      ensures |position| != |dims| ==> r == Err(IllegalArgument(InvalidPosition))
      ensures |position| == |dims| ==>
        (r.Ok? <==> !vec.nullBacked && 0 <= vec.start + Flat(position, dims) < vec.vals.Length)
      ensures |position| == |dims| && r.Ok? ==> r.value == vec.vals[vec.start + Flat(position, dims)]
      ensures |position| == |dims| && r.Err? ==> r.error == if vec.nullBacked then NullPointer else IndexOutOfBounds
      ensures InBox(position, dims) ==> r == Ok(At(position))
    {
      var index := CalculateIndex(position);
      if index.Err? {
        return Err(index.error);
      }
      if InBox(position, dims) {
        FlatBounds(position, dims);
      }
      if vec.nullBacked {
        return Err(NullPointer);
      }
      if !(0 <= vec.start + index.value < vec.vals.Length) {
        return Err(IndexOutOfBounds);
      }
      return Ok(vec.vals[vec.start + index.value]);
    }

    /** `set(value, position)`: writes the backing array at `start + index`. */
    method Set(value: real, position: seq<int>) returns (status: Outcome)
      requires Valid()
      modifies vec.vals
      ensures |position| != |dims| ==> status == Fail(IllegalArgument(InvalidPosition))
      ensures |position| == |dims| ==>
        (status.Pass? <==> !vec.nullBacked && 0 <= vec.start + Flat(position, dims) < vec.vals.Length)
      ensures status.Fail? ==> vec.vals[..] == old(vec.vals[..])
      ensures status.Pass? ==>
        |position| == |dims| && 0 <= vec.start + Flat(position, dims) < vec.vals.Length &&
        vec.vals[..] == old(vec.vals[..])[vec.start + Flat(position, dims) := value]
      ensures InBox(position, dims) ==>
        status.Pass? && forall q :: InBox(q, dims) ==> At(q) == if q == position then value else old(At(q))
    {
      var index := CalculateIndex(position);
      if index.Err? {
        return Fail(index.error);
      }
      if InBox(position, dims) {
        FlatBounds(position, dims);
      }
      if vec.nullBacked {
        return Fail(NullPointer);
      }
      if !(0 <= vec.start + index.value < vec.vals.Length) {
        return Fail(IndexOutOfBounds);
      }
      ghost var before := Elements();
      vec.vals[vec.start + index.value] := value;
      if InBox(position, dims) {
        assert Elements() == before[index.value := value];
        WriteAt(before, Elements(), dims, position, value);
      }
      return Pass;
    }
    /**
     * `asTensor`: `asTensor` is `Some(t)` when `value` is the Vector part of a
     * Tensor `t`. Such a tensor is returned as it is when its dimensions are the
     * desired ones; otherwise a new view of `value` is made, which needs the
     * element counts to agree.
     */
    static method AsTensor(value: Vector, asTensor: Option<Tensor>, d: seq<nat>) returns (r: Result<Tensor>)
      requires value.Valid()
      requires asTensor.Some? ==> asTensor.value.Valid() && asTensor.value.vec == value
      ensures asTensor.Some? && asTensor.value.dims == d ==> r == Ok(asTensor.value)
      ensures asTensor.None? || asTensor.value.dims != d ==>
        (r.Ok? <==> Product(d) == value.len && |d| >= 1)
      ensures asTensor.None? && Product(d) != value.len ==> r == Err(Runtime(CountMismatch))
      ensures asTensor.Some? && Product(d) != value.len ==>
        r == Err(IllegalArgument(DimensionsDiffer))
      ensures Product(d) == value.len && |d| == 0 ==> r == Err(IndexOutOfBounds)
      ensures r.Ok? && (asTensor.None? || asTensor.value.dims != d) ==>
        fresh(r.value) && r.value.Valid() && r.value.dims == d &&
        r.value.vec.vals == value.vals && r.value.vec.start == value.start && r.value.Elements() == value.Elements()
      ensures r.Ok? && (asTensor.None? || asTensor.value.dims != d) ==> r.value.vec.nullBacked == value.nullBacked
    {
      var result;
      if asTensor.Some? {
        result := asTensor.value;
      } else {
        var made := FromVector(value, d);
        if made.Err? {
          return Err(made.error);
        }
        result := made.value;
      }
      var same := SizesEqual(result.dims, d);
      if !same {
        if Product(result.dims) == Product(d) {
          r := FromVector(value, d);
          return;
        } else {
          return Err(IllegalArgument(DimensionsDiffer));
        }
      }
      return Ok(result);
    }

    /** The element count of one slice along the last dimension: the last stride. */
    function SliceLength(): nat
      requires Valid()
    {
      Product(dims[..|dims| - 1])
    }

    /** The elements form `LastDimension()` blocks of `SliceLength()` elements. */
    lemma Layers()
      requires Valid()
      ensures |Elements()| == LastDimension() * SliceLength()
    {
      ProductWhole(dims);
    }

    /** `t` is slice `i` of this tensor: a view of the `i`-th block of `SliceLength()` elements. */
    ghost predicate IsSlice(t: Tensor, i: nat)
      requires Valid()
    {
      t.Valid() && t.vec.vals == vec.vals && t.vec.nullBacked == vec.nullBacked &&
      t.vec.start == vec.start + i * SliceLength() && t.vec.len == SliceLength() && t.dims == dims[..|dims| - 1]
    }

    /** Slice `i` holds the `i`-th block of this tensor's elements. */
    lemma SliceElements(t: Tensor, i: nat)
      requires Valid() && IsSlice(t, i) && i < LastDimension()
      ensures (i + 1) * SliceLength() <= |Elements()|
      ensures t.Elements() == Slice(Elements(), SliceLength(), i)
    {
      SliceBound(dims, i);
      var l, a := SliceLength(), i * SliceLength();
      assert (i + 1) * l == a + l;
      var whole, part := Elements(), t.Elements();
      assert forall j :: 0 <= j < l ==> part[j] == vec.vals[vec.start + a + j] == whole[a + j];
    }

    /**
     * `splitByLastDimension`: one view per index of the last dimension, each with
     * the remaining dimensions; a 1-dimensional tensor of positive length throws,
     * because its slices would have no dimensions.
     */
    method SplitByLastDimension() returns (r: Result<seq<Tensor>>)
      requires Valid()
      ensures r.Err? <==> |dims| == 1 && dims[0] > 0
      ensures r.Err? ==> r.error == IndexOutOfBounds
      ensures r.Ok? ==> |r.value| == LastDimension()
      ensures r.Ok? ==> forall i :: 0 <= i < |r.value| ==> fresh(r.value[i]) && IsSlice(r.value[i], i)
    {
      var n := |dims|;
      var numResults := dims[n - 1];
      var lastStep := steps[n - 1];
      var resultDims := dims[..n - 1];
      var result: seq<Tensor> := [];
      var i := 0;
      while i < numResults
        invariant 0 <= i <= numResults && |result| == i
        invariant n == 1 ==> i == 0
        invariant forall j :: 0 <= j < i ==> fresh(result[j]) && IsSlice(result[j], j)
      {
        SliceBound(dims, i);
        var segmentVector := new Vector.View(vec, i * lastStep, lastStep);
        var segment := FromVector(segmentVector, resultDims);
        if segment.Err? {
          return Err(segment.error);
        }
        result := result + [segment.value];
        i := i + 1;
      }
      return Ok(result);
    }

    /** `checkDimensions`: the three tensors have the same number of dimensions. */
    static function CheckDimensions(input: Tensor, filter: Tensor, out: Tensor): (status: Outcome)
      ensures status.Pass? <==> |input.dims| == |filter.dims| == |out.dims|
      ensures status.Fail? ==> status.error == IllegalArgument(ArityDiffers)
    {
      if |input.dims| != |filter.dims| || |input.dims| != |out.dims| then
        Fail(IllegalArgument(ArityDiffers))
      else Pass
    }

    /** The convolution problem three tensors pose. */
    static ghost function ConvOf(input: Tensor, filter: Tensor, out: Tensor, flip: bool): Conv
      reads input.vec.vals, filter.vec.vals
      requires input.Valid() && filter.Valid()
    {
      Conv(Shape(input.dims, filter.dims, out.dims), input.Elements(), filter.Elements(), flip)
    }

    /**
     * `convolve` with stride 1: after the dimension check, adds the convolution of
     * `input` with `filter` to the existing contents of `out`.
     */
    static method Convolve(input: Tensor, filter: Tensor, out: Tensor, flip: bool) returns (status: Outcome)
      requires input.Valid() && filter.Valid() && out.Valid()
      requires out.vec.vals != input.vec.vals && out.vec.vals != filter.vec.vals
      requires Shape(input.dims, filter.dims, out.dims).SameArity() ==> Shape(input.dims, filter.dims, out.dims).Centred()
      modifies out.vec.vals
      ensures status == CheckDimensions(input, filter, out)
      ensures status.Fail? ==> out.vec.vals[..] == old(out.vec.vals[..])
      ensures status.Pass? ==>
        out.vec.vals[..] == AddedInto(old(out.vec.vals[..]), out.vec.start, Convolved(old(ConvOf(input, filter, out, flip))))
    {
      status := CheckDimensions(input, filter, out);
      if status.Fail? {
        return;
      }
      var c := Conv(Shape(input.dims, filter.dims, out.dims), input.vec.vals[input.vec.start..input.vec.start + input.vec.len],
                    filter.vec.vals[filter.vec.start..filter.vec.start + filter.vec.len], flip);
      Convolution.Convolve(c, out.vec.vals, out.vec.start);
    }
    /** The shapes of the slices the per-filter and per-layer convolutions work on. */
    static function Lowered(input: Tensor, filter: Tensor, out: Tensor): Shape
      requires input.Valid() && filter.Valid() && out.Valid()
    {
      Shape(input.dims[..|input.dims| - 1], filter.dims[..|filter.dims| - 1], out.dims[..|out.dims| - 1])
    }

    /** The tensors `convolvePerFilter` accepts. */
    static ghost predicate PerFilterReady(input: Tensor, filter: Tensor, out: Tensor)
    {
      input.Valid() && filter.Valid() && out.Valid() && CheckDimensions(input, filter, out).Pass? &&
      |input.dims| >= 2 && input.LastDimension() == 1 && filter.LastDimension() == out.LastDimension()
    }

    /** The tensors `convolvePerLayer` accepts. */
    static ghost predicate PerLayerReady(input: Tensor, filter: Tensor, result: Tensor)
    {
      input.Valid() && filter.Valid() && result.Valid() &&
      input.LastDimension() == filter.LastDimension() && result.LastDimension() == 1 && |result.dims| >= 2 &&
      (input.LastDimension() > 0 ==> |input.dims| >= 2 && CheckDimensions(input, filter, result).Pass?)
    }

    /** What the first `i` filters add to `out`. */
    static ghost function FilterSum(input: Tensor, filter: Tensor, out: Tensor, flip: bool, i: nat): (r: seq<real>)
      reads input.vec.vals, filter.vec.vals
      requires PerFilterReady(input, filter, out) && i <= filter.LastDimension()
      requires i >= 1 ==> Lowered(input, filter, out).Centred()
      ensures |r| == i * out.SliceLength() && out.vec.start + |r| <= out.vec.vals.Length
    {
      filter.Layers();
      out.Layers();
      MulMonotone(i, filter.LastDimension(), filter.SliceLength());
      MulMonotone(i, out.LastDimension(), out.SliceLength());
      PerFilter(Lowered(input, filter, out), Slice(input.Elements(), input.SliceLength(), 0), filter.Elements(), flip, i)
    }

    /** Filter `i` extends the sum by its own convolution, written right after the first `i` output slices. */
    static lemma FilterNext(input: Tensor, filter: Tensor, out: Tensor, layer: Tensor, slice: Tensor, output: Tensor,
                            flip: bool, i: nat)
      requires PerFilterReady(input, filter, out) && i < filter.LastDimension() && Lowered(input, filter, out).Centred()
      requires input.IsSlice(layer, 0) && filter.IsSlice(slice, i) && out.IsSlice(output, i)
      ensures ConvOf(layer, slice, output, flip).WellFormed()
      ensures output.vec.start == out.vec.start + |FilterSum(input, filter, out, flip, i)|
      ensures FilterSum(input, filter, out, flip, i + 1) ==
              FilterSum(input, filter, out, flip, i) + Convolved(ConvOf(layer, slice, output, flip))
    {
      input.SliceElements(layer, 0);
      filter.SliceElements(slice, i);
      filter.Layers();
      MulMonotone(i + 1, filter.LastDimension(), filter.SliceLength());
    }

    /** The sums after each number of filters, `FilterSum(.., 0)` to `FilterSum(.., LastDimension())`. */
    static ghost function FilterSums(input: Tensor, filter: Tensor, out: Tensor, flip: bool): (r: seq<seq<real>>)
      reads input.vec.vals, filter.vec.vals
      requires PerFilterReady(input, filter, out) && (filter.LastDimension() >= 1 ==> Lowered(input, filter, out).Centred())
      ensures |r| == filter.LastDimension() + 1
      ensures forall j :: 0 <= j < |r| ==> r[j] == FilterSum(input, filter, out, flip, j)
    {
      seq(filter.LastDimension() + 1, j requires 0 <= j <= filter.LastDimension() reads input.vec.vals, filter.vec.vals =>
        FilterSum(input, filter, out, flip, j))
    }

    /** Each filter extends the sums by its own convolution. */
    static lemma FilterLinks(input: Tensor, filter: Tensor, out: Tensor, layer: Tensor, filters: seq<Tensor>,
                             outputs: seq<Tensor>, flip: bool, sums: seq<seq<real>>)
      requires PerFilterReady(input, filter, out) && (filter.LastDimension() >= 1 ==> Lowered(input, filter, out).Centred())
      requires input.IsSlice(layer, 0) && |filters| == |outputs| == filter.LastDimension()
      requires forall i :: 0 <= i < |filters| ==> filter.IsSlice(filters[i], i) && out.IsSlice(outputs[i], i)
      requires sums == FilterSums(input, filter, out, flip)
      ensures sums[0] == [] && out.vec.start + |sums[|filters|]| <= out.vec.vals.Length
      ensures forall j :: 0 <= j < |filters| ==>
        filters[j].Valid() && ConvOf(layer, filters[j], outputs[j], flip).WellFormed() &&
        sums[j + 1] == sums[j] + Convolved(ConvOf(layer, filters[j], outputs[j], flip))
    {
      out.Layers();
      forall j | 0 <= j < |filters|
        ensures ConvOf(layer, filters[j], outputs[j], flip).WellFormed()
        ensures sums[j + 1] == sums[j] + Convolved(ConvOf(layer, filters[j], outputs[j], flip))
      {
        FilterNext(input, filter, out, layer, filters[j], outputs[j], flip, j);
      }
    }

    /** One round of the per-filter loop: output slice `i` receives the convolution with filter slice `i`. */
    static method FilterStep(input: Tensor, filter: Tensor, out: Tensor, layer: Tensor, filters: seq<Tensor>,
                             outputs: seq<Tensor>, flip: bool, ghost base: seq<real>, ghost sums: seq<seq<real>>, i: nat)
      requires PerFilterReady(input, filter, out) && i < filter.LastDimension() && Lowered(input, filter, out).Centred()
      requires out.vec.vals != input.vec.vals && out.vec.vals != filter.vec.vals
      requires input.IsSlice(layer, 0) && |filters| == |outputs| == filter.LastDimension()
      requires filter.IsSlice(filters[i], i) && out.IsSlice(outputs[i], i)
      requires |sums| == |filters| + 1 && |sums[i]| == i * out.SliceLength() && |base| == out.vec.vals.Length
      requires ConvOf(layer, filters[i], outputs[i], flip).WellFormed()
      requires sums[i + 1] == sums[i] + Convolved(ConvOf(layer, filters[i], outputs[i], flip))
      requires out.vec.vals[..] == AddedInto(base, out.vec.start, sums[i])
      modifies out.vec.vals
      ensures |sums[i + 1]| == (i + 1) * out.SliceLength() && out.vec.start + |sums[i + 1]| <= |base|
      ensures out.vec.vals[..] == AddedInto(base, out.vec.start, sums[i + 1])
    {
      var slice, output := filters[i], outputs[i];
      ghost var c := ConvOf(layer, slice, output, flip);
      var status := Convolve(layer, slice, output, flip);
      AddedConcat(base, out.vec.start, sums[i], output.vec.start, Convolved(c));
    }

    /** The loop of `convolvePerFilter`: output slice `i` receives the convolution with filter slice `i`. */
    static method FilterLoop(input: Tensor, filter: Tensor, out: Tensor, layer: Tensor, filters: seq<Tensor>,
                             outputs: seq<Tensor>, flip: bool, ghost sums: seq<seq<real>>)
      requires PerFilterReady(input, filter, out) && (filter.LastDimension() >= 1 ==> Lowered(input, filter, out).Centred())
      requires out.vec.vals != input.vec.vals && out.vec.vals != filter.vec.vals
      requires input.IsSlice(layer, 0) && |filters| == |outputs| == filter.LastDimension()
      requires forall i :: 0 <= i < |filters| ==> filter.IsSlice(filters[i], i) && out.IsSlice(outputs[i], i)
      requires |sums| == |filters| + 1 && sums[0] == [] && out.vec.start + |sums[|filters|]| <= out.vec.vals.Length
      requires forall j :: 0 <= j < |filters| ==>
        filters[j].Valid() && ConvOf(layer, filters[j], outputs[j], flip).WellFormed() &&
        sums[j + 1] == sums[j] + Convolved(ConvOf(layer, filters[j], outputs[j], flip))
      modifies out.vec.vals
      ensures out.vec.vals[..] == AddedInto(old(out.vec.vals[..]), out.vec.start, sums[|filters|])
    {
      ghost var base := out.vec.vals[..];
      AddedNothing(base, out.vec.start, []);
      var i := 0;
      while i < |filters|
        invariant 0 <= i <= |filters| && |sums[i]| == i * out.SliceLength() && out.vec.start + |sums[i]| <= |base|
        invariant out.vec.vals[..] == AddedInto(base, out.vec.start, sums[i])
      {
        FilterStep(input, filter, out, layer, filters, outputs, flip, base, sums, i);
        i := i + 1;
      }
    }

    /**
     * `convolvePerFilter`: the input has one layer; output layer `i` receives the
     * convolution of that layer with filter layer `i`.
     */
    static method ConvolvePerFilter(input: Tensor, filter: Tensor, out: Tensor, flip: bool) returns (status: Outcome)
      requires input.Valid() && filter.Valid() && out.Valid()
      requires out.vec.vals != input.vec.vals && out.vec.vals != filter.vec.vals
      requires PerFilterReady(input, filter, out) && filter.LastDimension() >= 1 ==>
        Lowered(input, filter, out).Centred()
      modifies out.vec.vals
      ensures CheckDimensions(input, filter, out).Fail? ==> status == CheckDimensions(input, filter, out)
      ensures CheckDimensions(input, filter, out).Pass? && input.LastDimension() != 1 ==>
        status == Fail(IllegalArgument(InputNotOneLayer))
      ensures CheckDimensions(input, filter, out).Pass? && input.LastDimension() == 1 &&
              filter.LastDimension() != out.LastDimension() ==>
        status == Fail(IllegalArgument(FilterCountDiffers))
      ensures CheckDimensions(input, filter, out).Pass? && input.LastDimension() == 1 &&
              filter.LastDimension() == out.LastDimension() && |input.dims| == 1 ==>
        status == Fail(IndexOutOfBounds)
      ensures status.Pass? <==> PerFilterReady(input, filter, out)
      ensures status.Fail? ==> out.vec.vals[..] == old(out.vec.vals[..])
      ensures status.Pass? ==>
        out.vec.vals[..] == AddedInto(old(out.vec.vals[..]), out.vec.start, FilterSum(input, filter, out, flip, filter.LastDimension()))
    {
      status := CheckDimensions(input, filter, out);
      if status.Fail? {
        return;
      }
      if input.LastDimension() != 1 {
        return Fail(IllegalArgument(InputNotOneLayer));
      }
      if filter.LastDimension() != out.LastDimension() {
        return Fail(IllegalArgument(FilterCountDiffers));
      }
      var inputs := input.SplitByLastDimension();
      if inputs.Err? {
        return Fail(inputs.error);
      }
      var layer := inputs.value[0];
      // The filter and the output have the input's two or more dimensions, so neither split throws.
      var filters := filter.SplitByLastDimension();
      if filters.Err? {
        assert false;
      }
      var outputs := out.SplitByLastDimension();
      if outputs.Err? {
        assert false;
      }
      ghost var sums := FilterSums(input, filter, out, flip);
      FilterLinks(input, filter, out, layer, filters.value, outputs.value, flip, sums);
      FilterLoop(input, filter, out, layer, filters.value, outputs.value, flip, sums);
    }

    /** What the first `i` input and filter layers add to `result`. */
    static ghost function LayerSum(input: Tensor, filter: Tensor, result: Tensor, flip: bool, i: nat): (r: seq<real>)
      reads input.vec.vals, filter.vec.vals
      requires PerLayerReady(input, filter, result) && i <= input.LastDimension()
      requires i >= 1 ==> Lowered(input, filter, result).Centred()
      ensures |r| == result.SliceLength() && result.vec.start + |r| <= result.vec.vals.Length
    {
      input.Layers();
      filter.Layers();
      result.Layers();
      MulMonotone(i, input.LastDimension(), input.SliceLength());
      MulMonotone(i, filter.LastDimension(), filter.SliceLength());
      PerLayer(Lowered(input, filter, result), input.Elements(), filter.Elements(), flip, i)
    }

    /** Layer `i` adds its own convolution to the sum. */
    static lemma LayerNext(input: Tensor, filter: Tensor, result: Tensor, layer: Tensor, slice: Tensor, lowered: Tensor,
                           flip: bool, i: nat)
      requires PerLayerReady(input, filter, result) && i < input.LastDimension() && Lowered(input, filter, result).Centred()
      requires input.IsSlice(layer, i) && filter.IsSlice(slice, i) && result.IsSlice(lowered, 0)
      ensures lowered.vec.start == result.vec.start
      ensures LayerSum(input, filter, result, flip, i + 1) ==
              Plus(LayerSum(input, filter, result, flip, i), Convolved(ConvOf(layer, slice, lowered, flip)))
    {
      input.SliceElements(layer, i);
      filter.SliceElements(slice, i);
      input.Layers();
      filter.Layers();
      MulMonotone(i + 1, input.LastDimension(), input.SliceLength());
      MulMonotone(i + 1, filter.LastDimension(), filter.SliceLength());
    }

    /** The sums after each number of layers, `LayerSum(.., 0)` to `LayerSum(.., LastDimension())`. */
    static ghost function LayerSums(input: Tensor, filter: Tensor, result: Tensor, flip: bool): (r: seq<seq<real>>)
      reads input.vec.vals, filter.vec.vals
      requires PerLayerReady(input, filter, result) && (input.LastDimension() >= 1 ==> Lowered(input, filter, result).Centred())
      ensures |r| == input.LastDimension() + 1
      ensures forall j :: 0 <= j < |r| ==> r[j] == LayerSum(input, filter, result, flip, j)
    {
      seq(input.LastDimension() + 1, j requires 0 <= j <= input.LastDimension() reads input.vec.vals, filter.vec.vals =>
        LayerSum(input, filter, result, flip, j))
    }

    /** Each layer adds its own convolution to the sums. */
    static lemma LayerLinks(input: Tensor, filter: Tensor, result: Tensor, inputs: seq<Tensor>, filters: seq<Tensor>,
                            lowered: Tensor, flip: bool, sums: seq<seq<real>>)
      requires PerLayerReady(input, filter, result) && (input.LastDimension() >= 1 ==> Lowered(input, filter, result).Centred())
      requires result.IsSlice(lowered, 0) && |inputs| == |filters| == input.LastDimension()
      requires forall i :: 0 <= i < |inputs| ==> input.IsSlice(inputs[i], i) && filter.IsSlice(filters[i], i)
      requires sums == LayerSums(input, filter, result, flip)
      ensures sums[0] == Constant(result.SliceLength(), 0.0) && result.vec.start + |sums[|inputs|]| <= result.vec.vals.Length
      ensures forall j :: 0 <= j < |inputs| ==>
        inputs[j].Valid() && filters[j].Valid() &&
        ConvOf(inputs[j], filters[j], lowered, flip).WellFormed() &&
        |Convolved(ConvOf(inputs[j], filters[j], lowered, flip))| == |sums[j]| &&
        sums[j + 1] == Plus(sums[j], Convolved(ConvOf(inputs[j], filters[j], lowered, flip)))
    {
      forall j | 0 <= j < |inputs|
        ensures ConvOf(inputs[j], filters[j], lowered, flip).WellFormed()
        ensures |Convolved(ConvOf(inputs[j], filters[j], lowered, flip))| == |sums[j]|
        ensures sums[j + 1] == Plus(sums[j], Convolved(ConvOf(inputs[j], filters[j], lowered, flip)))
      {
        LayerNext(input, filter, result, inputs[j], filters[j], lowered, flip, j);
      }
    }

    /** One round of the per-layer loop: the result receives the convolution of layer `i`. */
    static method LayerStep(input: Tensor, filter: Tensor, result: Tensor, inputs: seq<Tensor>, filters: seq<Tensor>,
                            lowered: Tensor, flip: bool, ghost base: seq<real>, ghost sums: seq<seq<real>>, i: nat)
      requires PerLayerReady(input, filter, result) && i < input.LastDimension() && Lowered(input, filter, result).Centred()
      requires result.vec.vals != input.vec.vals && result.vec.vals != filter.vec.vals
      requires result.IsSlice(lowered, 0) && |inputs| == |filters| == input.LastDimension()
      requires input.IsSlice(inputs[i], i) && filter.IsSlice(filters[i], i)
      requires |sums| == |inputs| + 1 && |base| == result.vec.vals.Length
      requires ConvOf(inputs[i], filters[i], lowered, flip).WellFormed()
      requires |Convolved(ConvOf(inputs[i], filters[i], lowered, flip))| == |sums[i]|
      requires sums[i + 1] == Plus(sums[i], Convolved(ConvOf(inputs[i], filters[i], lowered, flip)))
      requires result.vec.vals[..] == AddedInto(base, result.vec.start, sums[i])
      modifies result.vec.vals
      ensures |sums[i + 1]| == |sums[i]|
      ensures result.vec.vals[..] == AddedInto(base, result.vec.start, sums[i + 1])
    {
      var layer, slice := inputs[i], filters[i];
      ghost var c := ConvOf(layer, slice, lowered, flip);
      var status := Convolve(layer, slice, lowered, flip);
      AddedTwice(base, result.vec.start, sums[i], Convolved(c));
    }

    /** The loop of `convolvePerLayer`: the result receives the convolution of every layer. */
    static method LayerLoop(input: Tensor, filter: Tensor, result: Tensor, inputs: seq<Tensor>, filters: seq<Tensor>,
                            lowered: Tensor, flip: bool, ghost sums: seq<seq<real>>)
      requires PerLayerReady(input, filter, result) && (input.LastDimension() >= 1 ==> Lowered(input, filter, result).Centred())
      requires result.vec.vals != input.vec.vals && result.vec.vals != filter.vec.vals
      requires result.IsSlice(lowered, 0) && |inputs| == |filters| == input.LastDimension()
      requires forall i :: 0 <= i < |inputs| ==> input.IsSlice(inputs[i], i) && filter.IsSlice(filters[i], i)
      requires |sums| == |inputs| + 1 && sums[0] == Constant(result.SliceLength(), 0.0)
      requires result.vec.start + |sums[|inputs|]| <= result.vec.vals.Length
      requires forall j :: 0 <= j < |inputs| ==>
        inputs[j].Valid() && filters[j].Valid() &&
        ConvOf(inputs[j], filters[j], lowered, flip).WellFormed() &&
        |Convolved(ConvOf(inputs[j], filters[j], lowered, flip))| == |sums[j]| &&
        sums[j + 1] == Plus(sums[j], Convolved(ConvOf(inputs[j], filters[j], lowered, flip)))
      modifies result.vec.vals
      ensures result.vec.vals[..] == AddedInto(old(result.vec.vals[..]), result.vec.start, sums[|inputs|])
    {
      ghost var base := result.vec.vals[..];
      AddedZeros(base, result.vec.start, result.SliceLength());
      var i := 0;
      while i < |inputs|
        invariant 0 <= i <= |inputs| && |sums[i]| == result.SliceLength()
        invariant result.vec.vals[..] == AddedInto(base, result.vec.start, sums[i])
      {
        LayerStep(input, filter, result, inputs, filters, lowered, flip, base, sums, i);
        i := i + 1;
      }
    }

    /**
     * `convolvePerLayer`: the result has one layer, which receives the sum over `i`
     * of the convolution of input layer `i` with filter layer `i`.
     */
    static method ConvolvePerLayer(input: Tensor, filter: Tensor, result: Tensor, flip: bool) returns (status: Outcome)
      requires input.Valid() && filter.Valid() && result.Valid()
      requires result.vec.vals != input.vec.vals && result.vec.vals != filter.vec.vals
      requires PerLayerReady(input, filter, result) && input.LastDimension() >= 1 ==>
        Lowered(input, filter, result).Centred()
      modifies result.vec.vals
      ensures input.LastDimension() != filter.LastDimension() ==>
        status == Fail(IllegalArgument(LayerCountDiffers))
      ensures input.LastDimension() == filter.LastDimension() && result.LastDimension() != 1 ==>
        status == Fail(IllegalArgument(ResultNotOneLayer))
      ensures input.LastDimension() == filter.LastDimension() && result.LastDimension() == 1 &&
              ((|input.dims| == 1 && input.LastDimension() > 0) || (|filter.dims| == 1 && filter.LastDimension() > 0) ||
               |result.dims| == 1) ==>
        status == Fail(IndexOutOfBounds)
      ensures input.LastDimension() == filter.LastDimension() > 0 && result.LastDimension() == 1 &&
              |input.dims| >= 2 && |filter.dims| >= 2 && |result.dims| >= 2 &&
              CheckDimensions(input, filter, result).Fail? ==>
        status == CheckDimensions(input, filter, result)
      ensures status.Pass? <==> PerLayerReady(input, filter, result)
      ensures status.Fail? ==> result.vec.vals[..] == old(result.vec.vals[..])
      ensures status.Pass? ==>
        result.vec.vals[..] == AddedInto(old(result.vec.vals[..]), result.vec.start, LayerSum(input, filter, result, flip, input.LastDimension()))
    {
      if input.LastDimension() != filter.LastDimension() {
        return Fail(IllegalArgument(LayerCountDiffers));
      }
      if result.LastDimension() != 1 {
        return Fail(IllegalArgument(ResultNotOneLayer));
      }
      var inputs := input.SplitByLastDimension();
      if inputs.Err? {
        return Fail(inputs.error);
      }
      var filters := filter.SplitByLastDimension();
      if filters.Err? {
        return Fail(filters.error);
      }
      var results := result.SplitByLastDimension();
      if results.Err? {
        return Fail(results.error);
      }
      var lowered := results.value[0];
      if |inputs.value| > 0 && CheckDimensions(inputs.value[0], filters.value[0], lowered).Fail? {
        // The first round's dimension check throws before anything is written.
        status := Convolve(inputs.value[0], filters.value[0], lowered, flip);
        return;
      }
      ghost var sums := LayerSums(input, filter, result, flip);
      LayerLinks(input, filter, result, inputs.value, filters.value, lowered, flip, sums);
      LayerLoop(input, filter, result, inputs.value, filters.value, lowered, flip, sums);
      status := Pass;
    }
  }

  /** `test1D`: a length-5 signal convolved with a flipped length-3 kernel into a zeroed length-7 output. */
  method Test1D() returns (status: Outcome)
    ensures status == Pass
  {
    var inArr := Fixtures.ArrayOf([2.0, 3.0, 1.0, 0.0, 1.0]);
    var kArr := Fixtures.ArrayOf([1.0, 0.0, 2.0]);
    var inVec := new Vector.Wrap(inArr);
    var kVec := new Vector.Wrap(kArr);
    var outVec := new Vector.Make(7);
    outVec.WholeWindow();
    assert Product([5]) == 5 && Product([3]) == 3 && Product([7]) == 7;
    var tin := Tensor.FromVector(inVec, [5]);
    var tk := Tensor.FromVector(kVec, [3]);
    var tout := Tensor.FromVector(outVec, [7]);
    inVec.WholeWindow();
    kVec.WholeWindow();
    Fixtures.OneDFixture(inArr[..], kArr[..]);
    ghost var c := Tensor.ConvOf(tin.value, tk.value, tout.value, true);
    assert c == Conv(Shape([5], [3], [7]), inArr[..], kArr[..], true);
    var convolved := Tensor.Convolve(tin.value, tk.value, tout.value, true);
    AddedToZeros(Convolved(c));
    outVec.WholeWindow();
    status := Fixtures.CheckOutput(outVec, [2.0, 3.0, 5.0, 6.0, 3.0, 0.0, 2.0]);
  }

  /** `test2D`: a 3x3 image convolved with an unflipped 3x3 edge kernel into a zeroed 3x3 output. */
  method Test2D() returns (status: Outcome)
    ensures status == Pass
  {
    var inArr := Fixtures.ArrayOf([1.0, 2.0, 3.0, 4.0, 5.0, 6.0, 7.0, 8.0, 9.0]);
    var kArr := Fixtures.ArrayOf([1.0, 2.0, 1.0, 0.0, 0.0, 0.0, -1.0, -2.0, -1.0]);
    var inVec := new Vector.Wrap(inArr);
    var kVec := new Vector.Wrap(kArr);
    var outVec := new Vector.Make(9);
    outVec.WholeWindow();
    assert Product([3, 3]) == 9;
    var tin := Tensor.FromVector(inVec, [3, 3]);
    var tk := Tensor.FromVector(kVec, [3, 3]);
    var tout := Tensor.FromVector(outVec, [3, 3]);
    inVec.WholeWindow();
    kVec.WholeWindow();
    Fixtures.TwoDFixture(inArr[..], kArr[..]);
    ghost var c := Tensor.ConvOf(tin.value, tk.value, tout.value, false);
    assert c == Conv(Fixtures.Square3, inArr[..], kArr[..], false);
    var convolved := Tensor.Convolve(tin.value, tk.value, tout.value, false);
    AddedToZeros(Convolved(c));
    outVec.WholeWindow();
    status := Fixtures.CheckOutput(outVec, [-13.0, -20.0, -17.0, -18.0, -24.0, -18.0, 13.0, 20.0, 17.0]);
  }
}
