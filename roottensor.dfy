// The root package's Tensor: a Vector view over a whole vector plus its own
// copy of the dimensions. Unlike the com.jace variant it keeps no strides,
// accepts an empty dimension list (one element), and its convolve fails on
// zero-dimensional tensors when it writes the first stride.
module RootTensors {
  import opened Wrappers
  import opened Indexing
  import opened Numeric
  import opened Vectors
  import opened Convolution
  import Fixtures

  const MismatchingSizes := "Mismatching sizes"
  const ArityDiffers := "Expected tensors with the same number of dimensions"

  class Tensor {
    /** The Vector this tensor extends: a view of the whole of the wrapped vector. */
    const vec: Vector
    const dims: seq<nat>

    ghost predicate Valid()
    {
      vec.Valid() && Product(dims) == vec.len
    }

    /** The elements in flat order (dimension 0 fastest). */
    function Elements(): (s: seq<real>)
      reads vec.vals
      requires Valid()
      ensures |s| == Product(dims)
    {
      vec.Elements()
    }

    constructor Init(v: Vector, d: seq<nat>)
      requires v.Valid() && Product(d) == v.len
      ensures Valid() && vec == v && dims == d
    {
      vec := v;
      dims := d;
    }

    /**
     * `new Tensor(Vector, int[])`: a view of `values` with a copy of the
     * dimensions; throws unless their product is the vector's size.
     */
    static method Create(values: Vector, d: seq<nat>) returns (r: Result<Tensor>)
      requires values.Valid()
      ensures r.Err? <==> Product(d) != values.len
      ensures r.Err? ==> r.error == Runtime(MismatchingSizes)
      ensures r.Ok? ==> fresh(r.value) && fresh(r.value.vec) && r.value.Valid() && r.value.dims == d
      ensures r.Ok? ==> r.value.vec.vals == values.vals && r.value.vec.start == values.start
      ensures r.Ok? ==> r.value.vec.nullBacked == values.nullBacked && r.value.Elements() == values.Elements()
    {
      var v := new Vector.View(values, 0, values.len);
      var copied: seq<nat> := [];
      var total := 1;
      var i := 0;
      while i < |d|
        invariant 0 <= i <= |d|
        invariant copied == d[..i] && total == Product(d[..i])
      {
        ProductStep(d, i);
        copied := copied + [d[i]];
        total := total * d[i];
        i := i + 1;
      }
      assert d[..|d|] == d;
      if total != values.len {
        return Err(Runtime(MismatchingSizes));
      }
      var t := new Tensor.Init(v, copied);
      return Ok(t);
    }

    /** The copy constructor: wraps the same values (writes are shared), owns its own dimensions. */
    static method CopyOf(other: Tensor) returns (t: Tensor)
      requires other.Valid()
      ensures fresh(t) && fresh(t.vec) && t.Valid() && t.dims == other.dims
      ensures t.vec.vals == other.vec.vals && t.vec.start == other.vec.start && t.Elements() == other.Elements()
    {
      var v := new Vector.View(other.vec, 0, other.vec.len);
      t := new Tensor.Init(v, other.dims);
    }

    /** The convolution problem three tensors pose. */
    static function ConvOf(input: Tensor, filter: Tensor, out: Tensor, flip: bool): Conv
      reads input.vec.vals, filter.vec.vals
      requires input.Valid() && filter.Valid()
    {
      Conv(Shape(input.dims, filter.dims, out.dims), input.Elements(), filter.Elements(), flip)
    }

    /**
     * `convolve` with stride 1: throws unless the three tensors have the same
     * number of dimensions, and (reading `innerStep[0]`) when that number is 0;
     * otherwise ADDS the convolution to what `out` holds.
     */
    static method Convolve(input: Tensor, filter: Tensor, out: Tensor, flip: bool) returns (status: Outcome)
      requires input.Valid() && filter.Valid() && out.Valid()
      requires out.vec.vals != input.vec.vals && out.vec.vals != filter.vec.vals
      requires |input.dims| == |filter.dims| == |out.dims| >= 1 ==> Shape(input.dims, filter.dims, out.dims).Centred()
      modifies out.vec.vals
      ensures status.Fail? <==> !(|input.dims| == |filter.dims| == |out.dims| >= 1)
      ensures status.Fail? && !(|input.dims| == |filter.dims| == |out.dims|) ==> status.error == Runtime(ArityDiffers)
      ensures status.Fail? && |input.dims| == |filter.dims| == |out.dims| ==> status.error == IndexOutOfBounds
      ensures status.Fail? ==> out.vec.vals[..] == old(out.vec.vals[..])
      ensures status.Pass? ==>
        out.vec.vals[..] == AddedInto(old(out.vec.vals[..]), out.vec.start, Convolved(ConvOf(input, filter, out, flip)))
    {
      var n := |input.dims|;
      if n != |filter.dims| || n != |out.dims| {
        return Fail(Runtime(ArityDiffers));
      }
      if n == 0 {
        return Fail(IndexOutOfBounds);
      }
      var c := Conv(Shape(input.dims, filter.dims, out.dims), input.vec.vals[input.vec.start..input.vec.start + input.vec.len],
                    filter.vec.vals[filter.vec.start..filter.vec.start + filter.vec.len], flip);
      Convolution.Convolve(c, out.vec.vals, out.vec.start);
      status := Pass;
    }
  }

  /** `countElements`: the product of the dimensions, 1 for none, 0 exactly when one of them is 0. */
  function CountElements(d: seq<nat>): (r: nat)
    ensures |d| == 0 ==> r == 1
    ensures r == 0 <==> exists i :: 0 <= i < |d| && d[i] == 0
  {
    ProductZero(d);
    Product(d)
  }

  /** A product vanishes exactly when one of its factors does. */
  lemma {:induction false} ProductZero(d: seq<nat>)
    ensures Product(d) == 0 <==> exists i :: 0 <= i < |d| && d[i] == 0
  {
    if |d| > 0 {
      var n := |d| - 1;
      ProductZero(d[..n]);
      if Product(d) == 0 {
        if d[n] != 0 {
          var i :| 0 <= i < n && d[..n][i] == 0;
          assert d[i] == 0;
        }
      } else {
        forall i | 0 <= i < |d| ensures d[i] != 0 {
          if i < n {
            assert d[..n][i] == d[i];
          }
        }
      }
    }
  }

  /** `test1D`: a length-5 signal convolved with a flipped length-3 kernel into a zeroed length-7 output. */
  method Test1D() returns (status: Outcome)
    ensures status == Pass
  {
    var inArr := Fixtures.ArrayOf([2.0, 3.0, 1.0, 0.0, 1.0]);
    var kArr := Fixtures.ArrayOf([1.0, 0.0, 2.0]);
    var inVec := new Vector.Wrap(inArr);
    var kVec := new Vector.Wrap(kArr);
    var outVec := new Vector.Make(7);
    outVec.WholeWindow();
    assert Product([5]) == 5 && Product([3]) == 3 && Product([7]) == 7;
    var tin := Tensor.Create(inVec, [5]);
    var tk := Tensor.Create(kVec, [3]);
    var tout := Tensor.Create(outVec, [7]);
    inVec.WholeWindow();
    kVec.WholeWindow();
    Fixtures.OneDFixture(inArr[..], kArr[..]);
    ghost var c := Tensor.ConvOf(tin.value, tk.value, tout.value, true);
    assert c == Conv(Shape([5], [3], [7]), inArr[..], kArr[..], true);
    var convolved := Tensor.Convolve(tin.value, tk.value, tout.value, true);
    AddedToZeros(Convolved(c));
    outVec.WholeWindow();
    status := Fixtures.CheckOutput(outVec, [2.0, 3.0, 5.0, 6.0, 3.0, 0.0, 2.0]);
  }

  /** `test2D`: a 3x3 image convolved with an unflipped 3x3 edge kernel into a zeroed 3x3 output. */
  method Test2D() returns (status: Outcome)
    ensures status == Pass
  {
    var inArr := Fixtures.ArrayOf([1.0, 2.0, 3.0, 4.0, 5.0, 6.0, 7.0, 8.0, 9.0]);
    var kArr := Fixtures.ArrayOf([1.0, 2.0, 1.0, 0.0, 0.0, 0.0, -1.0, -2.0, -1.0]);
    var inVec := new Vector.Wrap(inArr);
    var kVec := new Vector.Wrap(kArr);
    var outVec := new Vector.Make(9);
    outVec.WholeWindow();
    assert Product([3, 3]) == 9;
    var tin := Tensor.Create(inVec, [3, 3]);
    var tk := Tensor.Create(kVec, [3, 3]);
    var tout := Tensor.Create(outVec, [3, 3]);
    inVec.WholeWindow();
    kVec.WholeWindow();
    Fixtures.TwoDFixture(inArr[..], kArr[..]);
    ghost var c := Tensor.ConvOf(tin.value, tk.value, tout.value, false);
    assert c == Conv(Fixtures.Square3, inArr[..], kArr[..], false);
    var convolved := Tensor.Convolve(tin.value, tk.value, tout.value, false);
    AddedToZeros(Convolved(c));
    outVec.WholeWindow();
    status := Fixtures.CheckOutput(outVec, [-13.0, -20.0, -17.0, -18.0, -24.0, -18.0, 13.0, 20.0, 17.0]);
  }
}
