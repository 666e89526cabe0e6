// The root package's WeightUtils: a layer's parameters packed into one flat
// vector, the bias (`outputs` entries) first and then the `outputs` x `inputs`
// weight matrix row by row.
module WeightUtils {
  import opened Wrappers
  import opened Numeric
  import opened Grids
  import opened Vectors
  import opened Matrices

  /** The bias part of a packed vector: its first `outputs` entries. */
  function BiasOf(w: seq<real>, outputs: nat): (b: seq<real>)
    requires outputs <= |w|
    ensures |b| == outputs && forall i :: 0 <= i < outputs ==> b[i] == w[i]
  {
    w[..outputs]
  }

  /** The matrix part of a packed vector: the `outputs * inputs` entries after the bias, row by row. */
  function MatrixOf(w: seq<real>, inputs: nat, outputs: nat): (g: seq<seq<real>>)
    requires outputs + outputs * inputs <= |w|
    ensures IsRect(g, outputs, inputs)
  {
    Unflatten(w[outputs..outputs + outputs * inputs], outputs, inputs)
  }

  /** Entry `(r, c)` of the matrix part sits at index `outputs + r * inputs + c`. */
  lemma MatrixOfAt(w: seq<real>, inputs: nat, outputs: nat, r: nat, c: nat)
    requires outputs + outputs * inputs <= |w| && r < outputs && c < inputs
    ensures outputs + r * inputs + c < |w| && MatrixOf(w, inputs, outputs)[r][c] == w[outputs + r * inputs + c]
  {
    var m := w[outputs..outputs + outputs * inputs];
    UnflattenRow(m, outputs, inputs, r);
    var base := r * inputs;
    assert Unflatten(m, outputs, inputs)[r] == m[base..base + inputs];
    assert m[base..base + inputs][c] == m[base + c] == w[outputs + base + c];
  }

  /** A slice of a slice is a slice of the whole. */
  lemma SliceOfSlice(a: seq<real>, s: nat, e: nat, i: nat, j: nat)
    requires s <= e <= |a| && i <= j <= e - s
    ensures a[s..e][i..j] == a[s + i..s + j]
  {
    assert forall k :: 0 <= k < j - i ==> a[s..e][i..j][k] == a[s + i..s + j][k];
  }

  /** What `deserialize` makes of the run after a window's bias is the matrix part of the window. */
  lemma DeserializedPart(a: seq<real>, start: nat, len: nat, inputs: nat, outputs: nat, run: seq<real>, cells: seq<seq<real>>)
    requires start + outputs + outputs * inputs <= |a| && run == a[start + outputs..start + outputs + outputs * inputs]
    requires cells == Unflatten(run, Clip(outputs), Clip(inputs))
    ensures cells == MatrixOf(a[start..start + outputs + outputs * inputs], inputs, outputs)
    ensures start + len <= |a| && outputs + outputs * inputs <= len ==> cells == MatrixOf(a[start..start + len], inputs, outputs)
  {
    var n := outputs * inputs;
    SliceOfSlice(a, start, start + outputs + n, outputs, outputs + n);
    if start + len <= |a| && outputs + n <= len {
      SliceOfSlice(a, start, start + len, outputs, outputs + n);
    }
  }

  /** Writing a matrix's entries after the bias and reading the matrix part back gives the matrix; the bias is kept. */
  lemma MatrixWrittenThenRead(w: seq<real>, g: seq<seq<real>>, inputs: nat, outputs: nat)
    requires |w| == outputs + outputs * inputs && IsRect(g, outputs, inputs)
    ensures |Flatten(g)| == outputs * inputs
    ensures MatrixOf(Overwrite(w, outputs, Flatten(g)), inputs, outputs) == g
    ensures BiasOf(Overwrite(w, outputs, Flatten(g)), outputs) == BiasOf(w, outputs)
  {
    FlattenIndex(g, outputs, inputs);
    var v := Overwrite(w, outputs, Flatten(g));
    var h := MatrixOf(v, inputs, outputs);
    forall r | 0 <= r < outputs
      ensures h[r] == g[r]
    {
      forall c | 0 <= c < inputs
        ensures h[r][c] == g[r][c]
      {
        MatrixOfAt(v, inputs, outputs, r, c);
      }
    }
  }

  /** Writing a bias from the start and reading the bias part back gives the bias; the matrix part is kept. */
  lemma BiasWrittenThenRead(w: seq<real>, b: seq<real>, inputs: nat, outputs: nat)
    requires |w| == outputs + outputs * inputs && |b| == outputs
    ensures BiasOf(Overwrite(w, 0, b), outputs) == b
    ensures MatrixOf(Overwrite(w, 0, b), inputs, outputs) == MatrixOf(w, inputs, outputs)
  {
    var v := Overwrite(w, 0, b);
    assert v[outputs..] == w[outputs..];
    assert v[outputs..outputs + outputs * inputs] == w[outputs..outputs + outputs * inputs];
  }

  /** What a write through the whole buffer does to a window that contains it. */
  lemma OverwriteInWindow(a: seq<real>, start: nat, len: nat, at: nat, block: seq<real>)
    requires start + len <= |a| && at + |block| <= len
    ensures Overwrite(a, start + at, block)[start..start + len] == Overwrite(a[start..start + len], at, block)
  {
  }

  /** `extract_b(weights, outputs)`: a view of the first `outputs` entries, sharing the storage of `weights`. */
  method ExtractBias(weights: Vector, outputs: nat) returns (b: Vector)
    requires weights.Valid() && weights.start + outputs <= weights.vals.Length
    ensures fresh(b) && b.Valid() && b.vals == weights.vals && b.start == weights.start && b.len == outputs
    ensures outputs <= weights.len ==> b.Elements() == BiasOf(weights.Elements(), outputs)
  {
    b := new Vector.View(weights, 0, outputs);
  }

  /**
   * `extract_M(weights, inputs, outputs)`: the matrix part, copied into a fresh
   * `outputs` x `inputs` matrix; a matrix with rows and no column throws.
   */
  method ExtractWeights(weights: Vector, inputs: nat, outputs: nat) returns (r: Result<Matrix>)
    requires weights.Valid() && weights.start + outputs + outputs * inputs <= weights.vals.Length
    ensures r.Err? <==> outputs > 0 && inputs == 0
    ensures r.Err? ==> r.error == IllegalArgument(NoColumns)
    ensures r.Ok? ==> fresh(r.value) && fresh(r.value.metadata) && r.value.Valid()
    ensures r.Ok? ==> r.value.Cells() == MatrixOf(weights.vals[weights.start..weights.start + outputs + outputs * inputs], inputs, outputs)
    ensures r.Ok? && outputs + outputs * inputs <= weights.len ==> r.value.Cells() == MatrixOf(weights.Elements(), inputs, outputs)
  {
    var temp := new Vector.View(weights, outputs, outputs * inputs);
    r := Matrix.Deserialize(temp, outputs, inputs);
    DeserializedWindow(r, temp, weights, inputs, outputs);
  }

  /** What `deserialize` says about a view of the run after the bias, restated on the packed vector. */
  lemma DeserializedWindow(r: Result<Matrix>, temp: Vector, weights: Vector, inputs: nat, outputs: nat)
    requires weights.Valid() && temp.Valid() && temp.vals == weights.vals
    requires temp.start == weights.start + outputs && temp.len == outputs * inputs
    requires r.Err? <==> temp.len < outputs * inputs || (outputs > 0 && inputs <= 0)
    requires r.Ok? ==> r.value.Valid() && r.value.Cells() == Unflatten(temp.Elements(), Clip(outputs), Clip(inputs))
    ensures r.Err? <==> outputs > 0 && inputs == 0
    ensures r.Ok? ==> r.value.Valid() && r.value.Cells() == MatrixOf(weights.vals[weights.start..weights.start + outputs + outputs * inputs], inputs, outputs)
    ensures r.Ok? && outputs + outputs * inputs <= weights.len ==> r.value.Cells() == MatrixOf(weights.Elements(), inputs, outputs)
  {
    if r.Ok? {
      var a := weights.vals[..];
      DeserializedPart(a, weights.start, weights.len, inputs, outputs, temp.Elements(), r.value.Cells());
    }
  }

  /**
   * `set_b(weights, b)`: `b` is written from index 0 of the window, clipped to
   * its end, through `Vector.set`; an empty window throws. Backing cells outside
   * the written block keep their values, and every other view of the same
   * storage sees the new ones.
   */
  method SetBias(weights: Vector, b: Vector) returns (status: Outcome)
    requires weights.Valid() && b.Valid()
    modifies weights.vals
    ensures status.Fail? <==> weights.len == 0
    ensures status.Fail? ==> status.error == IllegalArgument(OutsideBounds) && weights.vals[..] == old(weights.vals[..])
    ensures status.Pass? && b.vals != weights.vals ==>
      var n := if weights.len < b.len then weights.len else b.len;
      weights.vals[..] == Overwrite(old(weights.vals[..]), weights.start, old(b.Elements())[..n])
    ensures status.Pass? && b.vals == weights.vals ==>
      var n := if weights.len < b.len then weights.len else b.len;
      weights.vals[..] == CopiedInPlace(old(weights.vals[..]), weights.start, b.start, n)
    ensures status.Pass? && b.len <= weights.len && (b.vals != weights.vals || weights.start <= b.start) ==>
      weights.Elements() == Overwrite(old(weights.Elements()), 0, old(b.Elements()))
  {
    ghost var before := weights.vals[..];
    ghost var e := b.Elements();
    ghost var n := if weights.len < b.len then weights.len else b.len;
    status := weights.SetFrom(0, b);
    if status.Pass? && b.vals == weights.vals {
      assert weights.vals[..] == CopiedInPlace(before, weights.start + 0, b.start, n);
      assert weights.vals[..] == CopiedInPlace(old(weights.vals[..]), weights.start, b.start, n);
    }
    if status.Pass? && b.len <= weights.len && (b.vals != weights.vals || weights.start <= b.start) {
      assert e[..b.len] == e;
      BiasWritten(before, weights.vals[..], weights.start, weights.len, b.start, e, b.vals == weights.vals);
    }
  }

  /**
   * The bias block `e` fits the window, and the copy never reads a cell it has
   * already written: the window becomes `e` followed by its old tail.
   */
  lemma BiasWritten(before: seq<real>, after: seq<real>, start: nat, len: nat, src: nat, e: seq<real>, shared: bool)
    requires start + len <= |before| && |e| <= len
    requires !shared ==> after == Overwrite(before, start, e)
    requires shared ==> src + |e| <= |before| && start <= src && before[src..src + |e|] == e &&
                        after == CopiedInPlace(before, start, src, |e|)
    ensures after[start..start + len] == Overwrite(before[start..start + len], 0, e)
  {
    if shared {
      CopiedInPlaceForward(before, start, src, |e|);
    }
    OverwriteInWindow(before, start, len, 0, e);
  }

  /**
   * `set_M(weights, M)`: `M` row by row, written from index `M.rows()` of the
   * window through `Vector.set`, clipped to its end; serializing an empty matrix
   * throws, and so does a window with no cell at index `M.rows()`. Backing cells
   * outside the written block keep their values.
   */
  method SetWeights(weights: Vector, m: Matrix) returns (status: Outcome)
    requires weights.Valid() && m.Valid()
    modifies weights.vals
    ensures status.Fail? <==> m.Rows() == 0 || m.Cols() == 0 || m.Rows() >= weights.len
    ensures status.Fail? && (m.Rows() == 0 || m.Cols() == 0) ==> status.error == IllegalState(CannotSerialize)
    ensures status.Fail? && !(m.Rows() == 0 || m.Cols() == 0) ==> status.error == IllegalArgument(OutsideBounds)
    ensures status.Fail? ==> weights.vals[..] == old(weights.vals[..])
    ensures status.Pass? ==>
      var flat := Flatten(old(m.Cells()));
      var n := if weights.len - m.Rows() < |flat| then weights.len - m.Rows() else |flat|;
      weights.vals[..] == Overwrite(old(weights.vals[..]), weights.start + m.Rows(), flat[..n])
    ensures status.Pass? && m.Rows() + |Flatten(old(m.Cells()))| <= weights.len ==>
      weights.Elements() == Overwrite(old(weights.Elements()), m.Rows(), Flatten(old(m.Cells())))
  {
    ghost var g := m.Cells();
    var serialized := m.Serialize();
    if serialized.Err? {
      return Fail(serialized.error);
    }
    var v := serialized.value;
    status := WriteBlock(weights, |m.data|, v);
  }

  /**
   * `weights.set(at, v)` for a `v` over other storage: the clipped block of `v`
   * written at window index `at`, every other backing cell kept.
   */
  method WriteBlock(weights: Vector, at: nat, v: Vector) returns (status: Outcome)
    requires weights.Valid() && v.Valid() && v.vals != weights.vals
    modifies weights.vals
    ensures status.Fail? <==> at >= weights.len
    ensures status.Fail? ==> status.error == IllegalArgument(OutsideBounds) && weights.vals[..] == old(weights.vals[..])
    ensures status.Pass? ==>
      var n := if weights.len - at < v.len then weights.len - at else v.len;
      weights.vals[..] == Overwrite(old(weights.vals[..]), weights.start + at, old(v.Elements())[..n])
    ensures status.Pass? && at + v.len <= weights.len ==>
      weights.Elements() == Overwrite(old(weights.Elements()), at, old(v.Elements()))
  {
    ghost var before := weights.vals[..];
    ghost var e := v.Elements();
    status := weights.SetFrom(at, v);
    if status.Pass? && at + v.len <= weights.len {
      assert e[..v.len] == e;
      OverwriteInWindow(before, weights.start, weights.len, at, e);
    }
  }
}
