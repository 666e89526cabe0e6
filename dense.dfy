// The arithmetic of a fully connected layer, on the values its matrices and
// vectors hold: the forward pass `W x + b` and the backward pass `W^T e` as
// the Matrix operations compose them (a column matrix, `multiply`,
// `serialize`, `Vector.add`), with the errors those raise, and the outer
// product that accumulates the weight gradient.
module Dense {
  import opened Wrappers
  import opened Numeric
  import opened Grids
  import Vectors
  import Matrices

  /** What a Matrix holds: its rows and its column count (which a matrix with no row still has). */
  datatype Table = Table(cells: seq<seq<real>>, cols: nat)
  {
    predicate Valid()
    {
      IsRect(cells, |cells|, cols)
    }

    function Rows(): nat
    {
      |cells|
    }
  }

  /** Entry `i` is row `i` of `w` dotted with `x`. */
  function MatVec(w: seq<seq<real>>, x: seq<real>): (y: seq<real>)
    requires forall i :: 0 <= i < |w| ==> |w[i]| == |x|
    ensures |y| == |w| && forall i :: 0 <= i < |w| ==> y[i] == Dot(w[i], x)
  {
    seq(|w|, i requires 0 <= i < |w| => Dot(w[i], x))
  }

  /** Entry `j` is column `j` of `w` dotted with `e`: the transpose of `w` applied to `e`. */
  function TransposedMatVec(w: seq<seq<real>>, cols: nat, e: seq<real>): (y: seq<real>)
    requires IsRect(w, |e|, cols)
    ensures |y| == cols && forall j :: 0 <= j < cols ==> y[j] == Dot(Column(w, j), e)
  {
    seq(cols, j requires 0 <= j < cols => Dot(Column(w, j), e))
  }

  /** Multiplying by a one-column table and flattening the one-column product applies the matrix to the column. */
  lemma ColumnProduct(w: seq<seq<real>>, rows: nat, inner: nat, x: seq<real>)
    requires IsRect(w, rows, inner) && |x| == inner
    ensures Flatten(Times(w, Matrices.ColumnGrid(x), rows, inner, 1)) == MatVec(w, x)
  {
    var g := Matrices.ColumnGrid(x);
    var p := Times(w, g, rows, inner, 1);
    FlattenIndex(p, rows, 1);
    assert Column(g, 0) == x;
    forall i | 0 <= i < rows ensures Flatten(p)[i] == MatVec(w, x)[i] {
      assert Flatten(p)[i * 1 + 0] == p[i][0];
    }
  }

  /**
   * The matrix part of `activate(x)` for weights `w`: `multiply` by `x` as a
   * column throws unless `w` has one column per input, and `serialize` throws
   * on a product without rows. Otherwise entry `i` is row `i` of `w` dotted
   * with `x`.
   */
  function Product(w: Table, x: seq<real>): (r: Result<seq<real>>)
    requires w.Valid()
    ensures r.Err? <==> w.cols != |x| || w.Rows() == 0
    ensures w.cols != |x| ==> r == Err(IllegalArgument(Matrices.NoCanDo))
    ensures w.cols == |x| && w.Rows() == 0 ==> r == Err(IllegalState(Matrices.CannotSerialize))
    ensures r.Ok? ==> r.value == MatVec(w.cells, x)
  {
    if w.cols != |x| then Err(IllegalArgument(Matrices.NoCanDo))
    else if w.Rows() == 0 then Err(IllegalState(Matrices.CannotSerialize))
    else Ok(MatVec(w.cells, x))
  }

  /**
   * `activate` computes the product by `multiply` with `x` as a one-column
   * matrix and `serialize` of the result: that route gives `Product`.
   */
  lemma ProductByMultiply(w: Table, x: seq<real>)
    requires w.Valid() && w.cols == |x| && w.Rows() > 0
    ensures Product(w, x) == Ok(Flatten(Times(w.cells, Matrices.ColumnGrid(x), w.Rows(), w.cols, 1)))
  {
    ColumnProduct(w.cells, w.Rows(), w.cols, x);
  }

  /**
   * `activate(x)` of a linear layer with weights `w` and bias `b`: the
   * product, then `add` of the bias, which throws unless the bias has one
   * entry per row. Entry `i` is row `i` of `w` dotted with `x`, plus `b[i]`.
   */
  function Forward(w: Table, b: seq<real>, x: seq<real>): (r: Result<seq<real>>)
    requires w.Valid()
    ensures r.Err? <==> w.cols != |x| || w.Rows() == 0 || |b| != w.Rows()
    ensures w.cols != |x| ==> r == Err(IllegalArgument(Matrices.NoCanDo))
    ensures w.cols == |x| && w.Rows() == 0 ==> r == Err(IllegalState(Matrices.CannotSerialize))
    ensures w.cols == |x| && w.Rows() > 0 && |b| != w.Rows() ==> r == Err(IllegalArgument(Vectors.SizeMismatch))
    ensures r.Ok? ==> |r.value| == w.Rows() && forall i :: 0 <= i < w.Rows() ==> r.value[i] == Dot(w.cells[i], x) + b[i]
  {
    var product := Product(w, x);
    if product.Err? then product
    else if |b| != |product.value| then Err(IllegalArgument(Vectors.SizeMismatch))
    else Ok(Plus(product.value, b))
  }

  /** Column `j` of a transposed table is row `j` of the table. */
  lemma ColumnOfTransposed(w: seq<seq<real>>, cols: nat, j: nat)
    requires IsRect(w, |w|, cols) && j < |w|
    ensures Column(Transposed(w, cols), j) == w[j]
  {
  }

  /**
   * `backPropagate()` of a linear layer with weights `w`: `multiply` of the
   * transposed weights throws unless the blame has one entry per row, and
   * `serialize` throws on weights without columns. Otherwise entry `j` is
   * column `j` of `w` dotted with the blame.
   */
  function Backward(w: Table, blame: seq<real>): (r: Result<seq<real>>)
    requires w.Valid()
    ensures r.Err? <==> w.Rows() != |blame| || w.cols == 0
    ensures w.Rows() != |blame| ==> r == Err(IllegalArgument(Matrices.NoCanDo))
    ensures w.Rows() == |blame| && w.cols == 0 ==> r == Err(IllegalState(Matrices.CannotSerialize))
    ensures r.Ok? ==> r.value == TransposedMatVec(w.cells, w.cols, blame)
  {
    if w.Rows() != |blame| then Err(IllegalArgument(Matrices.NoCanDo))
    else if w.cols == 0 then Err(IllegalState(Matrices.CannotSerialize))
    else Ok(TransposedMatVec(w.cells, w.cols, blame))
  }

  /**
   * `backPropagate` computes the blame by `multiply` of the transposed
   * weights with the blame as a one-column matrix and `serialize` of the
   * result: that route gives `Backward`.
   */
  lemma BackwardByMultiply(w: Table, blame: seq<real>)
    requires w.Valid() && w.Rows() == |blame| && w.cols > 0
    ensures Backward(w, blame) == Ok(Flatten(Times(Transposed(w.cells, w.cols), Matrices.ColumnGrid(blame), w.cols, w.Rows(), 1)))
  {
    var t := Transposed(w.cells, w.cols);
    ColumnProduct(t, w.cols, w.Rows(), blame);
    assert MatVec(t, blame) == TransposedMatVec(w.cells, w.cols, blame) by {
      forall j | 0 <= j < w.cols ensures MatVec(t, blame)[j] == TransposedMatVec(w.cells, w.cols, blame)[j] {
        assert t[j] == Column(w.cells, j);
      }
    }
  }

  /** The dot product is linear in its first argument. */
  lemma DotPlusScaled(a: seq<real>, c: real, r: seq<real>, x: seq<real>)
    requires |a| == |r| == |x|
    ensures Dot(PlusScaled(a, c, r), x) == Dot(a, x) + c * Dot(r, x)
  {
    DotLinear(PlusScaled(a, c, r), a, c, r, x);
  }

  lemma {:induction false} DotLinear(p: seq<real>, a: seq<real>, c: real, r: seq<real>, x: seq<real>)
    requires |p| == |a| == |r| == |x| && forall k :: 0 <= k < |p| ==> p[k] == a[k] + c * r[k]
    ensures Dot(p, x) == Dot(a, x) + c * Dot(r, x)
  {
    if |a| > 0 {
      var n := |a| - 1;
      DotLinear(p[..n], a[..n], c, r[..n], x[..n]);
      Distributes(Dot(a[..n], x[..n]), Dot(r[..n], x[..n]), a[n], r[n], x[n], c);
    }
  }

  /** The step of `DotLinear`, as arithmetic on the last entries. */
  lemma Distributes(d: real, e: real, an: real, rn: real, xn: real, c: real)
    ensures d + c * e + (an + c * rn) * xn == (d + an * xn) + c * (e + rn * xn)
  {
  }

  /** Adding one more row to the table adds that row, scaled by its blame, to the backward pass. */
  lemma TransposedStep(w: seq<seq<real>>, cols: nat, e: seq<real>)
    requires IsRect(w, |e|, cols) && |e| > 0
    ensures TransposedMatVec(w, cols, e) ==
      PlusScaled(TransposedMatVec(w[..|e| - 1], cols, e[..|e| - 1]), e[|e| - 1], w[|e| - 1])
  {
    var n := |e| - 1;
    var whole, front := TransposedMatVec(w, cols, e), TransposedMatVec(w[..n], cols, e[..n]);
    var stepped := PlusScaled(front, e[n], w[n]);
    forall j | 0 <= j < cols
      ensures whole[j] == stepped[j]
    {
      assert Column(w, j)[..n] == Column(w[..n], j);
      assert Column(w, j)[n] * e[n] == e[n] * w[n][j];
    }
    assert |whole| == |stepped|;
  }

  /** One more row with its blame adds `e[n] * (w[n] . x)` to the backward side of the adjoint identity. */
  lemma {:induction false} AdjointStepBackward(w: seq<seq<real>>, cols: nat, e: seq<real>, x: seq<real>)
    requires IsRect(w, |e|, cols) && |x| == cols && |e| > 0
    ensures Dot(TransposedMatVec(w, cols, e), x) ==
      Dot(TransposedMatVec(w[..|e| - 1], cols, e[..|e| - 1]), x) + e[|e| - 1] * Dot(w[|e| - 1], x)
  {
    var n := |e| - 1;
    var front := TransposedMatVec(w[..n], cols, e[..n]);
    var t := TransposedMatVec(w, cols, e);
    assert t == PlusScaled(front, e[n], w[n]) by {
      TransposedStep(w, cols, e);
    }
    DotPlusScaled(front, e[n], w[n], x);
  }

  /** One more row with its blame adds `e[n] * (w[n] . x)` to the forward side of the adjoint identity. */
  lemma {:induction false} AdjointStepForward(w: seq<seq<real>>, cols: nat, e: seq<real>, x: seq<real>)
    requires IsRect(w, |e|, cols) && |x| == cols && |e| > 0
    ensures Dot(e, MatVec(w, x)) == Dot(e[..|e| - 1], MatVec(w[..|e| - 1], x)) + e[|e| - 1] * Dot(w[|e| - 1], x)
  {
    var n := |e| - 1;
    var m := MatVec(w, x);
    assert m[..n] == MatVec(w[..n], x);
    assert Dot(e, m) == Dot(e[..n], m[..n]) + e[n] * m[n];
  }

  /**
   * The backward pass is the adjoint of the forward pass: for every blame `e`
   * and input `x`, `(W^T e) . x == e . (W x)`.
   */
  lemma {:induction false} BackwardIsAdjoint(w: seq<seq<real>>, cols: nat, e: seq<real>, x: seq<real>)
    requires IsRect(w, |e|, cols) && |x| == cols
    ensures Dot(TransposedMatVec(w, cols, e), x) == Dot(e, MatVec(w, x))
  {
    if |e| == 0 {
      DotSymmetric(TransposedMatVec(w, cols, e), x);
      DotZero(x, TransposedMatVec(w, cols, e));
    } else {
      var n := |e| - 1;
      BackwardIsAdjoint(w[..n], cols, e[..n], x);
      AdjointStepBackward(w, cols, e, x);
      AdjointStepForward(w, cols, e, x);
    }
  }

  /** `g` with `a[i] * b[j]` added to entry `(i, j)` for every `i < |a|`, `j < |b|` inside the table. */
  function Outer(g: seq<seq<real>>, a: seq<real>, b: seq<real>): (h: seq<seq<real>>)
    ensures |h| == |g| && forall i :: 0 <= i < |g| ==> |h[i]| == |g[i]|
    ensures forall i, j :: 0 <= i < |g| && 0 <= j < |g[i]| ==>
      h[i][j] == if i < |a| && j < |b| then g[i][j] + a[i] * b[j] else g[i][j]
  {
    seq(|g|, i requires 0 <= i < |g| =>
      seq(|g[i]|, j requires 0 <= j < |g[i]| => if i < |a| && j < |b| then g[i][j] + a[i] * b[j] else g[i][j]))
  }

  /** On a table exactly `|a|` x `|b|`, the outer product added is the product of `a` as a column and `b` as a row. */
  lemma OuterIsProduct(g: seq<seq<real>>, a: seq<real>, b: seq<real>)
    requires IsRect(g, |a|, |b|)
    ensures Outer(g, a, b) == PlusScaledRows(g, 1.0, Times(Matrices.ColumnGrid(a), [b], |a|, 1, |b|))
  {
    var p := Times(Matrices.ColumnGrid(a), [b], |a|, 1, |b|);
    forall i, j | 0 <= i < |a| && 0 <= j < |b|
      ensures Outer(g, a, b)[i][j] == PlusScaledRows(g, 1.0, p)[i][j]
    {
      assert Column([b], j) == [b[j]];
      assert Matrices.ColumnGrid(a)[i] == [a[i]];
      assert Dot([a[i]], [b[j]]) == a[i] * b[j] by {
        assert [a[i]][..0] == [] && [b[j]][..0] == [];
      }
    }
    RectEqual(Outer(g, a, b), PlusScaledRows(g, 1.0, p), |a|, |b|);
  }

  /** `g` with the outer product added to the entries before `(i, j)` in row order. */
  function OuterBefore(g: seq<seq<real>>, a: seq<real>, b: seq<real>, i: nat, j: nat): (h: seq<seq<real>>)
    ensures |h| == |g| && forall r :: 0 <= r < |g| ==> |h[r]| == |g[r]|
    ensures forall r, c :: 0 <= r < |g| && 0 <= c < |g[r]| ==>
      h[r][c] == if (r < i || (r == i && c < j)) && r < |a| && c < |b| then g[r][c] + a[r] * b[c] else g[r][c]
  {
    seq(|g|, r requires 0 <= r < |g| =>
      seq(|g[r]|, c requires 0 <= c < |g[r]| =>
        if (r < i || (r == i && c < j)) && r < |a| && c < |b| then g[r][c] + a[r] * b[c] else g[r][c]))
  }

  /**
   * The cells `addOuterProductToMatrix` leaves, whether or not it throws: when
   * the second vector is wider than a non-empty table, the loop throws at the
   * end of row 0 with only that row updated; otherwise every row the table
   * has is updated before the loop ends or reaches a missing row.
   */
  function OuterLeft(g: seq<seq<real>>, cols: nat, a: seq<real>, b: seq<real>): (h: seq<seq<real>>)
    requires IsRect(g, |g|, cols)
    ensures IsRect(h, |g|, cols)
  {
    if |a| > 0 && |g| > 0 && |b| > cols then OuterBefore(g, a, b, 0, cols) else Outer(g, a, b)
  }

  /**
   * When the second vector is wider than the table, the throw leaves row 0
   * with its whole product row added and every other row as it was.
   */
  lemma OuterLeftFirstRow(g: seq<seq<real>>, cols: nat, a: seq<real>, b: seq<real>)
    requires IsRect(g, |g|, cols) && |a| > 0 && |g| > 0 && |b| > cols
    ensures OuterLeft(g, cols, a, b) == g[0 := seq(cols, c requires 0 <= c < cols => g[0][c] + a[0] * b[c])]
  {
    var h := g[0 := seq(cols, c requires 0 <= c < cols => g[0][c] + a[0] * b[c])];
    RectEqual(OuterLeft(g, cols, a, b), h, |g|, cols);
  }

  /** Having finished row `i` is having reached the start of row `i + 1`; after the last row the whole product is added. */
  lemma NextRow(g: seq<seq<real>>, cols: nat, a: seq<real>, b: seq<real>, i: nat)
    requires IsRect(g, |g|, cols) && i <= |a|
    ensures i < |a| ==> OuterBefore(g, a, b, i, |b|) == OuterBefore(g, a, b, i + 1, 0)
    ensures i == |a| ==> OuterBefore(g, a, b, i, 0) == Outer(g, a, b)
  {
    if i < |a| {
      RectEqual(OuterBefore(g, a, b, i, |b|), OuterBefore(g, a, b, i + 1, 0), |g|, cols);
    } else {
      RectEqual(OuterBefore(g, a, b, i, 0), Outer(g, a, b), |g|, cols);
    }
  }

  /** Reaching a row past the table's last one leaves every row updated. */
  lemma PastLastRow(g: seq<seq<real>>, cols: nat, a: seq<real>, b: seq<real>, i: nat)
    requires IsRect(g, |g|, cols) && i >= |g|
    ensures OuterBefore(g, a, b, i, 0) == Outer(g, a, b)
  {
    RectEqual(OuterBefore(g, a, b, i, 0), Outer(g, a, b), |g|, cols);
  }

  /** Nothing comes before `(0, 0)`. */
  lemma NothingBefore(g: seq<seq<real>>, cols: nat, a: seq<real>, b: seq<real>)
    requires IsRect(g, |g|, cols)
    ensures OuterBefore(g, a, b, 0, 0) == g
  {
    RectEqual(OuterBefore(g, a, b, 0, 0), g, |g|, cols);
  }

  /** Updating entry `(i, j)` moves the boundary one entry on. */
  lemma UpdateOne(g: seq<seq<real>>, cols: nat, a: seq<real>, b: seq<real>, i: nat, j: nat)
    requires IsRect(g, |g|, cols) && i < |a| && j < |b| && i < |g| && j < cols
    ensures var h := OuterBefore(g, a, b, i, j);
      h[i := h[i][j := h[i][j] + a[i] * b[j]]] == OuterBefore(g, a, b, i, j + 1)
  {
    var h := OuterBefore(g, a, b, i, j);
    RectEqual(h[i := h[i][j := h[i][j] + a[i] * b[j]]], OuterBefore(g, a, b, i, j + 1), |g|, cols);
  }

  /**
   * `addOuterProductToMatrix(first, second, target)`: for each `i < |first|`
   * and `j < |second|` in row order, `get(i, j)` then `set(i, j, value +
   * first[i] * second[j])`. The first index outside the table throws (the row
   * is checked before the column); the entries already updated stay updated.
   */
  method AddOuterProduct(first: seq<real>, second: seq<real>, target: Table) returns (result: Table, status: Outcome)
    requires target.Valid()
    ensures result.Valid() && result.cols == target.cols && result.Rows() == target.Rows()
    ensures status.Fail? <==> |first| > 0 && |second| > 0 && (|first| > target.Rows() || |second| > target.cols)
    ensures status.Fail? ==> status.error == IllegalArgument(
      if target.Rows() > 0 && |second| > target.cols then Matrices.BadColumn else Matrices.BadRow)
    ensures status.Pass? ==> result.cells == Outer(target.cells, first, second)
    ensures result.cells == OuterLeft(target.cells, target.cols, first, second)
  {
    var cells := target.cells;
    var rows, cols := |cells|, target.cols;
    var i := 0;
    NothingBefore(cells, cols, first, second);
    while i < |first|
      invariant 0 <= i <= |first| && IsRect(cells, rows, cols)
      invariant i > 0 && |second| > 0 ==> i <= rows && |second| <= cols
      invariant cells == OuterBefore(target.cells, first, second, i, 0)
    {
      var rowStatus;
      cells, rowStatus := AddOuterRow(cells, target.cells, cols, first, second, i);
      if rowStatus.Fail? {
        if i < rows {
          assert i == 0;
        } else {
          PastLastRow(target.cells, cols, first, second, i);
        }
        return Table(cells, cols), rowStatus;
      }
      i := i + 1;
    }
    result, status := Table(cells, cols), Pass;
    NextRow(target.cells, cols, first, second, i);
    if |first| > 0 && rows > 0 && |second| > cols {
      assert false;
    }
  }

  /** The inner loop of `addOuterProductToMatrix`: row `i` of the outer product, column by column. */
  method AddOuterRow(cells: seq<seq<real>>, ghost g: seq<seq<real>>, cols: nat, first: seq<real>, second: seq<real>, i: nat)
    returns (next: seq<seq<real>>, status: Outcome)
    requires IsRect(g, |g|, cols) && i < |first| && cells == OuterBefore(g, first, second, i, 0)
    ensures IsRect(next, |g|, cols)
    ensures status.Fail? <==> |second| > 0 && (i >= |g| || |second| > cols)
    ensures status.Fail? ==> status.error == IllegalArgument(if i < |g| then Matrices.BadColumn else Matrices.BadRow)
    ensures status.Pass? ==> next == OuterBefore(g, first, second, i + 1, 0)
    ensures status.Fail? ==> next == if i < |g| then OuterBefore(g, first, second, i, cols) else cells
  {
    next := cells;
    var j := 0;
    while j < |second|
      invariant 0 <= j <= |second| && next == OuterBefore(g, first, second, i, j)
      invariant j > 0 ==> i < |g| && j <= cols
    {
      if i >= |next| {
        return next, Fail(IllegalArgument(Matrices.BadRow));
      }
      if j >= cols {
        return next, Fail(IllegalArgument(Matrices.BadColumn));
      }
      var currentValue := next[i][j];
      UpdateOne(g, cols, first, second, i, j);
      next := next[i := next[i][j := currentValue + first[i] * second[j]]];
      j := j + 1;
    }
    NextRow(g, cols, first, second, i);
    status := Pass;
  }
}
