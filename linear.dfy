// The fully connected layers: com.jace.layer.LinearLayer with what it
// inherits from ConnectedLayer (weights, bias, their gradients and the
// regularization setting), and the root package's LayerLinear, which keeps
// the same parameters without regularization. A matrix is held as a `Table`
// value and a vector as a sequence; a field the com.jace code may leave null
// is an `Option`, and using it while it is `None` fails with `NullPointer`.
module LinearLayers {
  import opened Wrappers
  import opened Numeric
  import opened Grids
  import opened Dense
  import opened Layers
  import Vectors
  import Matrices

  /** `ConnectedLayer.RegularizationType`. */
  datatype Regularization = NoRegularization | L1 | L2

  /** `Math.signum`. */
  function Signum(v: real): (s: real)
    ensures s == 0.0 || s == 1.0 || s == -1.0
    ensures s * v >= 0.0 && (s == 0.0 <==> v == 0.0)
  {
    if v > 0.0 then 1.0 else if v < 0.0 then -1.0 else 0.0
  }

  /** What one step of the regularization loop adds to the gradient entry of weight `w`. */
  function Penalty(kind: Regularization, amount: real, w: real): real
  {
    match kind
    case NoRegularization => 0.0
    case L1 => -1.0 * Signum(w) * amount
    case L2 => -(w * amount)
  }

  /**
   * The gradient is added to the weights, so a penalty of the opposite sign
   * to its weight pulls that weight towards zero: L1 by exactly the amount,
   * L2 in proportion to the weight; a zero weight is left alone.
   */
  lemma PenaltyOpposesWeight(kind: Regularization, amount: real, w: real)
    requires amount >= 0.0
    ensures Penalty(kind, amount, w) * w <= 0.0
    ensures w == 0.0 ==> Penalty(kind, amount, w) == 0.0
    ensures kind == L1 && w > 0.0 ==> Penalty(kind, amount, w) == -amount
    ensures kind == L1 && w < 0.0 ==> Penalty(kind, amount, w) == amount
    ensures kind == L2 ==> Penalty(kind, amount, w) == -amount * w
  {
    if kind == L2 {
      assert w * w >= 0.0;
      assert -(w * amount) * w == -(amount * (w * w));
    } else if kind == L1 && w != 0.0 {
      assert Signum(w) * w > 0.0;
    }
  }

  /**
   * The gradient (row-major) after the regularization loop over the weights
   * `w`: the loop runs for `k < |w| - 1`, so the last weight is never
   * regularized.
   */
  function Regularized(g: seq<real>, w: seq<real>, kind: Regularization, amount: real): (h: seq<real>)
    ensures |h| == |g|
  {
    seq(|g|, k requires 0 <= k < |g| => if k + 1 < |w| then g[k] + Penalty(kind, amount, w[k]) else g[k])
  }

  /**
   * What the loop does to each gradient entry: without regularization
   * nothing; otherwise every entry but the one of the last weight moves by
   * the penalty of its weight, against the sign of that weight.
   */
  lemma RegularizedEntries(g: seq<real>, w: seq<real>, kind: Regularization, amount: real)
    requires amount >= 0.0
    ensures kind == NoRegularization ==> Regularized(g, w, kind, amount) == g
    ensures forall k :: 0 <= k < |g| && k + 1 >= |w| ==> Regularized(g, w, kind, amount)[k] == g[k]
    ensures forall k :: 0 <= k < |g| && k + 1 < |w| ==>
      (Regularized(g, w, kind, amount)[k] - g[k]) * w[k] <= 0.0 &&
      Regularized(g, w, kind, amount)[k] - g[k] == Penalty(kind, amount, w[k])
  {
    var h := Regularized(g, w, kind, amount);
    forall k | 0 <= k < |g| && k + 1 < |w|
      ensures (h[k] - g[k]) * w[k] <= 0.0 && h[k] - g[k] == Penalty(kind, amount, w[k])
    {
      PenaltyOpposesWeight(kind, amount, w[k]);
    }
    if kind == NoRegularization {
      assert forall k :: 0 <= k < |g| ==> h[k] == g[k];
    }
  }

  /**
   * The regularization loop of `updateGradient` on the flattened gradient
   * and weights: with L1 or L2, for each `i < |weights| - 1` it reads weight
   * `i` and gradient entry `i` and writes the entry back moved by the
   * penalty; a gradient shorter than that throws on the first entry it lacks,
   * after every entry it has was updated.
   */
  method Regularize(gradient: seq<real>, weights: seq<real>, kind: Regularization, amount: real)
    returns (result: seq<real>, status: Outcome)
    ensures status.Fail? <==> kind != NoRegularization && |gradient| + 1 < |weights|
    ensures status.Fail? ==> status.error == IndexOutOfBounds
    ensures result == Regularized(gradient, weights, kind, amount)
  {
    result := gradient;
    if kind == NoRegularization {
      assert forall k :: 0 <= k < |gradient| ==> Regularized(gradient, weights, kind, amount)[k] == gradient[k];
      return result, Pass;
    }
    var i := 0;
    while i < |weights| - 1
      invariant 0 <= i <= |gradient| && (i == 0 || i < |weights|)
      invariant |result| == |gradient|
      invariant forall k :: 0 <= k < |gradient| ==>
        result[k] == if k < i then gradient[k] + Penalty(kind, amount, weights[k]) else gradient[k]
    {
      if i >= |result| {
        return result, Fail(IndexOutOfBounds);
      }
      result := result[i := result[i] + Penalty(kind, amount, weights[i])];
      i := i + 1;
    }
    status := Pass;
  }

  /** `t` holds a well-formed table when it holds one at all. */
  predicate Shaped(t: Option<Table>)
  {
    t.Some? ==> t.value.Valid()
  }

  /** `size()` of a matrix: its entry count. */
  function Size(t: Table): nat
  {
    t.Rows() * t.cols
  }

  /** The gradient table after the regularization loop, cut back into rows. */
  function PenalizedTable(g: Table, w: Table, kind: Regularization, amount: real): (h: Table)
    requires g.Valid() && w.Valid()
    ensures h.Valid() && h.cols == g.cols && h.Rows() == g.Rows()
    ensures Flatten(h.cells) == Regularized(Flatten(g.cells), Flatten(w.cells), kind, amount)
  {
    FlattenLength(g.cells, g.Rows(), g.cols);
    var flat := Regularized(Flatten(g.cells), Flatten(w.cells), kind, amount);
    FlattenUnflatten(flat, g.Rows(), g.cols);
    Table(Unflatten(flat, g.Rows(), g.cols), g.cols)
  }

  /** Entry `k = r * cols + c` is the last one exactly when `(r, c)` is the bottom-right corner. */
  lemma LastEntry(rows: nat, cols: nat, r: nat, c: nat)
    requires r < rows && c < cols
    ensures r * cols + c + 1 < rows * cols <==> !(r == rows - 1 && c == cols - 1)
  {
    if r < rows - 1 {
      MulMono(r + 1, rows - 1, cols);
      assert (r + 1) * cols == r * cols + cols;
      assert (rows - 1) * cols + cols == rows * cols;
    } else {
      assert rows * cols == r * cols + cols;
    }
  }

  /** Entry `k` of the regularized gradient. */
  lemma RegularizedAt(g: seq<real>, w: seq<real>, kind: Regularization, amount: real, k: nat)
    requires k < |g|
    ensures k + 1 < |w| ==> Regularized(g, w, kind, amount)[k] == g[k] + Penalty(kind, amount, w[k])
    ensures k + 1 >= |w| ==> Regularized(g, w, kind, amount)[k] == g[k]
  {
  }

  /**
   * For weights and a gradient of the same shape, the regularization loop
   * moves every gradient entry by the penalty of the weight in the same
   * place, except the bottom-right one, which it leaves as it was.
   */
  lemma PenalizedEntry(g: Table, w: Table, kind: Regularization, amount: real, r: nat, c: nat)
    requires g.Valid() && w.Valid() && w.Rows() == g.Rows() && w.cols == g.cols
    requires r < g.Rows() && c < g.cols
    ensures r == g.Rows() - 1 && c == g.cols - 1 ==> PenalizedTable(g, w, kind, amount).cells[r][c] == g.cells[r][c]
    ensures !(r == g.Rows() - 1 && c == g.cols - 1) ==>
      PenalizedTable(g, w, kind, amount).cells[r][c] == g.cells[r][c] + Penalty(kind, amount, w.cells[r][c])
  {
    var h := PenalizedTable(g, w, kind, amount);
    var rows, cols := g.Rows(), g.cols;
    var k := r * cols + c;
    FlattenAt(h.cells, rows, cols, r, c);
    FlattenAt(g.cells, rows, cols, r, c);
    FlattenAt(w.cells, rows, cols, r, c);
    LastEntry(rows, cols, r, c);
    RegularizedAt(Flatten(g.cells), Flatten(w.cells), kind, amount, k);
  }

  /** `fill(supplier)` on a `rows` x `cols` matrix: the draws from `first` on, row by row. */
  function Drawn(rows: nat, cols: nat, source: nat -> real, first: nat): (t: Table)
    ensures t.Valid() && t.Rows() == rows && t.cols == cols
    ensures Flatten(t.cells) == Supplied(source, first, rows * cols)
  {
    FlattenUnflatten(Supplied(source, first, rows * cols), rows, cols);
    Table(Unflatten(Supplied(source, first, rows * cols), rows, cols), cols)
  }

  /** `fill(0)` on a gradient that exists, else a new zero `rows` x `cols` matrix. */
  function ZeroedOr(t: Option<Table>, rows: nat, cols: nat): (z: Table)
    requires Shaped(t)
    ensures z.Valid() && forall i, j :: 0 <= i < z.Rows() && 0 <= j < z.cols ==> z.cells[i][j] == 0.0
    ensures t.Some? ==> z.Rows() == t.value.Rows() && z.cols == t.value.cols
    ensures t.None? ==> z.Rows() == rows && z.cols == cols
  {
    if t.Some? then Table(Zeros(t.value.Rows(), t.value.cols), t.value.cols) else Table(Zeros(rows, cols), cols)
  }

  /** Multiplying every entry by zero gives the zero table of the same shape. */
  lemma ScaledByZero(t: Table)
    requires t.Valid()
    ensures ScaledRows(t.cells, 0.0) == Zeros(t.Rows(), t.cols)
  {
    RectEqual(ScaledRows(t.cells, 0.0), Zeros(t.Rows(), t.cols), t.Rows(), t.cols);
  }

  /** `addOuterProductToMatrix(a, b, g)` throws: a product entry lies outside `g`, or `g` is null and there is an entry at all. */
  predicate OuterFails(g: Option<Table>, a: seq<real>, b: seq<real>)
  {
    |a| > 0 && |b| > 0 && (g.None? || |a| > g.value.Rows() || |b| > g.value.cols)
  }

  /** What `addOuterProductToMatrix` throws when it fails: the row is checked before the column. */
  function OuterError(g: Option<Table>, b: seq<real>): Error
  {
    if g.None? then NullPointer
    else IllegalArgument(if g.value.Rows() > 0 && |b| > g.value.cols then Matrices.BadColumn else Matrices.BadRow)
  }

  /** `g` with the outer product of `a` and `b` added, when `g` exists. */
  function OuterOf(g: Option<Table>, a: seq<real>, b: seq<real>): (h: Option<Table>)
    requires Shaped(g)
    ensures Shaped(h) && h.Some? == g.Some?
    ensures g.Some? ==> h.value.Rows() == g.value.Rows() && h.value.cols == g.value.cols
  {
    if g.None? then None else Some(Table(Outer(g.value.cells, a, b), g.value.cols))
  }

  /** `g` as `addOuterProductToMatrix(a, b, g)` leaves it, whether or not it throws. */
  function OuterLeftOf(g: Option<Table>, a: seq<real>, b: seq<real>): (h: Option<Table>)
    requires Shaped(g)
    ensures Shaped(h) && h.Some? == g.Some?
    ensures g.Some? ==> h.value.Rows() == g.value.Rows() && h.value.cols == g.value.cols
  {
    if g.None? then None else Some(Table(OuterLeft(g.value.cells, g.value.cols, a, b), g.value.cols))
  }

  /**
   * The regularization loop throws: the weights are null, or the loop runs at
   * least once on a null gradient, or the gradient has fewer entries than the
   * loop reads.
   */
  predicate PenaltyFails(g: Option<Table>, w: Option<Table>, kind: Regularization)
  {
    kind != NoRegularization &&
    (w.None? || (g.None? && Size(w.value) > 1) || (g.Some? && Size(g.value) + 1 < Size(w.value)))
  }

  /** The gradient after the regularization loop, when there is anything to regularize. */
  function PenalizedOf(g: Option<Table>, w: Option<Table>, kind: Regularization, amount: real): (h: Option<Table>)
    requires Shaped(g) && Shaped(w)
    ensures Shaped(h) && h.Some? == g.Some?
  {
    if kind == NoRegularization || g.None? || w.None? then g else Some(PenalizedTable(g.value, w.value, kind, amount))
  }

  /** The first step of `updateGradient`: the outer product of `a` and `b` added to the gradient `g`. */
  method AccumulateOuter(g: Option<Table>, a: seq<real>, b: seq<real>) returns (h: Option<Table>, status: Outcome)
    requires Shaped(g)
    ensures Shaped(h) && h.Some? == g.Some?
    ensures g.Some? ==> h.value.Rows() == g.value.Rows() && h.value.cols == g.value.cols
    ensures status.Fail? <==> OuterFails(g, a, b)
    ensures status.Fail? ==> status.error == OuterError(g, b)
    ensures status.Pass? ==> h == OuterOf(g, a, b)
    ensures h == OuterLeftOf(g, a, b)
  {
    if g.None? {
      h := g;
      status := if |a| > 0 && |b| > 0 then Fail(NullPointer) else Pass;
    } else {
      var t;
      t, status := AddOuterProduct(a, b, g.value);
      h := Some(t);
    }
  }

  /** The second step of `updateGradient`: the regularization loop over the flattened weights and gradient. */
  method PenalizeGradient(g: Option<Table>, w: Option<Table>, kind: Regularization, amount: real)
    returns (h: Option<Table>, status: Outcome)
    requires Shaped(g) && Shaped(w)
    ensures Shaped(h) && h.Some? == g.Some?
    ensures g.Some? ==> h.value.Rows() == g.value.Rows() && h.value.cols == g.value.cols
    ensures status.Fail? <==> PenaltyFails(g, w, kind)
    ensures status.Fail? ==> status.error == if w.None? || g.None? then NullPointer else IndexOutOfBounds
    ensures h == PenalizedOf(g, w, kind, amount)
  {
    h := g;
    if kind == NoRegularization {
      return h, Pass;
    }
    if w.None? {
      return h, Fail(NullPointer);
    }
    if g.None? {
      status := if Size(w.value) > 1 then Fail(NullPointer) else Pass;
      return;
    }
    var grad, weights := g.value, w.value;
    FlattenLength(grad.cells, grad.Rows(), grad.cols);
    FlattenLength(weights.cells, weights.Rows(), weights.cols);
    var flat;
    flat, status := Regularize(Flatten(grad.cells), Flatten(weights.cells), kind, amount);
    h := Some(Table(Unflatten(flat, grad.Rows(), grad.cols), grad.cols));
  }

  /** The last step of `updateGradient`: `biasGradient.add(blame)`. */
  function BiasPlus(bg: Option<seq<real>>, blame: seq<real>): (r: Result<seq<real>>)
    ensures r.Err? <==> bg.None? || |bg.value| != |blame|
    ensures r.Err? ==> r.error == if bg.None? then NullPointer else IllegalArgument(Vectors.SizeMismatch)
    ensures r.Ok? ==> |r.value| == |blame| && forall i :: 0 <= i < |blame| ==> r.value[i] == bg.value[i] + blame[i]
  {
    if bg.None? then Err(NullPointer)
    else if |bg.value| != |blame| then Err(IllegalArgument(Vectors.SizeMismatch))
    else Ok(Plus(bg.value, blame))
  }

  /**
   * The weight gradient `updateGradient` leaves, whether or not a step
   * throws: a throwing outer product leaves the entries it already updated;
   * otherwise the outer product and the penalties are in it, even when the
   * bias step then throws.
   */
  function LearnedWeightsGradient(g: Option<Table>, w: Option<Table>, kind: Regularization, amount: real,
                                  blame: seq<real>, x: seq<real>): (h: Option<Table>)
    requires Shaped(g) && Shaped(w)
    ensures Shaped(h) && h.Some? == g.Some?
    ensures g.Some? ==> h.value.Rows() == g.value.Rows() && h.value.cols == g.value.cols
  {
    if OuterFails(g, blame, x) then OuterLeftOf(g, blame, x) else PenalizedOf(OuterOf(g, blame, x), w, kind, amount)
  }

  /** `com.jace.layer.LinearLayer`. */
  class LinearLayer {
    const base: Layer
    var weights: Option<Table>
    var bias: Option<seq<real>>
    var weightsGradient: Option<Table>
    var biasGradient: Option<seq<real>>
    var regularization: Regularization
    var regularizationAmount: real

    ghost predicate Valid()
      reads this
    {
      base.kind == Linear && base.connected && Shaped(weights) && Shaped(weightsGradient)
    }

    /** `LinearLayer(inputs, outputs)`: no parameters or gradients yet, and no regularization. */
    constructor (inputs: nat, outputs: nat)
      ensures Valid() && fresh(base) && base.inputs == inputs && base.outputs == outputs
      ensures base.activation == Constant(outputs, 0.0) && base.blame == Constant(outputs, 0.0)
      ensures weights == None && bias == None && weightsGradient == None && biasGradient == None
      ensures regularization == NoRegularization && regularizationAmount == 0.0
    {
      base := new Layer(Linear, true, inputs, outputs);
      weights, bias := None, None;
      weightsGradient, biasGradient := None, None;
      regularization, regularizationAmount := NoRegularization, 0.0;
    }

    /** `copy()`: a new layer of the same sizes; nothing else is carried over. */
    method Copy() returns (c: LinearLayer)
      ensures fresh(c) && fresh(c.base) && c.Valid()
      ensures c.base.inputs == base.inputs && c.base.outputs == base.outputs
      ensures c.weights == None && c.bias == None && c.weightsGradient == None && c.biasGradient == None
      ensures c.regularization == NoRegularization && c.regularizationAmount == 0.0
    {
      c := new LinearLayer(base.inputs, base.outputs);
    }

    /** `setWeights`: only the weights change. */
    method SetWeights(w: Table)
      requires Valid() && w.Valid()
      modifies this
      ensures Valid() && weights == Some(w) && bias == old(bias)
      ensures weightsGradient == old(weightsGradient) && biasGradient == old(biasGradient)
      ensures regularization == old(regularization) && regularizationAmount == old(regularizationAmount)
    {
      weights := Some(w);
    }

    /** `setBias`: only the bias changes. */
    method SetBias(b: seq<real>)
      requires Valid()
      modifies this
      ensures Valid() && bias == Some(b) && weights == old(weights)
      ensures weightsGradient == old(weightsGradient) && biasGradient == old(biasGradient)
      ensures regularization == old(regularization) && regularizationAmount == old(regularizationAmount)
    {
      bias := Some(b);
    }

    /** `setRegularizationType` and `setRegularizationAmount` together: only the setting changes. */
    method SetRegularization(kind: Regularization, amount: real)
      requires Valid()
      modifies this
      ensures Valid() && regularization == kind && regularizationAmount == amount
      ensures weights == old(weights) && bias == old(bias)
      ensures weightsGradient == old(weightsGradient) && biasGradient == old(biasGradient)
    {
      regularization, regularizationAmount := kind, amount;
    }

    /**
     * `resetGradient()`: a missing weight gradient becomes a new `outputs` x
     * `inputs` matrix (which throws when there are outputs but no input), a
     * missing bias gradient a new vector of `outputs` entries; then both are
     * filled with zeros, keeping their shapes.
     */
    method ResetGradient() returns (status: Outcome)
      requires Valid()
      modifies this
      ensures Valid() && weights == old(weights) && bias == old(bias)
      ensures regularization == old(regularization) && regularizationAmount == old(regularizationAmount)
      ensures status.Fail? <==> old(weightsGradient).None? && base.outputs > 0 && base.inputs == 0
      ensures status.Fail? ==> status.error == IllegalArgument(Matrices.NoColumns)
      ensures status.Fail? ==> weightsGradient == None && biasGradient == old(biasGradient)
      ensures status.Pass? ==> weightsGradient == Some(ZeroedOr(old(weightsGradient), base.outputs, base.inputs))
      ensures status.Pass? ==>
        biasGradient == Some(Constant(if old(biasGradient).Some? then |old(biasGradient).value| else base.outputs, 0.0))
    {
      if weightsGradient.None? && base.outputs > 0 && base.inputs == 0 {
        return Fail(IllegalArgument(Matrices.NoColumns));
      }
      weightsGradient := Some(ZeroedOr(weightsGradient, base.outputs, base.inputs));
      var n := if biasGradient.Some? then |biasGradient.value| else base.outputs;
      biasGradient := Some(Constant(n, 0.0));
      status := Pass;
    }

    /**
     * `fillAll(supplier)`: the weights take successive draws row by row, then
     * the bias takes the draws after those; a null weights matrix throws
     * before any draw, a null bias after the weights were filled. `next` is
     * the first draw left unused.
     */
    method FillAll(source: nat -> real, first: nat) returns (status: Outcome, next: nat)
      requires Valid()
      modifies this
      ensures Valid() && weightsGradient == old(weightsGradient) && biasGradient == old(biasGradient)
      ensures regularization == old(regularization) && regularizationAmount == old(regularizationAmount)
      ensures status.Fail? <==> old(weights).None? || old(bias).None?
      ensures status.Fail? ==> status.error == NullPointer && bias == old(bias)
      ensures old(weights).None? ==> weights == None
      ensures old(weights).Some? ==>
        weights == Some(Drawn(old(weights).value.Rows(), old(weights).value.cols, source, first))
      ensures status.Pass? ==> next == first + Size(old(weights).value) + |old(bias).value|
      ensures status.Pass? ==> bias == Some(Supplied(source, first + Size(old(weights).value), |old(bias).value|))
    {
      next := first;
      if weights.None? {
        return Fail(NullPointer), next;
      }
      var w := weights.value;
      weights := Some(Drawn(w.Rows(), w.cols, source, first));
      next := first + Size(w);
      if bias.None? {
        return Fail(NullPointer), next;
      }
      var n := |bias.value|;
      bias := Some(Supplied(source, next, n));
      next := next + n;
      status := Pass;
    }

    /**
     * `initialize()`: `resetGradient()`, then a zero `outputs` x `inputs`
     * weights matrix and a zero bias of `outputs` entries (the matrix throws
     * when there are outputs but no input), then `fillAll` with the draws from
     * `first` on.
     */
    method Initialize(source: nat -> real, first: nat) returns (status: Outcome, next: nat)
      requires Valid()
      modifies this
      ensures Valid() && regularization == old(regularization) && regularizationAmount == old(regularizationAmount)
      ensures status.Fail? <==> base.outputs > 0 && base.inputs == 0
      ensures status.Fail? ==> status.error == IllegalArgument(Matrices.NoColumns)
      ensures status.Fail? ==> weights == old(weights) && bias == old(bias) && next == first
      ensures status.Pass? ==> next == first + base.outputs * base.inputs + base.outputs
      ensures status.Pass? ==> weights == Some(Drawn(base.outputs, base.inputs, source, first))
      ensures status.Pass? ==> bias == Some(Supplied(source, first + base.outputs * base.inputs, base.outputs))
      ensures status.Pass? ==> weightsGradient == Some(ZeroedOr(old(weightsGradient), base.outputs, base.inputs))
      ensures status.Pass? ==>
        biasGradient == Some(Constant(if old(biasGradient).Some? then |old(biasGradient).value| else base.outputs, 0.0))
    {
      status := ResetGradient();
      next := first;
      if status.Fail? {
        return;
      }
      if base.outputs > 0 && base.inputs == 0 {
        return Fail(IllegalArgument(Matrices.NoColumns)), next;
      }
      weights := Some(Table(Zeros(base.outputs, base.inputs), base.inputs));
      bias := Some(Constant(base.outputs, 0.0));
      status, next := FillAll(source, first);
    }

    /**
     * `activate(x)`: `W x + b` on success, which becomes the activation. Null
     * weights throw first; null bias throws once the product was formed.
     */
    method Activate(x: seq<real>) returns (r: Result<seq<real>>)
      requires Valid()
      modifies base
      ensures weights.None? ==> r == Err(NullPointer)
      ensures weights.Some? && bias.Some? ==> r == Forward(weights.value, bias.value, x)
      ensures weights.Some? && bias.None? && Product(weights.value, x).Err? ==> r == Product(weights.value, x)
      ensures weights.Some? && bias.None? && Product(weights.value, x).Ok? ==> r == Err(NullPointer)
      ensures r.Ok? ==> base.activation == r.value
      ensures r.Err? ==> base.activation == old(base.activation)
      ensures base.blame == old(base.blame)
    {
      if weights.None? {
        return Err(NullPointer);
      }
      if bias.None? {
        var product := Product(weights.value, x);
        return if product.Err? then product else Err(NullPointer);
      }
      r := Forward(weights.value, bias.value, x);
      if r.Ok? {
        base.SetActivation(r.value);
      }
    }

    /** `backPropagate()`: `W^T` times the blame; null weights throw. */
    method BackPropagate() returns (r: Result<seq<real>>)
      requires Valid()
      ensures weights.None? ==> r == Err(NullPointer)
      ensures weights.Some? ==> r == Backward(weights.value, base.blame)
    {
      if weights.None? {
        return Err(NullPointer);
      }
      r := Backward(weights.value, base.blame);
    }

    /**
     * `updateGradient(x)`: the outer product of the blame and `x` is added to
     * the weight gradient, the regularization loop moves the gradient entries
     * by their weights' penalties, and the blame is added to the bias
     * gradient. The first step that throws ends the update.
     */
    method UpdateGradient(x: seq<real>) returns (status: Outcome)
      requires Valid()
      modifies this
      ensures Valid() && weights == old(weights) && bias == old(bias)
      ensures regularization == old(regularization) && regularizationAmount == old(regularizationAmount)
      ensures status.Fail? <==> OuterFails(old(weightsGradient), base.blame, x) ||
                                PenaltyFails(old(weightsGradient), weights, regularization) ||
                                BiasPlus(old(biasGradient), base.blame).Err?
      ensures OuterFails(old(weightsGradient), base.blame, x) ==>
        status.Fail? && status.error == OuterError(old(weightsGradient), x)
      ensures !OuterFails(old(weightsGradient), base.blame, x) && PenaltyFails(old(weightsGradient), weights, regularization) ==>
        status.Fail? && status.error == (if weights.None? || old(weightsGradient).None? then NullPointer else IndexOutOfBounds)
      ensures !OuterFails(old(weightsGradient), base.blame, x) && !PenaltyFails(old(weightsGradient), weights, regularization) ==>
        (status.Fail? ==> status.error == BiasPlus(old(biasGradient), base.blame).error)
      ensures status.Pass? ==>
        weightsGradient == PenalizedOf(OuterOf(old(weightsGradient), base.blame, x), weights, regularization, regularizationAmount)
      ensures status.Pass? ==> biasGradient == Some(BiasPlus(old(biasGradient), base.blame).value)
      ensures weightsGradient ==
        LearnedWeightsGradient(old(weightsGradient), weights, regularization, regularizationAmount, base.blame, x)
      ensures status.Fail? ==> biasGradient == old(biasGradient)
    {
      var blame := base.blame;
      var g;
      g, status := AccumulateOuter(weightsGradient, blame, x);
      weightsGradient := g;
      if status.Fail? {
        return;
      }
      g, status := PenalizeGradient(weightsGradient, weights, regularization, regularizationAmount);
      weightsGradient := g;
      if status.Fail? {
        return;
      }
      var sum := BiasPlus(biasGradient, blame);
      if sum.Err? {
        return Fail(sum.error);
      }
      biasGradient := Some(sum.value);
    }

    /** Everything `applyGradient` touches exists and the shapes agree. */
    predicate Applicable()
      reads this
    {
      weights.Some? && weightsGradient.Some? && bias.Some? && biasGradient.Some? &&
      weights.value.Rows() == weightsGradient.value.Rows() && weights.value.cols == weightsGradient.value.cols &&
      |bias.value| == |biasGradient.value|
    }

    /** The weights and their gradient exist and have one shape, so `applyGradient` moves the weights. */
    predicate WeightsMove()
      reads this
    {
      weights.Some? && weightsGradient.Some? &&
      weights.value.Rows() == weightsGradient.value.Rows() && weights.value.cols == weightsGradient.value.cols
    }

    /**
     * `applyGradient(learningRate, momentum)`: the weights and the bias move
     * by `learningRate` times their gradients, then the gradients are scaled
     * by `momentum`. A null operand throws, and so do mismatched shapes
     * (`Matrix.addScaled`, then `Vector.addScaled`); when the bias step
     * throws, the weights have already moved.
     */
    method ApplyGradient(learningRate: real, momentum: real) returns (status: Outcome)
      requires Valid()
      modifies this
      ensures Valid() && regularization == old(regularization) && regularizationAmount == old(regularizationAmount)
      ensures status.Fail? <==> !old(Applicable())
      ensures status.Fail? && (old(weights).None? || old(weightsGradient).None?) ==> status.error == NullPointer
      ensures status.Fail? && old(weights).Some? && old(weightsGradient).Some? &&
        (old(weights).value.Rows() != old(weightsGradient).value.Rows() || old(weights).value.cols != old(weightsGradient).value.cols)
        ==> status.error == IllegalArgument(Matrices.ShapeMismatch)
      ensures status.Fail? && old(WeightsMove()) ==>
        status.error == if old(bias).None? || old(biasGradient).None? then NullPointer else IllegalArgument(Vectors.SizeMismatch)
      ensures status.Fail? ==> bias == old(bias) && weightsGradient == old(weightsGradient) && biasGradient == old(biasGradient)
      ensures !old(WeightsMove()) ==> weights == old(weights)
      ensures old(WeightsMove()) ==> weights == Some(Table(
        PlusScaledRows(old(weights).value.cells, learningRate, old(weightsGradient).value.cells), old(weights).value.cols))
      ensures status.Pass? ==> weights == Some(Table(
        PlusScaledRows(old(weights).value.cells, learningRate, old(weightsGradient).value.cells), old(weights).value.cols))
      ensures status.Pass? ==> bias == Some(PlusScaled(old(bias).value, learningRate, old(biasGradient).value))
      ensures status.Pass? ==> weightsGradient == Some(Table(
        ScaledRows(old(weightsGradient).value.cells, momentum), old(weightsGradient).value.cols))
      ensures status.Pass? ==> biasGradient == Some(Scaled(old(biasGradient).value, momentum))
    {
      if weights.None? || weightsGradient.None? {
        return Fail(NullPointer);
      }
      var w, g := weights.value, weightsGradient.value;
      if w.Rows() != g.Rows() || w.cols != g.cols {
        return Fail(IllegalArgument(Matrices.ShapeMismatch));
      }
      weights := Some(Table(PlusScaledRows(w.cells, learningRate, g.cells), w.cols));
      if bias.None? || biasGradient.None? {
        return Fail(NullPointer);
      }
      var b, bg := bias.value, biasGradient.value;
      if |b| != |bg| {
        return Fail(IllegalArgument(Vectors.SizeMismatch));
      }
      bias := Some(PlusScaled(b, learningRate, bg));
      weightsGradient := Some(Table(ScaledRows(g.cells, momentum), g.cols));
      biasGradient := Some(Scaled(bg, momentum));
      status := Pass;
    }

    /**
     * `applyGradient(learningRate)`: no momentum, so the gradients are left
     * as `resetGradient` leaves them, all zero.
     */
    method ApplyGradientNoMomentum(learningRate: real) returns (status: Outcome)
      requires Valid()
      modifies this
      ensures Valid() && regularization == old(regularization) && regularizationAmount == old(regularizationAmount)
      ensures status.Fail? <==> !old(Applicable())
      ensures status.Pass? ==> weights == Some(Table(
        PlusScaledRows(old(weights).value.cells, learningRate, old(weightsGradient).value.cells), old(weights).value.cols))
      ensures status.Pass? ==> bias == Some(PlusScaled(old(bias).value, learningRate, old(biasGradient).value))
      ensures status.Pass? ==> weightsGradient == Some(ZeroedOr(old(weightsGradient), base.outputs, base.inputs))
      ensures status.Pass? ==> biasGradient == Some(Constant(|old(biasGradient).value|, 0.0))
    {
      ghost var g := weightsGradient;
      status := ApplyGradient(learningRate, 0.0);
      if status.Pass? {
        ScaledByZero(g.value);
        assert Scaled(old(biasGradient).value, 0.0) == Constant(|old(biasGradient).value|, 0.0);
      }
    }
  }

  /**
   * The root package's `LayerLinear`: the weights and the bias always exist
   * (the constructor creates them), and the gradient update has no
   * regularization.
   */
  class LayerLinear {
    const base: Layer
    var weights: Table
    var bias: seq<real>
    var weightsGradient: Table
    var biasGradient: seq<real>

    ghost predicate Valid()
      reads this
    {
      base.kind == Linear && base.connected && weights.Valid() && weightsGradient.Valid()
    }

    /** The constructor for sizes the matrix constructor accepts. */
    constructor Make(inputs: nat, outputs: nat)
      requires !(outputs > 0 && inputs == 0)
      ensures Valid() && fresh(base) && base.inputs == inputs && base.outputs == outputs
      ensures base.activation == Constant(outputs, 0.0) && base.blame == Constant(outputs, 0.0)
      ensures weights == Table(Zeros(outputs, inputs), inputs) && bias == Constant(outputs, 0.0)
      ensures weightsGradient == Table(Zeros(outputs, inputs), inputs) && biasGradient == Constant(outputs, 0.0)
    {
      base := new Layer(Linear, true, inputs, outputs);
      weights := Table(Zeros(outputs, inputs), inputs);
      bias := Constant(outputs, 0.0);
      weightsGradient := Table(Zeros(outputs, inputs), inputs);
      biasGradient := Constant(outputs, 0.0);
    }

    /**
     * `LayerLinear(inputs, outputs)`: zero `outputs` x `inputs` weights, a
     * zero bias and zero gradients of the same shapes; `new Matrix` throws
     * when there are outputs but no input.
     */
    static method Create(inputs: nat, outputs: nat) returns (r: Result<LayerLinear>)
      ensures r.Err? <==> outputs > 0 && inputs == 0
      ensures r.Err? ==> r.error == IllegalArgument(Matrices.NoColumns)
      ensures r.Ok? ==> fresh(r.value) && fresh(r.value.base) && r.value.Valid()
      ensures r.Ok? ==> r.value.base.inputs == inputs && r.value.base.outputs == outputs
      ensures r.Ok? ==> r.value.weights == Table(Zeros(outputs, inputs), inputs) && r.value.bias == Constant(outputs, 0.0)
      ensures r.Ok? ==> r.value.weightsGradient == r.value.weights && r.value.biasGradient == r.value.bias
    {
      if outputs > 0 && inputs == 0 {
        return Err(IllegalArgument(Matrices.NoColumns));
      }
      var layer := new LayerLinear.Make(inputs, outputs);
      return Ok(layer);
    }

    /** `setWeights`: only the weights change. */
    method SetWeights(w: Table)
      requires Valid() && w.Valid()
      modifies this
      ensures Valid() && weights == w && bias == old(bias)
      ensures weightsGradient == old(weightsGradient) && biasGradient == old(biasGradient)
    {
      weights := w;
    }

    /** `setBias`: only the bias changes. */
    method SetBias(b: seq<real>)
      requires Valid()
      modifies this
      ensures Valid() && bias == b && weights == old(weights)
      ensures weightsGradient == old(weightsGradient) && biasGradient == old(biasGradient)
    {
      bias := b;
    }

    /**
     * `initializeWeights()` through `fillAll`: the weights take successive
     * draws row by row, then the bias takes the draws after those.
     */
    method InitializeWeights(source: nat -> real, first: nat) returns (next: nat)
      requires Valid()
      modifies this
      ensures Valid() && weightsGradient == old(weightsGradient) && biasGradient == old(biasGradient)
      ensures weights == Drawn(old(weights).Rows(), old(weights).cols, source, first)
      ensures bias == Supplied(source, first + Size(old(weights)), |old(bias)|)
      ensures next == first + Size(old(weights)) + |old(bias)|
    {
      var n := Size(weights);
      weights := Drawn(weights.Rows(), weights.cols, source, first);
      bias := Supplied(source, first + n, |bias|);
      next := first + n + |bias|;
    }

    /** `resetGradient()`: both gradients filled with zeros, keeping their shapes. */
    method ResetGradient()
      requires Valid()
      modifies this
      ensures Valid() && weights == old(weights) && bias == old(bias)
      ensures weightsGradient == ZeroedOr(Some(old(weightsGradient)), 0, 0)
      ensures biasGradient == Constant(|old(biasGradient)|, 0.0)
    {
      weightsGradient := ZeroedOr(Some(weightsGradient), 0, 0);
      biasGradient := Constant(|biasGradient|, 0.0);
    }

    /** `activate(x)`: `W x + b` on success, which becomes the activation. */
    method Activate(x: seq<real>) returns (r: Result<seq<real>>)
      requires Valid()
      modifies base
      ensures r == Forward(weights, bias, x)
      ensures r.Ok? ==> base.activation == r.value
      ensures r.Err? ==> base.activation == old(base.activation)
      ensures base.blame == old(base.blame)
    {
      r := Forward(weights, bias, x);
      if r.Ok? {
        base.SetActivation(r.value);
      }
    }

    /** `backPropagate()`: `W^T` times the blame. */
    method BackPropagate() returns (r: Result<seq<real>>)
      requires Valid()
      ensures r == Backward(weights, base.blame)
    {
      r := Backward(weights, base.blame);
    }

    /**
     * `updateGradient(x)`: the outer product of the blame and `x` is added to
     * the weight gradient, then the blame to the bias gradient.
     */
    method UpdateGradient(x: seq<real>) returns (status: Outcome)
      requires Valid()
      modifies this
      ensures Valid() && weights == old(weights) && bias == old(bias)
      ensures weightsGradient.Rows() == old(weightsGradient).Rows() && weightsGradient.cols == old(weightsGradient).cols
      ensures status.Fail? <==> OuterFails(Some(old(weightsGradient)), base.blame, x) ||
                                |old(biasGradient)| != |base.blame|
      ensures OuterFails(Some(old(weightsGradient)), base.blame, x) ==> status.Fail? && status.error == IllegalArgument(
        if old(weightsGradient).Rows() > 0 && |x| > old(weightsGradient).cols then Matrices.BadColumn else Matrices.BadRow)
      ensures !OuterFails(Some(old(weightsGradient)), base.blame, x) && status.Fail? ==>
        status.error == IllegalArgument(Vectors.SizeMismatch)
      ensures status.Pass? ==> weightsGradient == Table(Outer(old(weightsGradient).cells, base.blame, x), weightsGradient.cols)
      ensures weightsGradient == Table(OuterLeft(old(weightsGradient).cells, old(weightsGradient).cols, base.blame, x),
                                       old(weightsGradient).cols)
      ensures status.Pass? ==> biasGradient == Plus(old(biasGradient), base.blame)
      ensures status.Fail? ==> biasGradient == old(biasGradient)
    {
      var blame := base.blame;
      weightsGradient, status := AddOuterProduct(blame, x, weightsGradient);
      if status.Fail? {
        return;
      }
      if |biasGradient| != |blame| {
        return Fail(IllegalArgument(Vectors.SizeMismatch));
      }
      biasGradient := Plus(biasGradient, blame);
    }

    /** The shapes `applyGradient` needs to agree. */
    predicate Applicable()
      reads this
    {
      weights.Rows() == weightsGradient.Rows() && weights.cols == weightsGradient.cols && |bias| == |biasGradient|
    }

    /** The weights and their gradient have one shape, so `applyGradient` moves the weights. */
    predicate WeightsMove()
      reads this
    {
      weights.Rows() == weightsGradient.Rows() && weights.cols == weightsGradient.cols
    }

    /**
     * `applyGradient(learningRate, momentum)`: the weights and the bias move
     * by `learningRate` times their gradients, then the gradients are scaled
     * by `momentum`; mismatched shapes throw, a mismatched bias after the
     * weights have moved.
     */
    method ApplyGradient(learningRate: real, momentum: real) returns (status: Outcome)
      requires Valid()
      modifies this
      ensures Valid()
      ensures status.Fail? <==> !old(Applicable())
      ensures status.Fail? ==> status.error == IllegalArgument(
        if old(weights).Rows() != old(weightsGradient).Rows() || old(weights).cols != old(weightsGradient).cols
        then Matrices.ShapeMismatch else Vectors.SizeMismatch)
      ensures status.Fail? ==> bias == old(bias) && weightsGradient == old(weightsGradient) && biasGradient == old(biasGradient)
      ensures !old(WeightsMove()) ==> weights == old(weights)
      ensures old(WeightsMove()) ==> weights == Table(PlusScaledRows(old(weights).cells, learningRate, old(weightsGradient).cells), old(weights).cols)
      ensures status.Pass? ==> weights == Table(PlusScaledRows(old(weights).cells, learningRate, old(weightsGradient).cells), old(weights).cols)
      ensures status.Pass? ==> bias == PlusScaled(old(bias), learningRate, old(biasGradient))
      ensures status.Pass? ==> weightsGradient == Table(ScaledRows(old(weightsGradient).cells, momentum), old(weightsGradient).cols)
      ensures status.Pass? ==> biasGradient == Scaled(old(biasGradient), momentum)
    {
      var w, g := weights, weightsGradient;
      if w.Rows() != g.Rows() || w.cols != g.cols {
        return Fail(IllegalArgument(Matrices.ShapeMismatch));
      }
      weights := Table(PlusScaledRows(w.cells, learningRate, g.cells), w.cols);
      if |bias| != |biasGradient| {
        return Fail(IllegalArgument(Vectors.SizeMismatch));
      }
      bias := PlusScaled(bias, learningRate, biasGradient);
      weightsGradient := Table(ScaledRows(g.cells, momentum), g.cols);
      biasGradient := Scaled(biasGradient, momentum);
      status := Pass;
    }

    /** `applyGradient(learningRate)`: no momentum, so the gradients end all zero. */
    method ApplyGradientNoMomentum(learningRate: real) returns (status: Outcome)
      requires Valid()
      modifies this
      ensures Valid()
      ensures status.Fail? <==> !old(Applicable())
      ensures status.Pass? ==> weights == Table(PlusScaledRows(old(weights).cells, learningRate, old(weightsGradient).cells), old(weights).cols)
      ensures status.Pass? ==> bias == PlusScaled(old(bias), learningRate, old(biasGradient))
      ensures status.Pass? ==> weightsGradient == Table(Zeros(old(weightsGradient).Rows(), old(weightsGradient).cols), old(weightsGradient).cols)
      ensures status.Pass? ==> biasGradient == Constant(|old(biasGradient)|, 0.0)
    {
      ghost var g := weightsGradient;
      status := ApplyGradient(learningRate, 0.0);
      if status.Pass? {
        ScaledByZero(g);
      }
    }
  }

  /** Two entries dotted. */
  lemma Dot2(a: seq<real>, b: seq<real>)
    requires |a| == |b| == 2
    ensures Dot(a, b) == a[0] * b[0] + a[1] * b[1]
  {
    assert Dot(a[..1], b[..1]) == a[0] * b[0] by {
      assert a[..1][..0] == [] && b[..1][..0] == [];
    }
    assert a[..2] == a && b[..2] == b;
  }

  /** Three entries dotted. */
  lemma Dot3(a: seq<real>, b: seq<real>)
    requires |a| == |b| == 3
    ensures Dot(a, b) == a[0] * b[0] + a[1] * b[1] + a[2] * b[2]
  {
    Dot2(a[..2], b[..2]);
  }

  /**
   * The linear layer tests: weights `[[1, 2, 3], [2, 1, 0]]` and bias `[1, 5]`
   * map `[0, 1, 2]` to `[9, 6]`, and send the blame `[0.75, 2]` back as
   * `[4.75, 3.5, 2.25]`.
   */
  lemma LinearFixture()
    ensures Forward(Table([[1.0, 2.0, 3.0], [2.0, 1.0, 0.0]], 3), [1.0, 5.0], [0.0, 1.0, 2.0]) == Ok([9.0, 6.0])
    ensures Backward(Table([[1.0, 2.0, 3.0], [2.0, 1.0, 0.0]], 3), [0.75, 2.0]) == Ok([4.75, 3.5, 2.25])
  {
    var w := [[1.0, 2.0, 3.0], [2.0, 1.0, 0.0]];
    var t := Table(w, 3);
    var x := [0.0, 1.0, 2.0];
    Dot3(w[0], x);
    Dot3(w[1], x);
    var f := Forward(t, [1.0, 5.0], x);
    assert f.value == [9.0, 6.0];
    var e := [0.75, 2.0];
    var back := Backward(t, e);
    Dot2(Column(w, 0), e);
    Dot2(Column(w, 1), e);
    Dot2(Column(w, 2), e);
    assert back.value == [4.75, 3.5, 2.25];
  }
}
