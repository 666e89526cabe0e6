// The layer sequence both NeuralNetwork classes drive (com.jace.learner and
// the root package hold the same loops): the layers a network can hold, the
// values of their parameters and gradients, and the passes over the whole
// sequence (feeding an input forward, handing blame back, accumulating
// gradients, applying them), each proved against a function on those values.
module Networks {
  import opened Wrappers
  import opened Numeric
  import Grids
  import Dense
  import Layers
  import Activations
  import LinearLayers
  import Vectors
  import Matrices

  /** `checkLayers()`. */
  const NoLayers := "This network has no layers."

  /** A layer a network holds, by class. */
  datatype Unit =
    | LinearUnit(linear: LinearLayers.LinearLayer)
    | LayerLinearUnit(layerLinear: LinearLayers.LayerLinear)
    | TanhUnit(tanh: Activations.TanhLayer)
    | LeakyUnit(leaky: Activations.LeakyRectifierLayer)

  /** `getLayerType()`: a constant of each class. */
  function Kind(u: Unit): Layers.LayerType
  {
    match u
    case LinearUnit(_) => Layers.Linear
    case LayerLinearUnit(_) => Layers.Linear
    case TanhUnit(_) => Layers.Tanh
    case LeakyUnit(_) => Layers.LeakyRectifier
  }

  /** What every layer keeps: its sizes, its activation and its blame. */
  function Base(u: Unit): Layers.Layer
  {
    match u
    case LinearUnit(l) => l.base
    case LayerLinearUnit(l) => l.base
    case TanhUnit(t) => t.base
    case LeakyUnit(r) => r.base
  }

  /** The object holding the layer's own fields. */
  function Owner(u: Unit): object
  {
    match u
    case LinearUnit(l) => l
    case LayerLinearUnit(l) => l
    case TanhUnit(t) => t
    case LeakyUnit(r) => r
  }

  ghost predicate UnitValid(u: Unit)
    reads Owner(u)
  {
    match u
    case LinearUnit(l) => l.Valid()
    case LayerLinearUnit(l) => l.Valid()
    case TanhUnit(_) => true
    case LeakyUnit(_) => true
  }

  /** The parameters, gradients and settings of one layer, as values. */
  datatype Snap =
    | LinearSnap(weights: Option<Dense.Table>, bias: Option<seq<real>>,
                 weightsGradient: Option<Dense.Table>, biasGradient: Option<seq<real>>,
                 regularization: LinearLayers.Regularization, amount: real)
    | LayerLinearSnap(w: Dense.Table, b: seq<real>, wg: Dense.Table, bg: seq<real>)
    | TanhSnap(f: real -> real)
    | LeakySnap
  {
    predicate Valid()
    {
      match this
      case LinearSnap(w, _, g, _, _, _) => LinearLayers.Shaped(w) && LinearLayers.Shaped(g)
      case LayerLinearSnap(w, _, g, _) => w.Valid() && g.Valid()
      case TanhSnap(_) => true
      case LeakySnap => true
    }
  }

  function SnapOf(u: Unit): (s: Snap)
    reads Owner(u)
    ensures UnitValid(u) ==> s.Valid()
  {
    match u
    case LinearUnit(l) =>
      LinearSnap(l.weights, l.bias, l.weightsGradient, l.biasGradient, l.regularization, l.regularizationAmount)
    case LayerLinearUnit(l) => LayerLinearSnap(l.weights, l.bias, l.weightsGradient, l.biasGradient)
    case TanhUnit(t) => TanhSnap(t.tanh)
    case LeakyUnit(_) => LeakySnap
  }

  // ---------------------------------------------------------------- one layer

  /** `activate(x)` of a layer with parameters `s`: the activation it produces, or what it throws. */
  function Output(s: Snap, x: seq<real>): (r: Result<seq<real>>)
    requires s.Valid()
  {
    match s
    case LinearSnap(w, b, _, _, _, _) =>
      if w.None? then Err(NullPointer)
      else if b.None? then
        var product := Dense.Product(w.value, x);
        if product.Err? then product else Err(NullPointer)
      else Dense.Forward(w.value, b.value, x)
    case LayerLinearSnap(w, b, _, _) => Dense.Forward(w, b, x)
    case TanhSnap(f) => Ok(Activations.Mapped(x, f))
    case LeakySnap => Ok(Activations.Mapped(x, Activations.Leaky))
  }

  /** The blame a tanh layer hands back: each blame entry times the slope at the activation. */
  function TanhBack(activation: seq<real>, blame: seq<real>): (r: seq<real>)
    requires |blame| <= |activation|
    ensures |r| == |blame| && forall i :: 0 <= i < |blame| ==> r[i] == Activations.TanhGate(activation[i], blame[i])
  {
    seq(|blame|, i requires 0 <= i < |blame| => Activations.TanhGate(activation[i], blame[i]))
  }

  /** The blame a leaky rectifier of `n` inputs hands back. */
  function LeakyBack(activation: seq<real>, n: nat, blame: seq<real>): (r: seq<real>)
    requires n <= |blame| && n <= |activation|
    ensures |r| == n && forall i :: 0 <= i < n ==> r[i] == Activations.LeakyGate(activation[i], blame[i])
  {
    seq(n, i requires 0 <= i < n => Activations.LeakyGate(activation[i], blame[i]))
  }

  /**
   * `backPropagate()` of a layer with parameters `s`, activation
   * `activation`, `inputs` inputs and blame `blame`: the blame for the layer
   * before it, or what it throws.
   */
  function Back(s: Snap, activation: seq<real>, inputs: nat, blame: seq<real>): (r: Result<seq<real>>)
    requires s.Valid()
  {
    match s
    case LinearSnap(w, _, _, _, _, _) => if w.None? then Err(NullPointer) else Dense.Backward(w.value, blame)
    case LayerLinearSnap(w, _, _, _) => Dense.Backward(w, blame)
    case TanhSnap(_) => if |activation| < |blame| then Err(IndexOutOfBounds) else Ok(TanhBack(activation, blame))
    case LeakySnap =>
      if |blame| < inputs || |activation| < inputs then Err(IndexOutOfBounds)
      else Ok(LeakyBack(activation, inputs, blame))
  }

  /** Whether `updateGradient(x)` of a layer with parameters `s` and blame `blame` completes, or what it throws. */
  function LearnOutcome(s: Snap, blame: seq<real>, x: seq<real>): Outcome
  {
    match s
    case LinearSnap(w, _, g, bg, kind, _) =>
      if LinearLayers.OuterFails(g, blame, x) then Fail(LinearLayers.OuterError(g, x))
      else if LinearLayers.PenaltyFails(g, w, kind) then Fail(if w.None? || g.None? then NullPointer else IndexOutOfBounds)
      else if LinearLayers.BiasPlus(bg, blame).Err? then Fail(LinearLayers.BiasPlus(bg, blame).error)
      else Pass
    case LayerLinearSnap(_, _, g, bg) =>
      if LinearLayers.OuterFails(Some(g), blame, x) then
        Fail(IllegalArgument(if g.Rows() > 0 && |x| > g.cols then Matrices.BadColumn else Matrices.BadRow))
      else if |bg| != |blame| then Fail(IllegalArgument(Vectors.SizeMismatch))
      else Pass
    case TanhSnap(_) => Pass
    case LeakySnap => Pass
  }

  /**
   * The parameters after `updateGradient(x)`, whether or not it throws: the
   * outer product of the blame and `x` added to the weight gradient (then
   * regularized), the blame added to the bias gradient; a step that throws
   * leaves what the steps before it wrote. Layers without parameters keep
   * theirs.
   */
  function Learned(s: Snap, blame: seq<real>, x: seq<real>): (t: Snap)
    requires s.Valid()
    ensures t.Valid() && SameParameters(t, s)
  {
    match s
    case LinearSnap(w, b, g, bg, kind, amount) =>
      s.(weightsGradient := LinearLayers.LearnedWeightsGradient(g, w, kind, amount, blame, x),
         biasGradient := if LearnOutcome(s, blame, x).Pass? then Some(LinearLayers.BiasPlus(bg, blame).value) else bg)
    case LayerLinearSnap(w, b, g, bg) =>
      LayerLinearSnap(w, b, Dense.Table(Dense.OuterLeft(g.cells, g.cols, blame, x), g.cols),
                      if LearnOutcome(s, blame, x).Pass? then Plus(bg, blame) else bg)
    case TanhSnap(_) => s
    case LeakySnap => s
  }

  /** A completed `updateGradient(x)` adds the outer product (then the penalties) and the blame to the gradients. */
  lemma LearnedOnPass(s: Snap, blame: seq<real>, x: seq<real>)
    requires s.Valid() && LearnOutcome(s, blame, x).Pass?
    ensures s.LinearSnap? ==>
      Learned(s, blame, x).weightsGradient ==
      LinearLayers.PenalizedOf(LinearLayers.OuterOf(s.weightsGradient, blame, x), s.weights, s.regularization, s.amount)
    ensures s.LinearSnap? ==> Learned(s, blame, x).biasGradient == Some(Plus(s.biasGradient.value, blame))
    ensures s.LayerLinearSnap? ==> Learned(s, blame, x).wg == Dense.Table(Dense.Outer(s.wg.cells, blame, x), s.wg.cols)
    ensures s.LayerLinearSnap? ==> Learned(s, blame, x).bg == Plus(s.bg, blame)
  {
  }

  /** `s` and `t` differ at most in their gradients; those of a `LayerLinear` keep their shapes. */
  ghost predicate SameParameters(t: Snap, s: Snap)
  {
    match s
    case LinearSnap(w, b, _, _, kind, amount) =>
      t.LinearSnap? && t.weights == w && t.bias == b && t.regularization == kind && t.amount == amount
    case LayerLinearSnap(w, b, g, bg) =>
      t.LayerLinearSnap? && t.w == w && t.b == b && t.wg.Valid() && t.wg.Rows() == g.Rows() && t.wg.cols == g.cols && |t.bg| == |bg|
    case TanhSnap(_) => t == s
    case LeakySnap => t == s
  }

  /** Whether `applyGradient(learningRate, momentum)` of a layer with parameters `s` completes, or what it throws. */
  function ApplyOutcome(s: Snap): Outcome
    requires s.Valid()
  {
    match s
    case LinearSnap(w, b, g, bg, _, _) =>
      if w.None? || g.None? then Fail(NullPointer)
      else if w.value.Rows() != g.value.Rows() || w.value.cols != g.value.cols then Fail(IllegalArgument(Matrices.ShapeMismatch))
      else if b.None? || bg.None? then Fail(NullPointer)
      else if |b.value| != |bg.value| then Fail(IllegalArgument(Vectors.SizeMismatch))
      else Pass
    case LayerLinearSnap(w, b, g, bg) =>
      if w.Rows() != g.Rows() || w.cols != g.cols then Fail(IllegalArgument(Matrices.ShapeMismatch))
      else if |b| != |bg| then Fail(IllegalArgument(Vectors.SizeMismatch))
      else Pass
    case TanhSnap(_) => Pass
    case LeakySnap => Pass
  }

  /**
   * The parameters after `applyGradient(learningRate, momentum)`, completed
   * or not: the weights move by `learningRate` times their gradient when
   * both exist with one shape; only when the bias step succeeds too do the
   * bias move and both gradients scale by `momentum`.
   */
  function Applied(s: Snap, learningRate: real, momentum: real): (t: Snap)
    requires s.Valid()
    ensures t.Valid()
  {
    match s
    case LinearSnap(w, b, g, bg, kind, amount) =>
      if w.None? || g.None? || w.value.Rows() != g.value.Rows() || w.value.cols != g.value.cols then s
      else
        var moved := Some(Dense.Table(Grids.PlusScaledRows(w.value.cells, learningRate, g.value.cells), w.value.cols));
        if ApplyOutcome(s).Fail? then s.(weights := moved)
        else
          LinearSnap(moved, Some(PlusScaled(b.value, learningRate, bg.value)),
                     Some(Dense.Table(Grids.ScaledRows(g.value.cells, momentum), g.value.cols)),
                     Some(Scaled(bg.value, momentum)), kind, amount)
    case LayerLinearSnap(w, b, g, bg) =>
      if w.Rows() != g.Rows() || w.cols != g.cols then s
      else
        var moved := Dense.Table(Grids.PlusScaledRows(w.cells, learningRate, g.cells), w.cols);
        if |b| != |bg| then s.(w := moved)
        else
          LayerLinearSnap(moved, PlusScaled(b, learningRate, bg),
                          Dense.Table(Grids.ScaledRows(g.cells, momentum), g.cols), Scaled(bg, momentum))
    case TanhSnap(_) => s
    case LeakySnap => s
  }

  /** `activate(x)` of the layer, by class. */
  method ActivateUnit(u: Unit, x: seq<real>) returns (r: Result<seq<real>>)
    requires UnitValid(u)
    modifies Base(u)
    ensures r == Output(SnapOf(u), x)
    ensures r.Ok? ==> Base(u).activation == r.value
    ensures r.Err? ==> Base(u).activation == old(Base(u).activation)
    ensures Base(u).blame == old(Base(u).blame)
    ensures UnitValid(u) && SnapOf(u) == old(SnapOf(u))
  {
    match u
    case LinearUnit(l) =>
      r := l.Activate(x);
    case LayerLinearUnit(l) =>
      r := l.Activate(x);
    case TanhUnit(t) =>
      var y := t.Activate(x);
      r := Ok(y);
    case LeakyUnit(k) =>
      var y := k.Activate(x);
      r := Ok(y);
  }

  /** `backPropagate()` of the layer, by class: nothing changes. */
  method BackUnit(u: Unit) returns (r: Result<seq<real>>)
    requires UnitValid(u)
    ensures r == Back(SnapOf(u), Base(u).activation, Base(u).inputs, Base(u).blame)
  {
    match u
    case LinearUnit(l) =>
      r := l.BackPropagate();
    case LayerLinearUnit(l) =>
      r := l.BackPropagate();
    case TanhUnit(t) =>
      r := t.BackPropagate();
      if r.Ok? {
        assert r.value == TanhBack(t.base.activation, t.base.blame);
      }
    case LeakyUnit(k) =>
      r := k.BackPropagate();
      if r.Ok? {
        assert r.value == LeakyBack(k.base.activation, k.base.inputs, k.base.blame);
      }
  }

  /** `updateGradient(x)` of the layer, by class; the activation layers do nothing. */
  method LearnUnit(u: Unit, x: seq<real>) returns (status: Outcome)
    requires UnitValid(u)
    modifies Owner(u)
    ensures UnitValid(u) && SameParameters(SnapOf(u), old(SnapOf(u)))
    ensures status == LearnOutcome(old(SnapOf(u)), Base(u).blame, x)
    ensures SnapOf(u) == Learned(old(SnapOf(u)), Base(u).blame, x)
  {
    match u
    case LinearUnit(l) =>
      status := l.UpdateGradient(x);
    case LayerLinearUnit(l) =>
      status := l.UpdateGradient(x);
    case TanhUnit(_) =>
      status := Pass;
    case LeakyUnit(_) =>
      status := Pass;
  }

  /** `applyGradient(learningRate, momentum)` of the layer, by class; the activation layers do nothing. */
  method ApplyUnit(u: Unit, learningRate: real, momentum: real) returns (status: Outcome)
    requires UnitValid(u)
    modifies Owner(u)
    ensures UnitValid(u)
    ensures status == ApplyOutcome(old(SnapOf(u)))
    ensures SnapOf(u) == Applied(old(SnapOf(u)), learningRate, momentum)
  {
    match u
    case LinearUnit(l) =>
      status := l.ApplyGradient(learningRate, momentum);
    case LayerLinearUnit(l) =>
      status := l.ApplyGradient(learningRate, momentum);
    case TanhUnit(_) =>
      status := Pass;
    case LeakyUnit(_) =>
      status := Pass;
  }

  // ---------------------------------------------------------- the whole chain

  /** Every value of `s` valid. */
  predicate AllSnapsValid(ss: seq<Snap>)
  {
    forall i :: 0 <= i < |ss| ==> ss[i].Valid()
  }

  /**
   * What the first `k` layers of `predict(x)` yield, on layers with
   * parameters `ss`: each layer is activated on what the layer before it
   * produced, the first on `x`; the first layer that throws ends the pass.
   */
  function RunTo(ss: seq<Snap>, x: seq<real>, k: nat): Result<seq<real>>
    requires AllSnapsValid(ss) && k <= |ss|
  {
    if k == 0 then Ok(x)
    else
      var front := RunTo(ss, x, k - 1);
      if front.Err? then front else Output(ss[k - 1], front.value)
  }

  /** `predict(x)` on layers with parameters `ss`, as values. */
  function Run(ss: seq<Snap>, x: seq<real>): Result<seq<real>>
    requires AllSnapsValid(ss)
  {
    RunTo(ss, x, |ss|)
  }

  /** The activation layer `i` holds after `predict(x)`: what the pass yields up to it, or the one it had when it was not reached. */
  function Reached(ss: seq<Snap>, x: seq<real>, i: nat, before: seq<real>): seq<real>
    requires AllSnapsValid(ss) && i < |ss|
  {
    var r := RunTo(ss, x, i + 1);
    if r.Ok? then r.value else before
  }

  /** Once a layer throws, so does every longer chain, with the same exception. */
  lemma {:induction false} RunSticky(ss: seq<Snap>, x: seq<real>, i: nat, j: nat)
    requires AllSnapsValid(ss) && i <= j <= |ss| && RunTo(ss, x, i).Err?
    ensures RunTo(ss, x, j) == RunTo(ss, x, i)
    decreases j
  {
    if j > i {
      RunSticky(ss, x, i, j - 1);
      RunStuck(ss, x, j - 1);
    }
  }

  /** A layer after one that threw is never reached. */
  lemma RunStuck(ss: seq<Snap>, x: seq<real>, k: nat)
    requires AllSnapsValid(ss) && k < |ss| && RunTo(ss, x, k).Err?
    ensures RunTo(ss, x, k + 1) == RunTo(ss, x, k)
  {
  }

  /** The first layers of a longer chain do what they do on their own. */
  lemma {:induction false} RunFront(ss: seq<Snap>, ts: seq<Snap>, x: seq<real>, k: nat)
    requires AllSnapsValid(ss + ts) && AllSnapsValid(ss) && k <= |ss|
    ensures RunTo(ss + ts, x, k) == RunTo(ss, x, k)
  {
    if k > 0 {
      RunFront(ss, ts, x, k - 1);
      assert (ss + ts)[k - 1] == ss[k - 1];
    }
  }

  /** The later layers of a chain are fed what the first ones yield. */
  lemma {:induction false} RunBack(ss: seq<Snap>, ts: seq<Snap>, x: seq<real>, k: nat)
    requires AllSnapsValid(ss + ts) && AllSnapsValid(ss) && AllSnapsValid(ts) && k <= |ts|
    ensures RunTo(ss + ts, x, |ss| + k) == if Run(ss, x).Err? then Run(ss, x) else RunTo(ts, Run(ss, x).value, k)
  {
    if k == 0 {
      RunFront(ss, ts, x, |ss|);
    } else {
      RunBack(ss, ts, x, k - 1);
      assert (ss + ts)[|ss| + k - 1] == ts[k - 1];
    }
  }

  /**
   * Feeding forward through two chains one after the other is feeding
   * forward through their concatenation: a network predicts what its front
   * part predicts, fed to its back part.
   */
  lemma RunAppend(ss: seq<Snap>, ts: seq<Snap>, x: seq<real>)
    requires AllSnapsValid(ss) && AllSnapsValid(ts)
    ensures AllSnapsValid(ss + ts)
    ensures Run(ss + ts, x) == if Run(ss, x).Err? then Run(ss, x) else Run(ts, Run(ss, x).value)
  {
    assert AllSnapsValid(ss + ts) by {
      forall i | 0 <= i < |ss + ts| ensures (ss + ts)[i].Valid() {
        if i >= |ss| {
          assert (ss + ts)[i] == ts[i - |ss|];
        }
      }
    }
    RunBack(ss, ts, x, |ts|);
  }

  /**
   * The blame `backPropagate(target)` starts from: a copy of the target
   * minus the last layer's activation. Copying an empty target throws, and
   * so does subtracting an activation of another size.
   */
  function Seed(target: seq<real>, activation: seq<real>): (r: Result<seq<real>>)
    ensures r.Err? <==> |target| == 0 || |target| != |activation|
    ensures r.Err? ==> r.error == IllegalArgument(if |target| == 0 then Vectors.OutsideBounds else Vectors.SizeMismatch)
    ensures r.Ok? ==> |r.value| == |target| && forall i :: 0 <= i < |target| ==> r.value[i] == target[i] - activation[i]
  {
    if |target| == 0 then Err(IllegalArgument(Vectors.OutsideBounds))
    else if |target| != |activation| then Err(IllegalArgument(Vectors.SizeMismatch))
    else Ok(PlusScaled(target, -1.0, activation))
  }

  /**
   * The blame layer `i` is given by `backPropagate`, as values: the last
   * layer is given `seed`, and each layer before it what the layer after it
   * hands back from the blame it was given. The first layer that throws
   * ends the pass.
   */
  function Received(ss: seq<Snap>, acts: seq<seq<real>>, ins: seq<nat>, seed: Result<seq<real>>, i: nat): Result<seq<real>>
    requires AllSnapsValid(ss) && |acts| == |ss| && |ins| == |ss| && i < |ss|
    decreases |ss| - i
  {
    if i == |ss| - 1 then seed
    else
      var above := Received(ss, acts, ins, seed, i + 1);
      if above.Err? then above else Back(ss[i + 1], acts[i + 1], ins[i + 1], above.value)
  }

  /** Once a layer throws, no layer before it is given any blame. */
  lemma {:induction false} ReceivedSticky(ss: seq<Snap>, acts: seq<seq<real>>, ins: seq<nat>, seed: Result<seq<real>>, i: nat, j: nat)
    requires AllSnapsValid(ss) && |acts| == |ss| && |ins| == |ss| && j <= i < |ss|
    requires Received(ss, acts, ins, seed, i).Err?
    ensures Received(ss, acts, ins, seed, j) == Received(ss, acts, ins, seed, i)
    decreases i - j
  {
    if j < i {
      ReceivedSticky(ss, acts, ins, seed, i, j + 1);
    }
  }

  /** What `updateGradient(x)` feeds each layer: `x` to the first, then each layer's activation to the next. */
  function Inputs(x: seq<real>, acts: seq<seq<real>>): (xs: seq<seq<real>>)
    ensures |xs| == |acts| && (|acts| > 0 ==> xs[0] == x)
    ensures forall i :: 0 < i < |acts| ==> xs[i] == acts[i - 1]
  {
    if |acts| == 0 then [] else [x] + acts[..|acts| - 1]
  }

  /** The index of the first failure, or the length when all pass. */
  function Failing(os: seq<Outcome>): (k: nat)
    ensures k <= |os| && (k < |os| ==> os[k].Fail?)
    ensures forall i :: 0 <= i < k ==> os[i].Pass?
  {
    if |os| == 0 then 0 else if os[0].Fail? then 0 else 1 + Failing(os[1..])
  }

  /** What the first failure throws, or `Pass`. */
  function FirstFailure(os: seq<Outcome>): (o: Outcome)
    ensures o.Pass? <==> forall i :: 0 <= i < |os| ==> os[i].Pass?
  {
    if Failing(os) < |os| then os[Failing(os)] else Pass
  }

  /** How each layer's `updateGradient` ends, on its own. */
  function LearnOutcomes(ss: seq<Snap>, blames: seq<seq<real>>, xs: seq<seq<real>>): (os: seq<Outcome>)
    requires |blames| == |ss| && |xs| == |ss|
    ensures |os| == |ss| && forall i :: 0 <= i < |ss| ==> os[i] == LearnOutcome(ss[i], blames[i], xs[i])
  {
    seq(|ss|, i requires 0 <= i < |ss| => LearnOutcome(ss[i], blames[i], xs[i]))
  }

  /** How each layer's `applyGradient` ends, on its own. */
  function ApplyOutcomes(ss: seq<Snap>): (os: seq<Outcome>)
    requires AllSnapsValid(ss)
    ensures |os| == |ss| && forall i :: 0 <= i < |ss| ==> os[i] == ApplyOutcome(ss[i])
  {
    seq(|ss|, i requires 0 <= i < |ss| => ApplyOutcome(ss[i]))
  }

  /**
   * `updateGradient` over layers with parameters `before`, blames `blames`
   * and inputs `xs`, leaving parameters `after`: each layer in turn updates
   * its gradients; the first that throws ends the pass, with the gradients
   * its earlier steps wrote, and leaves the layers after it as they were.
   */
  ghost predicate Learns(before: seq<Snap>, after: seq<Snap>, blames: seq<seq<real>>, xs: seq<seq<real>>, status: Outcome)
    requires AllSnapsValid(before) && |after| == |before| && |blames| == |before| && |xs| == |before|
  {
    var os := LearnOutcomes(before, blames, xs);
    var f := Failing(os);
    status == FirstFailure(os) &&
    (forall i :: 0 <= i < f ==> after[i] == Learned(before[i], blames[i], xs[i])) &&
    (f < |before| ==> after[f] == Learned(before[f], blames[f], xs[f])) &&
    (forall i :: f < i < |before| ==> after[i] == before[i])
  }

  /**
   * `applyGradient(learningRate, momentum)` over layers with parameters
   * `before`, leaving `after`: each layer in turn applies its gradients; the
   * first that throws ends the pass, and the layers after it are as they were.
   */
  ghost predicate Applies(before: seq<Snap>, after: seq<Snap>, learningRate: real, momentum: real, status: Outcome)
    requires AllSnapsValid(before) && |after| == |before|
  {
    var os := ApplyOutcomes(before);
    var f := Failing(os);
    status == FirstFailure(os) &&
    (forall i :: 0 <= i <= f && i < |before| ==> after[i] == Applied(before[i], learningRate, momentum)) &&
    (forall i :: f < i < |before| ==> after[i] == before[i])
  }

  // ------------------------------------------------------------ the passes

  function Owners(units: seq<Unit>): set<object>
  {
    set i | 0 <= i < |units| :: Owner(units[i])
  }

  function Bases(units: seq<Unit>): set<Layers.Layer>
  {
    set i | 0 <= i < |units| :: Base(units[i])
  }

  /** No two layers share an object, so a layer's update leaves the others alone. */
  ghost predicate Distinct(units: seq<Unit>)
  {
    forall i, j :: 0 <= i < |units| && 0 <= j < |units| ==>
      Owner(units[i]) != Base(units[j]) && (i != j ==> Owner(units[i]) != Owner(units[j]) && Base(units[i]) != Base(units[j]))
  }

  ghost predicate AllValid(units: seq<Unit>)
    reads Owners(units)
  {
    forall i :: 0 <= i < |units| ==> UnitValid(units[i])
  }

  ghost function Snaps(units: seq<Unit>): (ss: seq<Snap>)
    reads Owners(units)
    ensures |ss| == |units| && forall i :: 0 <= i < |units| ==> ss[i] == SnapOf(units[i])
    ensures AllValid(units) ==> AllSnapsValid(ss)
  {
    seq(|units|, i requires 0 <= i < |units| reads Owners(units) => SnapOf(units[i]))
  }

  ghost function Acts(units: seq<Unit>): (acts: seq<seq<real>>)
    reads Bases(units)
    ensures |acts| == |units| && forall i :: 0 <= i < |units| ==> acts[i] == Base(units[i]).activation
  {
    seq(|units|, i requires 0 <= i < |units| reads Bases(units) => Base(units[i]).activation)
  }

  ghost function Blames(units: seq<Unit>): (blames: seq<seq<real>>)
    reads Bases(units)
    ensures |blames| == |units| && forall i :: 0 <= i < |units| ==> blames[i] == Base(units[i]).blame
  {
    seq(|units|, i requires 0 <= i < |units| reads Bases(units) => Base(units[i]).blame)
  }

  function Ins(units: seq<Unit>): (ins: seq<nat>)
    ensures |ins| == |units| && forall i :: 0 <= i < |units| ==> ins[i] == Base(units[i]).inputs
  {
    seq(|units|, i requires 0 <= i < |units| => Base(units[i]).inputs)
  }

  /** The activations after one more step of the loop of `predict`, as values. */
  lemma FeedStep(ss: seq<Snap>, x: seq<real>, before: seq<seq<real>>, acts: seq<seq<real>>, i: nat, r: Result<seq<real>>)
    requires AllSnapsValid(ss) && i < |ss| == |before| == |acts|
    requires RunTo(ss, x, i).Ok? && r == Output(ss[i], RunTo(ss, x, i).value)
    requires forall k :: 0 <= k < i ==> acts[k] == Reached(ss, x, k, before[k])
    requires forall k :: i <= k < |ss| ==> acts[k] == before[k]
    ensures RunTo(ss, x, i + 1) == r
    ensures var next := if r.Ok? then acts[i := r.value] else acts;
      (forall k :: 0 <= k <= i ==> next[k] == Reached(ss, x, k, before[k])) &&
      forall k :: i < k < |ss| ==> next[k] == before[k]
  {
    RunNext(ss, x, i, r);
  }

  /** The pass up to layer `i` goes on with what layer `i` makes of it. */
  lemma RunNext(ss: seq<Snap>, x: seq<real>, i: nat, r: Result<seq<real>>)
    requires AllSnapsValid(ss) && i < |ss|
    requires RunTo(ss, x, i).Ok? && r == Output(ss[i], RunTo(ss, x, i).value)
    ensures RunTo(ss, x, i + 1) == r
  {
  }

  /** `activate(input)` of layer `i` of a network: the other layers are left alone. */
  method ActivateAt(units: seq<Unit>, i: nat, input: seq<real>) returns (r: Result<seq<real>>)
    requires i < |units| && Distinct(units)
    requires forall k :: 0 <= k < |units| ==> UnitValid(units[k])
    modifies Base(units[i])
    ensures r == Output(SnapOf(units[i]), input)
    ensures forall k :: 0 <= k < |units| ==> UnitValid(units[k]) && SnapOf(units[k]) == old(SnapOf(units[k]))
    ensures forall k :: 0 <= k < |units| ==> Base(units[k]).blame == old(Base(units[k]).blame)
    ensures forall k :: 0 <= k < |units| ==>
      Base(units[k]).activation == if k == i && r.Ok? then r.value else old(Base(units[k]).activation)
  {
    r := ActivateUnit(units[i], input);
  }

  /**
   * The activations after the first `i` steps of the loop of `predict(x)`,
   * as values: the layers it reached hold what the pass yields up to them,
   * the others what they held before.
   */
  ghost predicate Fed(ss: seq<Snap>, x: seq<real>, before: seq<seq<real>>, acts: seq<seq<real>>, i: nat)
    requires AllSnapsValid(ss) && i <= |ss| == |before| == |acts|
  {
    (forall k :: 0 <= k < i ==> acts[k] == Reached(ss, x, k, before[k])) &&
    forall k :: i <= k < |ss| ==> acts[k] == before[k]
  }

  /** Where the loop of `predict(x)` stops, every layer holds what the pass left it. */
  lemma FedAll(ss: seq<Snap>, x: seq<real>, before: seq<seq<real>>, acts: seq<seq<real>>, i: nat)
    requires AllSnapsValid(ss) && i <= |ss| == |before| == |acts|
    requires Fed(ss, x, before, acts, i) && (i < |ss| ==> RunTo(ss, x, i).Err?)
    ensures Run(ss, x) == RunTo(ss, x, i)
    ensures forall k :: 0 <= k < |ss| ==> acts[k] == Reached(ss, x, k, before[k])
  {
    forall k | i < k <= |ss| ensures RunTo(ss, x, k) == RunTo(ss, x, i) {
      RunSticky(ss, x, i, k);
    }
  }

  /** One step of the loop of `predict(x)`: layer `i` is activated on what the layer before it yields. */
  method FeedAt(units: seq<Unit>, x: seq<real>, i: nat, ghost ss: seq<Snap>, ghost before: seq<seq<real>>)
    returns (r: Result<seq<real>>)
    requires i < |units| == |ss| == |before| && Distinct(units) && AllSnapsValid(ss)
    requires forall k :: 0 <= k < |units| ==> UnitValid(units[k]) && SnapOf(units[k]) == ss[k]
    requires RunTo(ss, x, i).Ok? && (i > 0 ==> Base(units[i - 1]).activation == RunTo(ss, x, i).value)
    requires Fed(ss, x, before, Acts(units), i)
    modifies Base(units[i])
    ensures forall k :: 0 <= k < |units| ==> UnitValid(units[k]) && SnapOf(units[k]) == ss[k]
    ensures forall k :: 0 <= k < |units| ==> Base(units[k]).blame == old(Base(units[k]).blame)
    ensures r == RunTo(ss, x, i + 1) && (r.Ok? ==> Base(units[i]).activation == r.value)
    ensures Fed(ss, x, before, Acts(units), i + 1)
  {
    ghost var acts := Acts(units);
    var input := if i == 0 then x else Base(units[i - 1]).activation;
    r := ActivateAt(units, i, input);
    FeedStep(ss, x, before, acts, i, r);
    assert Acts(units) == if r.Ok? then acts[i := r.value] else acts;
  }

  /**
   * The loop of `predict(in)`: layer 0 is activated on `x`, each later one on
   * the activation of the layer before it, and the last activation is the
   * result. The blames are kept.
   */
  method Feed(units: seq<Unit>, x: seq<real>) returns (r: Result<seq<real>>)
    requires |units| > 0 && Distinct(units) && AllValid(units)
    modifies Bases(units)
    ensures forall i :: 0 <= i < |units| ==> UnitValid(units[i]) && SnapOf(units[i]) == old(SnapOf(units[i]))
    ensures r == Run(old(Snaps(units)), x)
    ensures forall i :: 0 <= i < |units| ==> Base(units[i]).blame == old(Base(units[i]).blame)
    ensures forall i :: 0 <= i < |units| ==>
      Base(units[i]).activation == Reached(old(Snaps(units)), x, i, old(Base(units[i]).activation))
  {
    ghost var ss := Snaps(units);
    ghost var before := Acts(units);
    r := Ok(x);
    var i := 0;
    while i < |units| && r.Ok?
      invariant 0 <= i <= |units|
      invariant forall k :: 0 <= k < |units| ==> UnitValid(units[k]) && SnapOf(units[k]) == ss[k]
      invariant forall k :: 0 <= k < |units| ==> Base(units[k]).blame == old(Base(units[k]).blame)
      invariant r == RunTo(ss, x, i) && (r.Ok? && i > 0 ==> Base(units[i - 1]).activation == r.value)
      invariant Fed(ss, x, before, Acts(units), i)
    {
      r := FeedAt(units, x, i, ss, before);
      i := i + 1;
    }
    FedAll(ss, x, before, Acts(units), i);
  }

  /** The blame layer `i` holds after `backPropagate`: what it was given, or the one it had when it was given none. */
  function Given(ss: seq<Snap>, acts: seq<seq<real>>, ins: seq<nat>, seed: Result<seq<real>>, i: nat, before: seq<real>): seq<real>
    requires AllSnapsValid(ss) && |acts| == |ss| && |ins| == |ss| && i < |ss|
  {
    var r := Received(ss, acts, ins, seed, i);
    if r.Ok? then r.value else before
  }

  /**
   * The blames after the loop of `backPropagate` has come down to layer
   * `i`, as values: the layers from `i` up hold what they were given, the
   * others what they held before.
   */
  ghost predicate Handed(ss: seq<Snap>, acts: seq<seq<real>>, ins: seq<nat>, seed: Result<seq<real>>,
                         before: seq<seq<real>>, blames: seq<seq<real>>, i: nat)
    requires AllSnapsValid(ss) && |acts| == |ss| == |ins| == |before| == |blames| && i < |ss|
  {
    (forall k :: i <= k < |ss| ==> blames[k] == Given(ss, acts, ins, seed, k, before[k])) &&
    forall k :: 0 <= k < i ==> blames[k] == before[k]
  }

  /** The blames after one more step of the loop of `backPropagate`, as values. */
  lemma HandStep(ss: seq<Snap>, acts: seq<seq<real>>, ins: seq<nat>, seed: Result<seq<real>>,
                 before: seq<seq<real>>, blames: seq<seq<real>>, i: nat, r: Result<seq<real>>)
    requires AllSnapsValid(ss) && |acts| == |ss| == |ins| == |before| == |blames| && 0 < i < |ss|
    requires Handed(ss, acts, ins, seed, before, blames, i) && Received(ss, acts, ins, seed, i).Ok?
    requires r == Back(ss[i], acts[i], ins[i], blames[i])
    ensures Received(ss, acts, ins, seed, i - 1) == r
    ensures Handed(ss, acts, ins, seed, before, if r.Ok? then blames[i - 1 := r.value] else blames, i - 1)
  {
    assert blames[i] == Received(ss, acts, ins, seed, i).value by {
      assert blames[i] == Given(ss, acts, ins, seed, i, before[i]);
    }
    var next := if r.Ok? then blames[i - 1 := r.value] else blames;
    forall k | i - 1 <= k < |ss| ensures next[k] == Given(ss, acts, ins, seed, k, before[k]) {
      if k >= i {
        assert next[k] == blames[k];
      }
    }
  }

  /** Where the loop of `backPropagate` stops, every layer holds the blame the pass left it. */
  lemma HandedAll(ss: seq<Snap>, acts: seq<seq<real>>, ins: seq<nat>, seed: Result<seq<real>>,
                  before: seq<seq<real>>, blames: seq<seq<real>>, i: nat)
    requires AllSnapsValid(ss) && |acts| == |ss| == |ins| == |before| == |blames| && i < |ss|
    requires Handed(ss, acts, ins, seed, before, blames, i) && (i > 0 ==> Received(ss, acts, ins, seed, i).Err?)
    ensures Received(ss, acts, ins, seed, 0) == Received(ss, acts, ins, seed, i)
    ensures forall k :: 0 <= k < |ss| ==> blames[k] == Given(ss, acts, ins, seed, k, before[k])
  {
    forall k | 0 <= k < i ensures Received(ss, acts, ins, seed, k) == Received(ss, acts, ins, seed, i) {
      ReceivedSticky(ss, acts, ins, seed, i, k);
    }
  }

  /** `setBlame(blame)` of layer `i` of a network: the other layers are left alone. */
  method SetBlameAt(units: seq<Unit>, i: nat, blame: seq<real>)
    requires i < |units| && Distinct(units)
    requires forall k :: 0 <= k < |units| ==> UnitValid(units[k])
    modifies Base(units[i])
    ensures forall k :: 0 <= k < |units| ==> UnitValid(units[k]) && SnapOf(units[k]) == old(SnapOf(units[k]))
    ensures forall k :: 0 <= k < |units| ==> Base(units[k]).activation == old(Base(units[k]).activation)
    ensures forall k :: 0 <= k < |units| ==> Base(units[k]).blame == if k == i then blame else old(Base(units[k]).blame)
  {
    Base(units[i]).SetBlame(blame);
  }

  /** One step of the loop of `backPropagate`: layer `i` hands its blame to the layer before it. */
  method HandAt(units: seq<Unit>, i: nat, ghost ss: seq<Snap>, ghost acts: seq<seq<real>>,
                ghost ins: seq<nat>, ghost blames: seq<seq<real>>)
    returns (r: Result<seq<real>>, ghost blames': seq<seq<real>>)
    requires 0 < i < |units| == |ss| == |acts| == |ins| == |blames| && Distinct(units) && AllSnapsValid(ss)
    requires forall k {:trigger SnapOf(units[k])} {:trigger UnitValid(units[k])} :: 0 <= k < |units| ==> UnitValid(units[k]) && SnapOf(units[k]) == ss[k]
    requires forall k {:trigger Base(units[k])} :: 0 <= k < |units| ==>
      Base(units[k]).activation == acts[k] && Base(units[k]).inputs == ins[k] && Base(units[k]).blame == blames[k]
    modifies Base(units[i - 1])
    ensures |blames'| == |units|
    ensures forall k {:trigger SnapOf(units[k])} {:trigger UnitValid(units[k])} :: 0 <= k < |units| ==> UnitValid(units[k]) && SnapOf(units[k]) == ss[k]
    ensures forall k {:trigger Base(units[k])} :: 0 <= k < |units| ==>
      Base(units[k]).activation == acts[k] && Base(units[k]).inputs == ins[k] && Base(units[k]).blame == blames'[k]
    ensures r == Back(ss[i], acts[i], ins[i], blames[i])
    ensures blames' == if r.Ok? then blames[i - 1 := r.value] else blames
  {
    r := BackUnit(units[i]);
    blames' := blames;
    if r.Ok? {
      SetBlameAt(units, i - 1, r.value);
      blames' := blames[i - 1 := r.value];
    }
  }

  /**
   * The loop of `backPropagate(target)`: the last layer is given the
   * target minus its activation, and from the last layer down each hands
   * the layer before it the blame it computes. The first exception ends the
   * pass; activations and parameters are left alone.
   */
  method HandBack(units: seq<Unit>, target: seq<real>) returns (status: Outcome)
    requires |units| > 0 && Distinct(units) && AllValid(units)
    modifies Bases(units)
    ensures forall i :: 0 <= i < |units| ==> UnitValid(units[i]) && SnapOf(units[i]) == old(SnapOf(units[i]))
    ensures forall i :: 0 <= i < |units| ==> Base(units[i]).activation == old(Base(units[i]).activation)
    ensures var received := Received(old(Snaps(units)), old(Acts(units)), Ins(units),
                                      Seed(target, old(Base(units[|units| - 1]).activation)), 0);
      status == if received.Err? then Fail(received.error) else Pass
    ensures forall i :: 0 <= i < |units| ==>
      Base(units[i]).blame == Given(old(Snaps(units)), old(Acts(units)), Ins(units),
                                    Seed(target, old(Base(units[|units| - 1]).activation)), i, old(Base(units[i]).blame))
  {
    ghost var ss := Snaps(units);
    ghost var acts := Acts(units);
    ghost var before := Blames(units);
    ghost var ins := Ins(units);
    var n := |units|;
    var seed := Seed(target, Base(units[n - 1]).activation);
    if seed.Ok? {
      SetBlameAt(units, n - 1, seed.value);
    }
    ghost var blames := if seed.Ok? then before[n - 1 := seed.value] else before;
    var given;
    given, blames := HandDown(units, ss, acts, ins, seed, before, blames);
    status := if given.Err? then Fail(given.error) else Pass;
  }

  /** The loop of `backPropagate`, from the last layer down to the first or to the first exception. */
  method HandDown(units: seq<Unit>, ghost ss: seq<Snap>, ghost acts: seq<seq<real>>, ghost ins: seq<nat>,
                  seed: Result<seq<real>>, ghost before: seq<seq<real>>, ghost blames0: seq<seq<real>>)
    returns (given: Result<seq<real>>, ghost blames: seq<seq<real>>)
    requires 0 < |units| == |ss| == |acts| == |ins| == |before| == |blames0| && Distinct(units) && AllSnapsValid(ss)
    requires forall k {:trigger SnapOf(units[k])} {:trigger UnitValid(units[k])} :: 0 <= k < |units| ==> UnitValid(units[k]) && SnapOf(units[k]) == ss[k]
    requires forall k {:trigger Base(units[k])} :: 0 <= k < |units| ==>
      Base(units[k]).activation == acts[k] && Base(units[k]).inputs == ins[k] && Base(units[k]).blame == blames0[k]
    requires Handed(ss, acts, ins, seed, before, blames0, |units| - 1)
    modifies Bases(units)
    ensures |blames| == |units|
    ensures forall k {:trigger SnapOf(units[k])} {:trigger UnitValid(units[k])} :: 0 <= k < |units| ==> UnitValid(units[k]) && SnapOf(units[k]) == ss[k]
    ensures forall k {:trigger Base(units[k])} :: 0 <= k < |units| ==>
      Base(units[k]).activation == acts[k] && Base(units[k]).blame == blames[k]
    ensures given == Received(ss, acts, ins, seed, 0)
    ensures forall k :: 0 <= k < |units| ==> blames[k] == Given(ss, acts, ins, seed, k, before[k])
  {
    var n := |units|;
    given := seed;
    blames := blames0;
    var i := n - 1;
    while i > 0 && given.Ok?
      invariant 0 <= i < n && |blames| == n
      invariant forall k {:trigger SnapOf(units[k])} {:trigger UnitValid(units[k])} :: 0 <= k < n ==> UnitValid(units[k]) && SnapOf(units[k]) == ss[k]
      invariant forall k {:trigger Base(units[k])} :: 0 <= k < n ==>
        Base(units[k]).activation == acts[k] && Base(units[k]).inputs == ins[k] && Base(units[k]).blame == blames[k]
      invariant given == Received(ss, acts, ins, seed, i)
      invariant Handed(ss, acts, ins, seed, before, blames, i)
    {
      ghost var previous := blames;
      given, blames := HandAt(units, i, ss, acts, ins, blames);
      HandStep(ss, acts, ins, seed, before, previous, i, given);
      i := i - 1;
    }
    HandedAll(ss, acts, ins, seed, before, blames, i);
  }

  /** `Failing` names the first failure: the index before which everything passed and at which something failed. */
  lemma {:induction false} FailingAt(os: seq<Outcome>, f: nat)
    requires f <= |os| && (forall k :: 0 <= k < f ==> os[k].Pass?) && (f < |os| ==> os[f].Fail?)
    ensures Failing(os) == f
  {
    if |os| > 0 && f > 0 {
      assert forall k :: 0 <= k < f - 1 ==> os[1..][k] == os[k + 1];
      FailingAt(os[1..], f - 1);
    }
  }

  /**
   * The parameters after the loop of `updateGradient` has handled the first
   * `i` layers and ended with `status`, as values.
   */
  ghost predicate LearnedUpTo(before: seq<Snap>, cur: seq<Snap>, blames: seq<seq<real>>, xs: seq<seq<real>>,
                              i: nat, status: Outcome)
    requires AllSnapsValid(before) && |cur| == |before| == |blames| == |xs| && i <= |before|
  {
    (forall k :: 0 <= k < i && (status.Pass? || k < i - 1) ==>
      LearnOutcome(before[k], blames[k], xs[k]).Pass? && cur[k] == Learned(before[k], blames[k], xs[k])) &&
    (status.Fail? ==> 0 < i && LearnOutcome(before[i - 1], blames[i - 1], xs[i - 1]) == status &&
                      cur[i - 1] == Learned(before[i - 1], blames[i - 1], xs[i - 1])) &&
    forall k :: i <= k < |before| ==> cur[k] == before[k]
  }

  /** One more layer of the loop of `updateGradient`, as values. */
  lemma LearnStep(before: seq<Snap>, cur: seq<Snap>, blames: seq<seq<real>>, xs: seq<seq<real>>,
                  i: nat, status: Outcome, t: Snap)
    requires AllSnapsValid(before) && |cur| == |before| == |blames| == |xs| && i < |before|
    requires LearnedUpTo(before, cur, blames, xs, i, Pass)
    requires status == LearnOutcome(before[i], blames[i], xs[i]) && t == Learned(before[i], blames[i], xs[i])
    ensures LearnedUpTo(before, cur[i := t], blames, xs, i + 1, status)
  {
    var next := cur[i := t];
    forall k | 0 <= k < i ensures next[k] == cur[k] {
    }
  }

  /** Where the loop of `updateGradient` stops, the parameters are what `Learns` says. */
  lemma LearnedAll(before: seq<Snap>, cur: seq<Snap>, blames: seq<seq<real>>, xs: seq<seq<real>>,
                   i: nat, status: Outcome)
    requires AllSnapsValid(before) && |cur| == |before| == |blames| == |xs| && i <= |before|
    requires LearnedUpTo(before, cur, blames, xs, i, status) && (status.Pass? ==> i == |before|)
    ensures Learns(before, cur, blames, xs, status)
  {
    var os := LearnOutcomes(before, blames, xs);
    var f := if status.Pass? then i else i - 1;
    FailingAt(os, f);
  }

  /** `updateGradient(x)` of layer `i` of a network: only that layer's gradients change. */
  method LearnAt(units: seq<Unit>, i: nat, x: seq<real>, ghost cur: seq<Snap>)
    returns (status: Outcome, ghost cur': seq<Snap>)
    requires i < |units| == |cur| && Distinct(units) && AllSnapsValid(cur)
    requires forall k {:trigger UnitValid(units[k])} :: 0 <= k < |units| ==> UnitValid(units[k])
    requires forall k {:trigger SnapOf(units[k])} :: 0 <= k < |units| ==> SnapOf(units[k]) == cur[k]
    modifies Owner(units[i])
    ensures |cur'| == |cur| && AllSnapsValid(cur')
    ensures forall k {:trigger UnitValid(units[k])} :: 0 <= k < |units| ==> UnitValid(units[k])
    ensures forall k {:trigger SnapOf(units[k])} :: 0 <= k < |units| ==> SnapOf(units[k]) == cur'[k]
    ensures forall k {:trigger Base(units[k])} :: 0 <= k < |units| ==>
      Base(units[k]).activation == old(Base(units[k]).activation) && Base(units[k]).blame == old(Base(units[k]).blame)
    ensures cur' == cur[i := cur'[i]] && SameParameters(cur'[i], cur[i])
    ensures status == LearnOutcome(cur[i], Base(units[i]).blame, x)
    ensures cur'[i] == Learned(cur[i], Base(units[i]).blame, x)
  {
    status := LearnUnit(units[i], x);
    cur' := cur[i := SnapOf(units[i])];
  }

  /**
   * The loop of `updateGradient(x)`: each layer in turn updates its
   * gradients from the blame it holds and its input, `x` for the first and
   * the activation of the layer before it for the others. The first
   * exception ends the pass; activations and blames are left alone.
   */
  method Learn(units: seq<Unit>, x: seq<real>) returns (status: Outcome)
    requires |units| > 0 && Distinct(units) && AllValid(units)
    modifies Owners(units)
    ensures forall i :: 0 <= i < |units| ==> UnitValid(units[i])
    ensures forall i :: 0 <= i < |units| ==>
      Base(units[i]).activation == old(Base(units[i]).activation) && Base(units[i]).blame == old(Base(units[i]).blame)
    ensures Learns(old(Snaps(units)), Snaps(units), old(Blames(units)), Inputs(x, old(Acts(units))), status)
  {
    ghost var cur;
    status, cur := LearnEach(units, x, Snaps(units), Blames(units), Inputs(x, Acts(units)));
    assert Snaps(units) == cur;
  }

  /** The loop of `updateGradient(x)`, over layers that held parameters `before`, blames `blames` and inputs `xs`. */
  method LearnEach(units: seq<Unit>, x: seq<real>, ghost before: seq<Snap>, ghost blames: seq<seq<real>>,
                   ghost xs: seq<seq<real>>)
    returns (status: Outcome, ghost cur: seq<Snap>)
    requires 0 < |units| == |before| == |blames| == |xs| && Distinct(units) && AllSnapsValid(before)
    requires forall k {:trigger UnitValid(units[k])} :: 0 <= k < |units| ==> UnitValid(units[k])
    requires forall k {:trigger SnapOf(units[k])} :: 0 <= k < |units| ==> SnapOf(units[k]) == before[k]
    requires forall k {:trigger Base(units[k])} :: 0 <= k < |units| ==> Base(units[k]).blame == blames[k]
    requires xs[0] == x && forall k :: 0 < k < |units| ==> xs[k] == Base(units[k - 1]).activation
    modifies Owners(units)
    ensures |cur| == |units|
    ensures forall k {:trigger UnitValid(units[k])} :: 0 <= k < |units| ==> UnitValid(units[k])
    ensures forall k {:trigger SnapOf(units[k])} :: 0 <= k < |units| ==> SnapOf(units[k]) == cur[k]
    ensures forall k {:trigger Base(units[k])} :: 0 <= k < |units| ==>
      Base(units[k]).activation == old(Base(units[k]).activation) && Base(units[k]).blame == blames[k]
    ensures Learns(before, cur, blames, xs, status)
  {
    cur := before;
    var n := |units|;
    status := Pass;
    var i := 0;
    while i < n && status.Pass?
      invariant 0 <= i <= n && |cur| == n && AllSnapsValid(cur)
      invariant forall k {:trigger UnitValid(units[k])} :: 0 <= k < n ==> UnitValid(units[k])
      invariant forall k {:trigger SnapOf(units[k])} :: 0 <= k < n ==> SnapOf(units[k]) == cur[k]
      invariant forall k {:trigger Base(units[k])} :: 0 <= k < n ==>
        Base(units[k]).activation == old(Base(units[k]).activation) && Base(units[k]).blame == blames[k]
      invariant LearnedUpTo(before, cur, blames, xs, i, status)
    {
      var input := if i == 0 then x else Base(units[i - 1]).activation;
      ghost var previous := cur;
      status, cur := LearnAt(units, i, input, cur);
      LearnStep(before, previous, blames, xs, i, status, cur[i]);
      i := i + 1;
    }
    LearnedAll(before, cur, blames, xs, i, status);
  }

  /**
   * The parameters after the loop of `applyGradient` has handled the first
   * `i` layers and ended with `status`, as values.
   */
  ghost predicate AppliedUpTo(before: seq<Snap>, cur: seq<Snap>, learningRate: real, momentum: real, i: nat, status: Outcome)
    requires AllSnapsValid(before) && |cur| == |before| && i <= |before|
  {
    (forall k :: 0 <= k < i ==> cur[k] == Applied(before[k], learningRate, momentum)) &&
    (forall k :: 0 <= k < i && (status.Pass? || k < i - 1) ==> ApplyOutcome(before[k]).Pass?) &&
    (status.Fail? ==> 0 < i && ApplyOutcome(before[i - 1]) == status) &&
    forall k :: i <= k < |before| ==> cur[k] == before[k]
  }

  /** One more layer of the loop of `applyGradient`, as values. */
  lemma ApplyStep(before: seq<Snap>, cur: seq<Snap>, learningRate: real, momentum: real, i: nat, status: Outcome, t: Snap)
    requires AllSnapsValid(before) && |cur| == |before| && i < |before|
    requires AppliedUpTo(before, cur, learningRate, momentum, i, Pass)
    requires status == ApplyOutcome(before[i]) && t == Applied(before[i], learningRate, momentum)
    ensures AppliedUpTo(before, cur[i := t], learningRate, momentum, i + 1, status)
  {
    var next := cur[i := t];
    forall k | 0 <= k < i ensures next[k] == cur[k] {
    }
  }

  /** Where the loop of `applyGradient` stops, the parameters are what `Applies` says. */
  lemma AppliedAll(before: seq<Snap>, cur: seq<Snap>, learningRate: real, momentum: real, i: nat, status: Outcome)
    requires AllSnapsValid(before) && |cur| == |before| && i <= |before|
    requires AppliedUpTo(before, cur, learningRate, momentum, i, status) && (status.Pass? ==> i == |before|)
    ensures Applies(before, cur, learningRate, momentum, status)
  {
    var os := ApplyOutcomes(before);
    FailingAt(os, if status.Pass? then i else i - 1);
  }

  /** `applyGradient(learningRate, momentum)` of layer `i` of a network: only that layer's parameters change. */
  method ApplyAt(units: seq<Unit>, i: nat, learningRate: real, momentum: real, ghost cur: seq<Snap>)
    returns (status: Outcome, ghost cur': seq<Snap>)
    requires i < |units| == |cur| && Distinct(units) && AllSnapsValid(cur)
    requires forall k {:trigger UnitValid(units[k])} :: 0 <= k < |units| ==> UnitValid(units[k])
    requires forall k {:trigger SnapOf(units[k])} :: 0 <= k < |units| ==> SnapOf(units[k]) == cur[k]
    modifies Owner(units[i])
    ensures |cur'| == |cur| && AllSnapsValid(cur')
    ensures forall k {:trigger UnitValid(units[k])} :: 0 <= k < |units| ==> UnitValid(units[k])
    ensures forall k {:trigger SnapOf(units[k])} :: 0 <= k < |units| ==> SnapOf(units[k]) == cur'[k]
    ensures forall k {:trigger Base(units[k])} :: 0 <= k < |units| ==>
      Base(units[k]).activation == old(Base(units[k]).activation) && Base(units[k]).blame == old(Base(units[k]).blame)
    ensures cur' == cur[i := Applied(cur[i], learningRate, momentum)]
    ensures status == ApplyOutcome(cur[i])
  {
    status := ApplyUnit(units[i], learningRate, momentum);
    cur' := cur[i := SnapOf(units[i])];
  }

  /**
   * `updateWeights`: each layer in turn applies its gradients with the
   * network's learning rate and momentum. The first exception ends the
   * pass; activations and blames are left alone.
   */
  method Apply(units: seq<Unit>, learningRate: real, momentum: real) returns (status: Outcome)
    requires Distinct(units) && AllValid(units)
    modifies Owners(units)
    ensures forall i :: 0 <= i < |units| ==> UnitValid(units[i])
    ensures forall i :: 0 <= i < |units| ==>
      Base(units[i]).activation == old(Base(units[i]).activation) && Base(units[i]).blame == old(Base(units[i]).blame)
    ensures Applies(old(Snaps(units)), Snaps(units), learningRate, momentum, status)
  {
    ghost var cur;
    status, cur := ApplyEach(units, learningRate, momentum, Snaps(units));
    assert Snaps(units) == cur;
  }

  /** The loop of `updateWeights`, over layers that held parameters `before`. */
  method ApplyEach(units: seq<Unit>, learningRate: real, momentum: real, ghost before: seq<Snap>)
    returns (status: Outcome, ghost cur: seq<Snap>)
    requires |units| == |before| && Distinct(units) && AllSnapsValid(before)
    requires forall k {:trigger UnitValid(units[k])} :: 0 <= k < |units| ==> UnitValid(units[k])
    requires forall k {:trigger SnapOf(units[k])} :: 0 <= k < |units| ==> SnapOf(units[k]) == before[k]
    modifies Owners(units)
    ensures |cur| == |units|
    ensures forall k {:trigger UnitValid(units[k])} :: 0 <= k < |units| ==> UnitValid(units[k])
    ensures forall k {:trigger SnapOf(units[k])} :: 0 <= k < |units| ==> SnapOf(units[k]) == cur[k]
    ensures forall k {:trigger Base(units[k])} :: 0 <= k < |units| ==>
      Base(units[k]).activation == old(Base(units[k]).activation) && Base(units[k]).blame == old(Base(units[k]).blame)
    ensures Applies(before, cur, learningRate, momentum, status)
  {
    cur := before;
    var n := |units|;
    status := Pass;
    var i := 0;
    while i < n && status.Pass?
      invariant 0 <= i <= n && |cur| == n && AllSnapsValid(cur)
      invariant forall k {:trigger UnitValid(units[k])} :: 0 <= k < n ==> UnitValid(units[k])
      invariant forall k {:trigger SnapOf(units[k])} :: 0 <= k < n ==> SnapOf(units[k]) == cur[k]
      invariant forall k {:trigger Base(units[k])} :: 0 <= k < n ==>
        Base(units[k]).activation == old(Base(units[k]).activation) && Base(units[k]).blame == old(Base(units[k]).blame)
      invariant AppliedUpTo(before, cur, learningRate, momentum, i, status)
    {
      ghost var previous := cur;
      status, cur := ApplyAt(units, i, learningRate, momentum, cur);
      ApplyStep(before, previous, learningRate, momentum, i, status, cur[i]);
      i := i + 1;
    }
    AppliedAll(before, cur, learningRate, momentum, i, status);
  }

  // ---------------------------------------------------------- chained layers

  /** A table of `n` rows and `m` columns. */
  predicate Shape(t: Dense.Table, m: nat, n: nat)
  {
    t.Valid() && t.cols == m && t.Rows() == n
  }

  /**
   * Parameters `s` fit a layer of `m` inputs and `n` outputs as the root
   * network builds them: a `LayerLinear` holds weights and a weight gradient
   * of `n` rows and `m` columns and a bias and bias gradient of `n` entries;
   * a tanh layer has as many outputs as inputs.
   */
  ghost predicate Fits(s: Snap, m: nat, n: nat)
  {
    match s
    case LayerLinearSnap(w, b, g, bg) => Shape(w, m, n) && Shape(g, m, n) && |b| == n && |bg| == n
    case TanhSnap(_) => m == n
    case _ => false
  }

  /** Layer `i` of `ss` takes `sizes[i]` inputs and gives `sizes[i + 1]` outputs. */
  ghost predicate Chained(ss: seq<Snap>, sizes: seq<nat>)
  {
    |sizes| == |ss| + 1 && forall i :: 0 <= i < |ss| ==> Fits(ss[i], sizes[i], sizes[i + 1])
  }

  /** No layer has zero outputs: a `LayerLinear` with none cannot form its product. */
  predicate NoEmptyLayer(sizes: seq<nat>)
  {
    forall i :: 0 < i < |sizes| ==> sizes[i] > 0
  }

  /** Activation `k` has the output size of layer `k`. */
  predicate Sized(acts: seq<seq<real>>, sizes: seq<nat>)
  {
    |sizes| == |acts| + 1 && forall k :: 0 <= k < |acts| ==> |acts[k]| == sizes[k + 1]
  }

  /** On chained layers, `predict` of an input of the first layer's size never throws, and each layer's activation has its output size. */
  lemma {:induction false} ChainedRun(ss: seq<Snap>, sizes: seq<nat>, x: seq<real>, k: nat)
    requires AllSnapsValid(ss) && Chained(ss, sizes) && NoEmptyLayer(sizes) && |x| == sizes[0] && k <= |ss|
    ensures RunTo(ss, x, k).Ok? && |RunTo(ss, x, k).value| == sizes[k]
  {
    if k > 0 {
      ChainedRun(ss, sizes, x, k - 1);
      assert Fits(ss[k - 1], sizes[k - 1], sizes[k]);
    }
  }

  /**
   * On chained layers whose activations have their output sizes, a blame of
   * the last layer's size is handed all the way down: no layer throws, and
   * each is given a blame of its output size.
   */
  lemma {:induction false} ChainedReceived(ss: seq<Snap>, sizes: seq<nat>, acts: seq<seq<real>>, ins: seq<nat>,
                                           seed: Result<seq<real>>, i: nat)
    requires AllSnapsValid(ss) && Chained(ss, sizes) && NoEmptyLayer(sizes) && Sized(acts, sizes)
    requires |ins| == |ss| && i < |ss| && seed.Ok? && |seed.value| == sizes[|ss|]
    ensures Received(ss, acts, ins, seed, i).Ok? && |Received(ss, acts, ins, seed, i).value| == sizes[i + 1]
    decreases |ss| - i
  {
    if i < |ss| - 1 {
      ChainedReceived(ss, sizes, acts, ins, seed, i + 1);
      assert Fits(ss[i + 1], sizes[i + 1], sizes[i + 2]);
    }
  }

  /**
   * `predict(x)` on chained layers, given an input of the first layer's
   * size, yields an output of the last layer's size and leaves every layer
   * an activation of its output size.
   */
  lemma {:induction false} ChainedReached(ss: seq<Snap>, sizes: seq<nat>, x: seq<real>, before: seq<seq<real>>)
    requires AllSnapsValid(ss) && Chained(ss, sizes) && NoEmptyLayer(sizes) && |x| == sizes[0] && |before| == |ss|
    ensures Run(ss, x).Ok? && |Run(ss, x).value| == sizes[|ss|]
    ensures forall k :: 0 <= k < |ss| ==> |Reached(ss, x, k, before[k])| == sizes[k + 1]
  {
    ChainedRun(ss, sizes, x, |ss|);
    forall k | 0 <= k < |ss|
      ensures |Reached(ss, x, k, before[k])| == sizes[k + 1]
    {
      ChainedRun(ss, sizes, x, k + 1);
    }
  }

  /**
   * `backPropagate` on chained layers whose activations have their output
   * sizes, seeded with a blame of the last layer's size: every layer is
   * given a blame of its output size.
   */
  lemma {:induction false} ChainedHanded(ss: seq<Snap>, sizes: seq<nat>, acts: seq<seq<real>>, ins: seq<nat>, seed: Result<seq<real>>)
    requires AllSnapsValid(ss) && Chained(ss, sizes) && NoEmptyLayer(sizes) && Sized(acts, sizes)
    requires |ins| == |ss| && seed.Ok? && |seed.value| == sizes[|ss|]
    ensures forall i :: 0 <= i < |ss| ==>
      Received(ss, acts, ins, seed, i).Ok? && |Received(ss, acts, ins, seed, i).value| == sizes[i + 1]
  {
    forall i | 0 <= i < |ss|
      ensures Received(ss, acts, ins, seed, i).Ok? && |Received(ss, acts, ins, seed, i).value| == sizes[i + 1]
    {
      ChainedReceived(ss, sizes, acts, ins, seed, i);
    }
  }

  /**
   * `updateGradient` keeps chained layers chained, and never throws when the
   * layers hold blames of their output sizes and are given inputs of their
   * input sizes.
   */
  lemma ChainedLearns(before: seq<Snap>, after: seq<Snap>, sizes: seq<nat>, blames: seq<seq<real>>, xs: seq<seq<real>>,
                      status: Outcome)
    requires AllSnapsValid(before) && |after| == |before| && |blames| == |before| && |xs| == |before|
    requires Chained(before, sizes) && Learns(before, after, blames, xs, status)
    ensures Chained(after, sizes)
    ensures Sized(blames, sizes) && (forall k :: 0 <= k < |xs| ==> |xs[k]| == sizes[k]) ==> status.Pass?
  {
    var os := LearnOutcomes(before, blames, xs);
    forall k | 0 <= k < |before|
      ensures Fits(after[k], sizes[k], sizes[k + 1])
    {
      LearnsKeepsParameters(before, after, blames, xs, status, k);
      FitsKept(after[k], before[k], sizes[k], sizes[k + 1]);
    }
    if Sized(blames, sizes) && (forall k :: 0 <= k < |xs| ==> |xs[k]| == sizes[k]) {
      forall k | 0 <= k < |before|
        ensures os[k].Pass?
      {
        assert Fits(before[k], sizes[k], sizes[k + 1]);
      }
    }
  }

  /** `updateGradient` changes no layer's weights or bias, and keeps the shapes of its gradients. */
  lemma LearnsKeepsParameters(before: seq<Snap>, after: seq<Snap>, blames: seq<seq<real>>, xs: seq<seq<real>>,
                              status: Outcome, k: nat)
    requires AllSnapsValid(before) && |after| == |before| && |blames| == |before| && |xs| == |before| && k < |before|
    requires Learns(before, after, blames, xs, status)
    ensures SameParameters(after[k], before[k])
  {
    var f := Failing(LearnOutcomes(before, blames, xs));
    if k < f {
      assert after[k] == Learned(before[k], blames[k], xs[k]);
    } else if k > f {
      assert after[k] == before[k];
    }
  }

  /** Parameters that fit a layer still fit it once only their gradients changed. */
  lemma FitsKept(t: Snap, s: Snap, m: nat, n: nat)
    requires Fits(s, m, n) && SameParameters(t, s)
    ensures Fits(t, m, n)
  {
  }

  /** On chained layers `updateWeights` never throws and keeps the layers chained. */
  lemma ChainedApplies(before: seq<Snap>, after: seq<Snap>, sizes: seq<nat>, learningRate: real, momentum: real,
                       status: Outcome)
    requires AllSnapsValid(before) && |after| == |before| && Chained(before, sizes)
    requires Applies(before, after, learningRate, momentum, status)
    ensures status.Pass? && Chained(after, sizes)
  {
    var os := ApplyOutcomes(before);
    forall k | 0 <= k < |before|
      ensures os[k].Pass?
    {
      assert Fits(before[k], sizes[k], sizes[k + 1]);
    }
    assert Failing(os) == |before|;
    forall k | 0 <= k < |before|
      ensures Fits(after[k], sizes[k], sizes[k + 1])
    {
      assert Fits(before[k], sizes[k], sizes[k + 1]);
    }
  }
}
