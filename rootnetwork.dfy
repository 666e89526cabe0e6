// The root package's NeuralNetwork: a chain of LayerLinear and LayerTanh
// layers built by addFirstLayer/addLayer, each taking as many inputs as the
// layer before it gives outputs, driving the passes of module Networks.
module RootNetworks {
  import opened Wrappers
  import opened Numeric
  import opened Networks
  import Grids
  import Dense
  import Layers
  import LinearLayers
  import Activations
  import Matrices

  const NoImplementation := "No implementation exists for this layer type."
  const NoInputs := "You must first add a layer with a specified number of inputs"
  const NotLinear := "Your NeuralNetwork must have exactly one LayerLinear"

  /** `LEARNING_RATE`: the step `train` applies the gradients with. */
  const LearningRate: real := 0.0001

  /** The sizes along a chain of layers: the first layer's inputs, then each layer's outputs. */
  function Sizes(units: seq<Unit>): (sizes: seq<nat>)
    ensures |sizes| == |units| + 1
    ensures |units| > 0 ==> sizes[0] == Base(units[0]).inputs
    ensures forall i :: 0 < i <= |units| ==> sizes[i] == Base(units[i - 1]).outputs
  {
    [if |units| == 0 then 0 else Base(units[0]).inputs] + seq(|units|, i requires 0 <= i < |units| => Base(units[i]).outputs)
  }

  /** Each layer takes as many inputs as the layer before it gives outputs. */
  predicate Linked(units: seq<Unit>)
  {
    forall i :: 0 <= i < |units| ==> Base(units[i]).inputs == Sizes(units)[i]
  }

  /** Each layer's parameters have the shapes its sizes call for. */
  ghost predicate Shaped(units: seq<Unit>)
    reads Owners(units)
  {
    forall i :: 0 <= i < |units| ==> Fits(SnapOf(units[i]), Base(units[i]).inputs, Base(units[i]).outputs)
  }

  /**
   * What the network keeps of its layers: they share no object, are well
   * formed, are `LayerLinear` layers or `LayerTanh` layers applying `tanh`,
   * and form a chain.
   */
  ghost predicate ChainValid(units: seq<Unit>, tanh: real -> real)
    reads Owners(units)
  {
    Distinct(units) && AllValid(units) && Linked(units) && Shaped(units) &&
    forall i :: 0 <= i < |units| ==> units[i].LayerLinearUnit? || (units[i].TanhUnit? && units[i].tanh.tanh == tanh)
  }

  /** Every activation has its layer's output size. */
  ghost predicate ActsSized(units: seq<Unit>)
    reads Bases(units)
  {
    forall i :: 0 <= i < |units| ==> |Base(units[i]).activation| == Base(units[i]).outputs
  }

  /** Every blame has its layer's output size. */
  ghost predicate BlamesSized(units: seq<Unit>)
    reads Bases(units)
  {
    forall i :: 0 <= i < |units| ==> |Base(units[i]).blame| == Base(units[i]).outputs
  }

  /** Activations of their layers' output sizes are sized along the chain. */
  lemma ActsSizedChain(units: seq<Unit>)
    requires ActsSized(units)
    ensures Sized(Acts(units), Sizes(units))
  {
  }

  /** Blames of their layers' output sizes are sized along the chain. */
  lemma BlamesSizedChain(units: seq<Unit>)
    requires BlamesSized(units)
    ensures Sized(Blames(units), Sizes(units))
  {
  }

  /** Linked layers with fitting parameters are a chain of values. */
  lemma ShapedChained(units: seq<Unit>)
    requires Linked(units) && Shaped(units)
    ensures Chained(Snaps(units), Sizes(units))
  {
    forall i | 0 <= i < |units|
      ensures Fits(Snaps(units)[i], Sizes(units)[i], Sizes(units)[i + 1])
    {
      assert Fits(SnapOf(units[i]), Base(units[i]).inputs, Base(units[i]).outputs);
    }
  }

  /**
   * Linked layers of the kinds the network holds, whose parameters form a
   * chain of values `ss`, are a valid chain.
   */
  lemma Kept(units: seq<Unit>, ss: seq<Snap>, tanh: real -> real)
    requires Distinct(units) && Linked(units) && |ss| == |units| && Chained(ss, Sizes(units))
    requires forall i :: 0 <= i < |units| ==> units[i].LayerLinearUnit? || (units[i].TanhUnit? && units[i].tanh.tanh == tanh)
    requires forall i {:trigger SnapOf(units[i])} :: 0 <= i < |units| ==> UnitValid(units[i]) && SnapOf(units[i]) == ss[i]
    ensures ChainValid(units, tanh)
  {
    forall i | 0 <= i < |units|
      ensures Fits(SnapOf(units[i]), Base(units[i]).inputs, Base(units[i]).outputs)
    {
      assert Fits(ss[i], Sizes(units)[i], Sizes(units)[i + 1]);
    }
  }

  /** `predict(x)` on a chain, given an input of the first layer's size, leaves every activation its layer's output size. */
  lemma PredictSized(units: seq<Unit>, ss: seq<Snap>, x: seq<real>, before: seq<seq<real>>)
    requires |ss| == |before| == |units| > 0 && AllSnapsValid(ss) && Chained(ss, Sizes(units))
    requires NoEmptyLayer(Sizes(units)) && |x| == Sizes(units)[0]
    requires forall i :: 0 <= i < |units| ==> Base(units[i]).activation == Reached(ss, x, i, before[i])
    ensures Run(ss, x).Ok? && |Run(ss, x).value| == Sizes(units)[|units|] && ActsSized(units)
  {
    ChainedReached(ss, Sizes(units), x, before);
  }

  /**
   * `backPropagate(target)` on a chain whose activations `acts` have their
   * layers' sizes, given a target of the last layer's size, hands blame all
   * the way down and leaves every blame its layer's output size.
   */
  lemma BackSized(units: seq<Unit>, ss: seq<Snap>, acts: seq<seq<real>>, target: seq<real>, before: seq<seq<real>>)
    requires |ss| == |acts| == |before| == |units| > 0 && AllSnapsValid(ss) && Chained(ss, Sizes(units))
    requires NoEmptyLayer(Sizes(units)) && Sized(acts, Sizes(units)) && |target| == Sizes(units)[|units|]
    requires forall i :: 0 <= i < |units| ==>
      Base(units[i]).blame == Given(ss, acts, Ins(units), Seed(target, acts[|units| - 1]), i, before[i])
    ensures Received(ss, acts, Ins(units), Seed(target, acts[|units| - 1]), 0).Ok? && BlamesSized(units)
  {
    var seed := Seed(target, acts[|units| - 1]);
    ChainedHanded(ss, Sizes(units), acts, Ins(units), seed);
  }

  /** The inputs `updateGradient(x)` feeds a chain whose activations have their layers' sizes have the layers' input sizes. */
  lemma InputsSized(x: seq<real>, acts: seq<seq<real>>, sizes: seq<nat>)
    requires Sized(acts, sizes) && |x| == sizes[0]
    ensures forall k :: 0 <= k < |acts| ==> |Inputs(x, acts)[k]| == sizes[k]
  {
  }

  /** Whether `addLayer(type, inputs, outputs)` throws: a type other than LINEAR or TANH, or a linear layer with outputs but no inputs. */
  predicate Refused(kind: Layers.LayerType, inputs: nat, outputs: nat)
  {
    (kind != Layers.Linear && kind != Layers.Tanh) || (kind == Layers.Linear && outputs > 0 && inputs == 0)
  }

  /** What a refused `addLayer` throws. */
  function Refusal(kind: Layers.LayerType): Error
  {
    if kind == Layers.Linear then IllegalArgument(Matrices.NoColumns) else IllegalArgument(NoImplementation)
  }

  /**
   * `u` is the layer `addLayer(type, inputs, outputs)` builds: a
   * `LayerLinear(inputs, outputs)` with zero weights, bias and gradients, or
   * a `LayerTanh(inputs)` with as many outputs as inputs.
   */
  ghost predicate Made(u: Unit, kind: Layers.LayerType, inputs: nat, outputs: nat, tanh: real -> real)
    reads Owner(u)
  {
    Kind(u) == kind && Base(u).inputs == inputs &&
    (kind == Layers.Linear ==>
      u.LayerLinearUnit? && Base(u).outputs == outputs &&
      SnapOf(u) == LayerLinearSnap(Dense.Table(Grids.Zeros(outputs, inputs), inputs), Constant(outputs, 0.0),
                                   Dense.Table(Grids.Zeros(outputs, inputs), inputs), Constant(outputs, 0.0))) &&
    (kind == Layers.Tanh ==> u.TanhUnit? && Base(u).outputs == inputs && SnapOf(u) == TanhSnap(tanh))
  }

  /** The private `addLayer(type, inputs, outputs)`: the new layer, or what it throws. */
  method NewLayer(kind: Layers.LayerType, inputs: nat, outputs: nat, tanh: real -> real) returns (r: Result<Unit>)
    ensures r.Err? <==> Refused(kind, inputs, outputs)
    ensures r.Err? ==> r.error == Refusal(kind)
    ensures r.Ok? ==> fresh(Owner(r.value)) && fresh(Base(r.value)) && UnitValid(r.value)
    ensures r.Ok? ==> Made(r.value, kind, inputs, outputs, tanh)
    ensures r.Ok? ==> Fits(SnapOf(r.value), Base(r.value).inputs, Base(r.value).outputs)
    ensures r.Ok? ==> r.value.LayerLinearUnit? || (r.value.TanhUnit? && r.value.tanh.tanh == tanh)
  {
    match kind
    case Linear =>
      var l := LinearLayers.LayerLinear.Create(inputs, outputs);
      if l.Err? {
        return Err(l.error);
      }
      r := Ok(LayerLinearUnit(l.value));
    case Tanh =>
      var t := new Activations.TanhLayer(inputs, tanh);
      r := Ok(TanhUnit(t));
    case _ =>
      r := Err(IllegalArgument(NoImplementation));
  }

  /** Appending a fitting layer whose inputs are the last layer's outputs keeps a network linked and shaped. */
  lemma Append(units: seq<Unit>, u: Unit)
    requires Linked(units) && Shaped(units) && Fits(SnapOf(u), Base(u).inputs, Base(u).outputs)
    requires |units| > 0 ==> Base(u).inputs == Base(units[|units| - 1]).outputs
    ensures Linked(units + [u]) && Shaped(units + [u])
  {
    var all := units + [u];
    forall i | 0 <= i < |all|
      ensures Base(all[i]).inputs == Sizes(all)[i]
    {
      if i < |units| {
        assert all[i] == units[i];
        assert Base(units[i]).inputs == Sizes(units)[i];
      }
    }
  }

  /** The objects owning the layers of `units + [u]`. */
  lemma OwnersAppend(units: seq<Unit>, u: Unit)
    ensures Owners(units + [u]) == Owners(units) + {Owner(u)}
  {
    var all := units + [u];
    assert forall i :: 0 <= i < |units| ==> all[i] == units[i];
    assert all[|units|] == u;
  }

  /** A new layer shares no object with the layers already held. */
  lemma DistinctAppend(units: seq<Unit>, u: Unit)
    requires Distinct(units) && Owner(u) != Base(u)
    requires forall i :: 0 <= i < |units| ==>
      Owner(u) != Owner(units[i]) && Owner(u) != Base(units[i]) && Base(u) != Owner(units[i]) && Base(u) != Base(units[i])
    ensures Distinct(units + [u])
  {
  }

  /** A well-formed layer of a kind the network holds, fitting its sizes and sharing no object with the chain, extends the chain. */
  lemma AppendValid(units: seq<Unit>, u: Unit, tanh: real -> real)
    requires ChainValid(units, tanh) && UnitValid(u) && Fits(SnapOf(u), Base(u).inputs, Base(u).outputs)
    requires u.LayerLinearUnit? || (u.TanhUnit? && u.tanh.tanh == tanh)
    requires |units| > 0 ==> Base(u).inputs == Base(units[|units| - 1]).outputs
    requires Owner(u) != Base(u)
    requires forall i :: 0 <= i < |units| ==>
      Owner(u) != Owner(units[i]) && Owner(u) != Base(units[i]) && Base(u) != Owner(units[i]) && Base(u) != Base(units[i])
    ensures ChainValid(units + [u], tanh)
  {
    Append(units, u);
    var all := units + [u];
    assert forall i :: 0 <= i < |units| ==> all[i] == units[i];
    DistinctAppend(units, u);
  }

  /**
   * `addLayer(type, inputs, outputs)` on a chain whose last layer gives
   * `inputs` outputs: the new layer, which extends the chain, or what
   * building it throws.
   */
  method Extend(units: seq<Unit>, kind: Layers.LayerType, inputs: nat, outputs: nat, tanh: real -> real)
    returns (r: Result<Unit>)
    requires ChainValid(units, tanh) && (|units| > 0 ==> inputs == Base(units[|units| - 1]).outputs)
    ensures r.Err? <==> Refused(kind, inputs, outputs)
    ensures r.Err? ==> r.error == Refusal(kind)
    ensures r.Ok? ==> fresh(Owner(r.value)) && fresh(Base(r.value)) && Made(r.value, kind, inputs, outputs, tanh)
    ensures r.Ok? ==> ChainValid(units + [r.value], tanh)
  {
    r := NewLayer(kind, inputs, outputs, tanh);
    if r.Ok? {
      AppendValid(units, r.value, tanh);
    }
  }

  /** `predict(x)` on layers with parameters `ss`, as values: an empty network throws. */
  function Predicted(ss: seq<Snap>, x: seq<real>): (r: Result<seq<real>>)
    requires AllSnapsValid(ss)
    ensures ss == [] ==> r == Err(IllegalState(NoLayers))
    ensures ss != [] ==> r == Run(ss, x)
  {
    if ss == [] then Err(IllegalState(NoLayers)) else Run(ss, x)
  }

  /**
   * `countMisclassifications` over the first `k` rows: a row is
   * misclassified when the index `maxIndex` picks in the prediction differs
   * from the one it picks in the label; the first prediction that throws,
   * or a row with no label, ends the count with that exception.
   */
  function Misclassified(ss: seq<Snap>, features: seq<seq<real>>, labels: seq<seq<real>>,
                         maxIndex: seq<real> -> int, k: nat): (r: Result<nat>)
    requires AllSnapsValid(ss) && k <= |features|
    ensures r.Ok? ==> r.value <= k
  {
    if k == 0 then Ok(0)
    else
      var count := Misclassified(ss, features, labels, maxIndex, k - 1);
      var output := Predicted(ss, features[k - 1]);
      if count.Err? then count
      else if output.Err? then Err(output.error)
      else if k - 1 >= |labels| then Err(IndexOutOfBounds)
      else Ok(if maxIndex(output.value) != maxIndex(labels[k - 1]) then count.value + 1 else count.value)
  }

  /** Once a row has thrown, the count throws the same exception, however many rows follow. */
  lemma {:induction false} MisclassifiedStays(ss: seq<Snap>, features: seq<seq<real>>, labels: seq<seq<real>>,
                                              maxIndex: seq<real> -> int, k: nat, n: nat)
    requires AllSnapsValid(ss) && k <= n <= |features| && Misclassified(ss, features, labels, maxIndex, k).Err?
    ensures Misclassified(ss, features, labels, maxIndex, n) == Misclassified(ss, features, labels, maxIndex, k)
    decreases n - k
  {
    if k < n {
      MisclassifiedStays(ss, features, labels, maxIndex, k, n - 1);
    }
  }

  /**
   * On a non-empty chain with no layer of zero outputs, rows of the first
   * layer's size, each with a label, are counted without an exception.
   */
  lemma {:induction false} MisclassifiedCounts(ss: seq<Snap>, sizes: seq<nat>, features: seq<seq<real>>,
                                               labels: seq<seq<real>>, maxIndex: seq<real> -> int, k: nat)
    requires AllSnapsValid(ss) && ss != [] && Chained(ss, sizes) && NoEmptyLayer(sizes)
    requires k <= |features| <= |labels| && forall i :: 0 <= i < |features| ==> |features[i]| == sizes[0]
    ensures Misclassified(ss, features, labels, maxIndex, k).Ok?
  {
    if k > 0 {
      MisclassifiedCounts(ss, sizes, features, labels, maxIndex, k - 1);
      ChainedRun(ss, sizes, features[k - 1], |ss|);
    }
  }

  /**
   * `predict(x)` on a chain of layers: an empty chain throws; otherwise the
   * result is the pass over the parameters the layers hold, which it leaves
   * as they were. An input of the first layer's size is never refused when
   * no layer has zero outputs, and then every activation has its layer's
   * output size.
   */
  method ChainPredict(units: seq<Unit>, x: seq<real>, tanh: real -> real) returns (r: Result<seq<real>>)
    requires ChainValid(units, tanh)
    modifies Bases(units)
    ensures ChainValid(units, tanh)
    ensures r == Predicted(old(Snaps(units)), x)
    ensures forall i :: 0 <= i < |units| ==>
      SnapOf(units[i]) == old(SnapOf(units[i])) && Base(units[i]).blame == old(Base(units[i]).blame)
    ensures forall i :: 0 <= i < |units| ==>
      Base(units[i]).activation == Reached(old(Snaps(units)), x, i, old(Base(units[i]).activation))
    ensures units != [] && NoEmptyLayer(Sizes(units)) && |x| == Sizes(units)[0] ==>
      r.Ok? && |r.value| == Sizes(units)[|units|] && ActsSized(units)
  {
    if units == [] {
      return Err(IllegalState(NoLayers));
    }
    ghost var ss := Snaps(units);
    ghost var before := Acts(units);
    ShapedChained(units);
    r := Feed(units, x);
    Kept(units, ss, tanh);
    if NoEmptyLayer(Sizes(units)) && |x| == Sizes(units)[0] {
      PredictSized(units, ss, x, before);
    }
  }

  /**
   * `backPropagate(target)` on a chain of layers: an empty chain throws;
   * otherwise the blame is handed down from the last layer. When the
   * activations have their layers' sizes and no layer has zero outputs, a
   * target of the last size is never refused and every blame gets its
   * layer's output size.
   */
  method ChainBack(units: seq<Unit>, target: seq<real>, tanh: real -> real) returns (status: Outcome)
    requires ChainValid(units, tanh)
    modifies Bases(units)
    ensures ChainValid(units, tanh)
    ensures units == [] ==> status == Fail(IllegalState(NoLayers))
    ensures forall i :: 0 <= i < |units| ==>
      SnapOf(units[i]) == old(SnapOf(units[i])) && Base(units[i]).activation == old(Base(units[i]).activation)
    ensures units != [] ==>
      var received := Received(old(Snaps(units)), old(Acts(units)), Ins(units),
                               Seed(target, old(Base(units[|units| - 1]).activation)), 0);
      status == if received.Err? then Fail(received.error) else Pass
    ensures forall i :: 0 <= i < |units| ==>
      Base(units[i]).blame == Given(old(Snaps(units)), old(Acts(units)), Ins(units),
                                    Seed(target, old(Base(units[|units| - 1]).activation)), i, old(Base(units[i]).blame))
    ensures units != [] && NoEmptyLayer(Sizes(units)) && old(ActsSized(units)) && |target| == Sizes(units)[|units|] ==>
      status.Pass? && BlamesSized(units)
  {
    if units == [] {
      return Fail(IllegalState(NoLayers));
    }
    ghost var ss := Snaps(units);
    ghost var acts := Acts(units);
    ghost var before := Blames(units);
    ghost var sized := ActsSized(units);
    ShapedChained(units);
    if sized {
      ActsSizedChain(units);
    }
    status := HandBack(units, target);
    Kept(units, ss, tanh);
    if NoEmptyLayer(Sizes(units)) && sized && |target| == Sizes(units)[|units|] {
      BackSized(units, ss, acts, target, before);
    }
  }

  /**
   * `updateGradient(x)` on a chain of layers: an empty chain throws;
   * otherwise each layer accumulates its gradients. The layers stay
   * chained, and when activations and blames have their layers' sizes, an
   * input of the first layer's size is never refused.
   */
  method ChainLearn(units: seq<Unit>, x: seq<real>, tanh: real -> real) returns (status: Outcome)
    requires ChainValid(units, tanh)
    modifies Owners(units)
    ensures ChainValid(units, tanh)
    ensures units == [] ==> status == Fail(IllegalState(NoLayers))
    ensures forall i :: 0 <= i < |units| ==>
      Base(units[i]).activation == old(Base(units[i]).activation) && Base(units[i]).blame == old(Base(units[i]).blame)
    ensures units != [] ==> Learns(old(Snaps(units)), Snaps(units), old(Blames(units)), Inputs(x, old(Acts(units))), status)
    ensures units != [] && old(ActsSized(units)) && old(BlamesSized(units)) && |x| == Sizes(units)[0] ==> status.Pass?
  {
    if units == [] {
      return Fail(IllegalState(NoLayers));
    }
    ghost var ss := Snaps(units);
    ghost var acts := Acts(units);
    ghost var blames := Blames(units);
    ShapedChained(units);
    if ActsSized(units) && BlamesSized(units) {
      ActsSizedChain(units);
      BlamesSizedChain(units);
      if |x| == Sizes(units)[0] {
        InputsSized(x, acts, Sizes(units));
      }
    }
    status := Learn(units, x);
    ChainedLearns(ss, Snaps(units), Sizes(units), blames, Inputs(x, acts), status);
    Kept(units, Snaps(units), tanh);
  }

  /** `updateWeights(learningRate)` on a chain of layers: no layer refuses, and the layers stay chained. */
  method ChainApply(units: seq<Unit>, learningRate: real, momentum: real, tanh: real -> real) returns (status: Outcome)
    requires ChainValid(units, tanh)
    modifies Owners(units)
    ensures ChainValid(units, tanh) && status.Pass?
    ensures forall i :: 0 <= i < |units| ==>
      Base(units[i]).activation == old(Base(units[i]).activation) && Base(units[i]).blame == old(Base(units[i]).blame)
    ensures Applies(old(Snaps(units)), Snaps(units), learningRate, momentum, status)
  {
    ghost var ss := Snaps(units);
    ShapedChained(units);
    status := Apply(units, learningRate, momentum);
    ChainedApplies(ss, Snaps(units), Sizes(units), learningRate, momentum, status);
    Kept(units, Snaps(units), tanh);
  }

  /** The count over one more row, spelled out from the count so far. */
  lemma MisclassifiedNext(ss: seq<Snap>, features: seq<seq<real>>, labels: seq<seq<real>>,
                          maxIndex: seq<real> -> int, row: nat, count: nat)
    requires AllSnapsValid(ss) && row < |features| && Misclassified(ss, features, labels, maxIndex, row) == Ok(count)
    ensures var output := Predicted(ss, features[row]);
      Misclassified(ss, features, labels, maxIndex, row + 1) ==
        if output.Err? then Err(output.error)
        else if row >= |labels| then Err(IndexOutOfBounds)
        else Ok(if maxIndex(output.value) != maxIndex(labels[row]) then count + 1 else count)
  {
  }

  /** One row of `countMisclassifications`: the row is predicted, and the count so far is extended or ended. */
  method CountRow(units: seq<Unit>, tanh: real -> real, ghost ss: seq<Snap>, features: seq<seq<real>>,
                  labels: seq<seq<real>>, maxIndex: seq<real> -> int, row: nat, count: nat) returns (r: Result<nat>)
    requires ChainValid(units, tanh) && |ss| == |units| && row < |features|
    requires forall i :: 0 <= i < |units| ==> SnapOf(units[i]) == ss[i]
    requires Misclassified(ss, features, labels, maxIndex, row) == Ok(count)
    modifies Bases(units)
    ensures ChainValid(units, tanh)
    ensures forall i :: 0 <= i < |units| ==> SnapOf(units[i]) == ss[i]
    ensures r == Misclassified(ss, features, labels, maxIndex, row + 1)
  {
    assert Snaps(units) == ss;
    MisclassifiedNext(ss, features, labels, maxIndex, row, count);
    var output := ChainPredict(units, features[row], tanh);
    if output.Err? {
      return Err(output.error);
    }
    if row >= |labels| {
      return Err(IndexOutOfBounds);
    }
    r := Ok(if maxIndex(output.value) != maxIndex(labels[row]) then count + 1 else count);
  }

  /** `countMisclassifications` on a chain of layers: the count over the parameters it held, which it leaves as they were. */
  method ChainCount(units: seq<Unit>, tanh: real -> real, features: seq<seq<real>>, labels: seq<seq<real>>,
                    maxIndex: seq<real> -> int) returns (r: Result<nat>)
    requires ChainValid(units, tanh)
    modifies Bases(units)
    ensures ChainValid(units, tanh)
    ensures forall i :: 0 <= i < |units| ==> SnapOf(units[i]) == old(SnapOf(units[i]))
    ensures r == Misclassified(old(Snaps(units)), features, labels, maxIndex, |features|)
  {
    ghost var ss := Snaps(units);
    var misclassifications := 0;
    var row := 0;
    while row < |features|
      invariant row <= |features| && ChainValid(units, tanh)
      invariant forall i :: 0 <= i < |units| ==> SnapOf(units[i]) == ss[i]
      invariant Misclassified(ss, features, labels, maxIndex, row) == Ok(misclassifications)
    {
      var step := CountRow(units, tanh, ss, features, labels, maxIndex, row, misclassifications);
      if step.Err? {
        MisclassifiedStays(ss, features, labels, maxIndex, row + 1, |features|);
        return step;
      }
      misclassifications := step.value;
      row := row + 1;
    }
    r := Ok(misclassifications);
  }

  /**
   * `refineWeights(input, target, learningRate)` on a chain of layers: one
   * predict, back propagation, gradient update and weight update, the first
   * exception ending it. On a non-empty chain with no layer of zero
   * outputs, an input of the first layer's size and a target of the last
   * layer's size are never refused.
   */
  method ChainRefine(units: seq<Unit>, tanh: real -> real, input: seq<real>, target: seq<real>,
                     learningRate: real, momentum: real) returns (status: Outcome)
    requires ChainValid(units, tanh)
    modifies Owners(units), Bases(units)
    ensures ChainValid(units, tanh)
    ensures units == [] ==> status == Fail(IllegalState(NoLayers))
    ensures units != [] && NoEmptyLayer(Sizes(units)) && |input| == Sizes(units)[0] && |target| == Sizes(units)[|units|] ==>
      status.Pass?
  {
    var output := ChainPredict(units, input, tanh);
    if output.Err? {
      return Fail(output.error);
    }
    status := ChainBack(units, target, tanh);
    if status.Fail? {
      return;
    }
    status := ChainLearn(units, input, tanh);
    if status.Fail? {
      return;
    }
    status := ChainApply(units, learningRate, momentum, tanh);
  }

  class NeuralNetwork {
    var layers: seq<Unit>
    var momentum: real
    /** `Math::tanh`, which every `LayerTanh` applies; the model does not define it. */
    const tanh: real -> real

    /** The layers share no object with the network, and form a chain. */
    ghost predicate Valid()
      reads this, Owners(layers)
    {
      this !in Owners(layers) && ChainValid(layers, tanh)
    }

    /** `NeuralNetwork()`: no layers and no momentum. */
    constructor (tanh: real -> real)
      ensures Valid() && layers == [] && momentum == 0.0 && this.tanh == tanh
    {
      layers := [];
      momentum := 0.0;
      this.tanh := tanh;
    }

    method SetMomentum(momentum: real)
      modifies this
      ensures this.momentum == momentum && layers == old(layers)
    {
      this.momentum := momentum;
    }

    /** Appends a layer that keeps the chain valid and shares no object with the network. */
    method Push(u: Unit)
      requires this !in Owners(layers) + {Owner(u)} && ChainValid(layers + [u], tanh)
      modifies this
      ensures Valid() && layers == old(layers) + [u] && momentum == old(momentum)
    {
      OwnersAppend(layers, u);
      layers := layers + [u];
    }

    /**
     * `addFirstLayer(type, inputs, outputs)`: the layers are cleared, then
     * the one layer built from the arguments is added; when building it
     * throws, the network is left empty.
     */
    method AddFirstLayer(kind: Layers.LayerType, inputs: nat, outputs: nat) returns (status: Outcome)
      requires Valid()
      modifies this
      ensures Valid() && momentum == old(momentum)
      ensures status.Fail? <==> Refused(kind, inputs, outputs)
      ensures status.Fail? ==> status.error == Refusal(kind) && layers == []
      ensures status.Pass? ==> |layers| == 1 && fresh(Owner(layers[0])) && fresh(Base(layers[0]))
      ensures status.Pass? ==> Made(layers[0], kind, inputs, outputs, tanh)
    {
      layers := [];
      var u := Extend([], kind, inputs, outputs, tanh);
      if u.Err? {
        return Fail(u.error);
      }
      Push(u.value);
      assert layers == [u.value];
      status := Pass;
    }

    /**
     * `addLayer(type, outputs)`: an empty network throws; otherwise the layer
     * built with the last layer's outputs as its inputs is appended.
     */
    method AddLayer(kind: Layers.LayerType, outputs: nat) returns (status: Outcome)
      requires Valid()
      modifies this
      ensures Valid() && momentum == old(momentum)
      ensures old(layers) == [] ==> status == Fail(IllegalState(NoInputs)) && layers == []
      ensures old(layers) != [] ==>
        var inputs := Base(old(layers)[|old(layers)| - 1]).outputs;
        (status.Fail? <==> Refused(kind, inputs, outputs)) &&
        (status.Fail? ==> status.error == Refusal(kind) && layers == old(layers)) &&
        (status.Pass? ==>
          |layers| > 0 && var u := layers[|layers| - 1];
          layers == old(layers) + [u] && fresh(Owner(u)) && fresh(Base(u)) && Made(u, kind, inputs, outputs, tanh))
    {
      if layers == [] {
        return Fail(IllegalState(NoInputs));
      }
      var units := layers;
      var u := Extend(units, kind, Base(units[|units| - 1]).outputs, outputs, tanh);
      if u.Err? {
        return Fail(u.error);
      }
      Push(u.value);
      status := Pass;
    }

    /**
     * The guard of `crossValidation` and `trainLinear`: anything but exactly
     * one `LayerLinear` throws.
     */
    function SingleLinear(): (status: Outcome)
      requires Valid()
      reads this, Owners(layers)
      ensures status.Pass? <==> |layers| == 1 && layers[0].LayerLinearUnit?
      ensures status.Fail? ==> status.error == IllegalState(NotLinear)
    {
      if |layers| != 1 || Kind(layers[0]) != Layers.Linear then Fail(IllegalState(NotLinear)) else Pass
    }

    /**
     * `predict(in)`: an empty network throws; otherwise the layers are fed
     * forward from `x` and the last activation is the result. An input of
     * the first layer's size is never refused when no layer has zero
     * outputs, and then every activation has its layer's output size.
     */
    method Predict(x: seq<real>) returns (r: Result<seq<real>>)
      requires Valid()
      modifies Bases(layers)
      ensures Valid()
      ensures r == Predicted(old(Snaps(layers)), x)
      ensures forall i :: 0 <= i < |layers| ==>
        SnapOf(layers[i]) == old(SnapOf(layers[i])) && Base(layers[i]).blame == old(Base(layers[i]).blame)
      ensures forall i :: 0 <= i < |layers| ==>
        Base(layers[i]).activation == Reached(old(Snaps(layers)), x, i, old(Base(layers[i]).activation))
      ensures layers != [] && NoEmptyLayer(Sizes(layers)) && |x| == Sizes(layers)[0] ==>
        r.Ok? && |r.value| == Sizes(layers)[|layers|] && ActsSized(layers)
    {
      r := ChainPredict(layers, x, tanh);
    }

    /**
     * `backPropagate(target)`: an empty network throws; otherwise the blame
     * is handed down from the last layer, seeded with the target minus the
     * last activation. After a `predict` that sized the activations, a
     * target of the last layer's size is never refused, and every layer is
     * left a blame of its output size.
     */
    method BackPropagate(target: seq<real>) returns (status: Outcome)
      requires Valid()
      modifies Bases(layers)
      ensures Valid()
      ensures layers == [] ==> status == Fail(IllegalState(NoLayers))
      ensures forall i :: 0 <= i < |layers| ==>
        SnapOf(layers[i]) == old(SnapOf(layers[i])) && Base(layers[i]).activation == old(Base(layers[i]).activation)
      ensures layers != [] ==>
        var received := Received(old(Snaps(layers)), old(Acts(layers)), Ins(layers),
                                 Seed(target, old(Base(layers[|layers| - 1]).activation)), 0);
        status == if received.Err? then Fail(received.error) else Pass
      ensures forall i :: 0 <= i < |layers| ==>
        Base(layers[i]).blame == Given(old(Snaps(layers)), old(Acts(layers)), Ins(layers),
                                       Seed(target, old(Base(layers[|layers| - 1]).activation)), i, old(Base(layers[i]).blame))
      ensures layers != [] && NoEmptyLayer(Sizes(layers)) && old(ActsSized(layers)) && |target| == Sizes(layers)[|layers|] ==>
        status.Pass? && BlamesSized(layers)
    {
      status := ChainBack(layers, target, tanh);
    }

    /**
     * `updateGradient(x)`: an empty network throws; otherwise each layer
     * accumulates its gradients from its blame and its input. The layers
     * stay chained, and when activations and blames have their layers'
     * sizes, an input of the first layer's size is never refused.
     */
    method UpdateGradient(x: seq<real>) returns (status: Outcome)
      requires Valid()
      modifies Owners(layers)
      ensures Valid()
      ensures layers == [] ==> status == Fail(IllegalState(NoLayers))
      ensures forall i :: 0 <= i < |layers| ==>
        Base(layers[i]).activation == old(Base(layers[i]).activation) && Base(layers[i]).blame == old(Base(layers[i]).blame)
      ensures layers != [] ==> Learns(old(Snaps(layers)), Snaps(layers), old(Blames(layers)), Inputs(x, old(Acts(layers))), status)
      ensures layers != [] && old(ActsSized(layers)) && old(BlamesSized(layers)) && |x| == Sizes(layers)[0] ==> status.Pass?
    {
      status := ChainLearn(layers, x, tanh);
    }

    /**
     * `updateWeights(learningRate)`: each layer applies its gradients with
     * the given learning rate and the network's momentum. On a chained
     * network no layer refuses, and the layers stay chained.
     */
    method UpdateWeights(learningRate: real) returns (status: Outcome)
      requires Valid()
      modifies Owners(layers)
      ensures Valid() && status.Pass?
      ensures forall i :: 0 <= i < |layers| ==>
        Base(layers[i]).activation == old(Base(layers[i]).activation) && Base(layers[i]).blame == old(Base(layers[i]).blame)
      ensures Applies(old(Snaps(layers)), Snaps(layers), learningRate, momentum, status)
    {
      status := ChainApply(layers, learningRate, momentum, tanh);
    }

    /**
     * `countMisclassifications(features, labels)`: every row is predicted in
     * turn, and the count is the one over the parameters the network had;
     * predicting changes no parameter.
     */
    method CountMisclassifications(features: seq<seq<real>>, labels: seq<seq<real>>, maxIndex: seq<real> -> int)
      returns (r: Result<nat>)
      requires Valid()
      modifies Bases(layers)
      ensures Valid()
      ensures forall i :: 0 <= i < |layers| ==> SnapOf(layers[i]) == old(SnapOf(layers[i]))
      ensures r == Misclassified(old(Snaps(layers)), features, labels, maxIndex, |features|)
    {
      r := ChainCount(layers, tanh, features, labels, maxIndex);
    }

    /**
     * `refineWeights(input, target, learningRate)`: one predict, back
     * propagation, gradient update and weight update, the first exception
     * ending it. On a non-empty network with no layer of zero outputs, an
     * input of the first layer's size and a target of the last layer's size
     * are never refused.
     */
    method RefineWeights(input: seq<real>, target: seq<real>, learningRate: real) returns (status: Outcome)
      requires Valid()
      modifies Owners(layers), Bases(layers)
      ensures Valid()
      ensures layers == [] ==> status == Fail(IllegalState(NoLayers))
      ensures layers != [] && NoEmptyLayer(Sizes(layers)) && |input| == Sizes(layers)[0] && |target| == Sizes(layers)[|layers|] ==>
        status.Pass?
    {
      status := ChainRefine(layers, tanh, input, target, learningRate, momentum);
    }
  }
}
