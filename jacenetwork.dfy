// The com.jace.learner NeuralNetwork: an ordered list of layers with a
// momentum and a learning rate, driving the passes of module Networks.
module JaceNetworks {
  import opened Wrappers
  import opened Networks
  import Layers
  import LinearLayers

  /** The values a copy of a layer with parameters `s` starts from: a linear layer keeps none of its parameters. */
  function CopiedSnap(s: Snap): (t: Snap)
    ensures t.LinearSnap? <==> s.LinearSnap?
    ensures t.LinearSnap? ==> t.weights.None? && t.bias.None? && t.weightsGradient.None? && t.biasGradient.None?
    ensures !s.LinearSnap? ==> t == s
  {
    match s
    case LinearSnap(_, _, _, _, _, _) => LinearSnap(None, None, None, None, LinearLayers.NoRegularization, 0.0)
    case _ => s
  }

  /** `layer.copy()`, by class: a fresh layer of the same kind and size. */
  method CopyUnit(u: Unit) returns (v: Unit)
    requires UnitValid(u) && !u.LayerLinearUnit?
    ensures fresh(Owner(v)) && fresh(Base(v)) && UnitValid(v) && !v.LayerLinearUnit?
    ensures Kind(v) == Kind(u) && Base(v).inputs == Base(u).inputs
    ensures Base(v).outputs == if u.LinearUnit? then Base(u).outputs else Base(u).inputs
    ensures SnapOf(v) == CopiedSnap(SnapOf(u))
  {
    match u
    case LinearUnit(l) =>
      var c := l.Copy();
      v := LinearUnit(c);
    case TanhUnit(t) =>
      var c := t.Copy();
      v := TanhUnit(c);
    case LeakyUnit(k) =>
      var c := k.Copy();
      v := LeakyUnit(c);
  }

  class NeuralNetwork {
    var layers: seq<Unit>
    var momentum: real
    var learningRate: real

    /** The layers share no object (with each other or with the network), each is well formed, and each is a com.jace layer. */
    ghost predicate Valid()
      reads this, Owners(layers)
    {
      this !in Owners(layers) && Distinct(layers) && AllValid(layers) &&
      forall i :: 0 <= i < |layers| ==> !layers[i].LayerLinearUnit?
    }

    /** `NeuralNetwork()`: no layers; momentum and learning rate start at zero. */
    constructor ()
      ensures Valid() && layers == [] && momentum == 0.0 && learningRate == 0.0
    {
      layers := [];
      momentum := 0.0;
      learningRate := 0.0;
    }

    method SetMomentum(momentum: real)
      modifies this
      ensures this.momentum == momentum && layers == old(layers) && learningRate == old(learningRate)
    {
      this.momentum := momentum;
    }

    method SetLearningRate(learningRate: real)
      modifies this
      ensures this.learningRate == learningRate && layers == old(layers) && momentum == old(momentum)
    {
      this.learningRate := learningRate;
    }

    /** `addLayer(layer)`: appended, with no check of its size against the last layer. */
    method AddLayer(u: Unit)
      requires Valid() && UnitValid(u) && !u.LayerLinearUnit? && Distinct(layers + [u])
      modifies this
      ensures Valid() && layers == old(layers) + [u]
      ensures momentum == old(momentum) && learningRate == old(learningRate)
    {
      layers := layers + [u];
    }

    /** `isValid()`. */
    predicate IsValid()
      reads this
    {
      |layers| > 0
    }

    /** `isLinearNetwork()`: one layer, of the linear kind. */
    function IsLinearNetwork(): (b: bool)
      requires Valid()
      reads this, Owners(layers)
      ensures b <==> |layers| == 1 && layers[0].LinearUnit?
    {
      |layers| == 1 && Kind(layers[0]) == Layers.Linear
    }

    /**
     * `copy()`: a network of fresh copies of the layers, in order, with the
     * same momentum and learning rate.
     */
    method Copy() returns (c: NeuralNetwork)
      requires Valid()
      ensures fresh(c) && c.Valid() && |c.layers| == |layers|
      ensures c.momentum == momentum && c.learningRate == learningRate
      ensures forall i :: 0 <= i < |layers| ==> fresh(Owner(c.layers[i])) && fresh(Base(c.layers[i]))
      ensures forall i :: 0 <= i < |layers| ==>
        Kind(c.layers[i]) == Kind(layers[i]) && Base(c.layers[i]).inputs == Base(layers[i]).inputs &&
        SnapOf(c.layers[i]) == CopiedSnap(SnapOf(layers[i]))
    {
      var copies := CopyEach(layers);
      c := new NeuralNetwork();
      c.layers := copies;
      c.SetMomentum(momentum);
      c.SetLearningRate(learningRate);
    }

    /**
     * `predict(in)`: an empty network throws; otherwise the layers are fed
     * forward from `x` and the last activation is the result.
     */
    method Predict(x: seq<real>) returns (r: Result<seq<real>>)
      requires Valid()
      modifies Bases(layers)
      ensures Valid()
      ensures !IsValid() ==> r == Err(IllegalState(NoLayers))
      ensures IsValid() ==> r == Run(old(Snaps(layers)), x)
      ensures forall i :: 0 <= i < |layers| ==>
        SnapOf(layers[i]) == old(SnapOf(layers[i])) && Base(layers[i]).blame == old(Base(layers[i]).blame)
      ensures forall i :: 0 <= i < |layers| ==>
        Base(layers[i]).activation == Reached(old(Snaps(layers)), x, i, old(Base(layers[i]).activation))
    {
      if |layers| == 0 {
        return Err(IllegalState(NoLayers));
      }
      r := Feed(layers, x);
    }

    /**
     * `backPropagate(target)`: an empty network throws; otherwise the blame
     * is handed down from the last layer, seeded with the target minus the
     * last activation.
     */
    method BackPropagate(target: seq<real>) returns (status: Outcome)
      requires Valid()
      modifies Bases(layers)
      ensures Valid()
      ensures !IsValid() ==> status == Fail(IllegalState(NoLayers))
      ensures forall i :: 0 <= i < |layers| ==>
        SnapOf(layers[i]) == old(SnapOf(layers[i])) && Base(layers[i]).activation == old(Base(layers[i]).activation)
      ensures IsValid() ==>
        var received := Received(old(Snaps(layers)), old(Acts(layers)), Ins(layers),
                                 Seed(target, old(Base(layers[|layers| - 1]).activation)), 0);
        status == if received.Err? then Fail(received.error) else Pass
      ensures forall i :: 0 <= i < |layers| ==>
        Base(layers[i]).blame == Given(old(Snaps(layers)), old(Acts(layers)), Ins(layers),
                                       Seed(target, old(Base(layers[|layers| - 1]).activation)), i, old(Base(layers[i]).blame))
    {
      if |layers| == 0 {
        return Fail(IllegalState(NoLayers));
      }
      status := HandBack(layers, target);
    }

    /**
     * `updateGradient(x)`: an empty network throws; otherwise each layer
     * accumulates its gradients from its blame and its input.
     */
    method UpdateGradient(x: seq<real>) returns (status: Outcome)
      requires Valid()
      modifies Owners(layers)
      ensures Valid()
      ensures !IsValid() ==> status == Fail(IllegalState(NoLayers))
      ensures forall i :: 0 <= i < |layers| ==>
        Base(layers[i]).activation == old(Base(layers[i]).activation) && Base(layers[i]).blame == old(Base(layers[i]).blame)
      ensures IsValid() ==> Learns(old(Snaps(layers)), Snaps(layers), old(Blames(layers)), Inputs(x, old(Acts(layers))), status)
    {
      if |layers| == 0 {
        return Fail(IllegalState(NoLayers));
      }
      status := Learn(layers, x);
    }

    /** `updateWeights()`: each layer applies its gradients with the network's learning rate and momentum. */
    method UpdateWeights() returns (status: Outcome)
      requires Valid()
      modifies Owners(layers)
      ensures Valid()
      ensures forall i :: 0 <= i < |layers| ==>
        Base(layers[i]).activation == old(Base(layers[i]).activation) && Base(layers[i]).blame == old(Base(layers[i]).blame)
      ensures Applies(old(Snaps(layers)), Snaps(layers), learningRate, momentum, status)
    {
      status := Apply(layers, learningRate, momentum);
    }
  }

  /** Fresh copies of `units`, in order: what adding `copy()` of each layer to a new network collects. */
  method CopyEach(units: seq<Unit>) returns (copies: seq<Unit>)
    requires AllValid(units) && forall i :: 0 <= i < |units| ==> !units[i].LayerLinearUnit?
    ensures |copies| == |units| && Distinct(copies) && AllValid(copies)
    ensures forall i :: 0 <= i < |units| ==> !copies[i].LayerLinearUnit?
    ensures forall i :: 0 <= i < |units| ==> fresh(Owner(copies[i])) && fresh(Base(copies[i]))
    ensures forall i :: 0 <= i < |units| ==>
      Kind(copies[i]) == Kind(units[i]) && Base(copies[i]).inputs == Base(units[i]).inputs &&
      SnapOf(copies[i]) == CopiedSnap(SnapOf(units[i]))
  {
    copies := [];
    var i := 0;
    while i < |units|
      invariant 0 <= i <= |units| && |copies| == i && Distinct(copies) && AllValid(copies)
      invariant forall k :: 0 <= k < i ==> !copies[k].LayerLinearUnit?
      invariant forall k :: 0 <= k < i ==> fresh(Owner(copies[k])) && fresh(Base(copies[k]))
      invariant forall k :: 0 <= k < i ==>
        Kind(copies[k]) == Kind(units[k]) && Base(copies[k]).inputs == Base(units[k]).inputs &&
        SnapOf(copies[k]) == CopiedSnap(SnapOf(units[k]))
    {
      var v := CopyUnit(units[i]);
      copies := copies + [v];
      i := i + 1;
    }
  }
}
