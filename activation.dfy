// The activation layers: the leaky rectifier and tanh, in both packages
// (com.jace.layer.LeakyRectifierLayer and TanhLayer; the root package's
// LeakyRectifierLayer, TanhLayer and LayerTanh hold the same code). They have
// no parameters: activating maps each input through the function, and
// propagating blame scales it by the slope at the stored activation.
module Activations {
  import opened Wrappers
  import opened Numeric
  import opened Layers

  /** The leaky rectifier: the value itself when non-negative, a hundredth of it otherwise. */
  function Leaky(v: real): real
  {
    if v >= 0.0 then v else 0.01 * v
  }

  /** `x.map(f)`: a fresh vector of the images. */
  function Mapped(x: seq<real>, f: real -> real): (y: seq<real>)
    ensures |y| == |x| && forall i :: 0 <= i < |x| ==> y[i] == f(x[i])
  {
    seq(|x|, i requires 0 <= i < |x| => f(x[i]))
  }

  /** The blame passed back through one unit of a leaky rectifier whose activation was `a`. */
  function LeakyGate(a: real, blame: real): real
  {
    if a == 0.0 then 0.0 else if a < 0.0 then blame * 0.01 else blame
  }

  /** The blame passed back through one unit of tanh whose activation was `a`. */
  function TanhGate(a: real, blame: real): real
  {
    blame * (1.0 - a * a)
  }

  /** The rectifier keeps the sign of its input, so it can be undone. */
  lemma LeakyInvertible(v: real)
    ensures (Leaky(v) == 0.0 <==> v == 0.0) && (Leaky(v) < 0.0 <==> v < 0.0)
    ensures v == if Leaky(v) >= 0.0 then Leaky(v) else 100.0 * Leaky(v)
  {
  }

  /**
   * The blame passed back through the rectifier is the blame times the
   * rectifier's slope at the input (1 above zero, 0.01 below), and 0 at zero.
   */
  lemma LeakyGateIsSlope(v: real, blame: real)
    ensures LeakyGate(Leaky(v), blame) == blame * (if v > 0.0 then 1.0 else if v < 0.0 then 0.01 else 0.0)
  {
    LeakyInvertible(v);
  }

  /** Through a tanh activation strictly inside (-1, 1), the blame keeps its sign and only vanishes when it was 0. */
  lemma TanhGateKeepsSign(a: real, blame: real)
    requires -1.0 < a < 1.0
    ensures TanhGate(a, blame) * blame >= 0.0
    ensures TanhGate(a, blame) == 0.0 <==> blame == 0.0
  {
    assert 1.0 - a * a > 0.0 by {
      if a >= 0.0 {
        assert a * a <= a * 1.0;
      } else {
        assert a * a <= (-a) * 1.0;
      }
    }
    var c := 1.0 - a * a;
    assert TanhGate(a, blame) * blame == c * (blame * blame);
    if blame != 0.0 {
      assert blame * blame > 0.0;
      assert c * (blame * blame) > 0.0;
    }
  }

  class LeakyRectifierLayer {
    const base: Layer

    /** `LeakyRectifierLayer(inputs)`: as many outputs as inputs. */
    constructor (inputs: nat)
      ensures fresh(base) && base.kind == LeakyRectifier && !base.connected
      ensures base.inputs == inputs && base.outputs == inputs
      ensures base.activation == Constant(inputs, 0.0) && base.blame == Constant(inputs, 0.0)
    {
      base := new Layer(LeakyRectifier, false, inputs, inputs);
    }

    /** `copy()`: a fresh layer of the same size. */
    method Copy() returns (c: LeakyRectifierLayer)
      ensures fresh(c) && fresh(c.base) && c.base.kind == LeakyRectifier && !c.base.connected
      ensures c.base.inputs == base.inputs && c.base.outputs == base.inputs
    {
      c := new LeakyRectifierLayer(base.inputs);
    }

    /** `activate(x)`: the rectified inputs become the activation; the blame is kept. */
    method Activate(x: seq<real>) returns (y: seq<real>)
      modifies base
      ensures y == Mapped(x, Leaky) && base.activation == y && base.blame == old(base.blame)
    {
      y := Mapped(x, Leaky);
      base.SetActivation(y);
    }

    /**
     * `backPropagate()`: for each of the `inputs` units, the blame gated by the
     * activation; a blame or activation shorter than `inputs` is read past its end.
     */
    method BackPropagate() returns (r: Result<seq<real>>)
      ensures r.Err? <==> |base.blame| < base.inputs || |base.activation| < base.inputs
      ensures r.Err? ==> r.error == IndexOutOfBounds
      ensures r.Ok? ==> |r.value| == base.inputs
      ensures r.Ok? ==> forall i :: 0 <= i < base.inputs ==> r.value[i] == LeakyGate(base.activation[i], base.blame[i])
    {
      var n := base.inputs;
      var result := Constant(n, 0.0);
      var i := 0;
      while i < n
        invariant 0 <= i <= n && |result| == n
        invariant i <= |base.blame| && i <= |base.activation|
        invariant forall k :: 0 <= k < i ==> result[k] == LeakyGate(base.activation[k], base.blame[k])
      {
        if i >= |base.blame| || i >= |base.activation| {
          return Err(IndexOutOfBounds);
        }
        var newValue := base.blame[i];
        if base.activation[i] == 0.0 {
          newValue := 0.0;
        } else if base.activation[i] < 0.0 {
          newValue := newValue * 0.01;
        }
        result := result[i := newValue];
        i := i + 1;
      }
      return Ok(result);
    }
  }

  class TanhLayer {
    const base: Layer
    /** `Math::tanh`, supplied by the caller: the model does not define it. */
    const tanh: real -> real

    /** `TanhLayer(inputs)` (also the root package's `LayerTanh`): as many outputs as inputs. */
    constructor (inputs: nat, tanh: real -> real)
      ensures fresh(base) && base.kind == Tanh && !base.connected && this.tanh == tanh
      ensures base.inputs == inputs && base.outputs == inputs
      ensures base.activation == Constant(inputs, 0.0) && base.blame == Constant(inputs, 0.0)
    {
      base := new Layer(Tanh, false, inputs, inputs);
      this.tanh := tanh;
    }

    /** `copy()`: a fresh layer of the same size. */
    method Copy() returns (c: TanhLayer)
      ensures fresh(c) && fresh(c.base) && c.base.kind == Tanh && !c.base.connected && c.tanh == tanh
      ensures c.base.inputs == base.inputs && c.base.outputs == base.inputs
    {
      c := new TanhLayer(base.inputs, tanh);
    }

    /** `activate(x)`: tanh of each input becomes the activation; the blame is kept. */
    method Activate(x: seq<real>) returns (y: seq<real>)
      modifies base
      ensures y == Mapped(x, tanh) && base.activation == y && base.blame == old(base.blame)
    {
      y := Mapped(x, tanh);
      base.SetActivation(y);
    }

    /**
     * `backPropagate()`: one entry per blame entry, the blame times
     * `1 - activation^2`; an activation shorter than the blame is read past its end.
     */
    method BackPropagate() returns (r: Result<seq<real>>)
      ensures r.Err? <==> |base.activation| < |base.blame|
      ensures r.Err? ==> r.error == IndexOutOfBounds
      ensures r.Ok? ==> |r.value| == |base.blame|
      ensures r.Ok? ==> forall i :: 0 <= i < |base.blame| ==> r.value[i] == TanhGate(base.activation[i], base.blame[i])
    {
      var n := |base.blame|;
      var previousBlame := Constant(n, 0.0);
      var i := 0;
      while i < n
        invariant 0 <= i <= n && |previousBlame| == n && i <= |base.activation|
        invariant forall k :: 0 <= k < i ==> previousBlame[k] == TanhGate(base.activation[k], base.blame[k])
      {
        if i >= |base.activation| {
          return Err(IndexOutOfBounds);
        }
        var newValue := base.blame[i] * (1.0 - base.activation[i] * base.activation[i]);
        previousBlame := previousBlame[i := newValue];
        i := i + 1;
      }
      return Ok(previousBlame);
    }
  }
}
