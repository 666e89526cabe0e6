// com.jace.layer.Layer: what every layer keeps (its sizes, the activation it
// last produced and the blame it was last given), the layer kinds, and the
// one-line description a network prints. The root package's layers that call
// `getBlame` and `getInputs` use this same base.
module Layers {
  import opened Numeric
  import opened Formatting

  datatype LayerType = Linear | Tanh | LeakyRectifier | Convolution | Assignment5 | Assignment5Activation | MaxPooling2D

  /** The enum constant's name, as `toString` renders it. */
  function TypeName(t: LayerType): string
  {
    match t
    case Linear => "LINEAR"
    case Tanh => "TANH"
    case LeakyRectifier => "LEAKY_RECTIFIER"
    case Convolution => "CONVOLUTION"
    case Assignment5 => "ASSIGNMENT_5"
    case Assignment5Activation => "ASSIGNMENT_5_ACTIVATION"
    case MaxPooling2D => "MAX_POOLING_2D"
  }

  class Layer {
    const kind: LayerType
    /** Whether the layer is a `LinearLayer`: only those count their weights in the description. */
    const connected: bool
    const inputs: nat
    const outputs: nat
    var activation: seq<real>
    var blame: seq<real>

    /** `Layer(inputs, outputs)`: activation and blame start as `outputs` zeros. */
    constructor (kind: LayerType, connected: bool, inputs: nat, outputs: nat)
      ensures this.kind == kind && this.connected == connected
      ensures this.inputs == inputs && this.outputs == outputs
      ensures activation == Constant(outputs, 0.0) && blame == Constant(outputs, 0.0)
    {
      this.kind := kind;
      this.connected := connected;
      this.inputs := inputs;
      this.outputs := outputs;
      activation := Constant(outputs, 0.0);
      blame := Constant(outputs, 0.0);
    }

    /** `setActivation`: the activation is replaced; the blame is kept. */
    method SetActivation(v: seq<real>)
      modifies this
      ensures activation == v && blame == old(blame)
    {
      activation := v;
    }

    /** `setBlame`: the blame is replaced; the activation is kept. */
    method SetBlame(v: seq<real>)
      modifies this
      ensures blame == v && activation == old(activation)
    {
      blame := v;
    }

    /** The weight count printed in the description: `inputs * outputs + outputs` for a linear layer, else 0. */
    function WeightCount(): nat
    {
      if connected then inputs * outputs + outputs else 0
    }

    /** `topologyString()`: `[NAME: inputs->outputs, Weights=count]`. */
    function TopologyString(): string
    {
      Topology(kind, inputs, outputs, WeightCount())
    }
  }

  function Topology(kind: LayerType, inputs: nat, outputs: nat, weights: nat): (s: string)
    ensures |s| > 0 && s[0] == '[' && s[|s| - 1] == ']'
  {
    "[" + TypeName(kind) + (": " + (Decimal(inputs) + ("->" + (Decimal(outputs) + (", Weights=" + (Decimal(weights) + "]"))))))
  }

  /** The description of a layer names its kind, its sizes and its weight count: equal descriptions mean equal values. */
  lemma TopologyIdentifies(k: LayerType, i: nat, o: nat, w: nat, k': LayerType, i': nat, o': nat, w': nat)
    requires Topology(k, i, o, w) == Topology(k', i', o', w')
    ensures k == k' && i == i' && o == o' && w == w'
  {
    var last, last' := Digits(w) + "]", Digits(w') + "]";
    var third, third' := Digits(o) + (", Weights=" + last), Digits(o') + (", Weights=" + last');
    var second, second' := Digits(i) + ("->" + third), Digits(i') + ("->" + third');
    NoColonInName(k);
    NoColonInName(k');
    NameThenText(TypeName(k), TypeName(k'), ": " + second, ": " + second');
    assert second == (": " + second)[2..] == (": " + second')[2..] == second';
    DigitsThenText(i, i', "->" + third, "->" + third');
    assert third == ("->" + third)[2..] == ("->" + third')[2..] == third';
    DigitsThenText(o, o', ", Weights=" + last, ", Weights=" + last');
    assert last == (", Weights=" + last)[10..] == (", Weights=" + last')[10..] == last';
    DigitsThenText(w, w', "]", "]");
    NamesDiffer(k, k');
  }

  lemma NoColonInName(k: LayerType)
    ensures ':' !in TypeName(k)
  {
    match k
    case Linear =>
    case Tanh =>
    case LeakyRectifier =>
    case Convolution =>
    case Assignment5 =>
    case Assignment5Activation =>
    case MaxPooling2D =>
  }

  /** A type name followed by text starting with ':' splits at the ':'. */
  lemma NameThenText(n: string, n': string, s: string, t: string)
    requires ':' !in n && ':' !in n'
    requires |s| > 0 && |t| > 0 && s[0] == ':' && t[0] == ':'
    requires "[" + n + s == "[" + n' + t
    ensures n == n' && s == t
  {
    var w := n + s;
    assert w == ("[" + n + s)[1..] == ("[" + n' + t)[1..] == n' + t;
    assert w[|n|] == ':' && w[|n'|] == ':';
    assert forall j :: 0 <= j < |n| ==> w[j] == n[j];
    assert forall j :: 0 <= j < |n'| ==> w[j] == n'[j];
    assert n == w[..|n|] == n';
    assert s == w[|n|..] == t;
  }

  /** Different layer kinds have different names. */
  lemma NamesDiffer(k: LayerType, k': LayerType)
    requires TypeName(k) == TypeName(k')
    ensures k == k'
  {
  }
}
