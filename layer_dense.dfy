/**
 * The fully connected layer (src/neural_network/layers/LayerDense.cpp):
 * weights of shape [outputs, inputs], biases of length outputs. The
 * activation is left out, so forward is the affine map and the derivative
 * is 1.
 */
module LayerDense {
  import opened Tensors
  import opened LayerTypes

  /** Output `o` of batch row `b`: the row of `weights` times the input row, plus the bias. */
  function Affine(weights: Tensor, biases: Tensor, inputs: Tensor, b: int, o: int): int
    requires |weights.shape| == 2
  {
    Sum(weights.shape[1], j => At2(weights, o, j) * At2(inputs, b, j)) + At1(biases, o)
  }

  class LayerDense {
    const addr: Addr
    const outputsNumber: nat
    var weights: Tensor
    var biases: Tensor
    /** The input shape of every `build` so far. */
    ghost var builds: seq<seq<nat>>

    /** The biases exist from construction on, one per output. */
    predicate Valid()
      reads this
    {
      biases.Valid() && biases.shape == [outputsNumber]
    }

    constructor (addr: Addr, outputsNumber: nat)
      ensures this.addr == addr && this.outputsNumber == outputsNumber
      ensures Valid() && weights.shape == [] && builds == []
    {
      this.addr := addr;
      this.outputsNumber := outputsNumber;
      weights := Scalar(0);
      builds := [];
      new;
      biases := RandomTensor([outputsNumber]);
    }

    /** The shape after `build`: the feature axis becomes the output count. */
    function OutShape(shape: seq<nat>): seq<nat>
      requires |shape| >= 2
    {
      shape[1 := outputsNumber]
    }

    /** The state `build(shape)` leaves behind. */
    predicate BuiltFor(shape: seq<nat>)
      reads this
    {
      |shape| >= 2 && weights.Valid() && weights.shape == [outputsNumber, shape[1]]
    }

    method Build(shape: seq<nat>) returns (shape': seq<nat>)
      requires |shape| >= 2
      modifies this
      ensures BuiltFor(shape) && shape' == OutShape(shape)
      ensures biases == old(biases) && builds == old(builds) + [shape]
    {
      weights := RandomTensor([outputsNumber, shape[1]]);
      shape' := shape[1 := outputsNumber];
      builds := builds + [shape];
    }

    /** `weights * view(inputs, all, newaxis, all)` needs the input width to match the weights. */
    predicate ForwardOk(inputs: Tensor)
      reads this
    {
      Valid() && inputs.Is2() && weights.Is2() &&
      weights.shape[0] == outputsNumber && inputs.shape[1] == weights.shape[1]
    }

    function Forward(inputs: Tensor): (outputs: Tensor)
      requires ForwardOk(inputs)
      reads this
      ensures outputs.Is2() && outputs.shape == [inputs.shape[0], outputsNumber]
      ensures forall b, o | In2(outputs.shape, b, o) ::
        At2(outputs, b, o) == Affine(weights, biases, inputs, b, o)
    {
      var s := [inputs.shape[0], outputsNumber];
      var w, v := weights, biases;
      var f := (b, o) => Affine(w, v, inputs, b, o);
      var t := Build2(s, f);
      assert forall b, o | In2(s, b, o) :: At2(t, b, o) == f(b, o) by {
        forall b, o | In2(s, b, o) ensures At2(t, b, o) == f(b, o) {
          At2Build2(s, f, b, o);
        }
      }
      t
    }

    /**
     * `tape[this]` holds a 2-D input of this layer's width, and the deltas,
     * once multiplied by the derivative, have one row per input row and one
     * column per output.
     */
    predicate BackwardOk(tape: Tape, outputs: Tensor, deltas: Tensor)
      reads this
    {
      addr in tape && tape[addr].Is2() && weights.Is2() && weights.shape[1] == tape[addr].shape[1] &&
      DerivativeBroadcasts(deltas, outputs) &&
      var d := ScaleByDerivative(deltas, outputs);
      d.Is2() && d.shape == [tape[addr].shape[0], weights.shape[0]]
    }

    function Backward(tape: Tape, gradients: GradientMap, outputs: Tensor, deltas: Tensor): (r: BackwardResult)
      requires BackwardOk(tape, outputs, deltas)
      reads this
      ensures r.outputs == tape[addr]
      ensures r.deltas.Is2() && r.deltas.shape == tape[addr].shape
      ensures r.gradients.Keys == gradients.Keys + ParamKeys(addr)
      ensures forall k | k in gradients :: r.gradients[k] == gradients[k]
      ensures GradKey(addr, Weights) !in gradients ==>
        r.gradients[GradKey(addr, Weights)].Is2() && r.gradients[GradKey(addr, Weights)].shape == weights.shape
      ensures GradKey(addr, Biases) !in gradients ==>
        r.gradients[GradKey(addr, Biases)].Valid() && r.gradients[GradKey(addr, Biases)].shape == [weights.shape[0]]
    {
      var x := tape[addr];
      var d := ScaleByDerivative(deltas, outputs);
      var batch := x.shape[0];
      var weightsGradient := Build2(weights.shape, (o, j) => Sum(batch, b => At2(d, b, o) * At2(x, b, j)));
      var biasesGradient := Build1(weights.shape[0], o => Sum(batch, b => At2(d, b, o)));
      var g := Insert(Insert(gradients, GradKey(addr, Weights), weightsGradient), GradKey(addr, Biases), biasesGradient);
      var w := weights;
      var newDeltas := Build2(x.shape, (b, j) => Sum(w.shape[0], o => At2(w, o, j) * At2(d, b, o)));
      BackwardResult(x, newDeltas, g)
    }

    /** A dense layer built for `shape` accepts every 2-D input of that width and yields `OutShape`. */
    lemma ForwardFits(shape: seq<nat>, x: Tensor)
      requires Valid() && BuiltFor(shape) && x.Is2() && x.shape[1] == shape[1]
      ensures ForwardOk(x) && Forward(x).shape == OutShape(x.shape)
    {
    }
  }
}
