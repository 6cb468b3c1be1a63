/**
 * The flatten layer (src/neural_network/layers/LayerFlatten.cpp): keeps the
 * batch axis and folds everything else into one axis. Forward and backward
 * change only a tensor's shape; the row-major data stays as it is.
 */
module LayerFlatten {
  import opened Tensors
  import opened LayerTypes

  class LayerFlatten {
    const addr: Addr
    /** The element count `build` computed, batch axis included. */
    var outputsNumber: nat
    /** The input shape of every `build` so far. */
    ghost var builds: seq<seq<nat>>

    constructor (addr: Addr)
      ensures this.addr == addr && outputsNumber == 0 && builds == []
    {
      this.addr := addr;
      outputsNumber := 0;
      builds := [];
    }

    /** The shape after `build`: batch axis, then the product of the whole input shape. */
    static function OutShape(shape: seq<nat>): seq<nat>
      requires |shape| >= 1
    {
      [shape[0], Product(shape)]
    }

    /** The state `build(shape)` leaves behind. */
    predicate BuiltFor(shape: seq<nat>)
      reads this
    {
      outputsNumber == Product(shape)
    }

    method Build(shape: seq<nat>) returns (shape': seq<nat>)
      requires |shape| >= 1
      modifies this
      ensures BuiltFor(shape) && shape' == OutShape(shape)
      ensures builds == old(builds) + [shape]
    {
      outputsNumber := 1;
      var j := 0;
      while j < |shape|
        invariant 0 <= j <= |shape|
        invariant outputsNumber == Product(shape[..j])
        invariant builds == old(builds)
      {
        ProductSnoc(shape[..j], shape[j]);
        assert shape[..j + 1] == shape[..j] + [shape[j]];
        outputsNumber := outputsNumber * shape[j];
        j := j + 1;
      }
      assert shape[..j] == shape;
      shape' := [shape[0], outputsNumber];
      builds := builds + [shape];
    }

    /** `reshape({batch, outputs_number})` keeps the element count only when it matches. */
    predicate ForwardOk(inputs: Tensor)
      reads this
    {
      inputs.Valid() && |inputs.shape| >= 1 && Product(inputs.shape) == inputs.shape[0] * outputsNumber
    }

    function Forward(inputs: Tensor): (outputs: Tensor)
      requires ForwardOk(inputs)
      reads this
      ensures outputs.Is2() && outputs.shape == [inputs.shape[0], outputsNumber]
      ensures outputs.data == inputs.data
    {
      assert Product([inputs.shape[0], outputsNumber]) == inputs.shape[0] * outputsNumber by {
        ProductOfTwo(inputs.shape[0], outputsNumber);
      }
      Tensor([inputs.shape[0], outputsNumber], inputs.data)
    }

    /**
     * `tape[this]` must already hold this layer's input, and `deltas` must have
     * as many elements as that input.
     */
    predicate BackwardOk(tape: Tape, deltas: Tensor)
    {
      addr in tape && tape[addr].Valid() && deltas.Valid() && |deltas.data| == |tape[addr].data|
    }

    /** The reshape of `deltas` back to the recorded input shape; no gradient. */
    function Backward(tape: Tape, gradients: GradientMap, outputs: Tensor, deltas: Tensor): (r: BackwardResult)
      requires BackwardOk(tape, deltas)
      ensures r.outputs == tape[addr]
      ensures r.deltas.Valid() && r.deltas.shape == tape[addr].shape && r.deltas.data == deltas.data
      ensures r.gradients == gradients
    {
      BackwardResult(tape[addr], Tensor(tape[addr].shape, deltas.data), gradients)
    }

    /**
     * Backward undoes forward: deltas shaped like this layer's output come back
     * shaped like the input that the tape recorded, element for element.
     */
    lemma ForwardBackwardRoundTrip(tape: Tape, gradients: GradientMap, outputs: Tensor, x: Tensor)
      requires ForwardOk(x) && addr in tape && tape[addr] == x
      ensures BackwardOk(tape, Forward(x))
      ensures Backward(tape, gradients, outputs, Forward(x)).deltas == x
    {
    }

    /**
     * Built for a batch of one, a flatten layer accepts any batch of inputs
     * whose other axes match, and keeps that batch.
     */
    lemma ForwardFits(shape: seq<nat>, x: Tensor)
      requires |shape| >= 1 && shape[0] == 1 && BuiltFor(shape)
      requires x.Valid() && |x.shape| == |shape| && x.shape[1..] == shape[1..]
      ensures ForwardOk(x) && Forward(x).shape == [x.shape[0], Product(shape[1..])]
    {
    }
  }
}
