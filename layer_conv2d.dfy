/**
 * The 2-D convolutional layer (src/neural_network/layers/LayerConv2D.cpp):
 * filters of shape [filters, kernel height, kernel width, channels], one bias
 * per filter, stride 1, Valid or Same padding. The activation is left out,
 * so forward is the affine map and the derivative is 1.
 */
module LayerConv2D {
  import opened Tensors
  import opened LayerTypes
  import opened ConvoluteFunction

  datatype Padding = Valid | Same

  /** The shape of `xt::pad(t, pads)`: axis j grows by both pad widths of entry j. */
  function PaddedShape(s: seq<nat>, pads: seq<(nat, nat)>): seq<nat>
    requires |s| == 4 && |pads| >= 4
  {
    [s[0] + pads[0].0 + pads[0].1, s[1] + pads[1].0 + pads[1].1,
     s[2] + pads[2].0 + pads[2].1, s[3] + pads[3].0 + pads[3].1]
  }

  function PadCells(t: Tensor, pads: seq<(nat, nat)>): (int, int, int, int) -> int
    requires |pads| >= 4
  {
    (b, i, k, c) => At4(t, b - pads[0].0, i - pads[1].0, k - pads[2].0, c - pads[3].0)
  }

  /**
   * `xt::pad(t, pads)` with zeros: the element at (b, i, k, c) of the result
   * is the element of `t` shifted back by the leading pad widths, or 0 in
   * the border. Only the first four entries of `pads` are read, one per axis.
   */
  function Pad(t: Tensor, pads: seq<(nat, nat)>): (r: Tensor)
    requires t.Is4() && |pads| >= 4
    ensures r.Is4() && r.shape == PaddedShape(t.shape, pads)
  {
    Build4(PaddedShape(t.shape, pads), PadCells(t, pads))
  }

  /** The shape with the batch and channel axes exchanged. */
  function SwapShape(s: seq<nat>): seq<nat>
    requires |s| == 4
  {
    [s[3], s[1], s[2], s[0]]
  }

  function SwapCells(t: Tensor): (int, int, int, int) -> int
  {
    (a, i, k, d) => At4(t, d, i, k, a)
  }

  /** `xt::swapaxes(t, 0, 3)`. */
  function SwapAxes(t: Tensor): (r: Tensor)
    requires t.Is4()
    ensures r.Is4() && r.shape == SwapShape(t.shape)
  {
    Build4(SwapShape(t.shape), SwapCells(t))
  }

  function BiasCells(t: Tensor, biases: Tensor): (int, int, int, int) -> int
  {
    (b, i, k, f) => At4(t, b, i, k, f) + At1(biases, f)
  }

  /** `t + biases`: the bias of filter f is added along the channel axis. */
  function AddBiases(t: Tensor, biases: Tensor): (r: Tensor)
    requires t.Is4()
    ensures r.Is4() && r.shape == t.shape
  {
    Build4(t.shape, BiasCells(t, biases))
  }

  /** `xt::sum(deltas, {0, 1, 2})`: one sum per channel. */
  function ChannelSums(d: Tensor): (r: Tensor)
    requires d.Is4()
    ensures r.Valid() && r.shape == [d.shape[3]]
  {
    Build1(d.shape[3], f => Sum(d.shape[0], b => Sum(d.shape[1], i => Sum(d.shape[2], k => At4(d, b, i, k, f)))))
  }

  class LayerConv2D {
    const addr: Addr
    const filtersNumber: nat
    const kernelHeight: nat
    const kernelWidth: nat
    const padding: Padding
    var filters: Tensor
    var biases: Tensor
    var pads: seq<(nat, nat)>
    var outputsShape: seq<nat>
    /** The input shape of every `build` so far. */
    ghost var builds: seq<seq<nat>>

    /** The biases exist from construction on, one per filter. */
    predicate Valid()
      reads this
    {
      biases.Valid() && biases.shape == [filtersNumber]
    }

    constructor (addr: Addr, filtersNumber: nat, kernelHeight: nat, kernelWidth: nat, padding: Padding)
      ensures this.addr == addr && this.filtersNumber == filtersNumber && this.padding == padding
      ensures this.kernelHeight == kernelHeight && this.kernelWidth == kernelWidth
      ensures Valid() && filters.shape == [] && pads == [] && outputsShape == [] && builds == []
    {
      this.addr := addr;
      this.filtersNumber := filtersNumber;
      this.kernelHeight := kernelHeight;
      this.kernelWidth := kernelWidth;
      this.padding := padding;
      filters := Scalar(0);
      pads := [];
      outputsShape := [];
      builds := [];
      new;
      biases := RandomTensor([filtersNumber]);
    }

    /** The pad widths of height and width: kernel - 1 for Valid, half of it for Same. */
    function PadWidths(): (nat, nat)
    {
      match padding
      case Valid => (SizeSub(kernelHeight, 1), SizeSub(kernelWidth, 1))
      case Same => (SizeSub(kernelHeight, 1) / 2, SizeSub(kernelWidth, 1) / 2)
    }

    /** The four entries one `build` appends to `pads`. */
    function PadsFor(): seq<(nat, nat)>
    {
      var (ph, pw) := PadWidths();
      [(0, 0), (ph, ph), (pw, pw), (0, 0)]
    }

    /**
     * `pads` as the builds leave it: whole groups of four, one per `build`,
     * the first of which is the group `xt::pad` reads.
     */
    predicate PadsLaidOut(p: seq<(nat, nat)>)
    {
      |p| % 4 == 0 && (|p| >= 4 ==> p[..4] == PadsFor())
    }

    /** One more `build` keeps the groups whole and the first group in place. */
    lemma PadsLaidOutAppend(p: seq<(nat, nat)>)
      ensures PadsLaidOut(p + PadsFor()) == PadsLaidOut(p)
    {
      if |p| >= 4 {
        assert (p + PadsFor())[..4] == p[..4];
      } else if |p| == 0 {
        assert p + PadsFor() == PadsFor();
      }
    }

    /** The shape after `build`: Valid shrinks height and width on `size_t`, channels become the filter count. */
    function OutShape(shape: seq<nat>): seq<nat>
      requires |shape| == 4
    {
      match padding
      case Valid => [shape[0], SizeSub(shape[1], PadWidths().0), SizeSub(shape[2], PadWidths().1), filtersNumber]
      case Same => [shape[0], shape[1], shape[2], filtersNumber]
    }

    /** The state `build(shape)` leaves behind. */
    predicate BuiltFor(shape: seq<nat>)
      reads this
    {
      && |shape| == 4
      && filters.Is4() && filters.shape == [filtersNumber, kernelHeight, kernelWidth, shape[3]]
      && outputsShape == OutShape(shape)
      && |pads| >= 4 && pads[|pads| - 4..] == PadsFor()
    }

    method Build(shape: seq<nat>) returns (shape': seq<nat>)
      requires |shape| == 4
      modifies this
      ensures BuiltFor(shape) && shape' == OutShape(shape)
      ensures pads == old(pads) + PadsFor()
      ensures biases == old(biases) && builds == old(builds) + [shape]
    {
      filters := RandomTensor([filtersNumber, kernelHeight, kernelWidth, shape[3]]);
      pads := pads + [(0, 0)];
      var ph, pw := 0, 0;
      shape' := shape;
      match padding {
        case Valid =>
          ph := SizeSub(kernelHeight, 1);
          pw := SizeSub(kernelWidth, 1);
          shape' := shape'[1 := SizeSub(shape'[1], ph)];
          shape' := shape'[2 := SizeSub(shape'[2], pw)];
        case Same =>
          ph := SizeSub(kernelHeight, 1) / 2;
          pw := SizeSub(kernelWidth, 1) / 2;
      }
      pads := pads + [(ph, ph), (pw, pw), (0, 0)];
      shape' := shape'[3 := filtersNumber];
      outputsShape := shape';
      builds := builds + [shape];
    }

    /**
     * With Valid padding and a kernel no taller than the input, height
     * shrinks by kernel - 1 (likewise width); a taller kernel wraps around
     * below zero. With Same padding height and width stay.
     */
    lemma OutShapeArithmetic(shape: seq<nat>)
      requires |shape| == 4 && shape[1] < SizeModulus && shape[2] < SizeModulus
      requires kernelHeight < SizeModulus && kernelWidth < SizeModulus
      ensures padding == Padding.Valid && 1 <= kernelHeight <= shape[1] + 1 ==> OutShape(shape)[1] == shape[1] - (kernelHeight - 1)
      ensures padding == Padding.Valid && 1 <= kernelWidth <= shape[2] + 1 ==> OutShape(shape)[2] == shape[2] - (kernelWidth - 1)
      ensures padding == Padding.Valid && shape[1] + 1 < kernelHeight ==>
        OutShape(shape)[1] == SizeModulus - (kernelHeight - 1 - shape[1])
      ensures padding == Padding.Same ==> OutShape(shape)[1..3] == shape[1..3]
      ensures OutShape(shape)[0] == shape[0] && OutShape(shape)[3] == filtersNumber
    {
    }

    /** The tensor the forward convolution reads: the input, zero-padded with `pads` for Same. */
    function Source(inputs: Tensor): (r: Tensor)
      requires inputs.Is4() && (padding == Padding.Same ==> |pads| >= 4)
      reads this
      ensures r.Is4()
    {
      if padding == Padding.Same then Pad(inputs, pads) else inputs
    }

    predicate ForwardOk(inputs: Tensor)
      reads this
    {
      && Valid() && inputs.Is4() && |outputsShape| == 4 && outputsShape[3] == filtersNumber
      && (padding == Padding.Same ==> |pads| >= 4)
      && ConvolutionFits(Source(inputs), filters, outputsShape[0 := inputs.shape[0]])
    }

    function ForwardSpec(inputs: Tensor): (r: Tensor)
      requires ForwardOk(inputs)
      reads this
      ensures r.Is4() && r.shape == outputsShape[0 := inputs.shape[0]]
    {
      AddBiases(ConvoluteSpec(Source(inputs), filters, outputsShape[0 := inputs.shape[0]]), biases)
    }

    /** `forward`: the output keeps the input's batch size and takes its other axes from `outputs_shape`. */
    method Forward(inputs: Tensor) returns (outputs: Tensor)
      requires ForwardOk(inputs)
      ensures outputs == ForwardSpec(inputs)
      ensures outputs.shape == outputsShape[0 := inputs.shape[0]]
    {
      var shape := outputsShape[0 := inputs.shape[0]];
      var src := if padding == Padding.Same then Pad(inputs, pads) else inputs;
      var linear := Convolute(src, filters, shape);
      outputs := AddBiases(linear, biases);
    }

    /**
     * Built for `shape` with Valid padding, a kernel that fits the input and
     * no wrap-around, the layer accepts every input whose axes after the
     * batch are those of `shape`, and keeps its batch.
     */
    lemma ForwardFits(shape: seq<nat>, x: Tensor)
      requires Valid() && BuiltFor(shape) && padding == Padding.Valid
      requires 1 <= kernelHeight <= shape[1] + 1 && 1 <= kernelWidth <= shape[2] + 1
      requires shape[1] < SizeModulus && shape[2] < SizeModulus && kernelHeight < SizeModulus && kernelWidth < SizeModulus
      requires x.Valid() && |x.shape| == |shape| && x.shape == shape[0 := x.shape[0]]
      ensures ForwardOk(x) && ForwardSpec(x).shape == OutShape(shape)[0 := x.shape[0]]
    {
      assert x.Is4();
      assert CellsFit(x, filters, outputsShape[0 := x.shape[0]]);
    }

    /**
     * `tape[this]` holds this layer's input, the deltas (after the derivative)
     * have one channel per filter, and both convolutions of `backward` fit.
     */
    predicate BackwardOk(tape: Tape, outputs: Tensor, deltas: Tensor)
      reads this
    {
      && addr in tape && tape[addr].Is4() && filters.Is4() && |pads| >= 4
      && DerivativeBroadcasts(deltas, outputs)
      && var x, d := tape[addr], ScaleByDerivative(deltas, outputs);
      && d.Is4() && d.shape[3] == filters.shape[0]
      && ConvolutionFits(SwapAxes(x), SwapAxes(d), SwapShape(filters.shape))
      && ConvolutionFits(Pad(d, pads), SwapAxes(filters), x.shape)
    }

    /**
     * Built as in `ForwardFits`, with the pads `build` laid out, the layer's
     * `backward` accepts its recorded input of the built shape, at any batch,
     * together with deltas of its output shape at that batch, whatever
     * outputs broadcast into them.
     */
    lemma BackwardFits(shape: seq<nat>, n: nat, tape: Tape, outputs: Tensor, deltas: Tensor)
      requires Valid() && BuiltFor(shape) && PadsLaidOut(pads) && padding == Padding.Valid
      requires 1 <= kernelHeight <= shape[1] + 1 && 1 <= kernelWidth <= shape[2] + 1
      requires shape[1] < SizeModulus && shape[2] < SizeModulus && kernelHeight < SizeModulus && kernelWidth < SizeModulus
      requires addr in tape && tape[addr].Valid() && tape[addr].shape == shape[0 := n]
      requires deltas.Valid() && deltas.shape == OutShape(shape)[0 := n]
      requires outputs.Valid() && BroadcastsInto(outputs.shape, deltas.shape)
      ensures BackwardOk(tape, outputs, deltas)
    {
      var x, d := tape[addr], ScaleByDerivative(deltas, outputs);
      assert d == deltas;
      assert pads[..4] == PadsFor();
      assert pads[0] == (0, 0) && pads[1] == (kernelHeight - 1, kernelHeight - 1) by {
        assert pads[0] == pads[..4][0] && pads[1] == pads[..4][1];
      }
      assert pads[2] == (kernelWidth - 1, kernelWidth - 1) && pads[3] == (0, 0) by {
        assert pads[2] == pads[..4][2] && pads[3] == pads[..4][3];
      }
      assert CellsFit(SwapAxes(x), SwapAxes(d), SwapShape(filters.shape));
      assert CellsFit(Pad(d, pads), SwapAxes(filters), x.shape);
    }

    function BackwardSpec(tape: Tape, gradients: GradientMap, outputs: Tensor, deltas: Tensor): (r: BackwardResult)
      requires BackwardOk(tape, outputs, deltas)
      reads this
    {
      var x, d := tape[addr], ScaleByDerivative(deltas, outputs);
      var weightsGradient := SwapAxes(ConvoluteSpec(SwapAxes(x), SwapAxes(d), SwapShape(filters.shape)));
      var g := Insert(Insert(gradients, GradKey(addr, Weights), weightsGradient), GradKey(addr, Biases), ChannelSums(d));
      BackwardResult(x, ConvoluteSpec(Pad(d, pads), SwapAxes(filters), x.shape), g)
    }

    /**
     * `backward`: the weight gradient is the convolution of the input with the
     * deltas (batch and channel axes exchanged on both), the bias gradient sums
     * the deltas per filter, and the new deltas convolve the padded deltas
     * with the exchanged filters.
     */
    method Backward(tape: Tape, gradients: GradientMap, outputs: Tensor, deltas: Tensor) returns (r: BackwardResult)
      requires BackwardOk(tape, outputs, deltas)
      ensures r == BackwardSpec(tape, gradients, outputs, deltas)
      ensures r.outputs == tape[addr]
      ensures r.deltas.Is4() && r.deltas.shape == tape[addr].shape
      ensures r.gradients.Keys == gradients.Keys + ParamKeys(addr)
      ensures forall k | k in gradients :: r.gradients[k] == gradients[k]
      ensures GradKey(addr, Weights) !in gradients ==>
        r.gradients[GradKey(addr, Weights)].Is4() && r.gradients[GradKey(addr, Weights)].shape == filters.shape
      ensures GradKey(addr, Biases) !in gradients ==>
        r.gradients[GradKey(addr, Biases)].Valid() && r.gradients[GradKey(addr, Biases)].shape == [filters.shape[0]]
    {
      var x := tape[addr];
      var d := ScaleByDerivative(deltas, outputs);
      var transposedWeightsGradient := Convolute(SwapAxes(x), SwapAxes(d), SwapShape(filters.shape));
      var weightsGradient := SwapAxes(transposedWeightsGradient);
      var biasesGradient := ChannelSums(d);
      var g := Insert(gradients, GradKey(addr, Weights), weightsGradient);
      g := Insert(g, GradKey(addr, Biases), biasesGradient);
      var newDeltas := Convolute(Pad(d, pads), SwapAxes(filters), x.shape);
      r := BackwardResult(x, newDeltas, g);
    }
  }
}
