/**
 * The sliding-window product-sum that both the convolutional forward pass and
 * its backward pass are built from (src/neural_network/utils/ConvoluteFunction.h).
 * The filters slide with stride 1 over height and width; every filter becomes
 * one output channel.
 */
module ConvoluteFunction {
  import opened Tensors

  /**
   * The window sum at output position (b, i, k) for filter f:
   * the sum over dh < fh, dw < fw, c < channels of in[b][i+dh][k+dw][c] * filt[f][dh][dw][c].
   */
  function ConvCell(inputs: Tensor, filters: Tensor, b: int, i: int, k: int, f: int): int
    requires |filters.shape| == 4
  {
    Sum(filters.shape[1], dh =>
      Sum(filters.shape[2], dw =>
        Sum(filters.shape[3], c =>
          At4(inputs, b, i + dh, k + dw, c) * At4(filters, f, dh, dw, c))))
  }

  /** No output position exists, so the loops assign nothing. */
  predicate NoCells(outputsShape: seq<nat>)
    requires |outputsShape| == 4
  {
    outputsShape[1] == 0 || outputsShape[2] == 0
  }

  /**
   * What the loops need of their arguments: the windows stay inside the input,
   * the input and filter channels align, and every window sum (one per batch
   * element and filter) lands on an output cell of matching batch and channel extent.
   */
  predicate ConvolutionFits(inputs: Tensor, filters: Tensor, outputsShape: seq<nat>)
  {
    && inputs.Is4() && filters.Is4() && |outputsShape| == 4
    && (NoCells(outputsShape) || CellsFit(inputs, filters, outputsShape))
  }

  predicate CellsFit(inputs: Tensor, filters: Tensor, outputsShape: seq<nat>)
    requires inputs.Is4() && filters.Is4() && |outputsShape| == 4
  {
    && outputsShape[0] == inputs.shape[0]
    && outputsShape[3] == filters.shape[0]
    && filters.shape[3] == inputs.shape[3]
    && outputsShape[1] + filters.shape[1] <= inputs.shape[1] + 1
    && outputsShape[2] + filters.shape[2] <= inputs.shape[2] + 1
  }

  /** The result of `convolute` as a value. */
  function ConvoluteSpec(inputs: Tensor, filters: Tensor, outputsShape: seq<nat>): (r: Tensor)
    requires ConvolutionFits(inputs, filters, outputsShape)
    ensures r.Is4() && r.shape == outputsShape
  {
    Build4(outputsShape, (b, i, k, f) => ConvCell(inputs, filters, b, i, k, f))
  }

  /**
   * The nested i/k loops of `convolute`: each (i, k) position is assigned once,
   * for every batch element and filter at the same time.
   */
  method Convolute(inputs: Tensor, filters: Tensor, outputsShape: seq<nat>) returns (outputs: Tensor)
    requires ConvolutionFits(inputs, filters, outputsShape)
    ensures outputs.Is4() && outputs.shape == outputsShape
    ensures forall b, i, k, f | In4(outputsShape, b, i, k, f) ::
      At4(outputs, b, i, k, f) == ConvCell(inputs, filters, b, i, k, f)
    ensures outputs == ConvoluteSpec(inputs, filters, outputsShape)
  {
    var o := new int[outputsShape[0], outputsShape[1], outputsShape[2], outputsShape[3]];
    var i := 0;
    while i < outputsShape[1]
      invariant 0 <= i <= outputsShape[1]
      invariant forall b, i', k, f | In4(outputsShape, b, i', k, f) && i' < i ::
        o[b, i', k, f] == ConvCell(inputs, filters, b, i', k, f)
    {
      var k := 0;
      while k < outputsShape[2]
        invariant 0 <= k <= outputsShape[2]
        invariant forall b, i', k', f | In4(outputsShape, b, i', k', f) && (i' < i || (i' == i && k' < k)) ::
          o[b, i', k', f] == ConvCell(inputs, filters, b, i', k', f)
      {
        forall b, f | 0 <= b < o.Length0 && 0 <= f < o.Length3 {
          o[b, i, k, f] := ConvCell(inputs, filters, b, i, k, f);
        }
        k := k + 1;
      }
      i := i + 1;
    }
    outputs := FromArray4(o);
    var spec := ConvoluteSpec(inputs, filters, outputsShape);
    forall b, i, k, f | In4(outputsShape, b, i, k, f)
      ensures At4(outputs, b, i, k, f) == At4(spec, b, i, k, f)
    {
      At4Build4(outputsShape, (b, i, k, f) => ConvCell(inputs, filters, b, i, k, f), b, i, k, f);
    }
    Ext4(outputs, spec);
  }

  /**
   * When the output is no taller than `in height - fh + 1` and no wider than
   * `in width - fw + 1`, every element a window reads lies inside the input:
   * the sum never reads the zero that lies outside.
   */
  lemma WindowInside(inputs: Tensor, filters: Tensor, outputsShape: seq<nat>,
                     b: int, i: int, k: int, f: int, dh: int, dw: int, c: int)
    requires ConvolutionFits(inputs, filters, outputsShape)
    requires In4(outputsShape, b, i, k, f)
    requires 0 <= dh < filters.shape[1] && 0 <= dw < filters.shape[2] && 0 <= c < filters.shape[3]
    ensures In4(inputs.shape, b, i + dh, k + dw, c)
    ensures In4(filters.shape, f, dh, dw, c)
  {
  }
}
