/**
 * The 2-D max-pooling layer (src/neural_network/layers/LayerMaxPooling2D.cpp):
 * non-overlapping pool windows of `poolHeight` x `poolWidth`, clipped at the
 * bottom and right edges of the input. It has no trainable variables.
 */
module LayerMaxPooling2D {
  import opened Tensors
  import opened LayerTypes

  /** The pooled extent of one axis, `(d - 1) / p + 1` on `size_t`. */
  function PoolExtent(d: nat, p: nat): nat
    requires p > 0
  {
    SizeAdd(SizeSub(d, 1) / p, 1)
  }

  /** For 1 <= d the pooled extent is the ceiling of d / p: the fewest windows of height p that cover d. */
  lemma PoolExtentIsCeiling(d: nat, p: nat)
    requires p > 0 && 1 <= d < SizeModulus
    ensures PoolExtent(d, p) == (d - 1) / p + 1
    ensures (PoolExtent(d, p) - 1) * p < d <= PoolExtent(d, p) * p
  {
    var q := (d - 1) / p;
    assert d - 1 == q * p + (d - 1) % p;
    MulAtLeast(p, q);
    assert q <= d - 1;
    assert (q + 1) * p == q * p + p;
  }

  function Min(a: int, b: int): int
  {
    if a <= b then a else b
  }

  /** The window of output cell (i, k) starts inside an input of shape `s`. */
  predicate WindowOk(s: seq<nat>, ph: nat, pw: nat, i: int, k: int)
  {
    |s| == 4 && ph > 0 && pw > 0 && 0 <= i && 0 <= k && i * ph < s[1] && k * pw < s[2]
  }

  /** Input position (y, z) belongs to the clipped window of output cell (i, k). */
  predicate InWindow(s: seq<nat>, ph: nat, pw: nat, i: int, k: int, y: int, z: int)
    requires |s| == 4
  {
    i * ph <= y < i * ph + ph && y < s[1] && k * pw <= z < k * pw + pw && z < s[2]
  }

  /** The largest g(y, z) over the row segment y, [c0, c1). */
  function RowMax(g: (int, int) -> int, y: int, c0: int, c1: int): (m: int)
    requires c0 < c1
    ensures forall z | c0 <= z < c1 :: g(y, z) <= m
    ensures exists z | c0 <= z < c1 :: g(y, z) == m
    decreases c1 - c0
  {
    if c0 + 1 == c1 then g(y, c0)
    else
      var rest := RowMax(g, y, c0 + 1, c1);
      if g(y, c0) >= rest then g(y, c0) else rest
  }

  /** The largest g(y, z) over the rectangle [r0, r1) x [c0, c1). */
  function RectMax(g: (int, int) -> int, r0: int, r1: int, c0: int, c1: int): (m: int)
    requires r0 < r1 && c0 < c1
    ensures forall y, z | r0 <= y < r1 && c0 <= z < c1 :: g(y, z) <= m
    ensures exists y, z | r0 <= y < r1 && c0 <= z < c1 :: g(y, z) == m
    decreases r1 - r0
  {
    var first := RowMax(g, r0, c0, c1);
    if r0 + 1 == r1 then first
    else
      var rest := RectMax(g, r0 + 1, r1, c0, c1);
      if first >= rest then first else rest
  }

  /** The (height, width) plane of batch element b and channel c. */
  function Plane(x: Tensor, b: int, c: int): (int, int) -> int
  {
    (y, z) => At4(x, b, y, z, c)
  }

  /** `amax` of the pool window of cell (i, k), for batch element b and channel c. */
  function WindowMax(x: Tensor, ph: nat, pw: nat, b: int, i: int, k: int, c: int): int
    requires WindowOk(x.shape, ph, pw, i, k)
  {
    RectMax(Plane(x, b, c), i * ph, Min(i * ph + ph, x.shape[1]), k * pw, Min(k * pw + pw, x.shape[2]))
  }

  /**
   * The maximum of a window bounds every element of the window and is one of
   * them, so each output cell of `forward` is attained inside its window.
   */
  lemma WindowMaxIsMax(x: Tensor, ph: nat, pw: nat, b: int, i: int, k: int, c: int)
    requires WindowOk(x.shape, ph, pw, i, k)
    ensures forall y, z | InWindow(x.shape, ph, pw, i, k, y, z) :: At4(x, b, y, z, c) <= WindowMax(x, ph, pw, b, i, k, c)
    ensures exists y, z | InWindow(x.shape, ph, pw, i, k, y, z) :: At4(x, b, y, z, c) == WindowMax(x, ph, pw, b, i, k, c)
  {
    var r0, r1 := i * ph, Min(i * ph + ph, x.shape[1]);
    var c0, c1 := k * pw, Min(k * pw + pw, x.shape[2]);
    var g := Plane(x, b, c);
    assert WindowMax(x, ph, pw, b, i, k, c) == RectMax(g, r0, r1, c0, c1);
    forall y, z | InWindow(x.shape, ph, pw, i, k, y, z)
      ensures At4(x, b, y, z, c) <= WindowMax(x, ph, pw, b, i, k, c)
    {
      assert r0 <= y < r1 && c0 <= z < c1;
      assert g(y, z) == At4(x, b, y, z, c);
    }
    var y, z :| r0 <= y < r1 && c0 <= z < c1 && g(y, z) == RectMax(g, r0, r1, c0, c1);
    assert InWindow(x.shape, ph, pw, i, k, y, z);
  }

  /** Output cell (b, i, k, c) of `forward` on `x`, for an output of shape `s`. */
  function ForwardCells(x: Tensor, ph: nat, pw: nat, s: seq<nat>): (int, int, int, int) -> int
  {
    (b, i, k, c) => if In4(s, b, i, k, c) && WindowOk(x.shape, ph, pw, i, k) then WindowMax(x, ph, pw, b, i, k, c) else 0
  }

  /**
   * The two filtrations of `backward` on one element `v` of a window with
   * maximum `max`: below the maximum becomes 0, then positive becomes 1.
   */
  function Mask(v: int, max: int): int
  {
    if v < max then 0 else if v > 0 then 1 else v
  }

  /** Pooled element (b, y, z, c) of the input belongs to a window that the i/k loops visit. */
  predicate Visited(s: seq<nat>, ph: nat, pw: nat, outH: nat, outW: nat, y: int, z: int)
    requires ph > 0 && pw > 0
  {
    0 <= y && 0 <= z && y / ph < outH && z / pw < outW
  }

  /** Element (b, y, z, c) of the deltas `backward` returns. */
  function BackwardCell(x: Tensor, deltas: Tensor, ph: nat, pw: nat, outH: nat, outW: nat,
                        b: int, y: int, z: int, c: int): int
    requires x.Is4() && ph > 0 && pw > 0
  {
    if In4(x.shape, b, y, z, c) && Visited(x.shape, ph, pw, outH, outW, y, z) then
      Mask(At4(x, b, y, z, c), WindowMax(x, ph, pw, b, y / ph, z / pw, c)) * At4(deltas, b, y / ph, z / pw, c)
    else
      At4(x, b, y, z, c)
  }

  function BackwardSpec(x: Tensor, deltas: Tensor, ph: nat, pw: nat, outH: nat, outW: nat): (r: Tensor)
    requires x.Is4() && ph > 0 && pw > 0
    ensures r.Is4() && r.shape == x.shape
  {
    Build4(x.shape, BackwardCells(x, deltas, ph, pw, outH, outW))
  }

  function BackwardCells(x: Tensor, deltas: Tensor, ph: nat, pw: nat, outH: nat, outW: nat): (int, int, int, int) -> int
    requires x.Is4() && ph > 0 && pw > 0
  {
    (b, y, z, c) => BackwardCell(x, deltas, ph, pw, outH, outW, b, y, z, c)
  }

  /** Input row y lies in the window of output row i exactly when y / p == i. */
  lemma InRowWindow(y: int, i: int, p: int)
    requires p > 0 && 0 <= y && 0 <= i
    ensures (i * p <= y < i * p + p) <==> y / p == i
  {
    if i * p <= y < i * p + p {
      DivModOf(i, y - i * p, p);
    }
    if y / p == i {
      assert y == i * p + y % p;
    }
  }

  /**
   * The state of the copy `a` after the loops of `backward` have handled every
   * window before (i, k) in row-major order: those entries are final, all
   * others still hold the recorded input.
   */
  ghost predicate Routed(a: array4<int>, x: Tensor, deltas: Tensor, ph: nat, pw: nat, outH: nat, outW: nat, i: int, k: int)
    requires x.Is4() && ph > 0 && pw > 0
    reads a
  {
    && a.Length0 == x.shape[0] && a.Length1 == x.shape[1] && a.Length2 == x.shape[2] && a.Length3 == x.shape[3]
    && forall b, y, z, c | In4(x.shape, b, y, z, c) ::
         a[b, y, z, c] ==
           (if y / ph < i || (y / ph == i && z / pw < k) then BackwardCell(x, deltas, ph, pw, outH, outW, b, y, z, c)
            else At4(x, b, y, z, c))
  }

  /** One window of `backward`: the two filtrations and the scaling by the window's delta. */
  method RouteWindow(a: array4<int>, x: Tensor, deltas: Tensor, ph: nat, pw: nat, outH: nat, outW: nat, i: nat, k: nat)
    requires x.Is4() && WindowOk(x.shape, ph, pw, i, k) && i < outH && k < outW
    requires Routed(a, x, deltas, ph, pw, outH, outW, i, k)
    modifies a
    ensures Routed(a, x, deltas, ph, pw, outH, outW, i, k + 1)
  {
    var s := x.shape;
    var r0, r1 := i * ph, Min(i * ph + ph, s[1]);
    var c0, c1 := k * pw, Min(k * pw + pw, s[2]);
    forall y | 0 <= y ensures (r0 <= y < r0 + ph) <==> y / ph == i {
      InRowWindow(y, i, ph);
    }
    forall z | 0 <= z ensures (c0 <= z < c0 + pw) <==> z / pw == k {
      InRowWindow(z, k, pw);
    }
    label Before:
    forall b, y, z, c | 0 <= b < s[0] && r0 <= y < r1 && c0 <= z < c1 && 0 <= c < s[3] {
      a[b, y, z, c] := Mask(a[b, y, z, c], WindowMax(x, ph, pw, b, i, k, c)) * At4(deltas, b, i, k, c);
    }
    forall b, y, z, c | In4(s, b, y, z, c)
      ensures a[b, y, z, c] ==
        (if y / ph < i || (y / ph == i && z / pw < k + 1) then BackwardCell(x, deltas, ph, pw, outH, outW, b, y, z, c)
         else At4(x, b, y, z, c))
    {
      if r0 <= y < r1 && c0 <= z < c1 {
        assert y / ph == i && z / pw == k;
        assert old@Before(a[b, y, z, c]) == At4(x, b, y, z, c);
      } else {
        assert a[b, y, z, c] == old@Before(a[b, y, z, c]);
        assert !(y / ph == i && z / pw == k);
      }
    }
  }

  /** Before the loops, no window has been handled and the copy holds the recorded input. */
  lemma RoutedStart(a: array4<int>, x: Tensor, deltas: Tensor, ph: nat, pw: nat, outH: nat, outW: nat)
    requires x.Is4() && ph > 0 && pw > 0
    requires a.Length0 == x.shape[0] && a.Length1 == x.shape[1] && a.Length2 == x.shape[2] && a.Length3 == x.shape[3]
    requires forall b, y, z, c | In4(x.shape, b, y, z, c) :: a[b, y, z, c] == At4(x, b, y, z, c)
    ensures Routed(a, x, deltas, ph, pw, outH, outW, 0, 0)
  {
    forall b, y, z, c | In4(x.shape, b, y, z, c)
      ensures !(y / ph < 0 || (y / ph == 0 && z / pw < 0))
    {
      assert y / ph >= 0 && z / pw >= 0;
    }
  }

  /** After the last row every entry is final. */
  lemma RoutedDone(a: array4<int>, x: Tensor, deltas: Tensor, ph: nat, pw: nat, outH: nat, outW: nat)
    requires x.Is4() && ph > 0 && pw > 0
    requires Routed(a, x, deltas, ph, pw, outH, outW, outH, 0)
    ensures forall b, y, z, c | In4(x.shape, b, y, z, c) :: a[b, y, z, c] == BackwardCell(x, deltas, ph, pw, outH, outW, b, y, z, c)
  {
    forall b, y, z, c | In4(x.shape, b, y, z, c)
      ensures a[b, y, z, c] == BackwardCell(x, deltas, ph, pw, outH, outW, b, y, z, c)
    {
      assert z / pw >= 0;
      if y / ph >= outH {
        assert !Visited(x.shape, ph, pw, outH, outW, y, z);
      }
    }
  }

  /** After the last window of row i, the windows of row i + 1 are next; nothing changes. */
  lemma NextRow(a: array4<int>, x: Tensor, deltas: Tensor, ph: nat, pw: nat, outH: nat, outW: nat, i: nat)
    requires x.Is4() && ph > 0 && pw > 0
    requires Routed(a, x, deltas, ph, pw, outH, outW, i, outW)
    ensures Routed(a, x, deltas, ph, pw, outH, outW, i + 1, 0)
  {
    forall b, y, z, c | In4(x.shape, b, y, z, c)
      ensures a[b, y, z, c] ==
        (if y / ph < i + 1 || (y / ph == i + 1 && z / pw < 0) then BackwardCell(x, deltas, ph, pw, outH, outW, b, y, z, c)
         else At4(x, b, y, z, c))
    {
      RowEndCell(x, deltas, ph, pw, outH, outW, i, b, y, z, c);
    }
  }

  lemma RowEndCell(x: Tensor, deltas: Tensor, ph: nat, pw: nat, outH: nat, outW: nat, i: nat, b: int, y: int, z: int, c: int)
    requires x.Is4() && ph > 0 && pw > 0 && In4(x.shape, b, y, z, c)
    ensures (if y / ph < i || (y / ph == i && z / pw < outW) then BackwardCell(x, deltas, ph, pw, outH, outW, b, y, z, c)
             else At4(x, b, y, z, c))
         == (if y / ph < i + 1 || (y / ph == i + 1 && z / pw < 0) then BackwardCell(x, deltas, ph, pw, outH, outW, b, y, z, c)
             else At4(x, b, y, z, c))
  {
    assert z / pw >= 0;
    if y / ph == i && z / pw >= outW {
      assert !Visited(x.shape, ph, pw, outH, outW, y, z);
    }
  }

  class LayerMaxPooling2D {
    const addr: Addr
    const poolHeight: nat
    const poolWidth: nat
    var outputsShape: seq<nat>
    /** The input shape of every `build` so far. */
    ghost var builds: seq<seq<nat>>

    /** The pool sizes divide in `build`, so they are positive. */
    predicate Valid()
    {
      poolHeight > 0 && poolWidth > 0
    }

    constructor (addr: Addr, poolHeight: nat, poolWidth: nat)
      ensures this.addr == addr && this.poolHeight == poolHeight && this.poolWidth == poolWidth
      ensures outputsShape == [] && builds == []
    {
      this.addr := addr;
      this.poolHeight := poolHeight;
      this.poolWidth := poolWidth;
      outputsShape := [];
      builds := [];
    }

    /** The shape after `build`: height and width pooled, batch and channels kept. */
    function OutShape(shape: seq<nat>): seq<nat>
      requires |shape| == 4 && Valid()
    {
      shape[1 := PoolExtent(shape[1], poolHeight)][2 := PoolExtent(shape[2], poolWidth)]
    }

    /** The state `build(shape)` leaves behind. */
    predicate BuiltFor(shape: seq<nat>)
      reads this
    {
      |shape| == 4 && Valid() && outputsShape == OutShape(shape)
    }

    method Build(shape: seq<nat>) returns (shape': seq<nat>)
      requires |shape| == 4 && Valid()
      modifies this
      ensures BuiltFor(shape) && shape' == OutShape(shape)
      ensures builds == old(builds) + [shape]
    {
      shape' := shape;
      shape' := shape'[1 := SizeAdd(SizeSub(shape'[1], 1) / poolHeight, 1)];
      shape' := shape'[2 := SizeAdd(SizeSub(shape'[2], 1) / poolWidth, 1)];
      outputsShape := shape';
      builds := builds + [shape];
    }

    /** Every window the i/k loops visit starts inside an input of shape `s`. */
    predicate WindowsFit(s: seq<nat>)
      reads this
    {
      |outputsShape| == 4 && |s| == 4 && Valid() &&
      (outputsShape[1] == 0 || outputsShape[2] == 0 ||
       ((outputsShape[1] - 1) * poolHeight < s[1] && (outputsShape[2] - 1) * poolWidth < s[2]))
    }

    predicate ForwardOk(inputs: Tensor)
      reads this
    {
      inputs.Is4() && WindowsFit(inputs.shape) && inputs.shape[3] == outputsShape[3]
    }

    function ForwardSpec(inputs: Tensor): (r: Tensor)
      requires ForwardOk(inputs)
      reads this
      ensures r.Is4() && r.shape == outputsShape[0 := inputs.shape[0]]
    {
      Build4(outputsShape[0 := inputs.shape[0]], ForwardCells(inputs, poolHeight, poolWidth, outputsShape[0 := inputs.shape[0]]))
    }

    /**
     * The i/k loops of `forward`: cell (i, k) of every batch element and
     * channel receives the maximum of its pool window, once.
     */
    method Forward(inputs: Tensor) returns (outputs: Tensor)
      requires ForwardOk(inputs)
      ensures outputs == ForwardSpec(inputs)
      ensures outputs.shape == outputsShape[0 := inputs.shape[0]]
    {
      var s := outputsShape[0 := inputs.shape[0]];
      var cells := ForwardCells(inputs, poolHeight, poolWidth, s);
      var o := new int[s[0], s[1], s[2], s[3]];
      var i := 0;
      while i < s[1]
        invariant 0 <= i <= s[1]
        invariant forall b, i', k', c | In4(s, b, i', k', c) && i' < i :: o[b, i', k', c] == cells(b, i', k', c)
      {
        var k := 0;
        while k < s[2]
          invariant 0 <= k <= s[2]
          invariant forall b, i', k', c | In4(s, b, i', k', c) && (i' < i || (i' == i && k' < k)) ::
            o[b, i', k', c] == cells(b, i', k', c)
        {
          MulMonotone(i, s[1] - 1, poolHeight);
          MulMonotone(k, s[2] - 1, poolWidth);
          forall b, c | 0 <= b < s[0] && 0 <= c < s[3] {
            o[b, i, k, c] := WindowMax(inputs, poolHeight, poolWidth, b, i, k, c);
          }
          k := k + 1;
        }
        i := i + 1;
      }
      FromArrayBuild4(o, s, cells);
      outputs := FromArray4(o);
    }

    /**
     * Built for an input of at least one row and one column (and no more than
     * `size_t` holds), every window the loops visit starts inside that input:
     * the pooled extents are the ceilings of the input extents.
     */
    lemma WindowsFitBuilt(shape: seq<nat>)
      requires BuiltFor(shape) && 1 <= shape[1] < SizeModulus && 1 <= shape[2] < SizeModulus
      ensures WindowsFit(shape)
    {
      PoolExtentIsCeiling(shape[1], poolHeight);
      PoolExtentIsCeiling(shape[2], poolWidth);
    }

    /**
     * Built for such a `shape`, the layer accepts every input whose axes after
     * the batch are those of `shape`, and keeps its batch.
     */
    lemma ForwardFits(shape: seq<nat>, x: Tensor)
      requires BuiltFor(shape) && 1 <= shape[1] < SizeModulus && 1 <= shape[2] < SizeModulus
      requires x.Valid() && |x.shape| == |shape| && x.shape == shape[0 := x.shape[0]]
      ensures ForwardOk(x) && ForwardSpec(x).shape == OutShape(shape)[0 := x.shape[0]]
    {
      WindowsFitBuilt(shape);
      assert x.shape[1..] == shape[1..];
      assert WindowsFit(x.shape);
    }

    /**
     * Each output cell of `forward` is the maximum of its pool window: no
     * element of the window is larger, and one of them equals it.
     */
    lemma ForwardIsWindowMaximum(inputs: Tensor, b: int, i: int, k: int, c: int)
      requires ForwardOk(inputs) && In4(ForwardSpec(inputs).shape, b, i, k, c)
      ensures WindowOk(inputs.shape, poolHeight, poolWidth, i, k)
      ensures forall y, z | InWindow(inputs.shape, poolHeight, poolWidth, i, k, y, z) ::
        At4(inputs, b, y, z, c) <= At4(ForwardSpec(inputs), b, i, k, c)
      ensures exists y, z | InWindow(inputs.shape, poolHeight, poolWidth, i, k, y, z) ::
        At4(inputs, b, y, z, c) == At4(ForwardSpec(inputs), b, i, k, c)
    {
      var s := outputsShape[0 := inputs.shape[0]];
      MulMonotone(i, s[1] - 1, poolHeight);
      MulMonotone(k, s[2] - 1, poolWidth);
      At4Build4(s, ForwardCells(inputs, poolHeight, poolWidth, s), b, i, k, c);
      WindowMaxIsMax(inputs, poolHeight, poolWidth, b, i, k, c);
    }

    /**
     * `tape[this]` holds this layer's input, every visited window starts
     * inside it, and `deltas` has a cell (b, i, k, c) for every visited window.
     */
    predicate BackwardOk(tape: Tape, deltas: Tensor)
      reads this
    {
      addr in tape && tape[addr].Is4() && WindowsFit(tape[addr].shape) && deltas.Is4() &&
      deltas.shape[0] == tape[addr].shape[0] && deltas.shape[3] == tape[addr].shape[3] &&
      outputsShape[1] <= deltas.shape[1] && outputsShape[2] <= deltas.shape[2]
    }

    /**
     * Built for such a `shape`, `backward` accepts its recorded input of that
     * shape, at any batch, together with deltas of the layer's output shape
     * at the same batch.
     */
    lemma BackwardFits(shape: seq<nat>, n: nat, tape: Tape, deltas: Tensor)
      requires BuiltFor(shape) && 1 <= shape[1] < SizeModulus && 1 <= shape[2] < SizeModulus
      requires addr in tape && tape[addr].Valid() && tape[addr].shape == shape[0 := n]
      requires deltas.Valid() && deltas.shape == OutShape(shape)[0 := n]
      ensures BackwardOk(tape, deltas)
    {
      WindowsFitBuilt(shape);
      assert WindowsFit(tape[addr].shape);
    }

    /**
     * The i/k loops of `backward` on a copy of the recorded input: inside
     * each visited window, entries below the window maximum become 0 and
     * positive ones become 1, and the window is scaled by its delta. The
     * gradient map and `outputs` are not touched.
     */
    method Backward(tape: Tape, deltas: Tensor) returns (deltas': Tensor)
      requires BackwardOk(tape, deltas)
      ensures deltas' == BackwardSpec(tape[addr], deltas, poolHeight, poolWidth, outputsShape[1], outputsShape[2])
      ensures deltas'.shape == tape[addr].shape
    {
      var x := tape[addr];
      var s := x.shape;
      var ph, pw := poolHeight, poolWidth;
      var outH, outW := outputsShape[1], outputsShape[2];
      var a := new int[s[0], s[1], s[2], s[3]];
      forall b, y, z, c | 0 <= b < s[0] && 0 <= y < s[1] && 0 <= z < s[2] && 0 <= c < s[3] {
        a[b, y, z, c] := At4(x, b, y, z, c);
      }
      RoutedStart(a, x, deltas, ph, pw, outH, outW);
      var i := 0;
      while i < outH
        invariant 0 <= i <= outH
        invariant Routed(a, x, deltas, ph, pw, outH, outW, i, 0)
      {
        var k := 0;
        while k < outW
          invariant 0 <= k <= outW
          invariant Routed(a, x, deltas, ph, pw, outH, outW, i, k)
        {
          MulMonotone(i, outH - 1, ph);
          MulMonotone(k, outW - 1, pw);
          RouteWindow(a, x, deltas, ph, pw, outH, outW, i, k);
          k := k + 1;
        }
        NextRow(a, x, deltas, ph, pw, outH, outW, i);
        i := i + 1;
      }
      RoutedDone(a, x, deltas, ph, pw, outH, outW);
      FromArrayBuild4(a, s, BackwardCells(x, deltas, ph, pw, outH, outW));
      deltas' := FromArray4(a);
    }

    /**
     * The routing mask of `backward` inside the window of output cell (i, k):
     * an entry below the window's maximum gets 0, and every entry equal to a
     * positive maximum (all of them, when several tie) gets the window's delta.
     */
    lemma BackwardRoutesToMaxima(x: Tensor, deltas: Tensor, b: int, i: int, k: int, y: int, z: int, c: int)
      requires Valid() && |outputsShape| == 4 && x.Is4() && In4(x.shape, b, y, z, c)
      requires 0 <= i < outputsShape[1] && 0 <= k < outputsShape[2]
      requires InWindow(x.shape, poolHeight, poolWidth, i, k, y, z)
      ensures WindowOk(x.shape, poolHeight, poolWidth, i, k)
      ensures var r := BackwardSpec(x, deltas, poolHeight, poolWidth, outputsShape[1], outputsShape[2]);
        var m := WindowMax(x, poolHeight, poolWidth, b, i, k, c);
        && (At4(x, b, y, z, c) < m ==> At4(r, b, y, z, c) == 0)
        && (At4(x, b, y, z, c) == m > 0 ==> At4(r, b, y, z, c) == At4(deltas, b, i, k, c))
    {
      var ph, pw, outH, outW := poolHeight, poolWidth, outputsShape[1], outputsShape[2];
      InRowWindow(y, i, ph);
      InRowWindow(z, k, pw);
      At4Build4(x.shape, BackwardCells(x, deltas, ph, pw, outH, outW), b, y, z, c);
    }

    /** Entries outside every window the loops visit keep the recorded input. */
    lemma BackwardKeepsUnvisited(x: Tensor, deltas: Tensor, b: int, y: int, z: int, c: int)
      requires Valid() && |outputsShape| == 4 && x.Is4() && In4(x.shape, b, y, z, c)
      requires !Visited(x.shape, poolHeight, poolWidth, outputsShape[1], outputsShape[2], y, z)
      ensures At4(BackwardSpec(x, deltas, poolHeight, poolWidth, outputsShape[1], outputsShape[2]), b, y, z, c) == At4(x, b, y, z, c)
    {
      At4Build4(x.shape, BackwardCells(x, deltas, poolHeight, poolWidth, outputsShape[1], outputsShape[2]), b, y, z, c);
    }
  }
}
