/**
 * One handle for the four layer kinds (the `nn::Layer` interface of
 * src/neural_network/layers/Layer.cpp and its subclasses), the tape
 * recording of `Layer::forward(inputs, tape)`, and the two ways a layer
 * hands out its trainable variables.
 *
 * xtensor reports a shape that does not fit by throwing; a forward or
 * backward step whose shapes do not fit yields `None` here.
 */
module Layer {
  import opened Tensors
  import opened LayerTypes
  import LayerConv2D
  import LayerMaxPooling2D
  import LayerDense
  import LayerFlatten

  /**
   * What a layer keeps besides its trainable variables: the input shapes of
   * its builds, the convolution's pads and output shape, the pooling
   * layer's output shape and the flatten layer's element count (0 or empty
   * where the kind has no such field).
   */
  datatype LayerLayout = LayerLayout(builds: seq<seq<nat>>, pads: seq<(nat, nat)>, outputsShape: seq<nat>, outputsNumber: nat)

  datatype AnyLayer =
    | Conv(conv: LayerConv2D.LayerConv2D)
    | Pool(pool: LayerMaxPooling2D.LayerMaxPooling2D)
    | Dense(dense: LayerDense.LayerDense)
    | Flatten(flatten: LayerFlatten.LayerFlatten)
  {
    function Obj(): object
    {
      match this
      case Conv(l) => l
      case Pool(l) => l
      case Dense(l) => l
      case Flatten(l) => l
    }

    /** The layer's identity, the key of its tape entry and of its gradients. */
    function Addr(): Addr
    {
      match this
      case Conv(l) => l.addr
      case Pool(l) => l.addr
      case Dense(l) => l.addr
      case Flatten(l) => l.addr
    }

    /** Only convolutional and dense layers have weights and biases. */
    predicate Trainable()
    {
      Conv? || Dense?
    }

    /** The gradient keys `backward` inserts. */
    function Params(): set<GradKey>
    {
      if Trainable() then ParamKeys(Addr()) else {}
    }

    /** `get_trainable_vars(TrainableVars&)`: weights first, then biases. */
    function VarKeys(): seq<GradKey>
    {
      if Trainable() then [GradKey(Addr(), Weights), GradKey(Addr(), Biases)] else []
    }

    /** The variable a trainable-variable reference of this layer points at. */
    function Var(kind: TrainableVarsType): Tensor
      requires Trainable()
      reads Obj()
    {
      match this
      case Conv(l) => if kind == Weights then l.filters else l.biases
      case Dense(l) => if kind == Weights then l.weights else l.biases
    }

    /** The input shapes `build` accepts: its indexing needs this many axes. */
    predicate BuildOk(shape: seq<nat>)
    {
      match this
      case Conv(_) => |shape| == 4
      case Pool(l) => |shape| == 4 && l.Valid()
      case Dense(_) => |shape| >= 2
      case Flatten(_) => |shape| >= 1
    }

    /** The shape `build` hands to the next layer. */
    function OutShape(shape: seq<nat>): seq<nat>
      requires BuildOk(shape)
    {
      match this
      case Conv(l) => l.OutShape(shape)
      case Pool(l) => l.OutShape(shape)
      case Dense(l) => l.OutShape(shape)
      case Flatten(l) => l.OutShape(shape)
    }

    predicate BuiltFor(shape: seq<nat>)
      reads Obj()
    {
      match this
      case Conv(l) => l.BuiltFor(shape)
      case Pool(l) => l.BuiltFor(shape)
      case Dense(l) => l.BuiltFor(shape)
      case Flatten(l) => l.BuiltFor(shape)
    }

    ghost function Builds(): seq<seq<nat>>
      reads Obj()
    {
      match this
      case Conv(l) => l.builds
      case Pool(l) => l.builds
      case Dense(l) => l.builds
      case Flatten(l) => l.builds
    }

    ghost function Layout(): LayerLayout
      reads Obj()
    {
      match this
      case Conv(l) => LayerLayout(l.builds, l.pads, l.outputsShape, 0)
      case Pool(l) => LayerLayout(l.builds, [], l.outputsShape, 0)
      case Dense(l) => LayerLayout(l.builds, [], [], 0)
      case Flatten(l) => LayerLayout(l.builds, [], [], l.outputsNumber)
    }

    /**
     * What construction sets up and every `build` keeps: biases of the
     * right size, and convolution pads in whole groups of four whose first
     * group is the one `xt::pad` reads.
     */
    predicate Valid()
      reads Obj()
    {
      match this
      case Conv(l) => l.Valid() && l.PadsLaidOut(l.pads)
      case Pool(l) => l.Valid()
      case Dense(l) => l.Valid()
      case Flatten(_) => true
    }

    /** The part of `BuiltFor(shape) && Valid()` that the layout decides. */
    predicate LaidOutFor(layout: LayerLayout, shape: seq<nat>)
    {
      match this
      case Conv(l) =>
        |shape| == 4 && layout.outputsShape == l.OutShape(shape) &&
        |layout.pads| >= 4 && layout.pads[|layout.pads| - 4..] == l.PadsFor() && l.PadsLaidOut(layout.pads)
      case Pool(l) => |shape| == 4 && l.Valid() && layout.outputsShape == l.OutShape(shape)
      case Dense(_) => |shape| >= 2
      case Flatten(_) => layout.outputsNumber == Product(shape)
    }

    /** The part of `BuiltFor(shape) && Valid()` that the variables decide. */
    predicate VarsFor(shape: seq<nat>)
      reads Obj()
    {
      match this
      case Conv(l) =>
        |shape| == 4 && l.Valid() &&
        l.filters.Is4() && l.filters.shape == [l.filtersNumber, l.kernelHeight, l.kernelWidth, shape[3]]
      case Dense(l) => |shape| >= 2 && l.Valid() && l.weights.Valid() && l.weights.shape == [l.outputsNumber, shape[1]]
      case _ => true
    }

    /** A built, valid layer is one whose layout and variables both fit the shape. */
    lemma ReadyByParts(shape: seq<nat>)
      ensures BuiltFor(shape) && Valid() <==> LaidOutFor(Layout(), shape) && VarsFor(shape)
    {
    }

    /**
     * The input shapes on which the model keeps clear of `size_t`
     * wrap-around and of empty windows: a convolution with Valid padding and
     * a kernel no larger than the input, pooling over at least one row and
     * one column, a dense layer on matrices, a flatten layer built for a
     * batch of one.
     */
    predicate Fits(shape: seq<nat>)
    {
      match this
      case Conv(l) =>
        |shape| == 4 && l.padding == LayerConv2D.Padding.Valid &&
        1 <= l.kernelHeight <= shape[1] + 1 && 1 <= l.kernelWidth <= shape[2] + 1 &&
        shape[1] < SizeModulus && shape[2] < SizeModulus && l.kernelHeight < SizeModulus && l.kernelWidth < SizeModulus
      case Pool(_) => |shape| == 4 && 1 <= shape[1] < SizeModulus && 1 <= shape[2] < SizeModulus
      case Dense(_) => |shape| == 2
      case Flatten(_) => |shape| >= 1 && shape[0] == 1
    }

    /** Valid, built for `shape`, and `shape` fits. */
    predicate Ready(shape: seq<nat>)
      reads Obj()
    {
      Valid() && BuiltFor(shape) && Fits(shape)
    }

    predicate ForwardOk(inputs: Tensor)
      reads Obj()
    {
      match this
      case Conv(l) => l.ForwardOk(inputs)
      case Pool(l) => l.ForwardOk(inputs)
      case Dense(l) => l.ForwardOk(inputs)
      case Flatten(l) => l.ForwardOk(inputs)
    }

    /** `forward(inputs)`: the transformed inputs, or `None` when xtensor would throw. */
    function Call(inputs: Tensor): Option<Tensor>
      reads Obj()
    {
      if !ForwardOk(inputs) then None
      else match this
        case Conv(l) => Some(l.ForwardSpec(inputs))
        case Pool(l) => Some(l.ForwardSpec(inputs))
        case Dense(l) => Some(l.Forward(inputs))
        case Flatten(l) => Some(l.Forward(inputs))
    }

    predicate BackwardOk(tape: Tape, st: BackwardResult)
      reads Obj()
    {
      match this
      case Conv(l) => l.BackwardOk(tape, st.outputs, st.deltas)
      case Pool(l) => l.BackwardOk(tape, st.deltas)
      case Dense(l) => l.BackwardOk(tape, st.outputs, st.deltas)
      case Flatten(l) => l.BackwardOk(tape, st.deltas)
    }

    /**
     * `backward(outputs, deltas, tape, gradient_map)` on the triple `st`.
     * A successful step adds exactly this layer's gradient keys and keeps
     * every existing entry; the new deltas are shaped like the recorded input,
     * and `outputs` becomes the recorded input, which is what the layer below
     * produced. For the pooling layer this is the corrected step; see
     * `BackwardStepAsWritten`.
     */
    function BackwardStep(tape: Tape, st: BackwardResult): (r: Option<BackwardResult>)
      reads Obj()
      ensures r.Some? <==> BackwardOk(tape, st)
      ensures r.Some? ==> Addr() in tape && r.value.deltas.shape == tape[Addr()].shape
      ensures r.Some? ==> r.value.outputs == tape[Addr()]
      ensures r.Some? ==> r.value.gradients.Keys == st.gradients.Keys + Params()
      ensures r.Some? ==> forall k | k in st.gradients :: r.value.gradients[k] == st.gradients[k]
    {
      if !BackwardOk(tape, st) then None
      else match this
        case Conv(l) => Some(l.BackwardSpec(tape, st.gradients, st.outputs, st.deltas))
        case Pool(l) =>
          Some(BackwardResult(tape[l.addr],
            LayerMaxPooling2D.BackwardSpec(tape[l.addr], st.deltas, l.poolHeight, l.poolWidth, l.outputsShape[1], l.outputsShape[2]),
            st.gradients))
        case Dense(l) => Some(l.Backward(tape, st.gradients, st.outputs, st.deltas))
        case Flatten(l) => Some(l.Backward(tape, st.gradients, st.outputs, st.deltas))
    }

    /**
     * A layer ready for `shape` accepts every input whose axes after the
     * batch are those of `shape`, and hands on its output shape with the
     * input's batch.
     */
    lemma CallFits(shape: seq<nat>, n: nat, x: Tensor)
      requires Ready(shape) && x.Valid() && x.shape == Rebatch(shape, n)
      ensures BuildOk(shape) && |OutShape(shape)| >= 1
      ensures Call(x).Some? && Call(x).value.Valid() && Call(x).value.shape == Rebatch(OutShape(shape), n)
    {
      match this
      case Conv(l) => l.ForwardFits(shape, x);
      case Pool(l) => l.ForwardFits(shape, x);
      case Dense(l) => l.ForwardFits(shape, x);
      case Flatten(l) =>
        assert x.shape[1..] == shape[1..];
        assert Product(x.shape) == n * Product(shape[1..]);
    }

    /**
     * What `backward` of a layer built for `shape` is handed at batch `n`:
     * deltas of its output shape and outputs that broadcast into them, or,
     * for the last dense layer, the seed without axes and the model's
     * outputs.
     */
    predicate Accepts(shape: seq<nat>, n: nat, st: BackwardResult)
    {
      && BuildOk(shape) && st.deltas.Valid() && st.outputs.Valid()
      && var d := Rebatch(OutShape(shape), n);
      || (st.deltas.shape == d && BroadcastsInto(st.outputs.shape, d))
      || (Dense? && st.deltas.shape == [] && st.outputs.shape == d)
    }

    /** A layer ready for `shape` completes `backward` on what it accepts and its recorded input. */
    lemma StepFits(shape: seq<nat>, n: nat, tape: Tape, st: BackwardResult)
      requires Ready(shape) && Accepts(shape, n, st)
      requires Addr() in tape && tape[Addr()].Valid() && tape[Addr()].shape == Rebatch(shape, n)
      ensures BackwardStep(tape, st).Some? && BackwardStep(tape, st).value.deltas.Valid()
    {
      var d := Rebatch(OutShape(shape), n);
      var deltas := ScaleByDerivative(st.deltas, st.outputs);
      match this
      case Conv(l) => l.BackwardFits(shape, n, tape, st.outputs, st.deltas);
      case Pool(l) => l.BackwardFits(shape, n, tape, st.deltas);
      case Dense(l) =>
        assert deltas.shape == d;
      case Flatten(l) =>
        assert tape[Addr()].shape[1..] == shape[1..];
        assert Product(tape[Addr()].shape) == n * Product(shape[1..]);
        ProductOfTwo(n, Product(shape));
    }

    /**
     * `backward` as written: the pooling layer's `backward` has no `outputs`
     * parameter and never assigns it, so the tensor the layer above left in
     * `outputs` passes through to the layer below.
     */
    function BackwardStepAsWritten(tape: Tape, st: BackwardResult): (r: Option<BackwardResult>)
      reads Obj()
      ensures r.Some? <==> BackwardOk(tape, st)
      ensures r.Some? ==> r.value.deltas == BackwardStep(tape, st).value.deltas
      ensures r.Some? ==> r.value.gradients == BackwardStep(tape, st).value.gradients
      ensures r.Some? ==> r.value.outputs == if Pool? then st.outputs else tape[Addr()]
    {
      match BackwardStep(tape, st)
      case None => None
      case Some(s) => Some(if Pool? then s.(outputs := st.outputs) else s)
    }
  }

  /** Two layers of the same kind and configuration; only the addresses and the state may differ. */
  predicate SameConfig(a: AnyLayer, b: AnyLayer)
  {
    match (a, b)
    case (Conv(x), Conv(y)) =>
      x.filtersNumber == y.filtersNumber && x.kernelHeight == y.kernelHeight &&
      x.kernelWidth == y.kernelWidth && x.padding == y.padding
    case (Pool(x), Pool(y)) => x.poolHeight == y.poolHeight && x.poolWidth == y.poolWidth
    case (Dense(x), Dense(y)) => x.outputsNumber == y.outputsNumber
    case (Flatten(_), Flatten(_)) => true
    case _ => false
  }

  /**
   * Variables copied from a layer of the same configuration fit every shape
   * the original's fit.
   */
  lemma VarsForCopied(a: AnyLayer, b: AnyLayer, shape: seq<nat>)
    requires SameConfig(a, b) && b.VarsFor(shape)
    requires a.Trainable() ==> b.Trainable() && a.Var(Weights) == b.Var(Weights) && a.Var(Biases) == b.Var(Biases)
    ensures a.VarsFor(shape)
  {
  }

  /** Two handles with different addresses are different objects. */
  lemma DistinctObjects(l: AnyLayer, m: AnyLayer)
    requires l.Addr() != m.Addr()
    ensures l.Obj() != m.Obj()
  {
  }

  method Build(l: AnyLayer, shape: seq<nat>) returns (shape': seq<nat>)
    requires l.BuildOk(shape)
    modifies l.Obj()
    ensures shape' == l.OutShape(shape) && l.BuiltFor(shape)
    ensures l.Builds() == old(l.Builds()) + [shape]
    ensures l.Valid() == old(l.Valid())
  {
    match l
    case Conv(c) =>
      c.PadsLaidOutAppend(c.pads);
      shape' := c.Build(shape);
    case Pool(p) => shape' := p.Build(shape);
    case Dense(d) => shape' := d.Build(shape);
    case Flatten(f) => shape' := f.Build(shape);
  }

  /** `forward(inputs)` through the handle. */
  method Forward(l: AnyLayer, inputs: Tensor) returns (outputs: Option<Tensor>)
    ensures outputs == l.Call(inputs)
  {
    if !l.ForwardOk(inputs) {
      return None;
    }
    match l
    case Conv(c) =>
      var o := c.Forward(inputs);
      outputs := Some(o);
    case Pool(p) =>
      var o := p.Forward(inputs);
      outputs := Some(o);
    case Dense(d) => outputs := Some(d.Forward(inputs));
    case Flatten(f) => outputs := Some(f.Forward(inputs));
  }

  /**
   * The tape after `tape->insert({this, inputs})`: no tape stays no tape;
   * otherwise the layer's key is present, an earlier entry for it is kept,
   * a new one holds the input, and no other entry changes.
   */
  function Record(tape: Option<Tape>, a: Addr, inputs: Tensor): (r: Option<Tape>)
    ensures r.None? <==> tape.None?
    ensures tape.Some? ==> r.value.Keys == tape.value.Keys + {a}
    ensures tape.Some? ==> r.value[a] == if a in tape.value then tape.value[a] else inputs
    ensures tape.Some? ==> forall b | b in tape.value && b != a :: r.value[b] == tape.value[b]
  {
    match tape
    case None => None
    case Some(t) => Some(Insert(t, a, inputs))
  }

  /**
   * `Layer::forward(inputs, tape)`: the input as it was before the layer
   * transforms it is offered to the tape, then the layer's own forward runs.
   */
  method ForwardWithTape(l: AnyLayer, inputs: Tensor, tape: Option<Tape>) returns (outputs: Option<Tensor>, tape': Option<Tape>)
    ensures tape' == Record(tape, l.Addr(), inputs)
    ensures outputs == l.Call(inputs)
  {
    tape' := tape;
    if tape'.Some? {
      tape' := Some(Insert(tape'.value, l.Addr(), inputs));
    }
    outputs := Forward(l, inputs);
  }

  /** `backward` through the handle. */
  method Backward(l: AnyLayer, tape: Tape, st: BackwardResult) returns (r: Option<BackwardResult>)
    ensures r == l.BackwardStep(tape, st)
  {
    if !l.BackwardOk(tape, st) {
      return None;
    }
    match l
    case Conv(c) =>
      var s := c.Backward(tape, st.gradients, st.outputs, st.deltas);
      r := Some(s);
    case Pool(p) =>
      var d := p.Backward(tape, st.deltas);
      r := Some(BackwardResult(tape[p.addr], d, st.gradients));
    case Dense(d) => r := Some(d.Backward(tape, st.gradients, st.outputs, st.deltas));
    case Flatten(f) => r := Some(f.Backward(tape, st.gradients, st.outputs, st.deltas));
  }

  /** A reference to one trainable variable: the layer and which of its two. */
  datatype VarRef = VarRef(layer: AnyLayer, kind: TrainableVarsType)
  {
    function Key(): GradKey
    {
      GradKey(layer.Addr(), kind)
    }

    /** `*var`. */
    function Value(): Tensor
      requires layer.Trainable()
      reads layer.Obj()
    {
      layer.Var(kind)
    }
  }

  /** The references `get_trainable_vars(TrainableVars&)` appends for `l`, weights first. */
  function RefsOf(l: AnyLayer): seq<VarRef>
  {
    if l.Trainable() then [VarRef(l, Weights), VarRef(l, Biases)] else []
  }

  /** The values `RefsOf(l)` point at. */
  function ValuesOf(l: AnyLayer): seq<Tensor>
    reads l.Obj()
  {
    if l.Trainable() then [l.Var(Weights), l.Var(Biases)] else []
  }

  /** One object is one layer: the handle is determined by the object it wraps. */
  lemma SameObject(l: AnyLayer, m: AnyLayer)
    requires l.Obj() == m.Obj()
    ensures l == m
  {
  }

  /**
   * `get_trainable_vars(TrainableVars&)`: appends a reference to the weights
   * (filters), then one to the biases; a layer without variables appends
   * nothing.
   */
  method AppendTrainableVars(l: AnyLayer, vars: seq<VarRef>) returns (vars': seq<VarRef>)
    ensures |vars'| == |vars| + |l.VarKeys()| && vars'[..|vars|] == vars
    ensures forall j | 0 <= j < |l.VarKeys()| :: vars'[|vars| + j].layer == l && vars'[|vars| + j].Key() == l.VarKeys()[j]
    ensures vars' == vars + RefsOf(l)
  {
    vars' := vars;
    if l.Trainable() {
      vars' := vars' + [VarRef(l, Weights)];
      vars' := vars' + [VarRef(l, Biases)];
    }
  }

  /**
   * `get_trainable_vars(TrainableVarsMap&)`: inserts the two references under
   * their keys; entries already present are kept.
   */
  method InsertTrainableVars(l: AnyLayer, vars: map<GradKey, VarRef>) returns (vars': map<GradKey, VarRef>)
    ensures vars'.Keys == vars.Keys + l.Params()
    ensures forall k | k in vars :: vars'[k] == vars[k]
    ensures forall k | k in l.Params() && k !in vars :: vars'[k] == VarRef(l, k.kind)
  {
    vars' := vars;
    if l.Trainable() {
      vars' := Insert(vars', GradKey(l.Addr(), Weights), VarRef(l, Weights));
      vars' := Insert(vars', GradKey(l.Addr(), Biases), VarRef(l, Biases));
    }
  }

  /** `*var = value` through a trainable-variable reference. */
  method SetVar(r: VarRef, value: Tensor)
    requires r.layer.Trainable()
    modifies r.layer.Obj()
    ensures r.layer.Var(r.kind) == value
    ensures forall kind | kind != r.kind :: r.layer.Var(kind) == old(r.layer.Var(kind))
    ensures r.layer.Layout() == old(r.layer.Layout())
  {
    match r.layer
    case Conv(c) =>
      if r.kind == Weights { c.filters := value; } else { c.biases := value; }
    case Dense(d) =>
      if r.kind == Weights { d.weights := value; } else { d.biases := value; }
  }
}
