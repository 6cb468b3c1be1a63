/**
 * The dueling Q-network (src/dqn/ModelDueling.cpp): fourteen layers in one
 * vector, split into four contiguous parts. The two convolutional parts
 * read the state and the candidate actions; the value part reads the
 * state's features, the advantage part the actions' features joined to the
 * state's; the output is value plus advantage.
 *
 * The table `parts_names` that maps a great part and a branch to a part is
 * not part of this model's sources; its contents follow from how the parts
 * are used: the convolutional great part is (state, actions) =
 * (ConvStatePart, ConvActionsPart), the flat one (ValuePart, AdvantagePart).
 */
module ModelDueling {
  import opened Tensors
  import opened LayerTypes
  import opened Layer
  import opened ModelBase
  import opened BranchTensors
  import LayerConv2D
  import LayerMaxPooling2D
  import LayerDense
  import LayerFlatten

  // ---------------------------------------------------------------------------
  // The partition table

  const ConvStatePart: nat := 0
  const ConvActionsPart: nat := 1
  const ValuePart: nat := 2
  const AdvantagePart: nat := 3

  const StateBranch: nat := 0
  const ActionsBranch: nat := 1

  const BranchesTotal: nat := 2

  const ConvGreatPart: nat := 0
  const FlatGreatPart: nat := 1
  const GreatPartsTotal: nat := 2

  /** `parts_names[great_part][branch]`. */
  const PartsNames: seq<seq<nat>> := [[ConvStatePart, ConvActionsPart], [ValuePart, AdvantagePart]]

  function PartName(greatPart: nat, branch: nat): (p: nat)
    requires greatPart < 2 && branch < 2
    ensures p == 2 * greatPart + branch
  {
    PartsNames[greatPart][branch]
  }

  /**
   * A part: the positions `[partBegin, partEnd)` in the layer vector and
   * `[partRbegin, partRend)` in the reversed vector.
   */
  datatype LayersPart = LayersPart(partBegin: int, partEnd: int, partRbegin: int, partRend: int)

  /** The table the constructor builds. */
  const Parts: seq<LayersPart> := [
    LayersPart(0, 5, 9, 14),
    LayersPart(5, 10, 4, 9),
    LayersPart(10, 12, 2, 4),
    LayersPart(12, 14, 0, 2)
  ]

  /** The layers of part `p`, in vector order. */
  function Part(ls: seq<AnyLayer>, p: nat): seq<AnyLayer>
    requires |ls| == 14 && p < 4
  {
    ls[Parts[p].partBegin..Parts[p].partEnd]
  }

  /** The part that holds position `i`. */
  function PartOf(i: nat): (p: nat)
    requires i < 14
    ensures p < 4 && Parts[p].partBegin <= i < Parts[p].partEnd
  {
    if i < 5 then ConvStatePart else if i < 10 then ConvActionsPart else if i < 12 then ValuePart else AdvantagePart
  }

  function Reverse<T>(s: seq<T>): (r: seq<T>)
    ensures |r| == |s| && forall i | 0 <= i < |s| :: r[i] == s[|s| - 1 - i]
  {
    seq(|s|, i requires 0 <= i < |s| => s[|s| - 1 - i])
  }

  /** The reversed range `[size - end, size - begin)` holds the range `[begin, end)` backwards. */
  lemma ReverseSlice<T>(s: seq<T>, b: int, e: int)
    requires 0 <= b <= e <= |s|
    ensures Reverse(s)[|s| - e..|s| - b] == Reverse(s[b..e])
  {
  }

  /**
   * The four parts are contiguous, in order, and cover the fourteen layers;
   * each reversed range denotes the same layers as its forward range.
   */
  lemma PartsTable(ls: seq<AnyLayer>)
    requires |ls| == 14
    ensures Parts[ConvStatePart].partBegin == 0 && Parts[AdvantagePart].partEnd == |ls|
    ensures forall p | 0 <= p < 3 :: Parts[p].partEnd == Parts[p + 1].partBegin
    ensures forall p | 0 <= p < 4 :: Parts[p].partBegin < Parts[p].partEnd
    ensures ls == Part(ls, 0) + Part(ls, 1) + Part(ls, 2) + Part(ls, 3)
    ensures forall p | 0 <= p < 4 ::
      Parts[p].partRbegin == |ls| - Parts[p].partEnd && Parts[p].partRend == |ls| - Parts[p].partBegin &&
      Reverse(ls)[Parts[p].partRbegin..Parts[p].partRend] == Reverse(Part(ls, p))
  {
    assert ls == ls[0..5] + ls[5..10] + ls[10..12] + ls[12..14];
    forall p | 0 <= p < 4
      ensures Reverse(ls)[Parts[p].partRbegin..Parts[p].partRend] == Reverse(Part(ls, p))
    {
      ReverseSlice(ls, Parts[p].partBegin, Parts[p].partEnd);
    }
  }

  /**
   * The order `get_gradient` visits the layers in: the flat great part
   * before the convolutional one, the actions branch before the state
   * branch, each part over its reversed range.
   */
  function VisitOrder(ls: seq<AnyLayer>): seq<AnyLayer>
    requires |ls| == 14
  {
    Visit(ls, PartName(FlatGreatPart, ActionsBranch)) + Visit(ls, PartName(FlatGreatPart, StateBranch)) +
    Visit(ls, PartName(ConvGreatPart, ActionsBranch)) + Visit(ls, PartName(ConvGreatPart, StateBranch))
  }

  /** `for (it = part.rbegin(); it != part.rend(); it++)`: the part's reversed range. */
  function Visit(ls: seq<AnyLayer>, p: nat): seq<AnyLayer>
    requires |ls| == 14 && p < 4
  {
    Reverse(ls)[Parts[p].partRbegin..Parts[p].partRend]
  }

  /** That order is the exact reverse of the layer vector, as in `ModelBase::backward`. */
  lemma VisitOrderIsReverse(ls: seq<AnyLayer>)
    requires |ls| == 14
    ensures VisitOrder(ls) == Reverse(ls)
  {
    var r := Reverse(ls);
    assert r == r[0..2] + r[2..4] + r[4..9] + r[9..14];
  }

  // ---------------------------------------------------------------------------
  // The architecture

  predicate ConvLayer(l: AnyLayer, filters: nat)
  {
    l.Conv? && l.conv.filtersNumber == filters && l.conv.kernelHeight == 3 && l.conv.kernelWidth == 3 &&
    l.conv.padding == LayerConv2D.Padding.Valid
  }

  predicate PoolLayer(l: AnyLayer)
  {
    l.Pool? && l.pool.poolHeight == 2 && l.pool.poolWidth == 2
  }

  /** A convolutional branch: 3x3 convolutions with 10 then 20 filters, each followed by 2x2 pooling, then flatten. */
  predicate ConvBranch(ls: seq<AnyLayer>)
  {
    |ls| == 5 && ConvLayer(ls[0], 10) && PoolLayer(ls[1]) && ConvLayer(ls[2], 20) && PoolLayer(ls[3]) && ls[4].Flatten?
  }

  /** A head: a dense layer of `width` outputs, then a dense layer of one output. */
  predicate HeadBranch(ls: seq<AnyLayer>, width: nat)
  {
    |ls| == 2 && ls[0].Dense? && ls[0].dense.outputsNumber == width && ls[1].Dense? && ls[1].dense.outputsNumber == 1
  }

  predicate Architecture(ls: seq<AnyLayer>)
  {
    |ls| == 14 && ConvBranch(Part(ls, ConvStatePart)) && ConvBranch(Part(ls, ConvActionsPart)) &&
    HeadBranch(Part(ls, ValuePart), 10) && HeadBranch(Part(ls, AdvantagePart), 20)
  }

  /** The trainable layers are the convolutions and the dense layers: positions 0, 2, 5, 7 and 10 to 13. */
  lemma TrainablePositions(ls: seq<AnyLayer>)
    requires Architecture(ls)
    ensures forall i | 0 <= i < 14 :: ls[i].Trainable() <==> i in {0, 2, 5, 7, 10, 11, 12, 13}
  {
    forall i | 0 <= i < 14
      ensures ls[i].Trainable() <==> i in {0, 2, 5, 7, 10, 11, 12, 13}
    {
      var p := PartOf(i);
      assert Part(ls, p)[i - Parts[p].partBegin] == ls[i];
    }
  }

  function AddrsOf(ls: seq<AnyLayer>): set<Addr>
  {
    set i | 0 <= i < |ls| :: ls[i].Addr()
  }

  lemma DistinctAddrsJoin(a: seq<AnyLayer>, b: seq<AnyLayer>)
    requires DistinctAddrs(a) && DistinctAddrs(b) && AddrsOf(a) !! AddrsOf(b)
    ensures DistinctAddrs(a + b) && AddrsOf(a + b) == AddrsOf(a) + AddrsOf(b)
  {
    var ab := a + b;
    forall i, j | 0 <= i < j < |ab|
      ensures ab[i].Addr() != ab[j].Addr()
    {
      if i < |a| && j >= |a| {
        assert ab[i] == a[i] && ab[j] == b[j - |a|];
        assert a[i].Addr() in AddrsOf(a) && b[j - |a|].Addr() in AddrsOf(b);
      }
    }
    AddrsOfJoin(a, b);
  }

  lemma ObjsJoin(a: seq<AnyLayer>, b: seq<AnyLayer>)
    ensures Objs(a + b) == Objs(a) + Objs(b)
  {
    assert forall l | l in a + b :: l in a || l in b;
  }

  /** Allocation of a 3x3 convolution of `filters` filters and the 2x2 pooling after it, with addresses not in `used`. */
  method NewConvPool(used: set<Addr>, filters: nat) returns (c: AnyLayer, p: AnyLayer)
    ensures ConvLayer(c, filters) && PoolLayer(p) && c.Addr() != p.Addr() && c.Addr() !in used && p.Addr() !in used
    ensures c.Valid() && p.Valid() && fresh(c.Obj()) && fresh(p.Obj())
  {
    var a0 := NewAddress(used);
    var a1 := NewAddress(used + {a0});
    var conv := new LayerConv2D.LayerConv2D(a0, filters, 3, 3, LayerConv2D.Padding.Valid);
    var pool := new LayerMaxPooling2D.LayerMaxPooling2D(a1, 2, 2);
    c, p := Conv(conv), Pool(pool);
  }

  /** Allocation of one convolutional branch, with addresses not in `used`. */
  method NewConvBranch(used: set<Addr>) returns (ls: seq<AnyLayer>)
    ensures ConvBranch(ls) && DistinctAddrs(ls) && AddrsOf(ls) !! used
    ensures forall i | 0 <= i < |ls| :: ls[i].Valid()
    ensures fresh(Objs(ls))
  {
    var c0, p1 := NewConvPool(used, 10);
    var c2, p3 := NewConvPool(used + {c0.Addr(), p1.Addr()}, 20);
    var a4 := NewAddress(used + {c0.Addr(), p1.Addr(), c2.Addr(), p3.Addr()});
    var f4 := new LayerFlatten.LayerFlatten(a4);
    ls := [c0, p1, c2, p3, Flatten(f4)];
    forall l | l in ls
      ensures l.Addr() !in used && fresh(l.Obj()) && l.Valid()
    {
      assert l == ls[0] || l == ls[1] || l == ls[2] || l == ls[3] || l == ls[4];
    }
  }

  /** Allocation of one head, with addresses not in `used`. */
  method NewHead(used: set<Addr>, width: nat) returns (ls: seq<AnyLayer>)
    ensures HeadBranch(ls, width) && DistinctAddrs(ls) && AddrsOf(ls) !! used
    ensures forall i | 0 <= i < |ls| :: ls[i].Valid()
    ensures fresh(Objs(ls))
  {
    var a0 := NewAddress(used);
    var a1 := NewAddress(used + {a0});
    var d0 := new LayerDense.LayerDense(a0, width);
    var d1 := new LayerDense.LayerDense(a1, 1);
    ls := [Dense(d0), Dense(d1)];
    forall l | l in ls
      ensures l.Addr() !in used
    {
      assert l == ls[0] || l == ls[1];
    }
  }

  // ---------------------------------------------------------------------------
  // Build

  /** `shapes[ActionsBranch][1] += shapes[StateBranch][1]` on `size_t`. */
  function Widen(actions: seq<nat>, state: seq<nat>): (r: seq<nat>)
    requires |actions| >= 2 && |state| >= 2
    ensures |r| == |actions| && r[0] == actions[0] && r[2..] == actions[2..]
    ensures actions[1] + state[1] < SizeModulus ==> r[1] == actions[1] + state[1]
  {
    actions[1 := SizeAdd(actions[1], state[1])]
  }

  /**
   * Every part accepts the shape it is built with: both convolutional parts
   * the input shape, the value part the state's final shape, the advantage
   * part the actions' final shape widened by the state's features.
   */
  predicate BuildOk(ls: seq<AnyLayer>, shape: seq<nat>)
    requires |ls| == 14
  {
    ChainOk(Part(ls, ConvStatePart), shape) && ChainOk(Part(ls, ConvActionsPart), shape) &&
    |FinalShape(Part(ls, ConvStatePart), shape)| >= 2 && |FinalShape(Part(ls, ConvActionsPart), shape)| >= 2 &&
    ChainOk(Part(ls, ValuePart), FinalShape(Part(ls, ConvStatePart), shape)) &&
    ChainOk(Part(ls, AdvantagePart),
      Widen(FinalShape(Part(ls, ConvActionsPart), shape), FinalShape(Part(ls, ConvStatePart), shape)))
  }

  /** The shape part `p` starts from. */
  function StartShape(ls: seq<AnyLayer>, shape: seq<nat>, p: nat): seq<nat>
    requires |ls| == 14 && BuildOk(ls, shape) && p < 4
  {
    if p == ConvStatePart || p == ConvActionsPart then shape
    else if p == ValuePart then FinalShape(Part(ls, ConvStatePart), shape)
    else Widen(FinalShape(Part(ls, ConvActionsPart), shape), FinalShape(Part(ls, ConvStatePart), shape))
  }

  lemma StartShapeOk(ls: seq<AnyLayer>, shape: seq<nat>, p: nat)
    requires |ls| == 14 && BuildOk(ls, shape) && p < 4
    ensures ChainOk(Part(ls, p), StartShape(ls, shape, p))
  {
  }

  function EndShape(ls: seq<AnyLayer>, shape: seq<nat>, p: nat): seq<nat>
    requires |ls| == 14 && BuildOk(ls, shape) && p < 4
  {
    StartShapeOk(ls, shape, p);
    FinalShape(Part(ls, p), StartShape(ls, shape, p))
  }

  /** The shape layer `i` is built with. */
  function BuildInput(ls: seq<AnyLayer>, shape: seq<nat>, i: nat): seq<nat>
    requires |ls| == 14 && BuildOk(ls, shape) && i < 14
  {
    var p := PartOf(i);
    StartShapeOk(ls, shape, p);
    InputShapes(Part(ls, p), StartShape(ls, shape, p))[i - Parts[p].partBegin]
  }

  /** A layer outside a part is not among that part's objects. */
  lemma ObjOutside(ls: seq<AnyLayer>, p: nat, i: nat)
    requires |ls| == 14 && DistinctAddrs(ls) && p < 4 && i < 14 && PartOf(i) != p
    ensures ls[i].Obj() !in Objs(Part(ls, p))
  {
    forall l | l in Part(ls, p)
      ensures l.Obj() != ls[i].Obj()
    {
      var k :| 0 <= k < |Part(ls, p)| && Part(ls, p)[k] == l;
      var j := Parts[p].partBegin + k;
      assert ls[j] == l && PartOf(j) == p;
      assert ls[i].Addr() != ls[j].Addr() by {
        if j < i {
          assert ls[j].Addr() != ls[i].Addr();
        }
      }
      DistinctObjects(ls[i], ls[j]);
    }
  }

  lemma DistinctPart(ls: seq<AnyLayer>, p: nat)
    requires |ls| == 14 && DistinctAddrs(ls) && p < 4
    ensures DistinctAddrs(Part(ls, p)) && Objs(Part(ls, p)) <= Objs(ls)
  {
    var b := Parts[p].partBegin;
    forall i, j | 0 <= i < j < |Part(ls, p)|
      ensures Part(ls, p)[i].Addr() != Part(ls, p)[j].Addr()
    {
      assert Part(ls, p)[i] == ls[b + i] && Part(ls, p)[j] == ls[b + j];
    }
  }

  /** A convolutional branch accepts any four-axis shape and ends in a matrix. */
  lemma ConvBranchChain(ls: seq<AnyLayer>, shape: seq<nat>)
    requires ConvBranch(ls) && |shape| == 4
    ensures ChainOk(ls, shape) && |FinalShape(ls, shape)| == 2
  {
    var s1 := ls[0].OutShape(shape);
    var s2 := ls[1].OutShape(s1);
    var s3 := ls[2].OutShape(s2);
    var s4 := ls[3].OutShape(s3);
    assert ls[4..][1..] == [];
    assert ChainOk(ls[4..], s4) && FinalShape(ls[4..], s4) == ls[4].OutShape(s4);
    assert ls[3..][1..] == ls[4..];
    assert ChainOk(ls[3..], s3) && FinalShape(ls[3..], s3) == FinalShape(ls[4..], s4);
    assert ls[2..][1..] == ls[3..];
    assert ChainOk(ls[2..], s2) && FinalShape(ls[2..], s2) == FinalShape(ls[3..], s3);
    assert ls[1..][1..] == ls[2..];
    assert ChainOk(ls[1..], s1) && FinalShape(ls[1..], s1) == FinalShape(ls[2..], s2);
  }

  /** A head accepts any shape with a feature axis. */
  lemma HeadChain(ls: seq<AnyLayer>, width: nat, shape: seq<nat>)
    requires HeadBranch(ls, width) && |shape| >= 2
    ensures ChainOk(ls, shape)
  {
    assert ls[1..][1..] == [];
  }

  /**
   * The fourteen layers the constructor creates can be built for any
   * four-axis input shape (batch, rows, columns, channels).
   */
  lemma ArchitectureBuilds(ls: seq<AnyLayer>, shape: seq<nat>)
    requires Architecture(ls) && |shape| == 4
    ensures BuildOk(ls, shape)
  {
    ConvBranchChain(Part(ls, ConvStatePart), shape);
    ConvBranchChain(Part(ls, ConvActionsPart), shape);
    HeadChain(Part(ls, ValuePart), 10, FinalShape(Part(ls, ConvStatePart), shape));
    HeadChain(Part(ls, AdvantagePart), 20,
      Widen(FinalShape(Part(ls, ConvActionsPart), shape), FinalShape(Part(ls, ConvStatePart), shape)));
  }

  /** What every layer had been built with before. */
  ghost function BuildsOf(ls: seq<AnyLayer>): (r: seq<seq<seq<nat>>>)
    reads Objs(ls)
    ensures |r| == |ls| && forall i | 0 <= i < |ls| :: r[i] == ls[i].Builds()
  {
    seq(|ls|, i requires 0 <= i < |ls| reads Objs(ls) => ls[i].Builds())
  }

  /** Which layers are valid. */
  ghost function ValidsOf(ls: seq<AnyLayer>): (r: seq<bool>)
    reads Objs(ls)
    ensures |r| == |ls| && forall i | 0 <= i < |ls| :: r[i] == ls[i].Valid()
  {
    seq(|ls|, i requires 0 <= i < |ls| reads Objs(ls) => ls[i].Valid())
  }

  /**
   * The parts before `n` are built, each layer once more and with the shape
   * its part hands it; the parts from `n` on are as they were.
   */
  ghost predicate PartsBuilt(ls: seq<AnyLayer>, shape: seq<nat>, before: seq<seq<seq<nat>>>, n: nat)
    requires |ls| == 14 && BuildOk(ls, shape)
    reads Objs(ls)
  {
    |before| == 14 &&
    forall i | 0 <= i < 14 ::
      if PartOf(i) < n then ls[i].BuiltFor(BuildInput(ls, shape, i)) && ls[i].Builds() == before[i] + [BuildInput(ls, shape, i)]
      else ls[i].Builds() == before[i]
  }

  /** Once all four parts are built, every layer is built once more, with the shape its part hands it. */
  lemma AllPartsBuilt(ls: seq<AnyLayer>, shape: seq<nat>, before: seq<seq<seq<nat>>>)
    requires |ls| == 14 && BuildOk(ls, shape) && PartsBuilt(ls, shape, before, 4)
    ensures forall i | 0 <= i < 14 :: ls[i].BuiltFor(BuildInput(ls, shape, i)) && ls[i].Builds() == before[i] + [BuildInput(ls, shape, i)]
  {
  }

  /** `for (auto& layer : layers_parts[p]) layer->build(shapes[branch])`. */
  method BuildPart(ls: seq<AnyLayer>, shape: seq<nat>, p: nat, partShape: seq<nat>, ghost before: seq<seq<seq<nat>>>)
    returns (shape': seq<nat>)
    requires |ls| == 14 && DistinctAddrs(ls) && BuildOk(ls, shape) && p < 4 && partShape == StartShape(ls, shape, p)
    requires PartsBuilt(ls, shape, before, p)
    modifies Objs(ls)
    ensures shape' == EndShape(ls, shape, p)
    ensures PartsBuilt(ls, shape, before, p + 1)
    ensures ValidsOf(ls) == old(ValidsOf(ls))
  {
    var part := Part(ls, p);
    DistinctPart(ls, p);
    StartShapeOk(ls, shape, p);
    shape' := BuildLayers(part, partShape);
    forall i | 0 <= i < 14
      ensures if PartOf(i) < p + 1 then ls[i].BuiltFor(BuildInput(ls, shape, i)) && ls[i].Builds() == before[i] + [BuildInput(ls, shape, i)]
        else ls[i].Builds() == before[i]
      ensures ls[i].Valid() == old(ls[i].Valid())
    {
      if PartOf(i) == p {
        var k := i - Parts[p].partBegin;
        assert part[k] == ls[i];
        assert BuildInput(ls, shape, i) == InputShapes(part, partShape)[k];
        assert old(ls[i].Builds()) == before[i];
      } else {
        ObjOutside(ls, p, i);
        assert unchanged(ls[i].Obj());
      }
    }
    assert ValidsOf(ls) == old(ValidsOf(ls));
  }

  /**
   * One pass of the outer loop of `build`: on entering the flat great part
   * the actions' feature width grows by the state's; then the state
   * branch's part is built, then the actions branch's.
   */
  method BuildGreatPart(ls: seq<AnyLayer>, shape: seq<nat>, greatPart: nat, shapes: seq<seq<nat>>,
                        ghost before: seq<seq<seq<nat>>>) returns (shapes': seq<seq<nat>>)
    requires |ls| == 14 && DistinctAddrs(ls) && BuildOk(ls, shape) && greatPart < 2 && |shapes| == 2
    requires shapes[0] == if greatPart == ConvGreatPart then shape else EndShape(ls, shape, ConvStatePart)
    requires shapes[1] == if greatPart == ConvGreatPart then shape else EndShape(ls, shape, ConvActionsPart)
    requires PartsBuilt(ls, shape, before, 2 * greatPart)
    modifies Objs(ls)
    ensures |shapes'| == 2
    ensures shapes'[0] == EndShape(ls, shape, 2 * greatPart) && shapes'[1] == EndShape(ls, shape, 2 * greatPart + 1)
    ensures PartsBuilt(ls, shape, before, 2 * greatPart + 2)
    ensures ValidsOf(ls) == old(ValidsOf(ls))
  {
    shapes' := shapes;
    if greatPart == FlatGreatPart {
      shapes' := shapes'[ActionsBranch := Widen(shapes'[ActionsBranch], shapes'[StateBranch])];
    }
    var branch := StateBranch;
    while branch != BranchesTotal
      invariant branch <= BranchesTotal && |shapes'| == 2
      invariant shapes'[0] == if branch > 0 then EndShape(ls, shape, 2 * greatPart) else StartShape(ls, shape, 2 * greatPart)
      invariant shapes'[1] == if branch > 1 then EndShape(ls, shape, 2 * greatPart + 1) else StartShape(ls, shape, 2 * greatPart + 1)
      invariant PartsBuilt(ls, shape, before, 2 * greatPart + branch)
      invariant ValidsOf(ls) == old(ValidsOf(ls))
    {
      var s := BuildPart(ls, shape, PartName(greatPart, branch), shapes'[branch], before);
      shapes' := shapes'[branch := s];
      branch := branch + 1;
    }
  }

  /**
   * `ModelDueling::build`: both branches start from the input shape; the
   * convolutional great part is built before the flat one and the state
   * branch before the actions branch. Every layer is built exactly once,
   * with the shape its part hands it.
   */
  method BuildParts(ls: seq<AnyLayer>, shape: seq<nat>)
    requires |ls| == 14 && DistinctAddrs(ls) && BuildOk(ls, shape)
    modifies Objs(ls)
    ensures forall i | 0 <= i < 14 ::
      ls[i].BuiltFor(BuildInput(ls, shape, i)) && ls[i].Builds() == old(ls[i].Builds()) + [BuildInput(ls, shape, i)]
    ensures ValidsOf(ls) == old(ValidsOf(ls))
  {
    ghost var before := BuildsOf(ls);
    var shapes := [shape, shape];
    var greatPart := ConvGreatPart;
    while greatPart != GreatPartsTotal
      invariant greatPart <= GreatPartsTotal && |shapes| == 2
      invariant greatPart == FlatGreatPart ==>
        shapes[0] == EndShape(ls, shape, ConvStatePart) && shapes[1] == EndShape(ls, shape, ConvActionsPart)
      invariant greatPart == ConvGreatPart ==> shapes[0] == shape && shapes[1] == shape
      invariant PartsBuilt(ls, shape, before, 2 * greatPart)
      invariant ValidsOf(ls) == old(ValidsOf(ls))
    {
      shapes := BuildGreatPart(ls, shape, greatPart, shapes, before);
      greatPart := greatPart + 1;
    }
    AllPartsBuilt(ls, shape, before);
  }

  // ---------------------------------------------------------------------------
  // Forward

  /** The two branches' tensors: `std::array<xt::xarray<float>, BranchesTotal>`. */
  datatype Pair = Pair(state: Tensor, actions: Tensor) {
    function Get(branch: nat): Tensor
    {
      if branch == StateBranch then state else actions
    }

    function Set(branch: nat, t: Tensor): (r: Pair)
      requires branch < BranchesTotal
      ensures r.Get(branch) == t && r.Get(1 - branch) == Get(1 - branch)
    {
      if branch == StateBranch then Pair(t, actions) else Pair(state, t)
    }
  }

  /** A tensor on its way through the layers, and the tape beside it. */
  datatype Flow = Flow(value: Tensor, tape: Option<Tape>)

  /** `m'` holds every entry of `m` and adds the keys `ks`. */
  ghost predicate Extends<K, V>(m: map<K, V>, m': map<K, V>, ks: set<K>)
  {
    m'.Keys == m.Keys + ks && forall k | k in m :: m'[k] == m[k]
  }

  lemma ExtendsTrans<K, V>(m0: map<K, V>, m1: map<K, V>, m2: map<K, V>, k1: set<K>, k2: set<K>)
    requires Extends(m0, m1, k1) && Extends(m1, m2, k2)
    ensures Extends(m0, m2, k1 + k2)
  {
  }

  lemma AddrsOfJoin(a: seq<AnyLayer>, b: seq<AnyLayer>)
    ensures AddrsOf(a + b) == AddrsOf(a) + AddrsOf(b)
  {
    var ab := a + b;
    forall i | 0 <= i < |a|
      ensures a[i].Addr() in AddrsOf(ab)
    {
      assert ab[i] == a[i];
    }
    forall j | 0 <= j < |b|
      ensures b[j].Addr() in AddrsOf(ab)
    {
      assert ab[|a| + j] == b[j];
    }
    forall k | 0 <= k < |ab|
      ensures ab[k].Addr() in AddrsOf(a) + AddrsOf(b)
    {
      if k < |a| {
        assert ab[k] == a[k];
      } else {
        assert ab[k] == b[k - |a|];
      }
    }
  }

  /**
   * `for (layer : part) layer->forward(inputs, tape)`: front to back, each
   * layer offers its input to the tape, then transforms it; a layer that
   * throws ends the pass.
   */
  function ForwardSeq(ls: seq<AnyLayer>, x: Tensor, tape: Option<Tape>): (r: Option<Flow>)
    reads Objs(ls)
    decreases |ls|
  {
    if ls == [] then Some(Flow(x, tape))
    else
      assert Objs(ls[1..]) <= Objs(ls);
      match ls[0].Call(x)
      case None => None
      case Some(y) => ForwardSeq(ls[1..], y, Record(tape, ls[0].Addr(), x))
  }

  /**
   * A pass that completes has offered the tape an input for every layer and
   * kept every entry the tape already had; without a tape it records
   * nothing.
   */
  lemma {:induction false} ForwardSeqRecords(ls: seq<AnyLayer>, x: Tensor, tape: Option<Tape>)
    requires ForwardSeq(ls, x, tape).Some?
    ensures ForwardSeq(ls, x, tape).value.tape.None? <==> tape.None?
    ensures tape.Some? ==> Extends(tape.value, ForwardSeq(ls, x, tape).value.tape.value, AddrsOf(ls))
    decreases |ls|
  {
    if ls != [] {
      var y := ls[0].Call(x).value;
      var t1 := Record(tape, ls[0].Addr(), x);
      ForwardSeqStep(ls, x, tape);
      ForwardSeqRecords(ls[1..], y, t1);
      if tape.Some? {
        assert ls == [ls[0]] + ls[1..];
        ExtendsAfterRecord(tape.value, ls[0], ls[1..], x, ForwardSeq(ls[1..], y, t1).value.tape.value);
      }
    }
  }

  /** A pass over a non-empty sequence that completes is the first layer's call, then the rest's pass. */
  lemma ForwardSeqStep(ls: seq<AnyLayer>, x: Tensor, tape: Option<Tape>)
    requires ls != [] && ForwardSeq(ls, x, tape).Some?
    ensures ls[0].Call(x).Some?
    ensures ForwardSeq(ls, x, tape) == ForwardSeq(ls[1..], ls[0].Call(x).value, Record(tape, ls[0].Addr(), x))
  {
  }

  /** Recording one layer's input, then the inputs of `rest`, records the inputs of `[l] + rest`. */
  lemma ExtendsAfterRecord(tape: Tape, l: AnyLayer, rest: seq<AnyLayer>, x: Tensor, t': Tape)
    requires Extends(Record(Some(tape), l.Addr(), x).value, t', AddrsOf(rest))
    ensures Extends(tape, t', AddrsOf([l] + rest))
  {
    var t1 := Record(Some(tape), l.Addr(), x).value;
    assert Extends(tape, t1, {l.Addr()});
    ExtendsTrans(tape, t1, t', {l.Addr()}, AddrsOf(rest));
    AddrsOfJoin([l], rest);
    assert [l][0] == l;
    assert AddrsOf([l]) == {l.Addr()};
  }

  /** The first layer's entry, when the tape did not have one, is the part's own input. */
  lemma ForwardSeqRecordsInput(ls: seq<AnyLayer>, x: Tensor, tape: Tape)
    requires |ls| > 0 && ForwardSeq(ls, x, Some(tape)).Some? && ls[0].Addr() !in tape
    ensures ForwardSeq(ls, x, Some(tape)).value.tape.Some?
    ensures ls[0].Addr() in ForwardSeq(ls, x, Some(tape)).value.tape.value
    ensures ForwardSeq(ls, x, Some(tape)).value.tape.value[ls[0].Addr()] == x
  {
    ForwardSeqRecords(ls[1..], ls[0].Call(x).value, Record(Some(tape), ls[0].Addr(), x));
  }

  /** One step of the pass: the first layer, then the rest. */
  lemma ForwardSeqFirst(ls: seq<AnyLayer>, x: Tensor, tape: Option<Tape>)
    requires ls != []
    ensures ForwardSeq(ls, x, tape) ==
      if ls[0].Call(x).None? then None else ForwardSeq(ls[1..], ls[0].Call(x).value, Record(tape, ls[0].Addr(), x))
  {
  }

  /** With or without a tape, a part computes the same tensor and fails on the same inputs. */
  lemma {:induction false} ForwardSeqIgnoresTape(ls: seq<AnyLayer>, x: Tensor, t1: Option<Tape>, t2: Option<Tape>)
    ensures ForwardSeq(ls, x, t1).Some? <==> ForwardSeq(ls, x, t2).Some?
    ensures ForwardSeq(ls, x, t1).Some? ==> ForwardSeq(ls, x, t1).value.value == ForwardSeq(ls, x, t2).value.value
    decreases |ls|
  {
    if ls != [] && ls[0].Call(x).Some? {
      ForwardSeqIgnoresTape(ls[1..], ls[0].Call(x).value, Record(t1, ls[0].Addr(), x), Record(t2, ls[0].Addr(), x));
    }
  }

  /**
   * Layers each ready for the shape their build received accept any input
   * of the first shape at batch `n` and end in the final shape at that batch;
   * a fresh tape then holds each layer's input, of the shape it was built
   * for at batch `n`.
   */
  lemma {:induction false} ForwardSeqFits(ls: seq<AnyLayer>, shape: seq<nat>, n: nat, x: Tensor, tape: Option<Tape>)
    requires RunFits(ls, shape) && |shape| >= 1 && x.Valid() && x.shape == Rebatch(shape, n)
    ensures ForwardSeq(ls, x, tape).Some? && |FinalShape(ls, shape)| >= 1
    ensures ForwardSeq(ls, x, tape).value.value.Valid()
    ensures ForwardSeq(ls, x, tape).value.value.shape == Rebatch(FinalShape(ls, shape), n)
    ensures tape.Some? && DistinctAddrs(ls) && AddrsOf(ls) !! tape.value.Keys ==>
      ForwardSeq(ls, x, tape).value.tape.Some? && Recorded(ls, shape, n, ForwardSeq(ls, x, tape).value.tape.value)
    decreases |ls|
  {
    if ls != [] {
      var shapes := InputShapes(ls, shape);
      var rest, next := ls[1..], ls[0].OutShape(shape);
      ls[0].CallFits(shape, n, x);
      var y := ls[0].Call(x).value;
      var t1 := Record(tape, ls[0].Addr(), x);
      RestFits(ls, shape);
      ForwardSeqFits(rest, next, n, y, t1);
      if tape.Some? && DistinctAddrs(ls) && AddrsOf(ls) !! tape.value.Keys {
        RestAddrs(ls);
        var t' := ForwardSeq(rest, y, t1).value.tape.value;
        ForwardSeqRecords(rest, y, t1);
        assert t'[ls[0].Addr()] == x;
        RecordedByFirst(ls, shape, n, t', x);
      }
    }
  }

  /** The layers after the first of layers with distinct addresses have distinct addresses, none of them the first's. */
  lemma RestAddrs(ls: seq<AnyLayer>)
    requires |ls| > 0 && DistinctAddrs(ls)
    ensures DistinctAddrs(ls[1..]) && ls[0].Addr() !in AddrsOf(ls[1..]) && AddrsOf(ls[1..]) <= AddrsOf(ls)
  {
    var rest := ls[1..];
    forall l | l in rest
      ensures l.Addr() != ls[0].Addr() && l in ls
    {
      var j :| 0 <= j < |rest| && rest[j] == l;
      assert ls[j + 1] == l;
    }
  }

  /** The layers after the first of a run that fits fit the shape the first hands on. */
  lemma RestFits(ls: seq<AnyLayer>, shape: seq<nat>)
    requires RunFits(ls, shape) && |ls| > 0
    ensures RunFits(ls[1..], ls[0].OutShape(shape))
  {
    var rest, next, shapes := ls[1..], ls[0].OutShape(shape), InputShapes(ls, shape);
    forall i | 0 <= i < |rest|
      ensures rest[i].Ready(InputShapes(rest, next)[i])
    {
      assert rest[i] == ls[i + 1] && InputShapes(rest, next)[i] == shapes[i + 1];
    }
  }

  /** The first layer's input on the tape, with the records of the layers after it, records the whole run. */
  lemma RecordedByFirst(ls: seq<AnyLayer>, shape: seq<nat>, n: nat, t: Tape, x: Tensor)
    requires |ls| > 0 && ChainOk(ls, shape) && x.Valid() && x.shape == Rebatch(shape, n)
    requires Recorded(ls[1..], ls[0].OutShape(shape), n, t)
    requires ls[0].Addr() in t && t[ls[0].Addr()] == x
    ensures Recorded(ls, shape, n, t)
  {
    var rest, next, shapes := ls[1..], ls[0].OutShape(shape), InputShapes(ls, shape);
    forall i | 0 <= i < |ls|
      ensures ls[i].Addr() in t && t[ls[i].Addr()].Valid() && t[ls[i].Addr()].shape == Rebatch(shapes[i], n)
    {
      if i > 0 {
        assert rest[i - 1] == ls[i] && InputShapes(rest, next)[i - 1] == shapes[i];
      }
    }
  }

  /** The branches between parts, and the tape. */
  datatype Branches = Branches(inputs: Pair, tape: Option<Tape>)

  /** `call_layers_part(p, inputs[branch], tape)` on the branch part `p` belongs to. */
  function CallPart(ls: seq<AnyLayer>, p: nat, e: Option<Branches>): Option<Branches>
    requires |ls| == 14 && p < 4
    reads Objs(ls)
  {
    match e
    case None => None
    case Some(b) =>
      assert Objs(Part(ls, p)) <= Objs(ls) by {
        forall l | l in Part(ls, p)
          ensures l in ls
        {
        }
      }
      match ForwardSeq(Part(ls, p), b.inputs.Get(p % 2), b.tape)
      case None => None
      case Some(f) => Some(Branches(b.inputs.Set(p % 2, f.value), f.tape))
  }

  /**
   * `actions = concatenate(xtuple(broadcast(state, actions.shape()), actions), 1)`
   * on entering the flat great part.
   */
  function Join(e: Option<Branches>): Option<Branches>
  {
    match e
    case None => None
    case Some(b) =>
      match ConcatActions(b.inputs.state, b.inputs.actions)
      case None => None
      case Some(j) => Some(Branches(Pair(b.inputs.state, j), b.tape))
  }

  /** Great part `g` run on the branches: its state branch, then its actions branch. */
  function GreatPartCall(ls: seq<AnyLayer>, g: nat, e: Option<Branches>): Option<Branches>
    requires |ls| == 14 && g < GreatPartsTotal
    reads Objs(ls)
  {
    CallPart(ls, PartName(g, ActionsBranch), CallPart(ls, PartName(g, StateBranch), e))
  }

  /** The parts of `call_with_tape`: the convolutional great part, the join, then the flat great part. */
  function DuelingFlow(ls: seq<AnyLayer>, start: Branches): Option<Branches>
    requires |ls| == 14
    reads Objs(ls)
  {
    GreatPartCall(ls, FlatGreatPart, Join(GreatPartCall(ls, ConvGreatPart, Some(start))))
  }

  /** `call_with_tape`: every part in turn, then `value + advantage`. */
  function DuelingCall(ls: seq<AnyLayer>, state: Tensor, actions: Tensor, tape: Option<Tape>): Option<Flow>
    requires |ls| == 14
    reads Objs(ls)
  {
    match DuelingFlow(ls, Branches(Pair(state, actions), tape))
    case None => None
    case Some(b) =>
      match AddBroadcast(b.inputs.state, b.inputs.actions)
      case None => None
      case Some(q) => Some(Flow(q, b.tape))
  }

  /** One part offers the tape the input of each of its layers and keeps what the tape held. */
  lemma CallPartRecords(ls: seq<AnyLayer>, p: nat, e: Option<Branches>)
    requires |ls| == 14 && p < 4 && CallPart(ls, p, e).Some? && e.Some? && e.value.tape.Some?
    ensures CallPart(ls, p, e).value.tape.Some?
    ensures Extends(e.value.tape.value, CallPart(ls, p, e).value.tape.value, AddrsOf(Part(ls, p)))
  {
    ForwardSeqRecords(Part(ls, p), e.value.inputs.Get(p % 2), e.value.tape);
  }

  /** The join touches the actions only. */
  lemma JoinKeepsTape(e: Option<Branches>)
    requires Join(e).Some?
    ensures e.Some? && Join(e).value.tape == e.value.tape && Join(e).value.inputs.state == e.value.inputs.state
  {
  }

  /** The four parts cover the fourteen layers. */
  lemma AddrsOfParts(ls: seq<AnyLayer>)
    requires |ls| == 14
    ensures AddrsOf(ls) == AddrsOf(Part(ls, 0)) + AddrsOf(Part(ls, 1)) + AddrsOf(Part(ls, 2)) + AddrsOf(Part(ls, 3))
  {
    assert ls == Part(ls, 0) + Part(ls, 1) + Part(ls, 2) + Part(ls, 3);
    AddrsOfJoin(Part(ls, 0), Part(ls, 1));
    AddrsOfJoin(Part(ls, 0) + Part(ls, 1), Part(ls, 2));
    AddrsOfJoin(Part(ls, 0) + Part(ls, 1) + Part(ls, 2), Part(ls, 3));
  }

  /** A great part offers the tape the inputs of both its parts' layers. */
  lemma GreatPartCallRecords(ls: seq<AnyLayer>, g: nat, e: Option<Branches>)
    requires |ls| == 14 && g < GreatPartsTotal && GreatPartCall(ls, g, e).Some? && e.Some? && e.value.tape.Some?
    ensures GreatPartCall(ls, g, e).value.tape.Some?
    ensures Extends(e.value.tape.value, GreatPartCall(ls, g, e).value.tape.value,
                    AddrsOf(Part(ls, 2 * g)) + AddrsOf(Part(ls, 2 * g + 1)))
  {
    var e1 := CallPart(ls, PartName(g, StateBranch), e);
    assert e1.Some?;
    CallPartRecords(ls, PartName(g, StateBranch), e);
    CallPartRecords(ls, PartName(g, ActionsBranch), e1);
    ExtendsTrans(e.value.tape.value, e1.value.tape.value, GreatPartCall(ls, g, e).value.tape.value,
                 AddrsOf(Part(ls, 2 * g)), AddrsOf(Part(ls, 2 * g + 1)));
  }

  /** Two steps that add the addresses of the two great parts add those of the fourteen layers. */
  lemma ExtendsByAddrs(ls: seq<AnyLayer>, t: Tape, t1: Tape, t': Tape)
    requires |ls| == 14
    requires Extends(t, t1, AddrsOf(Part(ls, 0)) + AddrsOf(Part(ls, 1)))
    requires Extends(t1, t', AddrsOf(Part(ls, 2)) + AddrsOf(Part(ls, 3)))
    ensures Extends(t, t', AddrsOf(ls))
  {
    ExtendsTrans(t, t1, t', AddrsOf(Part(ls, 0)) + AddrsOf(Part(ls, 1)), AddrsOf(Part(ls, 2)) + AddrsOf(Part(ls, 3)));
    AddrsOfParts(ls);
    assert AddrsOf(Part(ls, 0)) + AddrsOf(Part(ls, 1)) + (AddrsOf(Part(ls, 2)) + AddrsOf(Part(ls, 3))) == AddrsOf(ls);
  }

  /** The parts of `call_with_tape` offer the tape the input of every layer and keep what it held. */
  lemma DuelingFlowRecords(ls: seq<AnyLayer>, start: Branches)
    requires |ls| == 14 && DuelingFlow(ls, start).Some? && start.tape.Some?
    ensures DuelingFlow(ls, start).value.tape.Some?
    ensures Extends(start.tape.value, DuelingFlow(ls, start).value.tape.value, AddrsOf(ls))
  {
    var e1 := GreatPartCall(ls, ConvGreatPart, Some(start));
    var j := Join(e1);
    var f := GreatPartCall(ls, FlatGreatPart, j);
    assert f == DuelingFlow(ls, start) && j.Some?;
    JoinKeepsTape(e1);
    GreatPartCallRecords(ls, ConvGreatPart, Some(start));
    GreatPartCallRecords(ls, FlatGreatPart, j);
    ExtendsByAddrs(ls, start.tape.value, e1.value.tape.value, f.value.tape.value);
  }

  /**
   * A call with a tape offers it the input of each of the fourteen layers
   * and keeps what the tape held: afterwards every layer can find its input.
   */
  lemma DuelingCallRecordsEveryLayer(ls: seq<AnyLayer>, state: Tensor, actions: Tensor, tape: Tape)
    requires |ls| == 14 && DuelingCall(ls, state, actions, Some(tape)).Some?
    ensures DuelingCall(ls, state, actions, Some(tape)).value.tape.Some?
    ensures DuelingCall(ls, state, actions, Some(tape)).value.tape.value.Keys == tape.Keys + AddrsOf(ls)
    ensures forall a | a in tape :: DuelingCall(ls, state, actions, Some(tape)).value.tape.value[a] == tape[a]
  {
    DuelingFlowRecords(ls, Branches(Pair(state, actions), Some(tape)));
  }

  /** Two entries with the same tensors leave one part with the same tensors, tapes aside. */
  lemma CallPartIgnoresTape(ls: seq<AnyLayer>, p: nat, e1: Option<Branches>, e2: Option<Branches>)
    requires |ls| == 14 && p < 4
    requires (e1.Some? <==> e2.Some?) && (e1.Some? ==> e1.value.inputs == e2.value.inputs)
    ensures CallPart(ls, p, e1).Some? <==> CallPart(ls, p, e2).Some?
    ensures CallPart(ls, p, e1).Some? ==> CallPart(ls, p, e1).value.inputs == CallPart(ls, p, e2).value.inputs
  {
    if e1.Some? {
      ForwardSeqIgnoresTape(Part(ls, p), e1.value.inputs.Get(p % 2), e1.value.tape, e2.value.tape);
    }
  }

  /**
   * `call(inputs)` and `call(inputs, tape)` agree: the tape only listens,
   * so the network's answer and its failures do not depend on it.
   */
  lemma DuelingCallIgnoresTape(ls: seq<AnyLayer>, state: Tensor, actions: Tensor, tape: Option<Tape>)
    requires |ls| == 14
    ensures DuelingCall(ls, state, actions, tape).Some? <==> DuelingCall(ls, state, actions, None).Some?
    ensures DuelingCall(ls, state, actions, tape).Some? ==>
      DuelingCall(ls, state, actions, tape).value.value == DuelingCall(ls, state, actions, None).value.value
  {
    var a0, b0 := Some(Branches(Pair(state, actions), tape)), Some(Branches(Pair(state, actions), None));
    var a1, b1 := CallPart(ls, ConvStatePart, a0), CallPart(ls, ConvStatePart, b0);
    CallPartIgnoresTape(ls, ConvStatePart, a0, b0);
    var a2, b2 := CallPart(ls, ConvActionsPart, a1), CallPart(ls, ConvActionsPart, b1);
    CallPartIgnoresTape(ls, ConvActionsPart, a1, b1);
    var aj, bj := Join(a2), Join(b2);
    var a3, b3 := CallPart(ls, ValuePart, aj), CallPart(ls, ValuePart, bj);
    CallPartIgnoresTape(ls, ValuePart, aj, bj);
    var a4, b4 := CallPart(ls, AdvantagePart, a3), CallPart(ls, AdvantagePart, b3);
    CallPartIgnoresTape(ls, AdvantagePart, a3, b3);
    assert DuelingFlow(ls, a0.value) == a4 && DuelingFlow(ls, b0.value) == b4;
  }

  /** Every layer keeps the batch axis of its input. */
  lemma CallKeepsBatch(l: AnyLayer, x: Tensor)
    requires l.Call(x).Some?
    ensures |x.shape| >= 1 && |l.Call(x).value.shape| >= 1 && l.Call(x).value.shape[0] == x.shape[0]
  {
  }

  /** So does a run of layers. */
  lemma {:induction false} ForwardSeqKeepsBatch(ls: seq<AnyLayer>, x: Tensor, t: Option<Tape>)
    requires |x.shape| >= 1 && ForwardSeq(ls, x, t).Some?
    ensures |ForwardSeq(ls, x, t).value.value.shape| >= 1
    ensures ForwardSeq(ls, x, t).value.value.shape[0] == x.shape[0]
    decreases |ls|
  {
    if ls != [] {
      CallKeepsBatch(ls[0], x);
      ForwardSeqKeepsBatch(ls[1..], ls[0].Call(x).value, Record(t, ls[0].Addr(), x));
    }
  }

  /** A head ends in a dense layer of one output: one number per batch row. */
  lemma HeadGivesColumn(ls: seq<AnyLayer>, width: nat, x: Tensor, t: Option<Tape>)
    requires HeadBranch(ls, width) && ForwardSeq(ls, x, t).Some?
    ensures |x.shape| >= 1 && ForwardSeq(ls, x, t).value.value.Is2()
    ensures ForwardSeq(ls, x, t).value.value.shape == [x.shape[0], 1]
  {
    var y := ls[0].Call(x).value;
    var t' := Record(t, ls[0].Addr(), x);
    assert ls[1..][0] == ls[1] && ls[1..][1..] == [];
    assert ForwardSeq(ls, x, t) == ForwardSeq(ls[1..], y, t');
    var z := ls[1].Call(y).value;
    assert ForwardSeq(ls[1..], y, t') == ForwardSeq([], z, Record(t', ls[1].Addr(), y));
  }

  /**
   * Part `p` keeps the batch axis of the branch it runs on and leaves the
   * other branch alone; a head part turns its branch into one column.
   */
  lemma CallPartShape(ls: seq<AnyLayer>, p: nat, b: Branches)
    requires Architecture(ls) && p < 4 && |b.inputs.Get(p % 2).shape| >= 1
    requires CallPart(ls, p, Some(b)).Some?
    ensures var c := CallPart(ls, p, Some(b)).value.inputs;
      c.Get(1 - p % 2) == b.inputs.Get(1 - p % 2) && |c.Get(p % 2).shape| >= 1 &&
      c.Get(p % 2).shape[0] == b.inputs.Get(p % 2).shape[0] &&
      (p >= ValuePart ==> c.Get(p % 2).Is2() && c.Get(p % 2).shape[1] == 1)
  {
    var x := b.inputs.Get(p % 2);
    ForwardSeqKeepsBatch(Part(ls, p), x, b.tape);
    if p == ValuePart {
      HeadGivesColumn(Part(ls, p), 10, x, b.tape);
    } else if p == AdvantagePart {
      HeadGivesColumn(Part(ls, p), 20, x, b.tape);
    }
  }

  /**
   * With one state, the network answers with one column holding a value
   * per candidate action: the head outputs `[1, 1]` and `[n, 1]` broadcast
   * to `[n, 1]`.
   */
  lemma DuelingCallShape(ls: seq<AnyLayer>, state: Tensor, actions: Tensor, tape: Option<Tape>)
    requires Architecture(ls) && |state.shape| >= 1 && state.shape[0] == 1 && |actions.shape| >= 1
    requires DuelingCall(ls, state, actions, tape).Some?
    ensures DuelingCall(ls, state, actions, tape).value.value.Is2()
    ensures DuelingCall(ls, state, actions, tape).value.value.shape == [actions.shape[0], 1]
    ensures |DuelingCall(ls, state, actions, tape).value.value.data| == actions.shape[0]
  {
    var b0 := Branches(Pair(state, actions), tape);
    var b1 := CallPart(ls, ConvStatePart, Some(b0));
    var b2 := CallPart(ls, ConvActionsPart, b1);
    var bj := Join(b2);
    var b3 := CallPart(ls, ValuePart, bj);
    var b4 := CallPart(ls, AdvantagePart, b3);
    assert DuelingFlow(ls, b0) == b4;
    CallPartShape(ls, ConvStatePart, b0);
    CallPartShape(ls, ConvActionsPart, b1.value);
    CallPartShape(ls, ValuePart, bj.value);
    CallPartShape(ls, AdvantagePart, b3.value);
    var v, a := b4.value.inputs.state, b4.value.inputs.actions;
    assert v.shape == [1, 1] && a.shape == [actions.shape[0], 1];
    ProductOfTwo(actions.shape[0], 1);
  }

  // ---------------------------------------------------------------------------
  // Backward

  /** The outputs and deltas of both branches, and the gradient map they share. */
  datatype Pass = Pass(outputs: Pair, deltas: Pair, gradients: GradientMap)

  /**
   * `get_gradient_from_layers_part(p, branch_outputs[branch], branch_deltas[branch], ...)`:
   * the layers of part `p` from last to first, on the branch `p` belongs to.
   */
  function BackPart(ls: seq<AnyLayer>, tape: Tape, p: nat, e: Option<Pass>): Option<Pass>
    requires |ls| == 14 && p < 4
    reads Objs(ls)
  {
    match e
    case None => None
    case Some(ps) =>
      assert Objs(Part(ls, p)) <= Objs(ls) by {
        forall l | l in Part(ls, p)
          ensures l in ls
        {
        }
      }
      var branch := p % 2;
      match BackwardSeq(Part(ls, p), tape, BackwardResult(ps.outputs.Get(branch), ps.deltas.Get(branch), ps.gradients))
      case None => None
      case Some(r) => Some(Pass(ps.outputs.Set(branch, r.outputs), ps.deltas.Set(branch, r.deltas), r.gradients))
  }

  /**
   * On entering the convolutional great part the actions' deltas are split at
   * the state's width: the first features fold into the state's deltas, the
   * rest stay with the actions, and the actions' outputs lose the same
   * first features. Tensors that are not matrices make the views throw.
   */
  function Fold(e: Option<Pass>): Option<Pass>
  {
    match e
    case None => None
    case Some(ps) =>
      if !(ps.deltas.state.Is2() && ps.deltas.actions.Is2() && ps.outputs.actions.Is2()) then None
      else
        var breakPoint := ps.deltas.state.shape[1];
        match Merge(ps.deltas.state, ps.deltas.actions)
        case None => None
        case Some(sd) =>
          Some(Pass(Pair(ps.outputs.state, Suffix(ps.outputs.actions, breakPoint)),
                    Pair(sd, Suffix(ps.deltas.actions, breakPoint)), ps.gradients))
  }

  /** Great part `g` run on a pass: its actions branch, then its state branch. */
  function GreatPartPass(ls: seq<AnyLayer>, tape: Tape, g: nat, e: Option<Pass>): Option<Pass>
    requires |ls| == 14 && g < GreatPartsTotal
    reads Objs(ls)
  {
    BackPart(ls, tape, PartName(g, StateBranch), BackPart(ls, tape, PartName(g, ActionsBranch), e))
  }

  /** The parts of `get_gradient`: the flat great part, the fold, then the convolutional great part. */
  function DuelingPass(ls: seq<AnyLayer>, tape: Tape, start: Pass): Option<Pass>
    requires |ls| == 14
    reads Objs(ls)
  {
    GreatPartPass(ls, tape, ConvGreatPart, Fold(GreatPartPass(ls, tape, FlatGreatPart, Some(start))))
  }

  /**
   * `ModelDueling::get_gradient`: both branches start from the model's
   * outputs and the caller's deltas; the gradient map is what the caller
   * gets back.
   */
  function DuelingBackward(ls: seq<AnyLayer>, outputs: Tensor, deltas: Tensor, tape: Tape, gm: GradientMap): Option<GradientMap>
    requires |ls| == 14
    reads Objs(ls)
  {
    match DuelingPass(ls, tape, Pass(Pair(outputs, outputs), Pair(deltas, deltas), gm))
    case None => None
    case Some(ps) => Some(ps.gradients)
  }

  lemma {:induction false} ParamsOfJoin(a: seq<AnyLayer>, b: seq<AnyLayer>)
    ensures ParamsOf(a + b) == ParamsOf(a) + ParamsOf(b)
    decreases |b|
  {
    var ab := a + b;
    if b == [] {
      assert ab == a;
    } else {
      assert ab[..|ab| - 1] == a + b[..|b| - 1];
      assert ab[|ab| - 1] == b[|b| - 1];
      ParamsOfJoin(a, b[..|b| - 1]);
    }
  }

  /** The gradient keys of the fourteen layers are those of the four parts. */
  lemma ParamsOfParts(ls: seq<AnyLayer>)
    requires |ls| == 14
    ensures ParamsOf(ls) == ParamsOf(Part(ls, 0)) + ParamsOf(Part(ls, 1)) + ParamsOf(Part(ls, 2)) + ParamsOf(Part(ls, 3))
  {
    assert ls == Part(ls, 0) + Part(ls, 1) + Part(ls, 2) + Part(ls, 3);
    ParamsOfJoin(Part(ls, 0), Part(ls, 1));
    ParamsOfJoin(Part(ls, 0) + Part(ls, 1), Part(ls, 2));
    ParamsOfJoin(Part(ls, 0) + Part(ls, 1) + Part(ls, 2), Part(ls, 3));
  }

  /** The fold leaves the gradient map alone. */
  lemma FoldKeepsGradients(e: Option<Pass>)
    requires Fold(e).Some?
    ensures e.Some? && Fold(e).value.gradients == e.value.gradients
  {
  }

  /** One part adds its layers' gradient keys and keeps every entry. */
  lemma BackPartKeys(ls: seq<AnyLayer>, tape: Tape, p: nat, e: Option<Pass>)
    requires |ls| == 14 && p < 4 && BackPart(ls, tape, p, e).Some?
    ensures e.Some? && Extends(e.value.gradients, BackPart(ls, tape, p, e).value.gradients, ParamsOf(Part(ls, p)))
  {
  }

  /** A great part adds the gradient keys of both its parts and keeps every entry. */
  lemma GreatPartPassKeys(ls: seq<AnyLayer>, tape: Tape, g: nat, e: Option<Pass>)
    requires |ls| == 14 && g < GreatPartsTotal && GreatPartPass(ls, tape, g, e).Some?
    ensures e.Some? && Extends(e.value.gradients, GreatPartPass(ls, tape, g, e).value.gradients,
                               ParamsOf(Part(ls, 2 * g + 1)) + ParamsOf(Part(ls, 2 * g)))
  {
    var e1 := BackPart(ls, tape, PartName(g, ActionsBranch), e);
    BackPartKeys(ls, tape, PartName(g, StateBranch), e1);
    BackPartKeys(ls, tape, PartName(g, ActionsBranch), e);
    ExtendsTrans(e.value.gradients, e1.value.gradients, GreatPartPass(ls, tape, g, e).value.gradients,
                 ParamsOf(Part(ls, 2 * g + 1)), ParamsOf(Part(ls, 2 * g)));
  }

  /** The parts of `get_gradient` add the gradient keys of all fourteen layers and keep every entry. */
  lemma DuelingPassKeys(ls: seq<AnyLayer>, tape: Tape, start: Pass)
    requires |ls| == 14 && DuelingPass(ls, tape, start).Some?
    ensures Extends(start.gradients, DuelingPass(ls, tape, start).value.gradients, ParamsOf(ls))
  {
    var e1 := GreatPartPass(ls, tape, FlatGreatPart, Some(start));
    var f := Fold(e1);
    GreatPartPassKeys(ls, tape, ConvGreatPart, f);
    FoldKeepsGradients(e1);
    GreatPartPassKeys(ls, tape, FlatGreatPart, Some(start));
    ExtendsTrans(start.gradients, e1.value.gradients, DuelingPass(ls, tape, start).value.gradients,
                 ParamsOf(Part(ls, 3)) + ParamsOf(Part(ls, 2)), ParamsOf(Part(ls, 1)) + ParamsOf(Part(ls, 0)));
    ExtendsByParts(ls, start.gradients, DuelingPass(ls, tape, start).value.gradients);
  }

  /**
   * A completed `get_gradient` adds a gradient for every weight and bias of
   * the fourteen layers and leaves the caller's entries alone.
   */
  lemma DuelingBackwardKeys(ls: seq<AnyLayer>, outputs: Tensor, deltas: Tensor, tape: Tape, gm: GradientMap)
    requires |ls| == 14 && DuelingBackward(ls, outputs, deltas, tape, gm).Some?
    ensures DuelingBackward(ls, outputs, deltas, tape, gm).value.Keys == gm.Keys + ParamsOf(ls)
    ensures forall g | g in gm :: DuelingBackward(ls, outputs, deltas, tape, gm).value[g] == gm[g]
  {
    DuelingPassKeys(ls, tape, Pass(Pair(outputs, outputs), Pair(deltas, deltas), gm));
  }

  /** Adding the keys of the four parts is adding the keys of the fourteen layers. */
  lemma ExtendsByParts(ls: seq<AnyLayer>, m: GradientMap, m': GradientMap)
    requires |ls| == 14
    requires Extends(m, m', ParamsOf(Part(ls, 3)) + ParamsOf(Part(ls, 2)) + (ParamsOf(Part(ls, 1)) + ParamsOf(Part(ls, 0))))
    ensures Extends(m, m', ParamsOf(ls))
  {
    ParamsOfParts(ls);
    assert ParamsOf(Part(ls, 3)) + ParamsOf(Part(ls, 2)) + (ParamsOf(Part(ls, 1)) + ParamsOf(Part(ls, 0))) == ParamsOf(ls);
  }

  // ---------------------------------------------------------------------------
  // The backward call as written

  /** `backward(deltas, outputs, ...)` against the signature `backward(outputs, deltas, ...)`. */
  function Swap(st: BackwardResult): (r: BackwardResult)
    ensures r.outputs == st.deltas && r.deltas == st.outputs && r.gradients == st.gradients
  {
    BackwardResult(st.deltas, st.outputs, st.gradients)
  }

  function SwapResult(r: Option<BackwardResult>): Option<BackwardResult>
  {
    match r
    case None => None
    case Some(st) => Some(Swap(st))
  }

  /**
   * The loop of `get_gradient_from_layers_part` as written: each layer
   * receives the deltas where it expects the outputs and the outputs where
   * it expects the deltas, and writes its results back the same way round.
   */
  function BackwardSeqAsWritten(ls: seq<AnyLayer>, tape: Tape, st: BackwardResult): Option<BackwardResult>
    reads Objs(ls)
    decreases |ls|
  {
    if ls == [] then Some(st)
    else
      assert Objs(ls[..|ls| - 1]) <= Objs(ls);
      match ls[|ls| - 1].BackwardStep(tape, Swap(st))
      case None => None
      case Some(st') => BackwardSeqAsWritten(ls[..|ls| - 1], tape, Swap(st'))
  }

  /** As written, a part runs the intended pass on the two tensors with their roles exchanged. */
  lemma {:induction false} AsWrittenIsSwappedPass(ls: seq<AnyLayer>, tape: Tape, st: BackwardResult)
    ensures BackwardSeqAsWritten(ls, tape, st) == SwapResult(BackwardSeq(ls, tape, Swap(st)))
    decreases |ls|
  {
    if ls != [] {
      match ls[|ls| - 1].BackwardStep(tape, Swap(st))
      case None =>
      case Some(st') =>
        AsWrittenIsSwappedPass(ls[..|ls| - 1], tape, Swap(st'));
        assert Swap(Swap(st')) == st';
    }
  }

  /**
   * As written, a flatten layer leaves its own recorded input in the
   * variable the caller keeps its deltas in, and the incoming `outputs`
   * variable, reshaped, in the one it keeps its outputs in: the two
   * tensors change places at every layer.
   */
  lemma FlattenAsWrittenExchangesRoles(l: AnyLayer, tape: Tape, outputs: Tensor, deltas: Tensor, gm: GradientMap)
    requires l.Flatten? && l.Addr() in tape && tape[l.Addr()].Valid()
    requires outputs.Valid() && |outputs.data| == |tape[l.Addr()].data|
    ensures BackwardSeqAsWritten([l], tape, BackwardResult(outputs, deltas, gm)).Some?
    ensures BackwardSeqAsWritten([l], tape, BackwardResult(outputs, deltas, gm)).value.deltas == tape[l.Addr()]
    ensures BackwardSeqAsWritten([l], tape, BackwardResult(outputs, deltas, gm)).value.outputs ==
      Tensor(tape[l.Addr()].shape, outputs.data)
  {
    assert [l][..0] == [];
  }

  /** Called the intended way round, a flatten layer hands on the deltas it receives, reshaped. */
  lemma FlattenPassesDeltasOn(l: AnyLayer, tape: Tape, outputs: Tensor, deltas: Tensor, gm: GradientMap)
    requires l.Flatten? && l.Addr() in tape && tape[l.Addr()].Valid()
    requires deltas.Valid() && |deltas.data| == |tape[l.Addr()].data|
    ensures BackwardSeq([l], tape, BackwardResult(outputs, deltas, gm)).Some?
    ensures BackwardSeq([l], tape, BackwardResult(outputs, deltas, gm)).value.deltas ==
      Tensor(tape[l.Addr()].shape, deltas.data)
  {
    assert [l][..0] == [];
  }

  /** Both branches' outputs and deltas exchanged. */
  function SwapPass(ps: Pass): (r: Pass)
    ensures r.outputs == ps.deltas && r.deltas == ps.outputs && r.gradients == ps.gradients
  {
    Pass(ps.deltas, ps.outputs, ps.gradients)
  }

  function SwapPasses(e: Option<Pass>): Option<Pass>
  {
    match e
    case None => None
    case Some(ps) => Some(SwapPass(ps))
  }

  /** `get_gradient_from_layers_part` as written, on the branch part `p` belongs to. */
  function BackPartAsWritten(ls: seq<AnyLayer>, tape: Tape, p: nat, e: Option<Pass>): Option<Pass>
    requires |ls| == 14 && p < 4
    reads Objs(ls)
  {
    match e
    case None => None
    case Some(ps) =>
      assert Objs(Part(ls, p)) <= Objs(ls) by {
        forall l | l in Part(ls, p)
          ensures l in ls
        {
        }
      }
      var branch := p % 2;
      match BackwardSeqAsWritten(Part(ls, p), tape, BackwardResult(ps.outputs.Get(branch), ps.deltas.Get(branch), ps.gradients))
      case None => None
      case Some(r) => Some(Pass(ps.outputs.Set(branch, r.outputs), ps.deltas.Set(branch, r.deltas), r.gradients))
  }

  function GreatPartPassAsWritten(ls: seq<AnyLayer>, tape: Tape, g: nat, e: Option<Pass>): Option<Pass>
    requires |ls| == 14 && g < GreatPartsTotal
    reads Objs(ls)
  {
    BackPartAsWritten(ls, tape, PartName(g, StateBranch), BackPartAsWritten(ls, tape, PartName(g, ActionsBranch), e))
  }

  /** `get_gradient` as written: every part calls its layers with the two tensors exchanged. */
  function DuelingPassAsWritten(ls: seq<AnyLayer>, tape: Tape, start: Pass): Option<Pass>
    requires |ls| == 14
    reads Objs(ls)
  {
    GreatPartPassAsWritten(ls, tape, ConvGreatPart, Fold(GreatPartPassAsWritten(ls, tape, FlatGreatPart, Some(start))))
  }

  function DuelingBackwardAsWritten(ls: seq<AnyLayer>, outputs: Tensor, deltas: Tensor, tape: Tape, gm: GradientMap): Option<GradientMap>
    requires |ls| == 14
    reads Objs(ls)
  {
    match DuelingPassAsWritten(ls, tape, Pass(Pair(outputs, outputs), Pair(deltas, deltas), gm))
    case None => None
    case Some(ps) => Some(ps.gradients)
  }

  /** As written, a part runs the intended pass with both branches' tensors exchanged, and exchanges them back. */
  lemma BackPartAsWrittenIsSwapped(ls: seq<AnyLayer>, tape: Tape, p: nat, e: Option<Pass>)
    requires |ls| == 14 && p < 4
    ensures BackPartAsWritten(ls, tape, p, e) == SwapPasses(BackPart(ls, tape, p, SwapPasses(e)))
  {
    match e
    case None =>
    case Some(ps) =>
      var b := p % 2;
      var st := BackwardResult(ps.outputs.Get(b), ps.deltas.Get(b), ps.gradients);
      AsWrittenIsSwappedPass(Part(ls, p), tape, st);
      assert Swap(st) == BackwardResult(SwapPass(ps).outputs.Get(b), SwapPass(ps).deltas.Get(b), ps.gradients);
  }

  lemma GreatPartAsWrittenIsSwapped(ls: seq<AnyLayer>, tape: Tape, g: nat, e: Option<Pass>)
    requires |ls| == 14 && g < GreatPartsTotal
    ensures GreatPartPassAsWritten(ls, tape, g, e) == SwapPasses(GreatPartPass(ls, tape, g, SwapPasses(e)))
  {
    var a := PartName(g, ActionsBranch);
    BackPartAsWrittenIsSwapped(ls, tape, a, e);
    BackPartAsWrittenIsSwapped(ls, tape, PartName(g, StateBranch), BackPartAsWritten(ls, tape, a, e));
    var m := BackPart(ls, tape, a, SwapPasses(e));
    assert SwapPasses(SwapPasses(m)) == m;
  }

  /**
   * As written, the whole pass is the intended one with the tensors
   * exchanged on entering and leaving each great part: the heads start from
   * the model's outputs as their deltas, and the fold between the great
   * parts works on the exchanged tensors.
   */
  lemma DuelingPassAsWrittenIsSwapped(ls: seq<AnyLayer>, tape: Tape, start: Pass)
    requires |ls| == 14
    ensures DuelingPassAsWritten(ls, tape, start) ==
      SwapPasses(GreatPartPass(ls, tape, ConvGreatPart,
        SwapPasses(Fold(SwapPasses(GreatPartPass(ls, tape, FlatGreatPart, Some(SwapPass(start))))))))
  {
    GreatPartAsWrittenIsSwapped(ls, tape, FlatGreatPart, Some(start));
    var w := GreatPartPassAsWritten(ls, tape, FlatGreatPart, Some(start));
    GreatPartAsWrittenIsSwapped(ls, tape, ConvGreatPart, Fold(w));
  }

  /**
   * What the fold sees as written when the heads' pass completes: in place
   * of deltas, the recorded inputs of the two heads, which it merges; in
   * place of outputs, the heads' deltas. So the state's convolutional part
   * is handed the value head's deltas alone, and the actions' part the
   * advantage head's deltas past the state's width.
   */
  lemma AsWrittenFoldsRecordedInputs(ls: seq<AnyLayer>, tape: Tape, start: Pass)
    requires |ls| == 14
    requires GreatPartPass(ls, tape, FlatGreatPart, Some(SwapPass(start))).Some?
    ensures var w := GreatPartPassAsWritten(ls, tape, FlatGreatPart, Some(start));
      var r := GreatPartPass(ls, tape, FlatGreatPart, Some(SwapPass(start))).value;
      && w.Some? && ls[10].Addr() in tape && ls[12].Addr() in tape
      && w.value.deltas == Pair(tape[ls[10].Addr()], tape[ls[12].Addr()])
      && w.value.outputs == r.deltas
      && (Fold(w).Some? ==>
          && Fold(w).value.deltas.state == Merge(tape[ls[10].Addr()], tape[ls[12].Addr()]).value
          && Fold(w).value.outputs.state == r.deltas.state
          && Fold(w).value.outputs.actions == Suffix(r.deltas.actions, tape[ls[10].Addr()].shape[1]))
  {
    GreatPartAsWrittenIsSwapped(ls, tape, FlatGreatPart, Some(start));
    var m := BackPart(ls, tape, AdvantagePart, Some(SwapPass(start)));
    var mv := m.value;
    var pa := Part(ls, AdvantagePart);
    var sa := BackwardResult(SwapPass(start).outputs.Get(1), SwapPass(start).deltas.Get(1), start.gradients);
    BackwardSeqEndsOnFirstInput(pa, tape, sa);
    var pv := Part(ls, ValuePart);
    var sv := BackwardResult(mv.outputs.Get(0), mv.deltas.Get(0), mv.gradients);
    BackwardSeqEndsOnFirstInput(pv, tape, sv);
    assert pa[0] == ls[12] && pv[0] == ls[10];
  }

  // ---------------------------------------------------------------------------
  // A built network

  /**
   * The shapes the five layers of a convolutional branch are built with,
   * for the field shape `s`: 3x3 Valid convolutions shrink height and width
   * by 2 on `size_t`, 2x2 pooling takes `(d - 1) / 2 + 1` of them.
   */
  function ConvShapes(s: seq<nat>): (r: seq<seq<nat>>)
    requires |s| == 4
    ensures |r| == 5 && forall i | 0 <= i < 5 :: |r[i]| == 4 && r[i][0] == s[0]
  {
    var s1 := [s[0], SizeSub(s[1], 2), SizeSub(s[2], 2), 10];
    var s2 := [s[0], LayerMaxPooling2D.PoolExtent(s1[1], 2), LayerMaxPooling2D.PoolExtent(s1[2], 2), 10];
    var s3 := [s[0], SizeSub(s2[1], 2), SizeSub(s2[2], 2), 20];
    var s4 := [s[0], LayerMaxPooling2D.PoolExtent(s3[1], 2), LayerMaxPooling2D.PoolExtent(s3[2], 2), 20];
    [s, s1, s2, s3, s4]
  }

  /** The features a convolutional branch hands on per batch row. */
  function Features(s: seq<nat>): nat
    requires |s| == 4
  {
    Product(ConvShapes(s)[4])
  }

  /** A convolutional branch is built with `ConvShapes(s)` and ends in `[batch, Features(s)]`. */
  lemma ConvBranchShapes(ls: seq<AnyLayer>, s: seq<nat>)
    requires ConvBranch(ls) && |s| == 4
    ensures ChainOk(ls, s) && InputShapes(ls, s) == ConvShapes(s)
    ensures FinalShape(ls, s) == [s[0], Features(s)]
  {
    ConvBranchChain(ls, s);
    var r, c := InputShapes(ls, s), ConvShapes(s);
    assert ls[0].conv.PadWidths() == (2, 2) && ls[2].conv.PadWidths() == (2, 2);
    assert r[1] == c[1];
    assert r[2] == c[2];
    assert r[3] == c[3];
    assert r[4] == c[4];
    FinalShapeOfLast(ls, s);
  }

  /**
   * The field sizes the network handles without wrap-around or an empty
   * window: one state per call, at least seven rows and columns, and
   * feature widths that `size_t` holds twice over.
   */
  predicate FieldFits(s: seq<nat>)
  {
    |s| == 4 && s[0] == 1 && 7 <= s[1] < SizeModulus && 7 <= s[2] < SizeModulus && 2 * Features(s) < SizeModulus
  }

  /** On such a field every layer of a convolutional branch fits the shape it is built with. */
  lemma ConvBranchFits(ls: seq<AnyLayer>, s: seq<nat>)
    requires ConvBranch(ls) && FieldFits(s)
    ensures forall i | 0 <= i < 5 :: ls[i].Fits(ConvShapes(s)[i])
  {
    var c := ConvShapes(s);
    LayerMaxPooling2D.PoolExtentIsCeiling(c[1][1], 2);
    LayerMaxPooling2D.PoolExtentIsCeiling(c[1][2], 2);
    LayerMaxPooling2D.PoolExtentIsCeiling(c[3][1], 2);
    LayerMaxPooling2D.PoolExtentIsCeiling(c[3][2], 2);
    assert ls[0].Fits(c[0]) && ls[1].Fits(c[1]) && ls[2].Fits(c[2]) && ls[3].Fits(c[3]) && ls[4].Fits(c[4]);
  }

  /** A head is built with its input shape, then `width` features, and ends in one column. */
  lemma HeadShapes(ls: seq<AnyLayer>, width: nat, shape: seq<nat>)
    requires HeadBranch(ls, width) && |shape| == 2
    ensures ChainOk(ls, shape) && InputShapes(ls, shape) == [shape, [shape[0], width]]
    ensures FinalShape(ls, shape) == [shape[0], 1]
    ensures ls[0].Fits(shape) && ls[1].Fits([shape[0], width])
  {
    HeadChain(ls, width, shape);
    assert ls[1..][1..] == [];
    assert InputShapes(ls, shape)[1] == [shape[0], width];
    FinalShapeOfLast(ls, shape);
  }

  /** The shape each part starts from, on a field that fits. */
  lemma StartShapes(ls: seq<AnyLayer>, s: seq<nat>)
    requires Architecture(ls) && FieldFits(s)
    ensures BuildOk(ls, s)
    ensures StartShape(ls, s, ConvStatePart) == s && StartShape(ls, s, ConvActionsPart) == s
    ensures StartShape(ls, s, ValuePart) == [1, Features(s)]
    ensures StartShape(ls, s, AdvantagePart) == [1, 2 * Features(s)]
  {
    ArchitectureBuilds(ls, s);
    ConvBranchShapes(Part(ls, ConvStatePart), s);
    ConvBranchShapes(Part(ls, ConvActionsPart), s);
  }

  /**
   * What `build(shape)` leaves behind: the fourteen layers of the
   * architecture, with distinct addresses, each valid and built with the
   * shape its part hands it.
   */
  ghost predicate Built(ls: seq<AnyLayer>, s: seq<nat>)
    reads Objs(ls)
  {
    Architecture(ls) && DistinctAddrs(ls) && |s| == 4 && BuildOk(ls, s) &&
    forall i | 0 <= i < 14 :: ls[i].Valid() && ls[i].BuiltFor(BuildInput(ls, s, i))
  }

  /** Two networks of the architecture hold layers of the same configuration at every position. */
  lemma ConfigsAgree(a: seq<AnyLayer>, b: seq<AnyLayer>)
    requires Architecture(a) && Architecture(b)
    ensures forall i | 0 <= i < 14 :: SameConfig(a[i], b[i])
  {
    forall i | 0 <= i < 14
      ensures SameConfig(a[i], b[i])
    {
      var p := PartOf(i);
      assert Part(a, p)[i - Parts[p].partBegin] == a[i];
      assert Part(b, p)[i - Parts[p].partBegin] == b[i];
    }
  }

  /** Two networks of the architecture thread the same shapes through part `p`. */
  lemma PartShapesAgree(a: seq<AnyLayer>, b: seq<AnyLayer>, s: seq<nat>, p: nat)
    requires Architecture(a) && Architecture(b) && |s| == 4 && p < 4
    ensures BuildOk(a, s) && BuildOk(b, s) && StartShape(a, s, p) == StartShape(b, s, p)
    ensures InputShapes(Part(a, p), StartShape(a, s, p)) == InputShapes(Part(b, p), StartShape(b, s, p))
  {
    ArchitectureBuilds(a, s);
    ArchitectureBuilds(b, s);
    if p < ValuePart {
      ConvBranchShapes(Part(a, p), s);
      ConvBranchShapes(Part(b, p), s);
    } else {
      ConvBranchFinal(Part(a, ConvStatePart), s);
      ConvBranchFinal(Part(b, ConvStatePart), s);
      if p == ValuePart {
        HeadShapes(Part(a, p), 10, StartShape(a, s, p));
        HeadShapes(Part(b, p), 10, StartShape(b, s, p));
      } else {
        ConvBranchFinal(Part(a, ConvActionsPart), s);
        ConvBranchFinal(Part(b, ConvActionsPart), s);
        HeadShapes(Part(a, p), 20, StartShape(a, s, p));
        HeadShapes(Part(b, p), 20, StartShape(b, s, p));
      }
    }
  }

  /** Two networks of the architecture build every position with the same shape. */
  lemma BuildInputsAgree(a: seq<AnyLayer>, b: seq<AnyLayer>, s: seq<nat>)
    requires Architecture(a) && Architecture(b) && |s| == 4
    ensures BuildOk(a, s) && BuildOk(b, s)
    ensures forall i | 0 <= i < 14 :: BuildInput(a, s, i) == BuildInput(b, s, i)
  {
    ArchitectureBuilds(a, s);
    ArchitectureBuilds(b, s);
    forall i | 0 <= i < 14
      ensures BuildInput(a, s, i) == BuildInput(b, s, i)
    {
      PartShapesAgree(a, b, s, PartOf(i));
    }
  }

  /** On a field that fits, every layer of part `p` fits the shape its part hands it. */
  lemma PartFits(ls: seq<AnyLayer>, s: seq<nat>, p: nat)
    requires Architecture(ls) && FieldFits(s) && p < 4
    ensures BuildOk(ls, s) && ChainOk(Part(ls, p), StartShape(ls, s, p))
    ensures forall i | 0 <= i < |Part(ls, p)| :: Part(ls, p)[i].Fits(InputShapes(Part(ls, p), StartShape(ls, s, p))[i])
  {
    StartShapes(ls, s);
    var part, start := Part(ls, p), StartShape(ls, s, p);
    if p < ValuePart {
      ConvBranchShapes(part, s);
      ConvBranchFits(part, s);
    } else {
      HeadShapes(part, if p == ValuePart then 10 else 20, start);
    }
  }

  /** In a network built for a field that fits, layer `i` of part `p` is ready for the shape it was built with. */
  lemma PartLayerReady(ls: seq<AnyLayer>, s: seq<nat>, p: nat, i: nat)
    requires Built(ls, s) && FieldFits(s) && p < 4 && i < |Part(ls, p)|
    ensures ChainOk(Part(ls, p), StartShape(ls, s, p))
    ensures Part(ls, p)[i].Ready(InputShapes(Part(ls, p), StartShape(ls, s, p))[i])
  {
    PartFits(ls, s, p);
    var j := Parts[p].partBegin + i;
    assert Part(ls, p)[i] == ls[j] && PartOf(j) == p;
    assert ls[j].Valid() && ls[j].BuiltFor(BuildInput(ls, s, j));
  }

  /** In a network built for a field that fits, every layer of part `p` is ready for the shape it was built with. */
  lemma PartRunFits(ls: seq<AnyLayer>, s: seq<nat>, p: nat)
    requires Built(ls, s) && FieldFits(s) && p < 4
    ensures RunFits(Part(ls, p), StartShape(ls, s, p))
  {
    PartFits(ls, s, p);
    forall i | 0 <= i < |Part(ls, p)|
      ensures Part(ls, p)[i].Ready(InputShapes(Part(ls, p), StartShape(ls, s, p))[i])
    {
      PartLayerReady(ls, s, p, i);
    }
  }

  /**
   * A part whose layers fit, run on its branch's input of the start shape
   * at batch `n`, leaves the final shape at that batch on its branch and
   * the other branch alone.
   */
  lemma PartAnswers(ls: seq<AnyLayer>, start: seq<nat>, p: nat, n: nat, b: Branches)
    requires |ls| == 14 && p < 4 && RunFits(Part(ls, p), start) && |start| >= 1
    requires b.inputs.Get(p % 2).Valid() && b.inputs.Get(p % 2).shape == Rebatch(start, n)
    ensures CallPart(ls, p, Some(b)).Some?
    ensures var c := CallPart(ls, p, Some(b)).value;
      c.inputs.Get(p % 2).Valid() && c.inputs.Get(p % 2).shape == Rebatch(FinalShape(Part(ls, p), start), n) &&
      c.inputs.Get(1 - p % 2) == b.inputs.Get(1 - p % 2)
  {
    ForwardSeqFits(Part(ls, p), start, n, b.inputs.Get(p % 2), b.tape);
  }

  /** The state branch after the convolutional great part: one row of `Features(s)` features. */
  lemma ConvStateAnswers(ls: seq<AnyLayer>, s: seq<nat>, b: Branches)
    requires Built(ls, s) && FieldFits(s) && b.inputs.state.Valid() && b.inputs.state.shape == s
    ensures CallPart(ls, ConvStatePart, Some(b)).Some?
    ensures var c := CallPart(ls, ConvStatePart, Some(b)).value;
      c.inputs.actions == b.inputs.actions && c.inputs.state.Valid() && c.inputs.state.shape == [1, Features(s)]
  {
    PartRunFits(ls, s, ConvStatePart);
    StartShapes(ls, s);
    ConvBranchShapes(Part(ls, ConvStatePart), s);
    assert Rebatch(s, 1) == s;
    PartAnswers(ls, s, ConvStatePart, 1, b);
  }

  /** The actions branch after the convolutional great part: one row of `Features(s)` features per candidate. */
  lemma ConvActionsAnswers(ls: seq<AnyLayer>, s: seq<nat>, n: nat, b: Branches)
    requires Built(ls, s) && FieldFits(s) && b.inputs.actions.Valid() && b.inputs.actions.shape == s[0 := n]
    ensures CallPart(ls, ConvActionsPart, Some(b)).Some?
    ensures var c := CallPart(ls, ConvActionsPart, Some(b)).value;
      c.inputs.state == b.inputs.state && c.inputs.actions.Valid() && c.inputs.actions.shape == [n, Features(s)]
  {
    PartRunFits(ls, s, ConvActionsPart);
    StartShapes(ls, s);
    ConvBranchShapes(Part(ls, ConvActionsPart), s);
    PartAnswers(ls, s, ConvActionsPart, n, b);
  }

  /** The value head on one row of features: one number. */
  lemma ValueAnswers(ls: seq<AnyLayer>, s: seq<nat>, b: Branches)
    requires Built(ls, s) && FieldFits(s) && b.inputs.state.Valid() && b.inputs.state.shape == [1, Features(s)]
    ensures CallPart(ls, ValuePart, Some(b)).Some?
    ensures var c := CallPart(ls, ValuePart, Some(b)).value;
      c.inputs.actions == b.inputs.actions && c.inputs.state.Valid() && c.inputs.state.shape == [1, 1]
  {
    PartRunFits(ls, s, ValuePart);
    StartShapes(ls, s);
    HeadShapes(Part(ls, ValuePart), 10, [1, Features(s)]);
    PartAnswers(ls, [1, Features(s)], ValuePart, 1, b);
  }

  /** The advantage head on the joined rows: one number per candidate. */
  lemma AdvantageAnswers(ls: seq<AnyLayer>, s: seq<nat>, n: nat, b: Branches)
    requires Built(ls, s) && FieldFits(s) && b.inputs.actions.Valid() && b.inputs.actions.shape == [n, 2 * Features(s)]
    ensures CallPart(ls, AdvantagePart, Some(b)).Some?
    ensures var c := CallPart(ls, AdvantagePart, Some(b)).value;
      c.inputs.state == b.inputs.state && c.inputs.actions.Valid() && c.inputs.actions.shape == [n, 1]
  {
    PartRunFits(ls, s, AdvantagePart);
    StartShapes(ls, s);
    HeadShapes(Part(ls, AdvantagePart), 20, [1, 2 * Features(s)]);
    PartAnswers(ls, [1, 2 * Features(s)], AdvantagePart, n, b);
  }

  /** Joining one state row of `w` features to `n` candidate rows of `w` features gives rows of `2 * w`. */
  lemma JoinAnswers(b: Branches, n: nat, w: nat)
    requires b.inputs.state.Valid() && b.inputs.state.shape == [1, w]
    requires b.inputs.actions.Valid() && b.inputs.actions.shape == [n, w]
    ensures Join(Some(b)).Some? && Join(Some(b)).value.inputs.state == b.inputs.state
    ensures Join(Some(b)).value.tape == b.tape
    ensures Join(Some(b)).value.inputs.actions.Valid() && Join(Some(b)).value.inputs.actions.shape == [n, 2 * w]
  {
  }

  /**
   * A network built for a field that fits answers every state of that
   * field with any positive number of candidate actions of the same field:
   * `call` does not throw, and yields one value per candidate.
   */
  lemma BuiltNetworkAnswers(ls: seq<AnyLayer>, s: seq<nat>, n: nat, state: Tensor, actions: Tensor, tape: Option<Tape>)
    requires Built(ls, s) && FieldFits(s) && n > 0
    requires state.Valid() && state.shape == s && actions.Valid() && actions.shape == s[0 := n]
    ensures DuelingCall(ls, state, actions, tape).Some?
    ensures DuelingCall(ls, state, actions, tape).value.value.shape == [n, 1]
  {
    var b0 := Branches(Pair(state, actions), tape);
    FlowAnswers(ls, s, n, b0);
    SumAnswers(ls, b0, n);
  }

  /** Value plus advantage on the rows every part leaves: one number per candidate. */
  lemma SumAnswers(ls: seq<AnyLayer>, b: Branches, n: nat)
    requires |ls| == 14
    requires var c := DuelingFlow(ls, b);
      c.Some? && c.value.inputs.state.Valid() && c.value.inputs.state.shape == [1, 1] &&
      c.value.inputs.actions.Valid() && c.value.inputs.actions.shape == [n, 1]
    ensures DuelingCall(ls, b.inputs.state, b.inputs.actions, b.tape).Some?
    ensures DuelingCall(ls, b.inputs.state, b.inputs.actions, b.tape).value.value.shape == [n, 1]
    ensures DuelingCall(ls, b.inputs.state, b.inputs.actions, b.tape).value.tape == DuelingFlow(ls, b).value.tape
  {
    assert b == Branches(Pair(b.inputs.state, b.inputs.actions), b.tape);
  }

  /** Every part in turn, on a state of the field and `n` candidates: one number for the state and one per candidate. */
  lemma FlowAnswers(ls: seq<AnyLayer>, s: seq<nat>, n: nat, b: Branches)
    requires Built(ls, s) && FieldFits(s)
    requires b.inputs.state.Valid() && b.inputs.state.shape == s
    requires b.inputs.actions.Valid() && b.inputs.actions.shape == s[0 := n]
    ensures var c := DuelingFlow(ls, b);
      c.Some? && c.value.inputs.state.Valid() && c.value.inputs.state.shape == [1, 1] &&
      c.value.inputs.actions.Valid() && c.value.inputs.actions.shape == [n, 1]
  {
    ConvGreatAnswers(ls, s, n, b);
    var b2 := GreatPartCall(ls, ConvGreatPart, Some(b));
    JoinAnswers(b2.value, n, Features(s));
    FlatGreatAnswers(ls, s, n, Join(b2).value);
  }

  /** The convolutional great part on a state of the field and `n` candidates: a row of features for each. */
  lemma ConvGreatAnswers(ls: seq<AnyLayer>, s: seq<nat>, n: nat, b: Branches)
    requires Built(ls, s) && FieldFits(s)
    requires b.inputs.state.Valid() && b.inputs.state.shape == s
    requires b.inputs.actions.Valid() && b.inputs.actions.shape == s[0 := n]
    ensures var c := GreatPartCall(ls, ConvGreatPart, Some(b));
      c.Some? && c.value.inputs.state.Valid() && c.value.inputs.state.shape == [1, Features(s)] &&
      c.value.inputs.actions.Valid() && c.value.inputs.actions.shape == [n, Features(s)]
  {
    ConvStateAnswers(ls, s, b);
    var b1 := CallPart(ls, ConvStatePart, Some(b));
    ConvActionsAnswers(ls, s, n, b1.value);
  }

  /** The flat great part on the state row and the joined rows: one number for the state and one per candidate. */
  lemma FlatGreatAnswers(ls: seq<AnyLayer>, s: seq<nat>, n: nat, b: Branches)
    requires Built(ls, s) && FieldFits(s)
    requires b.inputs.state.Valid() && b.inputs.state.shape == [1, Features(s)]
    requires b.inputs.actions.Valid() && b.inputs.actions.shape == [n, 2 * Features(s)]
    ensures var c := GreatPartCall(ls, FlatGreatPart, Some(b));
      c.Some? && c.value.inputs.state.Valid() && c.value.inputs.state.shape == [1, 1] &&
      c.value.inputs.actions.Valid() && c.value.inputs.actions.shape == [n, 1]
  {
    ValueAnswers(ls, s, b);
    var b3 := CallPart(ls, ValuePart, Some(b));
    AdvantageAnswers(ls, s, n, b3.value);
  }

  /** The four parts hold disjoint sets of layers. */
  lemma PartAddrsDisjoint(ls: seq<AnyLayer>, p: nat, q: nat)
    requires |ls| == 14 && DistinctAddrs(ls) && p < 4 && q < 4 && p != q
    ensures AddrsOf(Part(ls, p)) !! AddrsOf(Part(ls, q))
  {
    forall a | a in AddrsOf(Part(ls, p))
      ensures a !in AddrsOf(Part(ls, q))
    {
      var k :| 0 <= k < |Part(ls, p)| && Part(ls, p)[k].Addr() == a;
      var i := Parts[p].partBegin + k;
      assert ls[i] == Part(ls, p)[k];
      forall m | 0 <= m < |Part(ls, q)|
        ensures Part(ls, q)[m].Addr() != a
      {
        var j := Parts[q].partBegin + m;
        assert ls[j] == Part(ls, q)[m];
      }
    }
  }

  /**
   * Part `p` of a built network, run with a tape on a batch of `n` inputs
   * of the shape it was built for, records the input of each of its layers
   * and keeps what the tape already held.
   */
  lemma PartRecords(ls: seq<AnyLayer>, s: seq<nat>, p: nat, n: nat, b: Branches)
    requires Architecture(ls) && DistinctAddrs(ls) && FieldFits(s) && BuildOk(ls, s) && p < 4
    requires RunFits(Part(ls, p), StartShape(ls, s, p))
    requires b.inputs.Get(p % 2).Valid() && b.inputs.Get(p % 2).shape == Rebatch(StartShape(ls, s, p), n)
    requires b.tape.Some? && AddrsOf(Part(ls, p)) !! b.tape.value.Keys
    ensures CallPart(ls, p, Some(b)).Some? && CallPart(ls, p, Some(b)).value.tape.Some?
    ensures Extends(b.tape.value, CallPart(ls, p, Some(b)).value.tape.value, AddrsOf(Part(ls, p)))
    ensures Recorded(Part(ls, p), StartShape(ls, s, p), n, CallPart(ls, p, Some(b)).value.tape.value)
    ensures var c := CallPart(ls, p, Some(b)).value;
      c.inputs.Get(1 - p % 2) == b.inputs.Get(1 - p % 2) && c.inputs.Get(p % 2).Valid() &&
      c.inputs.Get(p % 2).shape == Rebatch(FinalShape(Part(ls, p), StartShape(ls, s, p)), n)
  {
    StartShapes(ls, s);
    DistinctPart(ls, p);
    ForwardSeqFits(Part(ls, p), StartShape(ls, s, p), n, b.inputs.Get(p % 2), b.tape);
    CallPartRecords(ls, p, Some(b));
  }

  /** A convolutional branch ends in one row of `Features(s)` per field. */
  lemma ConvBranchFinal(ls: seq<AnyLayer>, s: seq<nat>)
    requires ConvBranch(ls) && |s| == 4
    ensures ChainOk(ls, s) && FinalShape(ls, s) == [s[0], Features(s)]
  {
    ConvBranchShapes(ls, s);
  }

  /** Both convolutional parts of the architecture end in one row of `Features(s)` per field. */
  lemma ConvPartsFinal(ls: seq<AnyLayer>, s: seq<nat>)
    requires Architecture(ls) && |s| == 4
    ensures ChainOk(Part(ls, ConvStatePart), s) && FinalShape(Part(ls, ConvStatePart), s) == [s[0], Features(s)]
    ensures ChainOk(Part(ls, ConvActionsPart), s) && FinalShape(Part(ls, ConvActionsPart), s) == [s[0], Features(s)]
  {
    ConvBranchFinal(Part(ls, ConvStatePart), s);
    ConvBranchFinal(Part(ls, ConvActionsPart), s);
  }

  /** The convolutional great part of a built network, called with an empty tape on one state and one action. */
  lemma ConvRecords(ls: seq<AnyLayer>, s: seq<nat>, state: Tensor, action: Tensor)
    requires Architecture(ls) && DistinctAddrs(ls) && FieldFits(s) && BuildOk(ls, s)
    requires RunFits(Part(ls, ConvStatePart), StartShape(ls, s, ConvStatePart))
    requires RunFits(Part(ls, ConvActionsPart), StartShape(ls, s, ConvActionsPart))
    requires state.Valid() && state.shape == s && action.Valid() && action.shape == s
    ensures var c := GreatPartCall(ls, ConvGreatPart, Some(Branches(Pair(state, action), Some(map[]))));
      c.Some? && c.value.tape.Some? &&
      c.value.tape.value.Keys == AddrsOf(Part(ls, ConvStatePart)) + AddrsOf(Part(ls, ConvActionsPart)) &&
      Recorded(Part(ls, ConvStatePart), s, 1, c.value.tape.value) &&
      Recorded(Part(ls, ConvActionsPart), s, 1, c.value.tape.value) &&
      c.value.inputs.state.Valid() && c.value.inputs.state.shape == [1, Features(s)] &&
      c.value.inputs.actions.Valid() && c.value.inputs.actions.shape == [1, Features(s)]
  {
    assert s[0 := 1] == s;
    ConvPartsFinal(ls, s);
    var b0 := Branches(Pair(state, action), Some(map[]));
    ConvStateRecords(ls, s, b0);
    var b1 := CallPart(ls, ConvStatePart, Some(b0)).value;
    PartAddrsDisjoint(ls, ConvStatePart, ConvActionsPart);
    PartRecords(ls, s, ConvActionsPart, 1, b1);
    var b2 := CallPart(ls, ConvActionsPart, Some(b1)).value;
    RecordedKept(Part(ls, ConvStatePart), s, 1, b1.tape.value, b2.tape.value);
    assert GreatPartCall(ls, ConvGreatPart, Some(b0)) == Some(b2);
  }

  /** The state's convolutional part of a built network, called with an empty tape on one state. */
  lemma ConvStateRecords(ls: seq<AnyLayer>, s: seq<nat>, b0: Branches)
    requires Architecture(ls) && DistinctAddrs(ls) && FieldFits(s) && BuildOk(ls, s)
    requires RunFits(Part(ls, ConvStatePart), StartShape(ls, s, ConvStatePart))
    requires b0.inputs.state.Valid() && b0.inputs.state.shape == s && b0.tape == Some(map[])
    ensures var c := CallPart(ls, ConvStatePart, Some(b0));
      c.Some? && c.value.tape.Some? && c.value.tape.value.Keys == AddrsOf(Part(ls, ConvStatePart)) &&
      Recorded(Part(ls, ConvStatePart), s, 1, c.value.tape.value) &&
      c.value.inputs.actions == b0.inputs.actions &&
      c.value.inputs.state.Valid() && c.value.inputs.state.shape == [1, Features(s)]
  {
    assert s[0 := 1] == s;
    ConvPartsFinal(ls, s);
    StartShapes(ls, s);
    PartRecords(ls, s, ConvStatePart, 1, b0);
  }

  /** The flat great part of a built network, called after the join on a tape holding the convolutional parts. */
  lemma FlatRecords(ls: seq<AnyLayer>, s: seq<nat>, b: Branches)
    requires Built(ls, s) && FieldFits(s)
    requires b.inputs.state.Valid() && b.inputs.state.shape == [1, Features(s)]
    requires b.inputs.actions.Valid() && b.inputs.actions.shape == [1, 2 * Features(s)]
    requires b.tape.Some? && b.tape.value.Keys == AddrsOf(Part(ls, ConvStatePart)) + AddrsOf(Part(ls, ConvActionsPart))
    ensures var c := GreatPartCall(ls, FlatGreatPart, Some(b));
      c.Some? && c.value.tape.Some? &&
      (forall a | a in b.tape.value :: a in c.value.tape.value && c.value.tape.value[a] == b.tape.value[a]) &&
      Recorded(Part(ls, ValuePart), StartShape(ls, s, ValuePart), 1, c.value.tape.value) &&
      Recorded(Part(ls, AdvantagePart), StartShape(ls, s, AdvantagePart), 1, c.value.tape.value)
  {
    StartShapes(ls, s);
    PartRunFits(ls, s, ValuePart);
    PartRunFits(ls, s, AdvantagePart);
    PartAddrsDisjoint(ls, ConvStatePart, ValuePart);
    PartAddrsDisjoint(ls, ConvActionsPart, ValuePart);
    PartRecords(ls, s, ValuePart, 1, b);
    var b3 := CallPart(ls, ValuePart, Some(b)).value;
    PartAddrsDisjoint(ls, ConvStatePart, AdvantagePart);
    PartAddrsDisjoint(ls, ConvActionsPart, AdvantagePart);
    PartAddrsDisjoint(ls, ValuePart, AdvantagePart);
    PartRecords(ls, s, AdvantagePart, 1, b3);
    var b4 := CallPart(ls, AdvantagePart, Some(b3)).value;
    RecordedKept(Part(ls, ValuePart), [1, Features(s)], 1, b3.tape.value, b4.tape.value);
  }

  /**
   * A built network called with a tape on one state and one action of its
   * field records, for every part, the input of each layer at the shape
   * that layer was built with.
   */
  lemma BuiltNetworkRecords(ls: seq<AnyLayer>, s: seq<nat>, state: Tensor, action: Tensor)
    requires Built(ls, s) && FieldFits(s)
    requires state.Valid() && state.shape == s && action.Valid() && action.shape == s
    ensures DuelingCall(ls, state, action, Some(map[])).Some?
    ensures DuelingCall(ls, state, action, Some(map[])).value.value.shape == [1, 1]
    ensures DuelingCall(ls, state, action, Some(map[])).value.tape.Some?
    ensures var t := DuelingCall(ls, state, action, Some(map[])).value.tape.value;
      Recorded(Part(ls, ConvStatePart), StartShape(ls, s, ConvStatePart), 1, t) &&
      Recorded(Part(ls, ConvActionsPart), StartShape(ls, s, ConvActionsPart), 1, t) &&
      Recorded(Part(ls, ValuePart), StartShape(ls, s, ValuePart), 1, t) &&
      Recorded(Part(ls, AdvantagePart), StartShape(ls, s, AdvantagePart), 1, t)
  {
    assert s[0 := 1] == s;
    var b0 := Branches(Pair(state, action), Some(map[]));
    FlowAnswers(ls, s, 1, b0);
    SumAnswers(ls, b0, 1);
    FlowRecords(ls, s, b0);
  }

  /** Every part in turn, on one state and one action with an empty tape, records each layer's input. */
  lemma FlowRecords(ls: seq<AnyLayer>, s: seq<nat>, b0: Branches)
    requires Built(ls, s) && FieldFits(s) && b0.tape == Some(map[])
    requires b0.inputs.state.Valid() && b0.inputs.state.shape == s
    requires b0.inputs.actions.Valid() && b0.inputs.actions.shape == s
    ensures DuelingFlow(ls, b0).Some? && DuelingFlow(ls, b0).value.tape.Some?
    ensures var t := DuelingFlow(ls, b0).value.tape.value;
      Recorded(Part(ls, ConvStatePart), StartShape(ls, s, ConvStatePart), 1, t) &&
      Recorded(Part(ls, ConvActionsPart), StartShape(ls, s, ConvActionsPart), 1, t) &&
      Recorded(Part(ls, ValuePart), StartShape(ls, s, ValuePart), 1, t) &&
      Recorded(Part(ls, AdvantagePart), StartShape(ls, s, AdvantagePart), 1, t)
  {
    var state, action := b0.inputs.state, b0.inputs.actions;
    assert b0 == Branches(Pair(state, action), Some(map[]));
    StartShapes(ls, s);
    PartRunFits(ls, s, ConvStatePart);
    PartRunFits(ls, s, ConvActionsPart);
    ConvRecords(ls, s, state, action);
    var b2 := GreatPartCall(ls, ConvGreatPart, Some(b0)).value;
    JoinAnswers(b2, 1, Features(s));
    var bj := Join(Some(b2)).value;
    FlatRecords(ls, s, bj);
    var b4 := GreatPartCall(ls, FlatGreatPart, Some(bj)).value;
    assert DuelingFlow(ls, b0) == Some(b4);
    RecordedKept(Part(ls, ConvStatePart), StartShape(ls, s, ConvStatePart), 1, bj.tape.value, b4.tape.value);
    RecordedKept(Part(ls, ConvActionsPart), StartShape(ls, s, ConvActionsPart), 1, bj.tape.value, b4.tape.value);
  }


  /**
   * Part `p` of a built network, walked backward over a tape that recorded
   * its layers' inputs, completes when its last layer is handed deltas of
   * the part's final shape and outputs that broadcast into them (or, on a
   * head, the seed deltas of no axes beside outputs of that shape). Its
   * branch then holds deltas of the part's input shape and, as outputs,
   * the recorded input of the part's first layer; the other branch is
   * untouched.
   */
  lemma BackPartFits(ls: seq<AnyLayer>, s: seq<nat>, tape: Tape, p: nat, n: nat, ps: Pass)
    requires Architecture(ls) && BuildOk(ls, s) && p < 4 && RunFits(Part(ls, p), StartShape(ls, s, p))
    requires Recorded(Part(ls, p), StartShape(ls, s, p), n, tape)
    requires var d, o := ps.deltas.Get(p % 2), ps.outputs.Get(p % 2);
      var f := Rebatch(FinalShape(Part(ls, p), StartShape(ls, s, p)), n);
      d.Valid() && o.Valid() &&
      ((d.shape == f && BroadcastsInto(o.shape, f)) || (p >= ValuePart && d.shape == [] && o.shape == f))
    ensures BackPart(ls, tape, p, Some(ps)).Some?
    ensures var r := BackPart(ls, tape, p, Some(ps)).value;
      r.deltas.Get(p % 2).Valid() && r.deltas.Get(p % 2).shape == Rebatch(StartShape(ls, s, p), n) &&
      r.outputs.Get(p % 2).Valid() && r.outputs.Get(p % 2).shape == Rebatch(StartShape(ls, s, p), n) &&
      r.deltas.Get(1 - p % 2) == ps.deltas.Get(1 - p % 2) && r.outputs.Get(1 - p % 2) == ps.outputs.Get(1 - p % 2)
  {
    var part, start := Part(ls, p), StartShape(ls, s, p);
    var st := BackwardResult(ps.outputs.Get(p % 2), ps.deltas.Get(p % 2), ps.gradients);
    LastAccepts(ls, s, p, n, st);
    BackwardSeqFits(part, start, n, tape, st);
  }

  /** The last layer of part `p` accepts deltas of the part's final shape. */
  lemma LastAccepts(ls: seq<AnyLayer>, s: seq<nat>, p: nat, n: nat, st: BackwardResult)
    requires Architecture(ls) && BuildOk(ls, s) && p < 4 && ChainOk(Part(ls, p), StartShape(ls, s, p))
    requires var f := Rebatch(FinalShape(Part(ls, p), StartShape(ls, s, p)), n);
      st.deltas.Valid() && st.outputs.Valid() &&
      ((st.deltas.shape == f && BroadcastsInto(st.outputs.shape, f)) || (p >= ValuePart && st.deltas.shape == [] && st.outputs.shape == f))
    ensures |Part(ls, p)| > 0
    ensures Part(ls, p)[|Part(ls, p)| - 1].Accepts(InputShapes(Part(ls, p), StartShape(ls, s, p))[|Part(ls, p)| - 1], n, st)
  {
    var part := Part(ls, p);
    assert |part| > 0;
    FinalShapeOfLast(part, StartShape(ls, s, p));
    assert p >= ValuePart ==> part[|part| - 1].Dense?;
  }

  /** The fold on one state row of `w` deltas beside one actions row of `2 * w`. */
  lemma FoldFits(ps: Pass, w: nat)
    requires ps.deltas.state.Valid() && ps.deltas.state.shape == [1, w]
    requires ps.deltas.actions.Valid() && ps.deltas.actions.shape == [1, 2 * w]
    requires ps.outputs.actions.Valid() && ps.outputs.actions.shape == [1, 2 * w]
    ensures Fold(Some(ps)).Some?
    ensures var r := Fold(Some(ps)).value;
      r.outputs.state == ps.outputs.state &&
      r.deltas.state.Valid() && r.deltas.state.shape == [1, w] &&
      r.deltas.actions.Valid() && r.deltas.actions.shape == [1, w] &&
      r.outputs.actions.Valid() && r.outputs.actions.shape == [1, w]
  {
  }

  /**
   * The flat great part of a built network, walked backward from one
   * output row with the seed deltas, leaves a row of the state's features
   * on the state branch and a row of the joined features on the actions
   * branch.
   */
  lemma FlatPassFits(ls: seq<AnyLayer>, s: seq<nat>, t: Tape, p0: Pass)
    requires Architecture(ls) && FieldFits(s) && BuildOk(ls, s)
    requires RunFits(Part(ls, ValuePart), StartShape(ls, s, ValuePart))
    requires RunFits(Part(ls, AdvantagePart), StartShape(ls, s, AdvantagePart))
    requires Recorded(Part(ls, ValuePart), StartShape(ls, s, ValuePart), 1, t)
    requires Recorded(Part(ls, AdvantagePart), StartShape(ls, s, AdvantagePart), 1, t)
    requires p0.outputs.state == p0.outputs.actions && p0.outputs.state.Valid() && p0.outputs.state.shape == [1, 1]
    requires p0.deltas.state == p0.deltas.actions && p0.deltas.state.Valid()
    requires p0.deltas.state.shape == [] || p0.deltas.state.shape == [1, 1]
    ensures GreatPartPass(ls, t, FlatGreatPart, Some(p0)).Some?
    ensures var r := GreatPartPass(ls, t, FlatGreatPart, Some(p0)).value;
      r.deltas.state.Valid() && r.deltas.state.shape == [1, Features(s)] &&
      r.deltas.actions.Valid() && r.deltas.actions.shape == [1, 2 * Features(s)] &&
      r.outputs.state.Valid() && r.outputs.state.shape == [1, Features(s)] &&
      r.outputs.actions.Valid() && r.outputs.actions.shape == [1, 2 * Features(s)]
  {
    AdvantageBackFits(ls, s, t, p0);
    ValueBackFits(ls, s, t, BackPart(ls, t, AdvantagePart, Some(p0)).value);
  }

  /** The advantage head walked backward from one output row. */
  lemma AdvantageBackFits(ls: seq<AnyLayer>, s: seq<nat>, t: Tape, ps: Pass)
    requires Architecture(ls) && FieldFits(s) && BuildOk(ls, s)
    requires RunFits(Part(ls, AdvantagePart), StartShape(ls, s, AdvantagePart))
    requires Recorded(Part(ls, AdvantagePart), StartShape(ls, s, AdvantagePart), 1, t)
    requires ps.outputs.actions.Valid() && ps.outputs.actions.shape == [1, 1]
    requires ps.deltas.actions.Valid() && (ps.deltas.actions.shape == [] || ps.deltas.actions.shape == [1, 1])
    ensures BackPart(ls, t, AdvantagePart, Some(ps)).Some?
    ensures var r := BackPart(ls, t, AdvantagePart, Some(ps)).value;
      r.deltas.state == ps.deltas.state && r.outputs.state == ps.outputs.state &&
      r.deltas.actions.Valid() && r.deltas.actions.shape == [1, 2 * Features(s)] &&
      r.outputs.actions.Valid() && r.outputs.actions.shape == [1, 2 * Features(s)]
  {
    StartShapes(ls, s);
    HeadShapes(Part(ls, AdvantagePart), 20, [1, 2 * Features(s)]);
    BackPartFits(ls, s, t, AdvantagePart, 1, ps);
  }

  /** The value head walked backward from one output row. */
  lemma ValueBackFits(ls: seq<AnyLayer>, s: seq<nat>, t: Tape, ps: Pass)
    requires Architecture(ls) && FieldFits(s) && BuildOk(ls, s)
    requires RunFits(Part(ls, ValuePart), StartShape(ls, s, ValuePart))
    requires Recorded(Part(ls, ValuePart), StartShape(ls, s, ValuePart), 1, t)
    requires ps.outputs.state.Valid() && ps.outputs.state.shape == [1, 1]
    requires ps.deltas.state.Valid() && (ps.deltas.state.shape == [] || ps.deltas.state.shape == [1, 1])
    ensures BackPart(ls, t, ValuePart, Some(ps)).Some?
    ensures var r := BackPart(ls, t, ValuePart, Some(ps)).value;
      r.deltas.actions == ps.deltas.actions && r.outputs.actions == ps.outputs.actions &&
      r.deltas.state.Valid() && r.deltas.state.shape == [1, Features(s)] &&
      r.outputs.state.Valid() && r.outputs.state.shape == [1, Features(s)]
  {
    StartShapes(ls, s);
    HeadShapes(Part(ls, ValuePart), 10, [1, Features(s)]);
    BackPartFits(ls, s, t, ValuePart, 1, ps);
  }

  /**
   * The fold and the convolutional great part of a built network, walked
   * backward from the rows the flat great part leaves, reach the first
   * layer of each branch.
   */
  lemma ConvPassFits(ls: seq<AnyLayer>, s: seq<nat>, t: Tape, p2: Pass)
    requires Architecture(ls) && FieldFits(s) && BuildOk(ls, s)
    requires RunFits(Part(ls, ConvStatePart), StartShape(ls, s, ConvStatePart))
    requires RunFits(Part(ls, ConvActionsPart), StartShape(ls, s, ConvActionsPart))
    requires Recorded(Part(ls, ConvStatePart), StartShape(ls, s, ConvStatePart), 1, t)
    requires Recorded(Part(ls, ConvActionsPart), StartShape(ls, s, ConvActionsPart), 1, t)
    requires p2.deltas.state.Valid() && p2.deltas.state.shape == [1, Features(s)]
    requires p2.deltas.actions.Valid() && p2.deltas.actions.shape == [1, 2 * Features(s)]
    requires p2.outputs.state.Valid() && p2.outputs.state.shape == [1, Features(s)]
    requires p2.outputs.actions.Valid() && p2.outputs.actions.shape == [1, 2 * Features(s)]
    ensures GreatPartPass(ls, t, ConvGreatPart, Fold(Some(p2))).Some?
  {
    StartShapes(ls, s);
    var w := Features(s);
    ConvBranchShapes(Part(ls, ConvActionsPart), s);
    ConvBranchShapes(Part(ls, ConvStatePart), s);
    FoldFits(p2, w);
    var p3 := Fold(Some(p2)).value;
    BackPartFits(ls, s, t, ConvActionsPart, 1, p3);
    var p4 := BackPart(ls, t, ConvActionsPart, Some(p3)).value;
    BackPartFits(ls, s, t, ConvStatePart, 1, p4);
  }

  /**
   * Training a built network completes: on the tape of a call on one state
   * and one action of its field, the backward pass from the call's output
   * with the seed deltas (the 0-dimensional `1` of `get_gradient`, or one
   * delta per output) reaches the first layer without throwing.
   */
  lemma BuiltNetworkTrains(ls: seq<AnyLayer>, s: seq<nat>, state: Tensor, action: Tensor, seed: Tensor, gm: GradientMap)
    requires Built(ls, s) && FieldFits(s)
    requires state.Valid() && state.shape == s && action.Valid() && action.shape == s
    requires seed.Valid() && (seed.shape == [] || seed.shape == [1, 1])
    ensures DuelingCall(ls, state, action, Some(map[])).Some?
    ensures DuelingCall(ls, state, action, Some(map[])).value.tape.Some?
    ensures var f := DuelingCall(ls, state, action, Some(map[])).value;
      DuelingBackward(ls, f.value, seed, f.tape.value, gm).Some?
  {
    BuiltNetworkRecords(ls, s, state, action);
    var f := DuelingCall(ls, state, action, Some(map[])).value;
    var t, o := f.tape.value, f.value;
    PartRunFits(ls, s, AdvantagePart);
    PartRunFits(ls, s, ValuePart);
    PartRunFits(ls, s, ConvActionsPart);
    PartRunFits(ls, s, ConvStatePart);
    var p0 := Pass(Pair(o, o), Pair(seed, seed), gm);
    FlatPassFits(ls, s, t, p0);
    ConvPassFits(ls, s, t, GreatPartPass(ls, t, FlatGreatPart, Some(p0)).value);
  }

  /**
   * With the pooling layers' `backward` as written, a convolutional branch
   * never completes its backward pass on a field the network handles,
   * whatever reaches it: the first pooling layer passes on the outputs of
   * the layer above, which it shrank, and the convolution below cannot
   * broadcast them into deltas of its own output's size.
   */
  lemma ConvPartPoolAsWrittenFails(ls: seq<AnyLayer>, s: seq<nat>, n: nat, tape: Tape, st: BackwardResult)
    requires ConvBranch(ls) && FieldFits(s) && Recorded(ls, s, n, tape)
    ensures BackwardSeqPoolAsWritten(ls, tape, st).None?
  {
    ConvBranchShapes(ls, s);
    var c := ConvShapes(s);
    LayerMaxPooling2D.PoolExtentIsCeiling(c[1][1], 2);
    assert c[2][1] != c[1][1] && c[2][1] != 1;
    var t1, t2 := tape[ls[1].Addr()], tape[ls[2].Addr()];
    assert t1.shape == Rebatch(c[1], n) && t2.shape == Rebatch(c[2], n);
    assert ls[..5][..4] == ls[..4] && ls[..4][..3] == ls[..3] && ls[..3][..2] == ls[..2] && ls[..2][..1] == ls[..1];
    assert ls[..5] == ls;
    var s4 := ls[4].BackwardStepAsWritten(tape, st);
    if s4.Some? {
      var s3 := ls[3].BackwardStepAsWritten(tape, s4.value);
      if s3.Some? {
        var s2 := ls[2].BackwardStepAsWritten(tape, s3.value);
        if s2.Some? {
          var s1 := ls[1].BackwardStepAsWritten(tape, s2.value);
          if s1.Some? {
            assert s1.value.outputs == t2 && s1.value.deltas.shape == t1.shape;
            assert !BroadcastsInto(t2.shape, t1.shape) by {
              assert t2.shape[1] != t1.shape[1] && t2.shape[1] != 1;
            }
            assert ls[0].BackwardStepAsWritten(tape, s1.value).None?;
            assert BackwardSeqPoolAsWritten(ls[..1], tape, s1.value).None?;
          }
          assert BackwardSeqPoolAsWritten(ls[..2], tape, s2.value).None?;
        }
        assert BackwardSeqPoolAsWritten(ls[..3], tape, s3.value).None?;
      }
      assert BackwardSeqPoolAsWritten(ls[..4], tape, s4.value).None?;
    }
  }

  /**
   * Both convolutional branches of a built network fail so on the tape of
   * any call on one state and one action of its field.
   */
  lemma BuiltNetworkPoolAsWrittenFails(ls: seq<AnyLayer>, s: seq<nat>, state: Tensor, action: Tensor, st: BackwardResult)
    requires Built(ls, s) && FieldFits(s)
    requires state.Valid() && state.shape == s && action.Valid() && action.shape == s
    ensures DuelingCall(ls, state, action, Some(map[])).Some?
    ensures DuelingCall(ls, state, action, Some(map[])).value.tape.Some?
    ensures var t := DuelingCall(ls, state, action, Some(map[])).value.tape.value;
      BackwardSeqPoolAsWritten(Part(ls, ConvStatePart), t, st).None? &&
      BackwardSeqPoolAsWritten(Part(ls, ConvActionsPart), t, st).None?
  {
    BuiltNetworkRecords(ls, s, state, action);
    var t := DuelingCall(ls, state, action, Some(map[])).value.tape.value;
    StartShapes(ls, s);
    ConvPartPoolAsWrittenFails(Part(ls, ConvStatePart), s, 1, t, st);
    ConvPartPoolAsWrittenFails(Part(ls, ConvActionsPart), s, 1, t, st);
  }

  // ---------------------------------------------------------------------------
  // The loops over parts

  /** `layer->forward(inputs, tape)` on the first layer of `ls[i..]`. */
  method ForwardNth(ls: seq<AnyLayer>, i: nat, x: Tensor, t: Option<Tape>) returns (y: Option<Tensor>, t': Option<Tape>)
    requires i < |ls|
    ensures ForwardSeq(ls[i..], x, t) == if y.None? then None else ForwardSeq(ls[i + 1..], y.value, t')
    ensures unchanged(Objs(ls))
  {
    y, t' := ForwardWithTape(ls[i], x, t);
    assert ls[i..][0] == ls[i] && ls[i..][1..] == ls[i + 1..];
    ForwardSeqFirst(ls[i..], x, t);
  }

  /**
   * The loop of `call_layers_part`: the iterator runs from `begin() +
   * partBegin` to `begin() + partEnd`; `k` is how far it has come into the
   * part.
   */
  method CallRange(ls: seq<AnyLayer>, part: LayersPart, inputs: Tensor, tape: Option<Tape>) returns (r: Option<Flow>)
    requires 0 <= part.partBegin <= part.partEnd <= |ls|
    ensures r == ForwardSeq(ls[part.partBegin..part.partEnd], inputs, tape)
  {
    var rest := ls[part.partBegin..part.partEnd];
    var x, t := inputs, tape;
    var i := part.partBegin;
    var k := 0;
    assert rest[k..] == rest;
    while i != part.partEnd
      invariant part.partBegin <= i <= part.partEnd && k == i - part.partBegin
      invariant ForwardSeq(rest, inputs, tape) == ForwardSeq(rest[k..], x, t)
    {
      var y, t' := ForwardNth(rest, k, x, t);
      assert Objs(rest[k + 1..]) <= Objs(rest);
      if y.None? {
        return None;
      }
      x, t := y.value, t';
      i := i + 1;
      k := k + 1;
    }
    r := Some(Flow(x, t));
  }

  /** One pass of the inner loop of `call_with_tape`: part `p` runs on its branch's input. */
  method CallPartStep(ls: seq<AnyLayer>, parts: seq<LayersPart>, p: nat, inputs: Pair, tape: Option<Tape>)
    returns (r: Option<Branches>)
    requires |ls| == 14 && parts == Parts && p < 4
    ensures r == CallPart(ls, p, Some(Branches(inputs, tape)))
    ensures unchanged(Objs(ls))
  {
    assert forall o | o in Objs(ls) :: allocated(o);
    var f := CallRange(ls, parts[p], inputs.Get(p % 2), tape);
    if f.None? {
      return None;
    }
    r := Some(Branches(inputs.Set(p % 2, f.value.value), f.value.tape));
  }

  /** The inner loop of `call_with_tape`: both branches of one great part. */
  method CallGreatPart(ls: seq<AnyLayer>, parts: seq<LayersPart>, greatPart: nat, inputs: Pair, tape: Option<Tape>)
    returns (r: Option<Branches>)
    requires |ls| == 14 && parts == Parts && greatPart < GreatPartsTotal
    ensures r == GreatPartCall(ls, greatPart, Some(Branches(inputs, tape)))
    ensures unchanged(Objs(ls))
  {
    r := Some(Branches(inputs, tape));
    var branch := StateBranch;
    while branch != BranchesTotal && r.Some?
      invariant branch <= BranchesTotal && unchanged(Objs(ls))
      invariant GreatPartCall(ls, greatPart, Some(Branches(inputs, tape))) ==
        if branch == StateBranch then GreatPartCall(ls, greatPart, r)
        else if branch == ActionsBranch then CallPart(ls, PartName(greatPart, ActionsBranch), r)
        else r
    {
      r := CallPartStep(ls, parts, PartName(greatPart, branch), r.value.inputs, r.value.tape);
      branch := branch + 1;
    }
  }

  /** The outer loop of `call_with_tape`, and `value + advantage`. */
  method CallBranches(ls: seq<AnyLayer>, parts: seq<LayersPart>, inputs: Pair, tape: Option<Tape>) returns (r: Option<Flow>)
    requires |ls| == 14 && parts == Parts
    ensures r == DuelingCall(ls, inputs.state, inputs.actions, tape)
  {
    ghost var start := Branches(inputs, tape);
    var branches := Some(Branches(inputs, tape));
    var greatPart := ConvGreatPart;
    while greatPart != GreatPartsTotal && branches.Some?
      invariant greatPart <= GreatPartsTotal
      invariant branches.None? ==> DuelingFlow(ls, start).None?
      invariant branches.Some? && greatPart == ConvGreatPart ==> branches == Some(start)
      invariant branches.Some? && greatPart == FlatGreatPart ==> branches == GreatPartCall(ls, ConvGreatPart, Some(start))
      invariant branches.Some? && greatPart == GreatPartsTotal ==> branches == DuelingFlow(ls, start)
    {
      var current := branches.value.inputs;
      if greatPart == FlatGreatPart {
        var joined := ConcatActions(current.state, current.actions);
        if joined.None? {
          branches := None;
          break;
        }
        current := Pair(current.state, joined.value);
      }
      branches := CallGreatPart(ls, parts, greatPart, current, branches.value.tape);
      greatPart := greatPart + 1;
    }
    if branches.None? {
      return None;
    }
    var q := AddBroadcast(branches.value.inputs.state, branches.value.inputs.actions);
    if q.None? {
      return None;
    }
    r := Some(Flow(q.value, branches.value.tape));
  }

  /**
   * The loop of `get_gradient_from_layers_part`: the reversed iterator runs
   * from `rbegin() + partRbegin` to `rbegin() + partRend`, which visits
   * `ls[partBegin..partEnd]` from its last layer to its first; `i` is the
   * length of the part still to be visited.
   */
  method BackwardRange(ls: seq<AnyLayer>, part: LayersPart, outputs: Tensor, deltas: Tensor, tape: Tape, gm: GradientMap)
    returns (r: Option<BackwardResult>)
    requires 0 <= part.partBegin <= part.partEnd <= |ls|
    requires part.partRbegin == |ls| - part.partEnd && part.partRend == |ls| - part.partBegin
    ensures r == BackwardSeq(ls[part.partBegin..part.partEnd], tape, BackwardResult(outputs, deltas, gm))
    ensures unchanged(Objs(ls))
  {
    var rest := ls[part.partBegin..part.partEnd];
    var st := BackwardResult(outputs, deltas, gm);
    r := Some(st);
    var j := part.partRbegin;
    var i := |rest|;
    assert rest[..i] == rest;
    while j < part.partRend && r.Some?
      invariant part.partRbegin <= j <= part.partRend && i == part.partRend - j
      invariant r.Some? ==> BackwardSeq(rest, tape, st) == BackwardSeq(rest[..i], tape, r.value)
      invariant r.None? ==> BackwardSeq(rest, tape, st) == None
    {
      var cur := r.value;
      label Before:
      r := BackwardNth(rest, i, tape, cur);
      assert unchanged@Before(Objs(rest));
      assert Objs(rest[..i]) <= Objs(rest);
      j := j + 1;
      i := i - 1;
    }
    if r.Some? {
      assert rest[..i] == [];
    }
  }

  /** One pass of the inner loop of `get_gradient`: part `p` runs on its branch's tensors. */
  method GradientPart(ls: seq<AnyLayer>, parts: seq<LayersPart>, p: nat, tape: Tape,
                      outputs: Pair, deltas: Pair, gm: GradientMap) returns (r: Option<Pass>)
    requires |ls| == 14 && parts == Parts && p < 4
    ensures r == BackPart(ls, tape, p, Some(Pass(outputs, deltas, gm)))
    ensures unchanged(Objs(ls))
  {
    var branch := p % 2;
    var res := BackwardRange(ls, parts[p], outputs.Get(branch), deltas.Get(branch), tape, gm);
    if res.None? {
      return None;
    }
    r := Some(Pass(outputs.Set(branch, res.value.outputs), deltas.Set(branch, res.value.deltas), res.value.gradients));
  }

  /** The inner loop of `get_gradient`: both branches of one great part, actions first. */
  method GradientGreatPart(ls: seq<AnyLayer>, parts: seq<LayersPart>, greatPart: nat, tape: Tape,
                           outputs: Pair, deltas: Pair, gm: GradientMap) returns (r: Option<Pass>)
    requires |ls| == 14 && parts == Parts && greatPart < GreatPartsTotal
    ensures r == GreatPartPass(ls, tape, greatPart, Some(Pass(outputs, deltas, gm)))
    ensures unchanged(Objs(ls))
  {
    r := Some(Pass(outputs, deltas, gm));
    var branch: int := ActionsBranch;
    while branch >= StateBranch && r.Some?
      invariant -1 <= branch <= ActionsBranch && unchanged(Objs(ls))
      invariant GreatPartPass(ls, tape, greatPart, Some(Pass(outputs, deltas, gm))) ==
        if branch == ActionsBranch then GreatPartPass(ls, tape, greatPart, r)
        else if branch == StateBranch then BackPart(ls, tape, PartName(greatPart, StateBranch), r)
        else r
    {
      r := GradientPart(ls, parts, PartName(greatPart, branch), tape, r.value.outputs, r.value.deltas, r.value.gradients);
      branch := branch - 1;
    }
  }

  /**
   * One pass of the outer loop of `get_gradient`: on entering the
   * convolutional great part the actions' deltas fold into the state's
   * first; then both branches of the great part run.
   */
  method GradientStep(ls: seq<AnyLayer>, parts: seq<LayersPart>, greatPart: nat, tape: Tape, pass: Pass)
    returns (r: Option<Pass>)
    requires |ls| == 14 && parts == Parts && greatPart < GreatPartsTotal
    ensures r == GreatPartPass(ls, tape, greatPart, if greatPart == ConvGreatPart then Fold(Some(pass)) else Some(pass))
    ensures unchanged(Objs(ls))
  {
    var branchOutputs, branchDeltas := pass.outputs, pass.deltas;
    if greatPart == ConvGreatPart {
      if !(branchDeltas.state.Is2() && branchDeltas.actions.Is2() && branchOutputs.actions.Is2()) {
        return None;
      }
      var breakPoint := branchDeltas.state.shape[1];
      var merged := Merge(branchDeltas.state, branchDeltas.actions);
      if merged.None? {
        return None;
      }
      branchDeltas := Pair(merged.value, Suffix(branchDeltas.actions, breakPoint));
      branchOutputs := Pair(branchOutputs.state, Suffix(branchOutputs.actions, breakPoint));
    }
    r := GradientGreatPart(ls, parts, greatPart, tape, branchOutputs, branchDeltas, pass.gradients);
  }

  /** The outer loop of `get_gradient`: the flat great part, then the convolutional one. */
  method GradientBranches(ls: seq<AnyLayer>, parts: seq<LayersPart>, outputs: Tensor, deltas: Tensor, tape: Tape, gm: GradientMap)
    returns (r: Option<GradientMap>)
    requires |ls| == 14 && parts == Parts
    ensures r == DuelingBackward(ls, outputs, deltas, tape, gm)
  {
    ghost var start := Pass(Pair(outputs, outputs), Pair(deltas, deltas), gm);
    var pass := Some(Pass(Pair(outputs, outputs), Pair(deltas, deltas), gm));
    var greatPart: int := FlatGreatPart;
    while greatPart >= ConvGreatPart && pass.Some?
      invariant -1 <= greatPart <= FlatGreatPart
      invariant DuelingPass(ls, tape, start) ==
        if greatPart == FlatGreatPart then GreatPartPass(ls, tape, ConvGreatPart, Fold(GreatPartPass(ls, tape, FlatGreatPart, pass)))
        else if greatPart == ConvGreatPart then GreatPartPass(ls, tape, ConvGreatPart, Fold(pass))
        else pass
    {
      pass := GradientStep(ls, parts, greatPart, tape, pass.value);
      greatPart := greatPart - 1;
    }
    r := if pass.Some? then Some(pass.value.gradients) else None;
  }

  // ---------------------------------------------------------------------------
  // The model

  /** The four branches the constructor allocates: new, with addresses distinct from the branches before. */
  method NewBranches() returns (cs: seq<AnyLayer>, ca: seq<AnyLayer>, v: seq<AnyLayer>, a: seq<AnyLayer>)
    ensures ConvBranch(cs) && ConvBranch(ca) && HeadBranch(v, 10) && HeadBranch(a, 20)
    ensures DistinctAddrs(cs) && DistinctAddrs(ca) && DistinctAddrs(v) && DistinctAddrs(a)
    ensures AddrsOf(ca) !! AddrsOf(cs) && AddrsOf(v) !! AddrsOf(cs) + AddrsOf(ca)
    ensures AddrsOf(a) !! AddrsOf(cs) + AddrsOf(ca) + AddrsOf(v)
    ensures LayersValid(cs) && LayersValid(ca) && LayersValid(v) && LayersValid(a)
    ensures fresh(Objs(cs)) && fresh(Objs(ca)) && fresh(Objs(v)) && fresh(Objs(a))
  {
    cs := NewConvBranch({});
    ca := NewConvBranch(AddrsOf(cs));
    v := NewHead(AddrsOf(cs) + AddrsOf(ca), 10);
    a := NewHead(AddrsOf(cs) + AddrsOf(ca) + AddrsOf(v), 20);
  }

  /** The fourteen layers of the constructor, branch by branch: new, with distinct addresses, in the dueling architecture. */
  method NewLayers() returns (cs: seq<AnyLayer>, ca: seq<AnyLayer>, v: seq<AnyLayer>, a: seq<AnyLayer>)
    ensures |cs| == 5 && |ca| == 5 && |v| == 2 && |a| == 2
    ensures Architecture(cs + ca + v + a) && DistinctAddrs(cs + ca + v + a)
    ensures LayersValid(cs + ca + v + a)
    ensures fresh(Objs(cs + ca + v + a))
  {
    cs, ca, v, a := NewBranches();
    ghost var ls := cs + ca + v + a;
    assert LayersValid(ls) by {
      forall i | 0 <= i < 14
        ensures ls[i].Valid()
      {
        if i < 5 { assert ls[i] == cs[i]; }
        else if i < 10 { assert ls[i] == ca[i - 5]; }
        else if i < 12 { assert ls[i] == v[i - 10]; }
        else { assert ls[i] == a[i - 12]; }
      }
    }
    ghost var objs := Objs(cs) + Objs(ca) + Objs(v) + Objs(a);
    assert fresh(objs);
    assert Objs(cs + ca + v + a) == objs by {
      ObjsJoin(cs, ca);
      ObjsJoin(cs + ca, v);
      ObjsJoin(cs + ca + v, a);
    }
    JoinBranches(cs, ca, v, a);
    ArchitectureOfBranches(cs, ca, v, a);
  }

  /** Branches with pairwise distinct addresses, joined, still have distinct addresses. */
  lemma JoinBranches(cs: seq<AnyLayer>, ca: seq<AnyLayer>, v: seq<AnyLayer>, a: seq<AnyLayer>)
    requires DistinctAddrs(cs) && DistinctAddrs(ca) && DistinctAddrs(v) && DistinctAddrs(a)
    requires AddrsOf(ca) !! AddrsOf(cs) && AddrsOf(v) !! AddrsOf(cs) + AddrsOf(ca)
    requires AddrsOf(a) !! AddrsOf(cs) + AddrsOf(ca) + AddrsOf(v)
    ensures DistinctAddrs(cs + ca + v + a)
  {
    DistinctAddrsJoin(cs, ca);
    DistinctAddrsJoin(cs + ca, v);
    DistinctAddrsJoin(cs + ca + v, a);
  }

  /** `layers_parts.push_back({first, layers.size()})` after each `insert_into_layers` of the constructor. */
  method InsertParts(b: ModelBase, cs: seq<AnyLayer>, ca: seq<AnyLayer>, v: seq<AnyLayer>, a: seq<AnyLayer>)
    returns (ps: seq<LayersPart>)
    requires b.layers == [] && |cs| == 5 && |ca| == 5 && |v| == 2 && |a| == 2
    requires b !in Objs(cs + ca + v + a) && LayersValid(cs + ca + v + a)
    modifies b
    ensures b.layers == cs + ca + v + a && LayersValid(b.layers)
    ensures ps == [LayersPart(0, 5, 0, 0), LayersPart(5, 10, 0, 0), LayersPart(10, 12, 0, 0), LayersPart(12, 14, 0, 0)]
  {
    ps := [];
    var first := b.InsertIntoLayers(cs);
    ps := ps + [LayersPart(first, |b.layers|, 0, 0)];
    first := b.InsertIntoLayers(ca);
    ps := ps + [LayersPart(first, |b.layers|, 0, 0)];
    first := b.InsertIntoLayers(v);
    ps := ps + [LayersPart(first, |b.layers|, 0, 0)];
    first := b.InsertIntoLayers(a);
    ps := ps + [LayersPart(first, |b.layers|, 0, 0)];
  }

  /** The constructor's last loop: every part learns where it begins and ends in the reversed vector of `n` layers. */
  method ReversedRanges(ps: seq<LayersPart>, n: nat) returns (r: seq<LayersPart>)
    requires n == 14
    requires ps == [LayersPart(0, 5, 0, 0), LayersPart(5, 10, 0, 0), LayersPart(10, 12, 0, 0), LayersPart(12, 14, 0, 0)]
    ensures r == Parts
  {
    r := ps;
    var p := 0;
    while p < |r|
      invariant 0 <= p <= |r| == 4
      invariant forall q | 0 <= q < 4 :: r[q] == if q < p then Parts[q] else Parts[q].(partRbegin := 0, partRend := 0)
    {
      r := r[p := r[p].(partRbegin := n - r[p].partEnd, partRend := n - r[p].partBegin)];
      p := p + 1;
    }
  }

  /** Four branches appended one after the other make up the architecture, each branch a part. */
  lemma ArchitectureOfBranches(cs: seq<AnyLayer>, ca: seq<AnyLayer>, v: seq<AnyLayer>, a: seq<AnyLayer>)
    requires ConvBranch(cs) && ConvBranch(ca) && HeadBranch(v, 10) && HeadBranch(a, 20)
    ensures var ls := cs + ca + v + a;
      Architecture(ls) && Part(ls, 0) == cs && Part(ls, 1) == ca && Part(ls, 2) == v && Part(ls, 3) == a
  {
    var ls := cs + ca + v + a;
    assert ls[0..5] == cs && ls[5..10] == ca && ls[10..12] == v && ls[12..14] == a;
  }

  /** The layer vector and the parts table of `ModelDueling()`. */
  method NewBase() returns (b: ModelBase, ps: seq<LayersPart>)
    ensures Architecture(b.layers) && DistinctAddrs(b.layers) && LayersValid(b.layers) && ps == Parts
    ensures fresh(b) && fresh(Objs(b.layers))
  {
    b := new ModelBase();
    var convState, convActions, value, advantage := NewLayers();
    ghost var ls := convState + convActions + value + advantage;
    assert b !in Objs(ls);
    ps := InsertParts(b, convState, convActions, value, advantage);
    assert b.layers == ls && forall o | o in Objs(ls) :: allocated(o);
    ps := ReversedRanges(ps, |b.layers|);
  }

  class ModelDueling {
    /** The layer vector `ModelDueling` inherits from `ModelBase`. */
    const base: ModelBase
    /** `layers_parts`. */
    var parts: seq<LayersPart>

    ghost predicate Valid()
      reads this, base
    {
      parts == Parts && Architecture(base.layers) && DistinctAddrs(base.layers)
    }

    /** Every layer is built for input states of shape `s`, and keeps what its construction set up. */
    ghost predicate BuiltFor(s: seq<nat>)
      reads this, base, Objs(base.layers)
    {
      Built(base.layers, s)
    }

    /**
     * `ModelDueling()`: the four parts are appended one after the other,
     * each remembering where it begins and ends; then every part learns its
     * range in the reversed vector. The fourteen layers are new, have
     * distinct addresses and have never been built.
     */
    constructor ()
      ensures Valid() && LayersValid(base.layers) && fresh(base) && fresh(Objs(base.layers))
    {
      var b, ps := NewBase();
      ghost var ls := b.layers;
      base := b;
      parts := ps;
      new;
      assert base.layers == ls && LayersValid(ls);
    }

    /** `ModelDueling::build`: every layer is built once, with the shape its part hands it. */
    method Build(shape: seq<nat>)
      requires Valid() && LayersValid(base.layers) && |shape| == 4
      modifies Objs(base.layers)
      ensures LayersValid(base.layers) && BuiltFor(shape)
      ensures BuildOk(base.layers, shape)
      ensures forall i {:trigger BuildInput(base.layers, shape, i)} | 0 <= i < 14 ::
        base.layers[i].BuiltFor(BuildInput(base.layers, shape, i)) &&
        base.layers[i].Builds() == old(base.layers[i].Builds()) + [BuildInput(base.layers, shape, i)]
    {
      ArchitectureBuilds(base.layers, shape);
      assert this !in Objs(base.layers) && base !in Objs(base.layers);
      BuildParts(base.layers, shape);
      assert LayersValid(base.layers) by {
        assert ValidsOf(base.layers) == old(ValidsOf(base.layers));
      }
    }

    /** `call_layers_part`: the layers of part `p` in order, each recording its input. */
    method CallLayersPart(p: nat, inputs: Tensor, tape: Option<Tape>) returns (r: Option<Flow>)
      requires Valid() && p < 4
      ensures r == ForwardSeq(Part(base.layers, p), inputs, tape)
    {
      r := CallRange(base.layers, parts[p], inputs, tape);
    }

    /**
     * `call_with_tape`: the convolutional great part, then the join, then
     * the flat great part, each state branch before its actions branch;
     * the result is value plus advantage.
     */
    method CallWithTape(inputs: Pair, tape: Option<Tape>) returns (r: Option<Flow>)
      requires Valid()
      ensures r == DuelingCall(base.layers, inputs.state, inputs.actions, tape)
    {
      r := CallBranches(base.layers, parts, inputs, tape);
    }

    /**
     * `get_gradient_from_layers_part`, with the outputs and deltas passed
     * the way the layers' `backward` declares them: the layers of part `p`
     * from last to first.
     */
    method GetGradientFromLayersPart(p: nat, outputs: Tensor, deltas: Tensor, tape: Tape, gm: GradientMap)
      returns (r: Option<BackwardResult>)
      requires Valid() && p < 4
      ensures r == BackwardSeq(Part(base.layers, p), tape, BackwardResult(outputs, deltas, gm))
    {
      PartsTable(base.layers);
      r := BackwardRange(base.layers, parts[p], outputs, deltas, tape, gm);
    }

    /**
     * `ModelDueling::get_gradient`: the flat great part, then the fold, then
     * the convolutional great part, each actions branch before its state
     * branch; the gradient map is the result.
     */
    method GetGradient(outputs: Tensor, deltas: Tensor, tape: Tape, gm: GradientMap) returns (r: Option<GradientMap>)
      requires Valid()
      ensures r == DuelingBackward(base.layers, outputs, deltas, tape, gm)
    {
      r := GradientBranches(base.layers, parts, outputs, deltas, tape, gm);
    }
  }
}
