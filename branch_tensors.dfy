/**
 * The xtensor expressions src/dqn/ModelDueling.cpp applies between its
 * branches, on the two-dimensional (batch, features) tensors the Flatten
 * layers hand on: the broadcast of the state onto the actions, the
 * concatenation along the feature axis, the feature suffix after a break
 * point, the broadcast sum of the two heads, and the folding of the
 * actions' deltas into the state's deltas.
 */
module BranchTensors {
  import opened Tensors

  // ---------------------------------------------------------------------------
  // Broadcasting

  /** Two axis lengths broadcast when they are equal or one of them is 1. */
  predicate DimsBroadcast(x: nat, y: nat)
  {
    x == y || x == 1 || y == 1
  }

  /** The broadcast length of two axes: a 1 stretches to the other length. */
  function BroadcastDim(x: nat, y: nat): (r: nat)
    ensures r == x || r == y
    ensures DimsBroadcast(x, y) ==> (r == x || x == 1) && (r == y || y == 1)
  {
    if x == 1 then y else x
  }

  /** The index an axis of length `x` is read at when it is stretched. */
  function Src(x: nat, i: int): int
  {
    if x == 1 then 0 else i
  }

  predicate ShapesBroadcast(a: seq<nat>, b: seq<nat>)
  {
    |a| == 2 && |b| == 2 && DimsBroadcast(a[0], b[0]) && DimsBroadcast(a[1], b[1])
  }

  function BroadcastShape(a: seq<nat>, b: seq<nat>): seq<nat>
    requires |a| == 2 && |b| == 2
  {
    [BroadcastDim(a[0], b[0]), BroadcastDim(a[1], b[1])]
  }

  /** The element of `t` that lands at `(i, j)` once `t` is stretched. */
  function Stretched(t: Tensor, i: int, j: int): int
    requires |t.shape| == 2
  {
    At2(t, Src(t.shape[0], i), Src(t.shape[1], j))
  }

  /**
   * `xt::broadcast(t, s)`: `t` repeated along its axes of length 1. The
   * result's shape is the broadcast of both shapes; shapes that do not
   * broadcast make xtensor throw (`None`).
   */
  function Broadcast(t: Tensor, s: seq<nat>): (r: Option<Tensor>)
    ensures r.Some? <==> t.Is2() && ShapesBroadcast(t.shape, s)
    ensures r.Some? ==> r.value.Is2() && r.value.shape == BroadcastShape(t.shape, s)
  {
    if t.Is2() && ShapesBroadcast(t.shape, s) then
      Some(Build2(BroadcastShape(t.shape, s), (i, j) => Stretched(t, i, j)))
    else
      None
  }

  /** A stretched single row reads its one row at every batch index. */
  lemma BroadcastRow(t: Tensor, s: seq<nat>, i: int, j: int)
    requires t.Is2() && t.shape[0] == 1 && |s| == 2 && t.shape[1] == s[1] && In2(s, i, j)
    ensures Broadcast(t, s).Some? && Broadcast(t, s).value.shape == s
    ensures At2(Broadcast(t, s).value, i, j) == At2(t, 0, j)
  {
    At2Build2(BroadcastShape(t.shape, s), (i, j) => Stretched(t, i, j), i, j);
  }

  /** `a + b` with xtensor broadcasting, on two-dimensional operands. */
  function AddBroadcast(a: Tensor, b: Tensor): (r: Option<Tensor>)
    ensures r.Some? <==> a.Is2() && b.Is2() && ShapesBroadcast(a.shape, b.shape)
    ensures r.Some? ==> r.value.Is2() && r.value.shape == BroadcastShape(a.shape, b.shape)
  {
    if a.Is2() && b.Is2() && ShapesBroadcast(a.shape, b.shape) then
      Some(Build2(BroadcastShape(a.shape, b.shape), (i, j) => Stretched(a, i, j) + Stretched(b, i, j)))
    else
      None
  }

  /** The broadcast sum does not depend on the order of its operands. */
  lemma AddBroadcastCommutes(a: Tensor, b: Tensor)
    ensures AddBroadcast(a, b) == AddBroadcast(b, a)
  {
    if AddBroadcast(a, b).Some? {
      var r, q := AddBroadcast(a, b).value, AddBroadcast(b, a).value;
      assert r.shape == q.shape;
      forall i, j | In2(r.shape, i, j)
        ensures At2(r, i, j) == At2(q, i, j)
      {
        At2Build2(BroadcastShape(a.shape, b.shape), (i, j) => Stretched(a, i, j) + Stretched(b, i, j), i, j);
        At2Build2(BroadcastShape(b.shape, a.shape), (i, j) => Stretched(b, i, j) + Stretched(a, i, j), i, j);
      }
      Ext2(r, q);
    }
  }

  /**
   * The dueling head: one state value (shape [1, 1]) plus one advantage per
   * candidate action (shape [N, 1]) gives, for each candidate, its
   * advantage raised by the state value.
   */
  lemma ValuePlusAdvantage(value: Tensor, advantage: Tensor, n: int)
    requires value.Is2() && value.shape == [1, 1]
    requires advantage.Is2() && |advantage.shape| == 2 && advantage.shape[1] == 1 && 0 <= n < advantage.shape[0]
    ensures AddBroadcast(value, advantage).Some?
    ensures AddBroadcast(value, advantage).value.shape == [advantage.shape[0], 1]
    ensures At2(AddBroadcast(value, advantage).value, n, 0) == At2(value, 0, 0) + At2(advantage, n, 0)
  {
    At2Build2(BroadcastShape(value.shape, advantage.shape), (i, j) => Stretched(value, i, j) + Stretched(advantage, i, j), n, 0);
  }

  // ---------------------------------------------------------------------------
  // Concatenation and its inverse

  /** `xt::concatenate(xtuple(a, b), 1)`: the rows must agree, the features follow each other. */
  function Concat(a: Tensor, b: Tensor): (r: Option<Tensor>)
    ensures r.Some? <==> a.Is2() && b.Is2() && a.shape[0] == b.shape[0]
    ensures r.Some? ==> r.value.Is2() && r.value.shape == [a.shape[0], a.shape[1] + b.shape[1]]
  {
    if a.Is2() && b.Is2() && a.shape[0] == b.shape[0] then
      Some(Build2([a.shape[0], a.shape[1] + b.shape[1]],
        (i, j) => if j < a.shape[1] then At2(a, i, j) else At2(b, i, j - a.shape[1])))
    else
      None
  }

  lemma ConcatAt(a: Tensor, b: Tensor, i: int, j: int)
    requires Concat(a, b).Some? && In2(Concat(a, b).value.shape, i, j)
    ensures At2(Concat(a, b).value, i, j) == if j < a.shape[1] then At2(a, i, j) else At2(b, i, j - a.shape[1])
  {
    At2Build2([a.shape[0], a.shape[1] + b.shape[1]],
      (i, j) => if j < a.shape[1] then At2(a, i, j) else At2(b, i, j - a.shape[1]), i, j);
  }

  /**
   * `xt::view(t, xt::all(), xt::range(k, _))`: the features from `k` on; a
   * break point past the end leaves no features.
   */
  function Suffix(t: Tensor, k: nat): (r: Tensor)
    requires t.Is2()
    ensures r.Is2() && r.shape == [t.shape[0], if k <= t.shape[1] then t.shape[1] - k else 0]
    ensures forall i, j | In2(r.shape, i, j) :: At2(r, i, j) == At2(t, i, j + k)
  {
    var s := [t.shape[0], if k <= t.shape[1] then t.shape[1] - k else 0];
    var r := Build2(s, (i, j) => At2(t, i, j + k));
    assert forall i, j | In2(s, i, j) :: At2(r, i, j) == At2(t, i, j + k) by {
      forall i, j | In2(s, i, j)
        ensures At2(r, i, j) == At2(t, i, j + k)
      {
        At2Build2(s, (i, j) => At2(t, i, j + k), i, j);
      }
    }
    r
  }

  /** Cutting a concatenation at the width of its first operand gives back the second. */
  lemma {:induction false} SuffixOfConcat(a: Tensor, b: Tensor)
    requires Concat(a, b).Some?
    ensures Suffix(Concat(a, b).value, a.shape[1]) == b
  {
    var c := Concat(a, b).value;
    var r := Suffix(c, a.shape[1]);
    forall i, j | In2(r.shape, i, j)
      ensures At2(r, i, j) == At2(b, i, j)
    {
      ConcatAt(a, b, i, j + a.shape[1]);
    }
    Ext2(r, b);
  }

  /**
   * `concatenate(xtuple(broadcast(state, actions.shape()), actions), 1)`:
   * the state stretched to the actions' shape, then the actions, along the
   * feature axis. It fails when the shapes do not broadcast or the
   * stretched state does not have the actions' rows.
   */
  function ConcatActions(state: Tensor, actions: Tensor): (r: Option<Tensor>)
    ensures r.Some? <==>
      state.Is2() && actions.Is2() && ShapesBroadcast(state.shape, actions.shape) &&
      BroadcastDim(state.shape[0], actions.shape[0]) == actions.shape[0]
    ensures r.Some? ==>
      r.value.Is2() && r.value.shape == [actions.shape[0], BroadcastDim(state.shape[1], actions.shape[1]) + actions.shape[1]]
  {
    match Broadcast(state, actions.shape)
    case None => None
    case Some(s) => Concat(s, actions)
  }

  /**
   * With one state row and as many state features as action features (the
   * two convolutional branches are alike), candidate `n` of the
   * concatenation holds the state's features followed by its own: the batch
   * is the number of candidates and the width is the sum of both widths.
   */
  lemma ConcatActionsRow(state: Tensor, actions: Tensor, n: int, j: int)
    requires state.Is2() && actions.Is2() && state.shape[0] == 1 && state.shape[1] == actions.shape[1]
    requires 0 <= n < actions.shape[0] && 0 <= j < state.shape[1]
    ensures ConcatActions(state, actions).Some?
    ensures ConcatActions(state, actions).value.shape == [actions.shape[0], state.shape[1] + actions.shape[1]]
    ensures At2(ConcatActions(state, actions).value, n, j) == At2(state, 0, j)
    ensures At2(ConcatActions(state, actions).value, n, state.shape[1] + j) == At2(actions, n, j)
  {
    var s := Broadcast(state, actions.shape).value;
    BroadcastRow(state, actions.shape, n, j);
    ConcatAt(s, actions, n, j);
    ConcatAt(s, actions, n, state.shape[1] + j);
  }

  /** Cutting the concatenated actions at the state width gives back the actions. */
  lemma SuffixOfConcatActions(state: Tensor, actions: Tensor)
    requires ConcatActions(state, actions).Some?
    requires state.shape[1] == actions.shape[1]
    ensures Suffix(ConcatActions(state, actions).value, state.shape[1]) == actions
  {
    var s := Broadcast(state, actions.shape).value;
    SuffixOfConcat(s, actions);
  }


  // ---------------------------------------------------------------------------
  // Sums of integer families

  lemma {:induction false} SumSplit(n: nat, m: nat, f: int -> int)
    ensures Sum(n + m, f) == Sum(n, f) + Sum(m, j => f(n + j))
    decreases m
  {
    if m > 0 {
      SumSplit(n, m - 1, f);
    }
  }

  /** `sum(t[:, j])`: column `j` of `t` summed over its first `n` rows. */
  function ColSum(t: Tensor, n: nat, j: int): int
  {
    Sum(n, i => At2(t, i, j))
  }

  // ---------------------------------------------------------------------------
  // Folding the actions' deltas into the state's deltas

  /** The width of `xt::range(0, break)` on the actions' feature axis. */
  function HalfWidth(sd: Tensor, ad: Tensor): nat
    requires sd.Is2() && ad.Is2()
  {
    if sd.shape[1] <= ad.shape[1] then sd.shape[1] else ad.shape[1]
  }

  predicate MergeOk(sd: Tensor, ad: Tensor)
  {
    sd.Is2() && ad.Is2() && DimsBroadcast(sd.shape[1], HalfWidth(sd, ad))
  }

  function MergeShape(sd: Tensor, ad: Tensor): seq<nat>
    requires MergeOk(sd, ad)
  {
    [sd.shape[0], BroadcastDim(sd.shape[1], HalfWidth(sd, ad))]
  }

  /** One term of the written sum: a state delta stretched over candidate `n`, plus that candidate's delta. */
  function AsWrittenTerm(sd: Tensor, ad: Tensor, b: int, j: int, n: int): int
    requires sd.Is2() && ad.Is2()
  {
    At2(sd, b, Src(sd.shape[1], j)) + At2(ad, n, Src(HalfWidth(sd, ad), j))
  }

  function AsWrittenCell(sd: Tensor, ad: Tensor, b: int, j: int): int
    requires sd.Is2() && ad.Is2()
  {
    Sum(ad.shape[0], n => AsWrittenTerm(sd, ad, b, j, n))
  }

  /**
   * The state's deltas after the fold: `xt::sum(view(state_deltas, all,
   * newaxis) + actions_deltas_half, {1})`, where the half is the actions'
   * first `state_deltas.shape()[1]` features (fewer when the actions are
   * narrower). The three-dimensional sum stretches the state's deltas over
   * the candidates before summing the candidates away.
   */
  function MergeAsWritten(sd: Tensor, ad: Tensor): (r: Option<Tensor>)
    ensures r.Some? <==> MergeOk(sd, ad)
    ensures r.Some? ==> r.value.Is2() && r.value.shape == MergeShape(sd, ad)
  {
    if MergeOk(sd, ad) then Some(Build2(MergeShape(sd, ad), (b, j) => AsWrittenCell(sd, ad, b, j)))
    else None
  }

  function MergeCell(sd: Tensor, ad: Tensor, b: int, j: int): int
    requires sd.Is2() && ad.Is2()
  {
    At2(sd, b, Src(sd.shape[1], j)) + ColSum(ad, ad.shape[0], Src(HalfWidth(sd, ad), j))
  }

  /**
   * The fold as evidently meant: each state delta plus the sum, over the
   * candidates, of the actions' deltas at the same feature.
   */
  function Merge(sd: Tensor, ad: Tensor): (r: Option<Tensor>)
    ensures r.Some? <==> MergeOk(sd, ad)
    ensures r.Some? ==> r.value.Is2() && r.value.shape == MergeShape(sd, ad)
  {
    if MergeOk(sd, ad) then Some(Build2(MergeShape(sd, ad), (b, j) => MergeCell(sd, ad, b, j)))
    else None
  }

  /**
   * As written, with the actions at least as wide as the state: the state
   * delta counted once per candidate, plus the candidates' deltas.
   */
  lemma MergeAsWrittenAt(sd: Tensor, ad: Tensor, b: int, j: int)
    requires sd.Is2() && ad.Is2() && sd.shape[1] <= ad.shape[1] && In2(sd.shape, b, j)
    ensures MergeAsWritten(sd, ad).Some? && MergeAsWritten(sd, ad).value.shape == sd.shape
    ensures At2(MergeAsWritten(sd, ad).value, b, j) == ad.shape[0] * At2(sd, b, j) + ColSum(ad, ad.shape[0], j)
  {
    var n := ad.shape[0];
    At2Build2(MergeShape(sd, ad), (b, j) => AsWrittenCell(sd, ad, b, j), b, j);
    var stretched := k => At2(sd, b, j);
    var own := k => At2(ad, k, j);
    SumExt(n, k => AsWrittenTerm(sd, ad, b, j, k), k => stretched(k) + own(k));
    SumAdd(n, stretched, own);
    SumConst(n, stretched, At2(sd, b, j));
    SumExt(n, own, i => At2(ad, i, j));
  }

  lemma MergeAt(sd: Tensor, ad: Tensor, b: int, j: int)
    requires sd.Is2() && ad.Is2() && sd.shape[1] <= ad.shape[1] && In2(sd.shape, b, j)
    ensures Merge(sd, ad).Some? && Merge(sd, ad).value.shape == sd.shape
    ensures At2(Merge(sd, ad).value, b, j) == At2(sd, b, j) + ColSum(ad, ad.shape[0], j)
  {
    At2Build2(MergeShape(sd, ad), (b, j) => MergeCell(sd, ad, b, j), b, j);
  }

  /** With a single candidate, as in every training step, the two folds agree. */
  lemma MergeAgreesForOneCandidate(sd: Tensor, ad: Tensor)
    requires sd.Is2() && ad.Is2() && sd.shape[1] <= ad.shape[1] && ad.shape[0] == 1
    ensures MergeAsWritten(sd, ad) == Merge(sd, ad)
  {
    var r, q := MergeAsWritten(sd, ad).value, Merge(sd, ad).value;
    forall b, j | In2(r.shape, b, j)
      ensures At2(r, b, j) == At2(q, b, j)
    {
      MergeAsWrittenAt(sd, ad, b, j);
      MergeAt(sd, ad, b, j);
    }
    Ext2(r, q);
  }

  /** With two candidates, the fold as written counts every state delta twice. */
  lemma MergeAsWrittenCountsStateTwice(sd: Tensor, ad: Tensor, b: int, j: int)
    requires sd.Is2() && ad.Is2() && sd.shape[1] <= ad.shape[1] && ad.shape[0] == 2 && In2(sd.shape, b, j)
    ensures At2(MergeAsWritten(sd, ad).value, b, j) == At2(Merge(sd, ad).value, b, j) + At2(sd, b, j)
  {
    MergeAsWrittenAt(sd, ad, b, j);
    MergeAt(sd, ad, b, j);
  }

  // ---------------------------------------------------------------------------
  // The fold is the chain rule of the concatenation

  function Prod(x: Tensor, y: Tensor, i: int, j: int): int
  {
    At2(x, i, j) * At2(y, i, j)
  }

  /** `sum(x[i, :w] * y[i, :w])`. */
  function RowInner(x: Tensor, y: Tensor, i: int, w: nat): int
  {
    Sum(w, j => Prod(x, y, i, j))
  }

  /** `sum(x * y)` over the shape of `x`. */
  function Inner(x: Tensor, y: Tensor): int
    requires |x.shape| == 2
  {
    Sum(x.shape[0], i => RowInner(x, y, i, x.shape[1]))
  }

  /** What candidate `i`'s deltas contribute to the state's single row. */
  function StateShare(d: Tensor, s: Tensor, i: int, w: nat): int
  {
    Sum(w, j => At2(d, i, j) * At2(s, 0, j))
  }

  lemma Distribute(x: int, p: int, q: int)
    ensures x * p + q * x == x * (p + q)
  {
  }

  /** The state's share summed over the candidates equals the state paired with the column sums. */
  lemma {:induction false} StateShareSwap(d: Tensor, s: Tensor, n: nat, w: nat)
    ensures Sum(n, i => StateShare(d, s, i, w)) == Sum(w, j => At2(s, 0, j) * ColSum(d, n, j))
  {
    if n == 0 {
      SumConst(w, j => At2(s, 0, j) * ColSum(d, n, j), 0);
    } else {
      StateShareSwap(d, s, n - 1, w);
      ColSumStep(d, s, n, w);
    }
  }

  /** Taking row `n - 1` of `d` into the column sums adds the state's share of that row. */
  lemma ColSumStep(d: Tensor, s: Tensor, n: nat, w: nat)
    requires n > 0
    ensures Sum(w, j => At2(s, 0, j) * ColSum(d, n - 1, j)) + StateShare(d, s, n - 1, w) ==
      Sum(w, j => At2(s, 0, j) * ColSum(d, n, j))
  {
    var before := j => At2(s, 0, j) * ColSum(d, n - 1, j);
    var last := j => At2(d, n - 1, j) * At2(s, 0, j);
    SumAdd(w, before, last);
    forall j | 0 <= j < w
      ensures before(j) + last(j) == At2(s, 0, j) * ColSum(d, n, j)
    {
      assert ColSum(d, n, j) == ColSum(d, n - 1, j) + At2(d, n - 1, j);
      Distribute(At2(s, 0, j), ColSum(d, n - 1, j), At2(d, n - 1, j));
    }
    SumExt(w, j => before(j) + last(j), j => At2(s, 0, j) * ColSum(d, n, j));
    SumExt(w, last, j => At2(d, n - 1, j) * At2(s, 0, j));
  }

  /** Row `i` of `<d, concat(broadcast(s), a)>` splits at the state width. */
  lemma RowOfConcat(s: Tensor, a: Tensor, d: Tensor, i: int)
    requires s.Is2() && a.Is2() && d.Is2() && s.shape[0] == 1 && s.shape[1] == a.shape[1]
    requires d.shape == [a.shape[0], s.shape[1] + a.shape[1]] && 0 <= i < a.shape[0]
    ensures ConcatActions(s, a).Some?
    ensures RowInner(d, ConcatActions(s, a).value, i, d.shape[1]) ==
      StateShare(d, s, i, s.shape[1]) + RowInner(Suffix(d, s.shape[1]), a, i, s.shape[1])
  {
    var w := s.shape[1];
    var c := ConcatActions(s, a).value;
    var tail := Suffix(d, w);
    var row := j => Prod(d, c, i, j);
    SumSplit(w, w, row);
    assert RowInner(d, c, i, d.shape[1]) == Sum(w, row) + Sum(w, j => row(w + j));
    forall j | 0 <= j < w
      ensures row(j) == At2(d, i, j) * At2(s, 0, j)
      ensures row(w + j) == Prod(tail, a, i, j)
    {
      ConcatActionsRow(s, a, i, j);
      assert At2(c, i, j) == At2(s, 0, j);
      assert At2(c, i, w + j) == At2(a, i, j);
      assert At2(tail, i, j) == At2(d, i, j + w);
    }
    SumExt(w, row, j => At2(d, i, j) * At2(s, 0, j));
    SumExt(w, j => row(w + j), j => Prod(tail, a, i, j));
  }

  /** The corrected fold's row, paired with the state. */
  lemma MergeRow(s: Tensor, sd: Tensor, d: Tensor)
    requires s.Is2() && sd.Is2() && d.Is2() && s.shape[0] == 1 && sd.shape == s.shape
    requires s.shape[1] <= d.shape[1]
    ensures Merge(sd, d).Some? && Merge(sd, d).value.shape == s.shape
    ensures RowInner(Merge(sd, d).value, s, 0, s.shape[1]) ==
      RowInner(sd, s, 0, s.shape[1]) + Sum(s.shape[1], j => At2(s, 0, j) * ColSum(d, d.shape[0], j))
  {
    var w := s.shape[1];
    var n := d.shape[0];
    var m := Merge(sd, d).value;
    var own := j => Prod(sd, s, 0, j);
    var folded := j => At2(s, 0, j) * ColSum(d, n, j);
    forall j | 0 <= j < w
      ensures Prod(m, s, 0, j) == own(j) + folded(j)
    {
      MergeAt(sd, d, 0, j);
    }
    SumExt(w, j => Prod(m, s, 0, j), j => own(j) + folded(j));
    SumAdd(w, own, folded);
  }

  /**
   * The derivative of a loss that reaches the state `s` directly with deltas
   * `sd` (the value branch) and through the concatenation with the actions
   * `a` with deltas `d` (the advantage branch) is the corrected fold for the
   * state and the suffix for the actions:
   * `<sd, s> + <d, concat(s, a)> == <Merge(sd, d), s> + <Suffix(d, W), a>`.
   */
  lemma MergeIsChainRule(s: Tensor, a: Tensor, sd: Tensor, d: Tensor)
    requires s.Is2() && a.Is2() && sd.Is2() && d.Is2()
    requires s.shape[0] == 1 && s.shape[1] == a.shape[1] && sd.shape == s.shape
    requires d.shape == [a.shape[0], s.shape[1] + a.shape[1]]
    ensures ConcatActions(s, a).Some? && Merge(sd, d).Some?
    ensures Inner(sd, s) + Inner(d, ConcatActions(s, a).value) ==
      Inner(Merge(sd, d).value, s) + Inner(Suffix(d, s.shape[1]), a)
  {
    InnerOfConcat(s, a, d);
    StateShareSwap(d, s, a.shape[0], s.shape[1]);
    MergeRow(s, sd, d);
  }

  /** `<d, concat(broadcast(s), a)>` is the state's share summed over the candidates, plus `<Suffix(d, W), a>`. */
  lemma InnerOfConcat(s: Tensor, a: Tensor, d: Tensor)
    requires s.Is2() && a.Is2() && d.Is2() && s.shape[0] == 1 && s.shape[1] == a.shape[1]
    requires d.shape == [a.shape[0], s.shape[1] + a.shape[1]]
    ensures ConcatActions(s, a).Some?
    ensures Inner(d, ConcatActions(s, a).value) ==
      Sum(a.shape[0], i => StateShare(d, s, i, s.shape[1])) + Inner(Suffix(d, s.shape[1]), a)
  {
    var w := s.shape[1];
    var n := a.shape[0];
    var c := ConcatActions(s, a).value;
    var tail := Suffix(d, w);
    var share := i => StateShare(d, s, i, w);
    var rest := i => RowInner(tail, a, i, w);
    forall i | 0 <= i < n
      ensures RowInner(d, c, i, d.shape[1]) == share(i) + rest(i)
    {
      RowOfConcat(s, a, d, i);
    }
    SumExt(n, i => RowInner(d, c, i, d.shape[1]), i => share(i) + rest(i));
    SumAdd(n, share, rest);
  }
}
