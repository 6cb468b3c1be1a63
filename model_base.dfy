/**
 * The model base (src/neural_network/model/ModelBase.cpp and the template
 * `insert_into_layers` of src/neural_network/model/ModelBase.h): a vector
 * of layers that is built front to back, run backward back to front, and
 * asked for its gradients and its trainable variables.
 */
module ModelBase {
  import opened Tensors
  import opened LayerTypes
  import opened Layer

  // ---------------------------------------------------------------------------
  // Layer sequences

  /** No two layers share an address: each is its own object. */
  predicate DistinctAddrs(ls: seq<AnyLayer>)
  {
    forall i, j | 0 <= i < j < |ls| :: ls[i].Addr() != ls[j].Addr()
  }

  function Objs(ls: seq<AnyLayer>): set<object>
  {
    set l | l in ls :: l.Obj()
  }

  /** Every layer of `ls` keeps what its construction set up. */
  ghost predicate LayersValid(ls: seq<AnyLayer>)
    reads Objs(ls)
  {
    forall i | 0 <= i < |ls| :: ls[i].Valid()
  }

  /** The layers' fields other than their variables. */
  ghost function LayoutsOf(ls: seq<AnyLayer>): (r: seq<LayerLayout>)
    reads Objs(ls)
    ensures |r| == |ls| && forall i | 0 <= i < |ls| :: r[i] == ls[i].Layout()
  {
    seq(|ls|, i requires 0 <= i < |ls| reads Objs(ls) => ls[i].Layout())
  }

  /** Every gradient key the layers of `ls` own. */
  function ParamsOf(ls: seq<AnyLayer>): set<GradKey>
    decreases |ls|
  {
    if ls == [] then {} else ParamsOf(ls[..|ls| - 1]) + ls[|ls| - 1].Params()
  }

  /** The keys of `get_trainable_vars_fixed`: layer by layer, weights before biases. */
  function VarKeysOf(ls: seq<AnyLayer>): seq<GradKey>
    decreases |ls|
  {
    if ls == [] then [] else VarKeysOf(ls[..|ls| - 1]) + ls[|ls| - 1].VarKeys()
  }

  // ---------------------------------------------------------------------------
  // Shape threading through `build`

  /** Each layer accepts the shape its predecessor hands on. */
  predicate ChainOk(ls: seq<AnyLayer>, shape: seq<nat>)
    decreases |ls|
  {
    ls == [] || (ls[0].BuildOk(shape) && ChainOk(ls[1..], ls[0].OutShape(shape)))
  }

  /** The shape each layer of `ls` is built with, when the first receives `shape`. */
  function InputShapes(ls: seq<AnyLayer>, shape: seq<nat>): (r: seq<seq<nat>>)
    requires ChainOk(ls, shape)
    decreases |ls|
    ensures |r| == |ls|
    ensures |ls| > 0 ==> r[0] == shape
    ensures forall i | 0 <= i < |ls| - 1 :: ls[i].BuildOk(r[i]) && r[i + 1] == ls[i].OutShape(r[i])
  {
    if ls == [] then [] else [shape] + InputShapes(ls[1..], ls[0].OutShape(shape))
  }

  /** The shape after the last layer. */
  function FinalShape(ls: seq<AnyLayer>, shape: seq<nat>): seq<nat>
    requires ChainOk(ls, shape)
    decreases |ls|
  {
    if ls == [] then shape else FinalShape(ls[1..], ls[0].OutShape(shape))
  }

  /** The last layer turns its input shape into the final shape. */
  lemma {:induction false} FinalShapeOfLast(ls: seq<AnyLayer>, shape: seq<nat>)
    requires ChainOk(ls, shape) && |ls| > 0
    ensures ls[|ls| - 1].BuildOk(InputShapes(ls, shape)[|ls| - 1])
    ensures FinalShape(ls, shape) == ls[|ls| - 1].OutShape(InputShapes(ls, shape)[|ls| - 1])
    decreases |ls|
  {
    if |ls| > 1 {
      FinalShapeOfLast(ls[1..], ls[0].OutShape(shape));
    }
  }

  /** `layers[i]->build(shape)`, which leaves the other layers as they were. */
  method BuildNth(ls: seq<AnyLayer>, shapes: seq<seq<nat>>, i: nat) returns (shape': seq<nat>)
    requires DistinctAddrs(ls) && |shapes| == |ls| && i < |ls| && ls[i].BuildOk(shapes[i])
    modifies ls[i].Obj()
    ensures shape' == ls[i].OutShape(shapes[i]) && ls[i].BuiltFor(shapes[i])
    ensures ls[i].Builds() == old(ls[i].Builds()) + [shapes[i]]
    ensures forall j | 0 <= j < |ls| && j != i :: ls[j].Builds() == old(ls[j].Builds())
    ensures forall j | 0 <= j < |ls| && j != i :: old(ls[j].BuiltFor(shapes[j])) ==> ls[j].BuiltFor(shapes[j])
    ensures forall j | 0 <= j < |ls| :: ls[j].Valid() == old(ls[j].Valid())
  {
    shape' := Build(ls[i], shapes[i]);
  }

  /**
   * `for (auto& layer : layers) layer->build(shape)`: every layer is built
   * once, in order, each with the shape its predecessor produced.
   */
  method BuildLayers(ls: seq<AnyLayer>, shape: seq<nat>) returns (shape': seq<nat>)
    requires ChainOk(ls, shape) && DistinctAddrs(ls)
    modifies Objs(ls)
    ensures shape' == FinalShape(ls, shape)
    ensures forall i | 0 <= i < |ls| ::
      ls[i].BuiltFor(InputShapes(ls, shape)[i]) && ls[i].Builds() == old(ls[i].Builds()) + [InputShapes(ls, shape)[i]]
    ensures forall i | 0 <= i < |ls| :: ls[i].Valid() == old(ls[i].Valid())
  {
    var shapes := InputShapes(ls, shape);
    shape' := shape;
    var i := 0;
    while i < |ls|
      invariant 0 <= i <= |ls|
      invariant i < |ls| ==> shape' == shapes[i]
      invariant i == |ls| ==> shape' == FinalShape(ls, shape)
      invariant forall j | 0 <= j < i :: ls[j].BuiltFor(shapes[j]) && ls[j].Builds() == old(ls[j].Builds()) + [shapes[j]]
      invariant forall j | i <= j < |ls| :: ls[j].Builds() == old(ls[j].Builds())
      invariant forall j | 0 <= j < |ls| :: ls[j].Valid() == old(ls[j].Valid())
    {
      if i == |ls| - 1 {
        FinalShapeOfLast(ls, shape);
      }
      shape' := BuildNth(ls, shapes, i);
      i := i + 1;
    }
  }

  /** Every layer of `ls` is ready for the shape the build threads to it. */
  ghost predicate RunFits(ls: seq<AnyLayer>, shape: seq<nat>)
    reads Objs(ls)
  {
    ChainOk(ls, shape) && forall i | 0 <= i < |ls| :: ls[i].Ready(InputShapes(ls, shape)[i])
  }

  /** The build of a prefix threads the same shapes as the build of the whole. */
  lemma {:induction false} InputShapesPrefix(ls: seq<AnyLayer>, shape: seq<nat>, k: nat)
    requires ChainOk(ls, shape) && k <= |ls|
    ensures ChainOk(ls[..k], shape) && InputShapes(ls[..k], shape) == InputShapes(ls, shape)[..k]
    decreases k
  {
    if k > 0 {
      assert ls[..k][1..] == ls[1..][..k - 1];
      InputShapesPrefix(ls[1..], ls[0].OutShape(shape), k - 1);
    }
  }

  /** The tape holds, for every layer of `ls`, an input of the shape it was built for, at batch `n`. */
  ghost predicate Recorded(ls: seq<AnyLayer>, shape: seq<nat>, n: nat, tape: Tape)
  {
    ChainOk(ls, shape) &&
    forall i | 0 <= i < |ls| ::
      ls[i].Addr() in tape && tape[ls[i].Addr()].Valid() &&
      tape[ls[i].Addr()].shape == Rebatch(InputShapes(ls, shape)[i], n)
  }

  /** Entries a tape keeps stay recorded. */
  lemma RecordedKept(ls: seq<AnyLayer>, shape: seq<nat>, n: nat, tape: Tape, tape': Tape)
    requires Recorded(ls, shape, n, tape) && forall a | a in tape :: a in tape' && tape'[a] == tape[a]
    ensures Recorded(ls, shape, n, tape')
  {
  }

  /** A prefix of a run that fits, recorded on a tape, fits and is recorded too. */
  lemma FrontFits(ls: seq<AnyLayer>, shape: seq<nat>, n: nat, tape: Tape, k: nat)
    requires RunFits(ls, shape) && Recorded(ls, shape, n, tape) && k <= |ls|
    ensures RunFits(ls[..k], shape) && Recorded(ls[..k], shape, n, tape)
    ensures InputShapes(ls[..k], shape) == InputShapes(ls, shape)[..k]
  {
    InputShapesPrefix(ls, shape, k);
  }

  /**
   * A backward pass over layers each ready for the shape its build received,
   * on a tape that recorded their inputs at batch `n`, completes when the
   * last layer accepts what it is handed; the deltas it ends with have the
   * shape of the first layer's input, and the outputs are that input.
   */
  lemma {:induction false} BackwardSeqFits(ls: seq<AnyLayer>, shape: seq<nat>, n: nat, tape: Tape, st: BackwardResult)
    requires RunFits(ls, shape) && |ls| > 0 && Recorded(ls, shape, n, tape)
    requires ls[|ls| - 1].Accepts(InputShapes(ls, shape)[|ls| - 1], n, st)
    ensures BackwardSeq(ls, tape, st).Some?
    ensures BackwardSeq(ls, tape, st).value.deltas.Valid()
    ensures BackwardSeq(ls, tape, st).value.deltas.shape == Rebatch(shape, n)
    ensures BackwardSeq(ls, tape, st).value.outputs == tape[ls[0].Addr()]
    decreases |ls|
  {
    var k := |ls| - 1;
    var shapes := InputShapes(ls, shape);
    ls[k].StepFits(shapes[k], n, tape, st);
    var st' := ls[k].BackwardStep(tape, st).value;
    BackwardSeqLast(ls, tape, st);
    var front := ls[..k];
    assert BackwardSeq(ls, tape, st) == BackwardSeq(front, tape, st');
    if k > 0 {
      FrontFits(ls, shape, n, tape, k);
      assert front[k - 1] == ls[k - 1];
      assert shapes[k] == ls[k - 1].OutShape(shapes[k - 1]);
      assert front[k - 1].Accepts(InputShapes(front, shape)[k - 1], n, st');
      BackwardSeqFits(front, shape, n, tape, st');
    } else {
      assert front == [] && shapes[0] == shape;
    }
  }

  // ---------------------------------------------------------------------------
  // Backward order

  /**
   * `ModelBase::backward`: the last layer steps first, then the others in
   * reverse order, each on the triple its successor left. A step that
   * throws ends the pass. A pass that completes has added exactly the
   * gradient keys of its layers.
   */
  function BackwardSeq(ls: seq<AnyLayer>, tape: Tape, st: BackwardResult): (r: Option<BackwardResult>)
    reads Objs(ls)
    decreases |ls|
    ensures r.Some? ==> r.value.gradients.Keys == st.gradients.Keys + ParamsOf(ls)
    ensures r.Some? ==> forall k | k in st.gradients :: r.value.gradients[k] == st.gradients[k]
  {
    if ls == [] then Some(st)
    else
      assert Objs(ls[..|ls| - 1]) <= Objs(ls);
      match ls[|ls| - 1].BackwardStep(tape, st)
      case None => None
      case Some(st') => BackwardSeq(ls[..|ls| - 1], tape, st')
  }

  /**
   * The reverse pass with the pooling layers' `backward` as written: they
   * leave `outputs` as the layer above left it.
   */
  function BackwardSeqPoolAsWritten(ls: seq<AnyLayer>, tape: Tape, st: BackwardResult): Option<BackwardResult>
    reads Objs(ls)
    decreases |ls|
  {
    if ls == [] then Some(st)
    else
      assert Objs(ls[..|ls| - 1]) <= Objs(ls);
      match ls[|ls| - 1].BackwardStepAsWritten(tape, st)
      case None => None
      case Some(st') => BackwardSeqPoolAsWritten(ls[..|ls| - 1], tape, st')
  }

  /** Continue a backward pass over `ls` after a step that may have thrown. */
  function Then(r: Option<BackwardResult>, ls: seq<AnyLayer>, tape: Tape): Option<BackwardResult>
    reads Objs(ls)
  {
    match r
    case None => None
    case Some(st) => BackwardSeq(ls, tape, st)
  }

  /** Backward over `a + b` runs all of `b`, then all of `a`. */
  lemma {:induction false} BackwardSeqSplit(a: seq<AnyLayer>, b: seq<AnyLayer>, tape: Tape, st: BackwardResult)
    ensures BackwardSeq(a + b, tape, st) == Then(BackwardSeq(b, tape, st), a, tape)
    decreases |b|
  {
    if b == [] {
      assert a + b == a;
    } else {
      var ab, front, last := a + b, b[..|b| - 1], b[|b| - 1];
      assert ab[..|ab| - 1] == a + front && ab[|ab| - 1] == last;
      BackwardSeqLast(ab, tape, st);
      BackwardSeqLast(b, tape, st);
      match last.BackwardStep(tape, st)
      case None =>
      case Some(st') =>
        BackwardSeqSplit(a, front, tape, st');
    }
  }

  /** One step of the reverse pass: the last layer, then the rest. */
  lemma BackwardSeqLast(ls: seq<AnyLayer>, tape: Tape, st: BackwardResult)
    requires |ls| > 0
    ensures BackwardSeq(ls, tape, st) == Then(ls[|ls| - 1].BackwardStep(tape, st), ls[..|ls| - 1], tape)
  {
  }

  /** A reverse pass that completes leaves the first layer's recorded input in `outputs`. */
  lemma {:induction false} BackwardSeqEndsOnFirstInput(ls: seq<AnyLayer>, tape: Tape, st: BackwardResult)
    requires |ls| > 0 && BackwardSeq(ls, tape, st).Some?
    ensures ls[0].Addr() in tape && BackwardSeq(ls, tape, st).value.outputs == tape[ls[0].Addr()]
    decreases |ls|
  {
    var st' := ls[|ls| - 1].BackwardStep(tape, st).value;
    if |ls| == 1 {
      assert ls[..0] == [];
    } else {
      BackwardSeqEndsOnFirstInput(ls[..|ls| - 1], tape, st');
    }
  }

  /** `layers[i - 1]->backward(...)`: one step of the reverse loop. */
  method BackwardNth(ls: seq<AnyLayer>, i: nat, tape: Tape, st: BackwardResult) returns (r: Option<BackwardResult>)
    requires 0 < i <= |ls|
    ensures Then(r, ls[..i - 1], tape) == BackwardSeq(ls[..i], tape, st)
    ensures forall l | l in ls :: unchanged(l.Obj())
  {
    r := Backward(ls[i - 1], tape, st);
    assert ls[..i][..i - 1] == ls[..i - 1];
    BackwardSeqLast(ls[..i], tape, st);
  }

  /** The reverse loop of `ModelBase::backward` over `ls`. */
  method BackwardLayers(ls: seq<AnyLayer>, tape: Tape, st: BackwardResult) returns (r: Option<BackwardResult>)
    ensures r == BackwardSeq(ls, tape, st)
  {
    r := Some(st);
    var i := |ls|;
    assert ls[..i] == ls;
    while i > 0 && r.Some?
      invariant 0 <= i <= |ls|
      invariant r.Some? ==> BackwardSeq(ls, tape, st) == BackwardSeq(ls[..i], tape, r.value)
      invariant r.None? ==> BackwardSeq(ls, tape, st) == None
    {
      var cur := r.value;
      label Before:
      r := BackwardNth(ls, i, tape, cur);
      assert unchanged@Before(Objs(ls));
      assert Objs(ls[..i]) <= Objs(ls);
      i := i - 1;
    }
    if r.Some? {
      assert ls[..i] == [];
    }
  }

  // ---------------------------------------------------------------------------
  // Key order of `std::map`

  /** Strictly increasing in key order. */
  predicate SortedKeys(s: seq<GradKey>)
  {
    forall i, j | 0 <= i < j < |s| :: KeyLess(s[i], s[j])
  }

  predicate IsMinKey(m: GradKey, s: set<GradKey>)
  {
    m in s && forall k | k in s && k != m :: KeyLess(m, k)
  }

  /** Key order is a strict total order. */
  lemma KeyOrder(a: GradKey, b: GradKey, c: GradKey)
    ensures !KeyLess(a, a)
    ensures KeyLess(a, b) ==> !KeyLess(b, a)
    ensures KeyLess(a, b) && KeyLess(b, c) ==> KeyLess(a, c)
    ensures a != b ==> KeyLess(a, b) || KeyLess(b, a)
  {
  }

  lemma {:induction false} MinKeyExists(s: set<GradKey>)
    requires s != {}
    ensures exists m :: IsMinKey(m, s)
    decreases s
  {
    var x :| x in s;
    if s == {x} {
      assert IsMinKey(x, s);
    } else {
      MinKeyExists(s - {x});
      var m :| IsMinKey(m, s - {x});
      KeyOrder(m, x, m);
      if KeyLess(m, x) {
        assert IsMinKey(m, s);
      } else {
        forall k | k in s && k != x
          ensures KeyLess(x, k)
        {
          KeyOrder(x, m, k);
        }
        assert IsMinKey(x, s);
      }
    }
  }

  lemma MinKeyUnique(m: GradKey, n: GradKey, s: set<GradKey>)
    requires IsMinKey(m, s) && IsMinKey(n, s)
    ensures m == n
  {
    if m != n {
      KeyOrder(m, n, m);
    }
  }

  ghost function MinKey(s: set<GradKey>): (m: GradKey)
    requires s != {}
    ensures IsMinKey(m, s)
  {
    MinKeyExists(s);
    var m :| IsMinKey(m, s);
    m
  }

  /** The keys of `s` in the order a `std::map` iterates them. */
  ghost function Ordered(s: set<GradKey>): (r: seq<GradKey>)
    ensures SortedKeys(r) && |r| == |s|
    ensures forall k :: k in r <==> k in s
    decreases s
  {
    if s == {} then []
    else
      var m := MinKey(s);
      var rest := Ordered(s - {m});
      assert forall j | 0 <= j < |rest| :: KeyLess(m, rest[j]) by {
        forall j | 0 <= j < |rest| ensures KeyLess(m, rest[j]) {
          assert rest[j] in s - {m};
        }
      }
      [m] + rest
  }

  /** After removing the least key, the order of the others is unchanged. */
  lemma OrderedHead(s: set<GradKey>, m: GradKey)
    requires IsMinKey(m, s)
    ensures Ordered(s) == [m] + Ordered(s - {m})
  {
    MinKeyUnique(m, MinKey(s), s);
  }

  /** Two sorted sequences with the same keys are the same sequence. */
  lemma {:induction false} SortedUnique(a: seq<GradKey>, b: seq<GradKey>)
    requires SortedKeys(a) && SortedKeys(b)
    requires forall k :: k in a <==> k in b
    ensures a == b
    decreases |a|
  {
    assert |b| > 0 ==> b[0] in b;
    if a != [] {
      assert a[0] in b;
      var s := set k | k in a;
      assert IsMinKey(a[0], s) by {
        forall k | k in s && k != a[0] ensures KeyLess(a[0], k) {
          var j :| 0 <= j < |a| && a[j] == k;
        }
      }
      assert IsMinKey(b[0], s) by {
        assert b[0] in b;
        forall k | k in s && k != b[0] ensures KeyLess(b[0], k) {
          var j :| 0 <= j < |b| && b[j] == k;
        }
      }
      MinKeyUnique(a[0], b[0], s);
      forall k ensures k in a[1..] ==> k in b[1..] {
        if k in a[1..] {
          var j :| 1 <= j < |a| && a[j] == k;
          KeyOrder(a[0], k, a[0]);
          assert a[j] in a;
          var j' :| 0 <= j' < |b| && b[j'] == k;
          assert j' != 0;
          assert b[1..][j' - 1] == k;
        }
      }
      forall k ensures k in b[1..] ==> k in a[1..] {
        if k in b[1..] {
          var j :| 1 <= j < |b| && b[j] == k;
          KeyOrder(b[0], k, b[0]);
          assert b[j] in b;
          var j' :| 0 <= j' < |a| && a[j'] == k;
          assert j' != 0;
          assert a[1..][j' - 1] == k;
        }
      }
      SortedUnique(a[1..], b[1..]);
    }
  }

  lemma OrderedNext(all: set<GradKey>, done: seq<GradKey>, rest: set<GradKey>, k: GradKey)
    requires Ordered(all) == done + Ordered(rest) && IsMinKey(k, rest)
    ensures Ordered(all) == (done + [k]) + Ordered(rest - {k})
  {
    OrderedHead(rest, k);
  }

  predicate KeysIn<V>(keys: seq<GradKey>, m: map<GradKey, V>)
  {
    forall k | k in keys :: k in m
  }

  /** The values of `m` under `keys`, in that order. */
  function Lookup<V>(m: map<GradKey, V>, keys: seq<GradKey>): (r: seq<V>)
    requires KeysIn(keys, m)
    ensures |r| == |keys|
    ensures forall j | 0 <= j < |keys| :: r[j] == m[keys[j]]
    decreases |keys|
  {
    if keys == [] then [] else Lookup(m, keys[..|keys| - 1]) + [m[keys[|keys| - 1]]]
  }

  lemma LookupSnoc<V>(m: map<GradKey, V>, keys: seq<GradKey>, k: GradKey)
    requires KeysIn(keys, m)
    requires k in m
    ensures KeysIn(keys + [k], m)
    ensures Lookup(m, keys + [k]) == Lookup(m, keys) + [m[k]]
  {
    assert (keys + [k])[..|keys|] == keys;
  }

  /**
   * Part way through listing `m` in key order: `done` is listed, with
   * values `vs`, and the keys in `rest` are still to come.
   */
  ghost predicate Listing<V>(m: map<GradKey, V>, done: seq<GradKey>, rest: set<GradKey>, vs: seq<V>)
  {
    rest <= m.Keys && Ordered(m.Keys) == done + Ordered(rest) && KeysIn(done, m) && vs == Lookup(m, done)
  }

  /** Listing the least remaining key keeps the listing in key order. */
  lemma ListingStep<V>(m: map<GradKey, V>, done: seq<GradKey>, rest: set<GradKey>, vs: seq<V>, k: GradKey)
    requires Listing(m, done, rest, vs) && IsMinKey(k, rest)
    ensures Listing(m, done + [k], rest - {k}, vs + [m[k]])
  {
    OrderedNext(m.Keys, done, rest, k);
    LookupSnoc(m, done, k);
  }

  /** The whole map listed in key order. */
  lemma ListingDone<V>(m: map<GradKey, V>, done: seq<GradKey>, vs: seq<V>)
    requires Listing(m, done, {}, vs)
    ensures vs == Lookup(m, Ordered(m.Keys))
  {
    assert Ordered(m.Keys) == done + [];
  }

  /** The loop that walks a `std::map` from `begin()` to `end()` collecting its values. */
  method ValuesInKeyOrder<V>(m: map<GradKey, V>) returns (vs: seq<V>)
    ensures vs == Lookup(m, Ordered(m.Keys))
  {
    var rest := m.Keys;
    ghost var done: seq<GradKey> := [];
    vs := [];
    assert Lookup(m, []) == [];
    while rest != {}
      invariant Listing(m, done, rest, vs)
      decreases |rest|
    {
      MinKeyExists(rest);
      var k :| IsMinKey(k, rest);
      ListingStep(m, done, rest, vs, k);
      vs := vs + [m[k]];
      done := done + [k];
      rest := rest - {k};
    }
    ListingDone(m, done, vs);
  }

  // ---------------------------------------------------------------------------
  // The two orders of the trainable variables

  /** A layer's keys in its own list are its gradient keys, in key order. */
  lemma VarKeysOfLayer(l: AnyLayer)
    ensures SortedKeys(l.VarKeys())
    ensures forall k :: k in l.VarKeys() <==> k in l.Params()
  {
  }

  /** The layer-order list holds exactly the keys of the layers, once each when addresses are distinct. */
  lemma {:induction false} VarKeysCoverParams(ls: seq<AnyLayer>)
    ensures forall k :: k in VarKeysOf(ls) <==> k in ParamsOf(ls)
    ensures |VarKeysOf(ls)| == 2 * |set l | l in ls && l.Trainable() :: l.Addr()| || !DistinctAddrs(ls)
    decreases |ls|
  {
    if ls != [] {
      var init := ls[..|ls| - 1];
      var l := ls[|ls| - 1];
      VarKeysCoverParams(init);
      if DistinctAddrs(ls) {
        assert DistinctAddrs(init);
        var before := set m | m in init && m.Trainable() :: m.Addr();
        var after := set m | m in ls && m.Trainable() :: m.Addr();
        assert l.Addr() !in before by {
          forall m | m in init ensures m.Addr() != l.Addr() {
            var j :| 0 <= j < |init| && init[j] == m;
          }
        }
        assert after == if l.Trainable() then before + {l.Addr()} else before by {
          forall a | a in after ensures a in before || (l.Trainable() && a == l.Addr()) {
            var m :| m in ls && m.Trainable() && m.Addr() == a;
            if m != l { assert m in init; }
          }
        }
      }
    }
  }

  /**
   * When the trainable layers' addresses increase along the vector, the
   * layer-order list and the key-order list coincide.
   */
  lemma {:induction false} FixedOrderIsKeyOrderWhenAscending(ls: seq<AnyLayer>)
    requires forall i, j | 0 <= i < j < |ls| && ls[i].Trainable() && ls[j].Trainable() :: ls[i].Addr() < ls[j].Addr()
    ensures VarKeysOf(ls) == Ordered(ParamsOf(ls))
  {
    VarKeysSorted(ls);
    VarKeysCoverParams(ls);
    SortedUnique(VarKeysOf(ls), Ordered(ParamsOf(ls)));
  }

  lemma {:induction false} VarKeysSorted(ls: seq<AnyLayer>)
    requires forall i, j | 0 <= i < j < |ls| && ls[i].Trainable() && ls[j].Trainable() :: ls[i].Addr() < ls[j].Addr()
    ensures SortedKeys(VarKeysOf(ls))
    ensures forall k | k in VarKeysOf(ls) :: exists i :: 0 <= i < |ls| && ls[i].Trainable() && k.layer == ls[i].Addr()
    decreases |ls|
  {
    if ls != [] {
      var init := ls[..|ls| - 1];
      var l := ls[|ls| - 1];
      VarKeysSorted(init);
      var a, b := VarKeysOf(init), l.VarKeys();
      forall k | k in a ensures l.Trainable() ==> k.layer < l.Addr() {
        var i :| 0 <= i < |init| && init[i].Trainable() && k.layer == init[i].Addr();
        assert ls[i] == init[i];
      }
      forall k | k in VarKeysOf(ls) ensures exists i :: 0 <= i < |ls| && ls[i].Trainable() && k.layer == ls[i].Addr() {
        if k in a {
          var i :| 0 <= i < |init| && init[i].Trainable() && k.layer == init[i].Addr();
          assert ls[i] == init[i];
        } else {
          assert ls[|ls| - 1] == l;
        }
      }
      assert SortedKeys(a + b) by {
        forall i, j | 0 <= i < j < |a + b| ensures KeyLess((a + b)[i], (a + b)[j]) {
          if j < |a| {
          } else if i >= |a| {
          } else {
            assert a[i] in a;
          }
        }
      }
    }
  }

  /**
   * Two trainable layers whose addresses run against the vector order list
   * their variables differently: `get_trainable_vars_fixed` starts with the
   * first layer, `get_trainable_vars` with the lower address.
   */
  lemma OrdersDifferWhenDescending(l1: AnyLayer, l2: AnyLayer)
    requires l1.Trainable() && l2.Trainable() && l1.Addr() > l2.Addr()
    ensures VarKeysOf([l1, l2])[0] == GradKey(l1.Addr(), Weights)
    ensures Ordered(ParamsOf([l1, l2]))[0] == GradKey(l2.Addr(), Weights)
  {
    var ls := [l1, l2];
    assert ls[..1] == [l1] && [l1][..0] == [];
    assert VarKeysOf([l1]) == l1.VarKeys();
    assert VarKeysOf(ls) == l1.VarKeys() + l2.VarKeys();
    assert ParamsOf([l1]) == ParamKeys(l1.Addr());
    var s := ParamsOf(ls);
    assert s == ParamKeys(l1.Addr()) + ParamKeys(l2.Addr());
    var w2 := GradKey(l2.Addr(), Weights);
    assert IsMinKey(w2, s);
    OrderedHead(s, w2);
  }

  // ---------------------------------------------------------------------------
  // The model

  /** The listing loop of `get_gradient`, which leaves the layers alone. */
  method ListGradients(ls: seq<AnyLayer>, tape: Tape, st: BackwardResult, gradients: GradientMap) returns (vs: seq<Tensor>)
    ensures vs == Lookup(gradients, Ordered(gradients.Keys))
    ensures BackwardSeq(ls, tape, st) == old(BackwardSeq(ls, tape, st))
  {
    vs := ValuesInKeyOrder(gradients);
    assert unchanged(Objs(ls));
  }

  /** The body of `ModelBase::get_gradient` over the layers `ls`. */
  method GradientOf(ls: seq<AnyLayer>, outputs: Tensor, tape: Tape) returns (r: Option<seq<Tensor>>)
    ensures var b := BackwardSeq(ls, tape, BackwardResult(outputs, Scalar(1), map[]));
      r.Some? <==> b.Some?
    ensures var b := BackwardSeq(ls, tape, BackwardResult(outputs, Scalar(1), map[]));
      r.Some? ==> (|r.value| == |ParamsOf(ls)| &&
        forall k | 0 <= k < |r.value| :: r.value[k] == b.value.gradients[Ordered(ParamsOf(ls))[k]])
  {
    var st := BackwardResult(outputs, Scalar(1), map[]);
    var b := BackwardLayers(ls, tape, st);
    if b.None? {
      return None;
    }
    assert b.value.gradients.Keys == ParamsOf(ls);
    var values := ListGradients(ls, tape, st, b.value.gradients);
    r := Some(values);
  }

  /** The references of `get_trainable_vars_fixed`: layer by layer, weights before biases. */
  function FixedRefs(ls: seq<AnyLayer>): (r: seq<VarRef>)
    ensures |r| == |VarKeysOf(ls)|
    ensures forall k | 0 <= k < |r| :: r[k].Key() == VarKeysOf(ls)[k] && r[k].layer in ls && r[k].layer.Trainable()
    decreases |ls|
  {
    if ls == [] then [] else FixedRefs(ls[..|ls| - 1]) + RefsOf(ls[|ls| - 1])
  }

  /** The values behind `FixedRefs(ls)`, layer by layer. */
  ghost function VarValues(ls: seq<AnyLayer>): seq<Tensor>
    reads Objs(ls)
    decreases |ls|
  {
    if ls == [] then []
    else
      assert Objs(ls[..|ls| - 1]) <= Objs(ls) by {
        forall l | l in ls[..|ls| - 1]
          ensures l in ls
        {
        }
      }
      VarValues(ls[..|ls| - 1]) + ValuesOf(ls[|ls| - 1])
  }

  /** The k-th value is what the k-th reference of `get_trainable_vars_fixed` points at. */
  lemma {:induction false} VarValuesAt(ls: seq<AnyLayer>)
    ensures |VarValues(ls)| == |FixedRefs(ls)|
    ensures forall k | 0 <= k < |FixedRefs(ls)| :: VarValues(ls)[k] == FixedRefs(ls)[k].Value()
    decreases |ls|
  {
    if ls != [] {
      VarValuesAt(ls[..|ls| - 1]);
    }
  }

  /** Layers with distinct addresses hand out distinct references. */
  lemma {:induction false} FixedRefsDistinct(ls: seq<AnyLayer>)
    requires DistinctAddrs(ls)
    ensures forall i, j | 0 <= i < j < |FixedRefs(ls)| :: FixedRefs(ls)[i] != FixedRefs(ls)[j]
    decreases |ls|
  {
    if ls != [] {
      var init, l := ls[..|ls| - 1], ls[|ls| - 1];
      FixedRefsDistinct(init);
      var a, r := FixedRefs(init), FixedRefs(ls);
      forall i, j | 0 <= i < j < |r|
        ensures r[i] != r[j]
      {
        if j >= |a| && i < |a| {
          var m :| m in init && m == a[i].layer;
          var x :| 0 <= x < |init| && init[x] == m;
          assert ls[x] == m;
          assert m.Addr() != l.Addr();
        }
      }
    }
  }

  /** Layer vectors whose trainable layers sit at the same positions hand out as many references. */
  lemma {:induction false} FixedRefsAlike(a: seq<AnyLayer>, b: seq<AnyLayer>)
    requires |a| == |b| && forall i | 0 <= i < |a| :: a[i].Trainable() == b[i].Trainable()
    ensures |FixedRefs(a)| == |FixedRefs(b)|
    ensures forall k | 0 <= k < |FixedRefs(a)| :: FixedRefs(a)[k].kind == FixedRefs(b)[k].kind
    decreases |a|
  {
    if a != [] {
      FixedRefsAlike(a[..|a| - 1], b[..|b| - 1]);
    }
  }

  /** Every reference in `m` sits under its own key and points into `ls`. */
  predicate PointsIntoLayers(m: map<GradKey, VarRef>, ls: seq<AnyLayer>)
  {
    forall k | k in m :: m[k].Key() == k && m[k].layer in ls
  }

  /** The first loop of `get_trainable_vars`: the map of every layer's references. */
  method CollectVars(ls: seq<AnyLayer>) returns (m: map<GradKey, VarRef>)
    ensures m.Keys == ParamsOf(ls)
    ensures PointsIntoLayers(m, ls)
  {
    m := map[];
    var i := 0;
    while i < |ls|
      invariant 0 <= i <= |ls|
      invariant m.Keys == ParamsOf(ls[..i])
      invariant PointsIntoLayers(m, ls)
    {
      assert ls[..i + 1][..i] == ls[..i];
      m := InsertTrainableVars(ls[i], m);
      i := i + 1;
    }
    assert ls[..i] == ls;
  }

  /** The body of `get_trainable_vars` over the layers `ls`. */
  method TrainableVarsOf(ls: seq<AnyLayer>) returns (vars: seq<VarRef>)
    ensures |vars| == |ParamsOf(ls)|
    ensures forall k | 0 <= k < |vars| :: vars[k].Key() == Ordered(ParamsOf(ls))[k] && vars[k].layer in ls
  {
    var m := CollectVars(ls);
    vars := ValuesInKeyOrder(m);
    forall k | 0 <= k < |vars|
      ensures vars[k].Key() == Ordered(ParamsOf(ls))[k] && vars[k].layer in ls
    {
      assert Ordered(m.Keys)[k] in m;
    }
  }

  class ModelBase {
    var layers: seq<AnyLayer>

    constructor ()
      ensures layers == []
    {
      layers := [];
    }

    /**
     * `insert_into_layers(args...)`: the arguments are appended in order,
     * the layers present before keep their positions, and the result is the
     * position of the first new layer.
     */
    method InsertIntoLayers(added: seq<AnyLayer>) returns (first: nat)
      modifies this
      ensures layers == old(layers) + added
      ensures first == |old(layers)|
    {
      first := |layers|;
      var j := 0;
      while j < |added|
        invariant 0 <= j <= |added|
        invariant layers == old(layers) + added[..j]
      {
        assert added[..j + 1] == added[..j] + [added[j]];
        layers := layers + [added[j]];
        j := j + 1;
      }
      assert added[..j] == added;
    }

    /** `ModelBase::build`: the caller's shape is a copy, threaded through every layer once. */
    method Build(shape: seq<nat>)
      requires ChainOk(layers, shape) && DistinctAddrs(layers)
      modifies Objs(layers)
      ensures forall i | 0 <= i < |layers| ::
        layers[i].BuiltFor(InputShapes(layers, shape)[i]) &&
        layers[i].Builds() == old(layers[i].Builds()) + [InputShapes(layers, shape)[i]]
      ensures forall i | 0 <= i < |layers| :: layers[i].Valid() == old(layers[i].Valid())
    {
      assert this !in Objs(layers);
      var _ := BuildLayers(layers, shape);
    }

    /** `ModelBase::backward`: the layers in exact reverse order. */
    method Backward(tape: Tape, st: BackwardResult) returns (r: Option<BackwardResult>)
      ensures r == BackwardSeq(layers, tape, st)
    {
      r := BackwardLayers(layers, tape, st);
    }

    /**
     * `ModelBase::get_gradient`: a backward pass seeded with deltas 1 and an
     * empty gradient map, whose entries are then listed in key order; there
     * is one per gradient key of the layers, and the k-th belongs to the
     * k-th key.
     */
    method GetGradient(outputs: Tensor, tape: Tape) returns (r: Option<seq<Tensor>>)
      ensures var b := BackwardSeq(layers, tape, BackwardResult(outputs, Scalar(1), map[]));
        r.Some? <==> b.Some?
      ensures var b := BackwardSeq(layers, tape, BackwardResult(outputs, Scalar(1), map[]));
        r.Some? ==> (|r.value| == |ParamsOf(layers)| &&
          forall k | 0 <= k < |r.value| :: r.value[k] == b.value.gradients[Ordered(ParamsOf(layers))[k]])
    {
      r := GradientOf(layers, outputs, tape);
    }

    /**
     * `get_trainable_vars`: every layer inserts its references into a map,
     * which is then listed in key order; the k-th reference has the k-th key,
     * the same order `GetGradient` lists the gradients in.
     */
    method GetTrainableVars() returns (vars: seq<VarRef>)
      ensures |vars| == |ParamsOf(layers)|
      ensures forall k | 0 <= k < |vars| :: vars[k].Key() == Ordered(ParamsOf(layers))[k] && vars[k].layer in layers
    {
      vars := TrainableVarsOf(layers);
    }

    /**
     * `get_trainable_vars_fixed`: layer by layer, weights before biases;
     * the same references as `GetTrainableVars`, in vector order.
     */
    method GetTrainableVarsFixed() returns (vars: seq<VarRef>)
      ensures vars == FixedRefs(layers)
      ensures |vars| == |VarKeysOf(layers)|
      ensures forall k | 0 <= k < |vars| :: vars[k].Key() == VarKeysOf(layers)[k] && vars[k].layer in layers
    {
      vars := [];
      var i := 0;
      while i < |layers|
        invariant 0 <= i <= |layers|
        invariant vars == FixedRefs(layers[..i])
      {
        assert layers[..i + 1][..i] == layers[..i];
        vars := AppendTrainableVars(layers[i], vars);
        i := i + 1;
      }
      assert layers[..i] == layers;
    }
  }
}
