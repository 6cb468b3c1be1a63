/**
 * The agent of src/dqn/Q.cpp: a replay buffer of transitions with one
 * priority each, two dueling networks (the local one that chooses actions
 * and learns, and the target one that rates the successors of a
 * transition), and the counters that decide when to train and when to copy
 * the local network onto the target one.
 *
 * `Q` and its `QPrivate` are one class here. The float arithmetic of
 * training (TD errors, importance weights, the gradient step) is not
 * modelled; each random draw is a nondeterministic choice within the range
 * the source draws from.
 */
module Q {
  import opened Tensors
  import opened LayerTypes
  import opened Layer
  import opened ModelBase
  import opened ModelDueling

  // The defaults of `QParameters` (include/dqn/Q.h:13-26), which src/dqn/Q.cpp reads as `Q::` constants.
  const MinEps: real := 0.1
  const MaxEps: real := 0.95
  const EpsDecr: real := 0.0001
  const BetaMin: real := 0.4
  const BetaIncr: real := 0.00005
  const UpdateTarget: int := 300
  const TrainLocal: int := 10
  const BatchSize: nat := 10
  const MinTrace: nat := 15
  const MaxTrace: nat := 500

  /** `QPrivate::max_priority`: the priority of a transition entering an empty buffer. */
  const MaxPriority: real := 1.0

  /** A default-constructed `xt::xarray<float>`: no axes, one element. */
  const Blank: Tensor := Tensor([], [0])

  /** One remembered step: the state, the chosen action row, what followed, and whether the game ended. */
  datatype Transition = Transition(
    state: Tensor, action: Tensor, reward: real, afterstate: Tensor, possibleActions: Tensor, done: bool)

  /** `PreviousStateAction`: the state and the action row waiting for their reward. */
  datatype PreviousStateAction = PreviousStateAction(state: Tensor, action: Tensor, empty: bool)

  /** `PreviousStateAction()`: nothing is waiting. */
  const NoRecord: PreviousStateAction := PreviousStateAction(Blank, Blank, true)

  // ---------------------------------------------------------------------------
  // Priorities

  /** `*max_element(priorities)`: the largest priority. */
  function Max(ps: seq<real>): (m: real)
    requires |ps| > 0
    ensures m in ps && forall i | 0 <= i < |ps| :: ps[i] <= m
    decreases |ps|
  {
    if |ps| == 1 then ps[0]
    else
      var m := Max(ps[..|ps| - 1]);
      if m < ps[|ps| - 1] then ps[|ps| - 1] else m
  }

  /** The scan of `std::max_element`: a later element replaces the best only when it is larger. */
  method MaxElement(ps: seq<real>) returns (m: real)
    requires |ps| > 0
    ensures m == Max(ps)
  {
    m := ps[0];
    var i := 1;
    while i < |ps|
      invariant 1 <= i <= |ps| && m == Max(ps[..i])
    {
      assert ps[..i + 1][..i] == ps[..i];
      if m < ps[i] {
        m := ps[i];
      }
      i := i + 1;
    }
    assert ps[..i] == ps;
  }

  /**
   * The priority `add_new_priority` gives a new transition: at least every
   * priority already in the buffer, one of them when there are any, and
   * `max_priority` in an empty buffer.
   */
  function NewPriority(ps: seq<real>): (p: real)
    ensures forall i | 0 <= i < |ps| :: ps[i] <= p
    ensures |ps| > 0 ==> p in ps
    ensures |ps| == 0 ==> p == MaxPriority
  {
    if |ps| == 0 then MaxPriority else Max(ps)
  }

  // ---------------------------------------------------------------------------
  // The bootstrap rule

  /**
   * As written (src/dqn/Q.cpp:280): the target gets the bootstrap term
   * `gamma * find_best(afterstate, possible_actions, model_target).value`
   * when the transition is terminal.
   */
  predicate BootstrapsAsWritten(t: Transition)
  {
    t.done
  }

  /** The rule the model uses: only a transition after which the game goes on is rated by its successors. */
  predicate Bootstraps(t: Transition)
  {
    !t.done
  }

  /** What `find_best` needs of a transition it rates: one afterstate and at least one candidate action. */
  predicate HasCandidates(t: Transition)
  {
    |t.afterstate.shape| >= 1 && t.afterstate.shape[0] == 1 &&
    |t.possibleActions.shape| >= 1 && t.possibleActions.shape[0] > 0
  }

  /** Every transition that bootstraps can be rated. */
  predicate Candidates(trace: seq<Transition>)
  {
    forall i | 0 <= i < |trace| :: Bootstraps(trace[i]) ==> HasCandidates(trace[i])
  }

  /**
   * The terminal transition `call_network` stores (no actions left, so
   * `possible_actions` is a default array) is the one the rule as written
   * rates, and it has no candidates; the transitions `get_act` stores are
   * never rated.
   */
  lemma AsWrittenRatesTerminal(prev: PreviousStateAction, reward: real, afterstate: Tensor, actions: Tensor)
    ensures var t := Transition(prev.state, prev.action, reward, afterstate, Blank, true);
      BootstrapsAsWritten(t) && !HasCandidates(t) && !Bootstraps(t)
    ensures !BootstrapsAsWritten(Transition(prev.state, prev.action, reward, afterstate, actions, false))
  {
  }

  // ---------------------------------------------------------------------------
  // The bookkeeping of `update`

  /** The fields `update` reads and writes. */
  datatype Agent = Agent(
    trace: seq<Transition>, priorities: seq<real>, eps: real, beta: real, updateCount: int, trainCount: int)

  /**
   * What every round keeps true: one priority per transition, all of them
   * positive, at most `max_trace` transitions, `eps` and `beta` within one
   * step of their bounds, both counters within their ranges, and every
   * bootstrapping transition rateable.
   */
  predicate Inv(a: Agent)
  {
    |a.trace| == |a.priorities| && |a.trace| <= MaxTrace &&
    (forall i | 0 <= i < |a.priorities| :: a.priorities[i] > 0.0) &&
    MinEps - EpsDecr <= a.eps <= MaxEps && BetaMin <= a.beta < 1.0 + BetaIncr &&
    0 <= a.trainCount <= TrainLocal && 0 <= a.updateCount <= UpdateTarget &&
    Candidates(a.trace)
  }

  /** `emplace_back` of the transition, then `add_new_priority`. */
  function Pushed(a: Agent, t: Transition): Agent
  {
    a.(trace := a.trace + [t], priorities := a.priorities + [NewPriority(a.priorities)])
  }

  /** `erase(begin())` of both vectors when they hold more than `max_trace` entries. */
  function Evicted(a: Agent): Agent
    requires |a.trace| == |a.priorities|
  {
    if |a.trace| > MaxTrace then a.(trace := a.trace[1..], priorities := a.priorities[1..]) else a
  }

  /** Whether the round trains: with `t`, the buffer holds `min_trace` transitions, and `train_count` has reached `train_local`. */
  predicate Trains(a: Agent)
  {
    |a.trace| + 1 >= MinTrace && a.trainCount >= TrainLocal
  }

  /** Whether the round ends with `global_update`: it trains and `update_count` has reached `update_target`. */
  predicate Syncs(a: Agent)
  {
    Trains(a) && a.updateCount >= UpdateTarget
  }

  /** The counters and the annealing steps after `train_model` (src/dqn/Q.cpp:316-326). */
  function Annealed(a: Agent): Agent
  {
    a.(trainCount := 0,
       eps := if a.eps > MinEps then a.eps - EpsDecr else a.eps,
       beta := if a.beta < 1.0 then a.beta + BetaIncr else a.beta,
       updateCount := if a.updateCount < UpdateTarget then a.updateCount + 1 else 0)
  }

  /** `update` with `t`, except for the priorities a training round rewrites. */
  function Bookkeeping(a: Agent, t: Transition): Agent
    requires |a.trace| == |a.priorities|
  {
    var p := Pushed(a, t);
    if |p.trace| < MinTrace then p
    else
      var e := Evicted(p);
      if e.trainCount < TrainLocal then e.(trainCount := e.trainCount + 1) else Annealed(e)
  }

  /** `get_batch`'s draw: `batch_size` distinct positions of a buffer of `n` transitions. */
  predicate Drawn(batch: seq<nat>, n: nat)
  {
    |batch| == BatchSize && (forall i | 0 <= i < |batch| :: batch[i] < n) &&
    forall i, j | 0 <= i < j < |batch| :: batch[i] != batch[j]
  }

  /** The priorities at the positions in `batch` have been rewritten to positive values, and no others. */
  predicate Rewritten(ps: seq<real>, ps': seq<real>, batch: seq<nat>)
  {
    |ps'| == |ps| && forall i | 0 <= i < |ps| :: if i in batch then ps'[i] > 0.0 else ps'[i] == ps[i]
  }

  /** `train_model` has drawn a batch and rewritten the priorities of the drawn transitions. */
  ghost predicate Reprioritised(ps: seq<real>, ps': seq<real>)
  {
    exists batch :: Drawn(batch, |ps|) && Rewritten(ps, ps', batch)
  }

  /** A round of `update` with `t` takes the fields from `a` to `a'`. */
  ghost predicate UpdateStep(a: Agent, t: Transition, a': Agent)
  {
    |a.trace| == |a.priorities| &&
    var b := Bookkeeping(a, t);
    a'.(priorities := b.priorities) == b &&
    if Trains(a) then Reprioritised(b.priorities, a'.priorities) else a'.priorities == b.priorities
  }

  /**
   * Storing `t` and dropping the oldest transition of an overfull buffer
   * keeps the invariant, provided `t` can be rated if it bootstraps.
   */
  lemma PushKeepsInv(a: Agent, t: Transition)
    requires Inv(a) && (Bootstraps(t) ==> HasCandidates(t))
    ensures Inv(Evicted(Pushed(a, t)))
  {
    var p := Pushed(a, t);
    assert forall i | 0 <= i < |p.priorities| :: p.priorities[i] > 0.0 by {
      assert p.priorities[|a.priorities|] == NewPriority(a.priorities);
    }
    assert Candidates(p.trace) by {
      assert forall i | 0 <= i < |a.trace| :: p.trace[i] == a.trace[i];
    }
    if |p.trace| > MaxTrace {
      var e := Evicted(p);
      assert forall i | 0 <= i < |e.trace| :: e.trace[i] == p.trace[i + 1] && e.priorities[i] == p.priorities[i + 1];
    }
  }

  /** Every round keeps the invariant, provided a new bootstrapping transition can be rated. */
  lemma UpdateKeepsInv(a: Agent, t: Transition, a': Agent)
    requires Inv(a) && (Bootstraps(t) ==> HasCandidates(t)) && UpdateStep(a, t, a')
    ensures Inv(a')
  {
    PushKeepsInv(a, t);
    var b := Bookkeeping(a, t);
    if Trains(a) {
      var batch :| Drawn(batch, |b.priorities|) && Rewritten(b.priorities, a'.priorities, batch);
    }
  }

  /**
   * The buffer is first in, first out: `t` joins at the back and, in a full
   * buffer, the oldest transition leaves; the others keep their order.
   */
  lemma UpdateTrace(a: Agent, t: Transition, a': Agent)
    requires Inv(a) && UpdateStep(a, t, a')
    ensures a'.trace == (if |a.trace| == MaxTrace then a.trace[1..] else a.trace) + [t]
    ensures |a'.trace| == if |a.trace| == MaxTrace then MaxTrace else |a.trace| + 1
  {
    if |a.trace| == MaxTrace {
      assert (a.trace + [t])[1..] == a.trace[1..] + [t];
    }
  }

  /**
   * Before training rewrites any priority, the newest transition has the
   * largest priority in the buffer (optimistic insertion).
   */
  lemma NewestIsMostUrgent(a: Agent, t: Transition)
    requires Inv(a)
    ensures var ps := Bookkeeping(a, t).priorities;
      |ps| > 0 && ps[|ps| - 1] == NewPriority(a.priorities) && forall i | 0 <= i < |ps| :: ps[i] <= ps[|ps| - 1]
  {
    var p := Pushed(a, t).priorities;
    assert forall i | 0 <= i < |p| :: p[i] <= p[|p| - 1];
    var ps := Bookkeeping(a, t).priorities;
    if |p| > MaxTrace {
      assert forall i | 0 <= i < |ps| :: ps[i] == p[i + 1];
    }
  }

  /**
   * The cadence of a round: nothing trains until the buffer holds
   * `min_trace` transitions and `train_count` has reached `train_local`; a
   * training round restarts `train_count`, moves `eps` down and `beta` up by
   * one step while they are short of their bounds, and counts towards the
   * target copy, which restarts `update_count`.
   */
  lemma UpdateCadence(a: Agent, t: Transition, a': Agent)
    requires UpdateStep(a, t, a')
    ensures a'.trainCount == if Trains(a) then 0 else if |a.trace| + 1 >= MinTrace then a.trainCount + 1 else a.trainCount
    ensures a'.eps <= a.eps && (a'.eps < a.eps <==> Trains(a) && a.eps > MinEps)
    ensures a'.eps < a.eps ==> a'.eps == a.eps - EpsDecr
    ensures a'.beta >= a.beta && (a'.beta > a.beta <==> Trains(a) && a.beta < 1.0)
    ensures a'.beta > a.beta ==> a'.beta == a.beta + BetaIncr
    ensures a'.updateCount == if Syncs(a) then 0 else if Trains(a) then a.updateCount + 1 else a.updateCount
  {
  }

  /** A round that only stores `t`, because the buffer is still short of `min_trace`. */
  lemma StoringRound(a: Agent, t: Transition, e: Agent)
    requires |a.trace| == |a.priorities| && e == Evicted(Pushed(a, t)) && |e.trace| < MinTrace
    ensures UpdateStep(a, t, e) && !Trains(a)
  {
  }

  /** A round that stores `t` and counts towards the next training round. */
  lemma CountingRound(a: Agent, t: Transition, e: Agent, a': Agent)
    requires |a.trace| == |a.priorities| && e == Evicted(Pushed(a, t))
    requires |e.trace| >= MinTrace && e.trainCount < TrainLocal && a' == e.(trainCount := e.trainCount + 1)
    ensures UpdateStep(a, t, a') && !Trains(a)
  {
  }

  /** A round that stores `t`, trains and anneals; it syncs exactly when `update_count` has reached `update_target`. */
  lemma TrainingRound(a: Agent, t: Transition, e: Agent, a': Agent)
    requires |a.trace| == |a.priorities| && e == Evicted(Pushed(a, t))
    requires |e.trace| >= MinTrace && e.trainCount >= TrainLocal
    requires a' == Annealed(e).(priorities := a'.priorities) && Reprioritised(e.priorities, a'.priorities)
    ensures UpdateStep(a, t, a') && (Syncs(a) <==> e.updateCount >= UpdateTarget)
  {
  }

  /** A run of rounds: `ts[i]` takes `s[i]` to `s[i + 1]`. */
  ghost predicate Run(s: seq<Agent>, ts: seq<Transition>)
  {
    |s| == |ts| + 1 && forall i | 0 <= i < |ts| :: UpdateStep(s[i], ts[i], s[i + 1])
  }

  /** After a training round, `train_count` grows by at most one a round. */
  lemma {:induction false} TrainCountAfterTraining(s: seq<Agent>, ts: seq<Transition>, i: nat)
    requires Run(s, ts) && Trains(s[0]) && 1 <= i < |s|
    ensures s[i].trainCount <= i - 1
  {
    UpdateCadence(s[i - 1], ts[i - 1], s[i]);
    if i > 1 {
      TrainCountAfterTraining(s, ts, i - 1);
    }
  }

  /** After a training round, the next `train_local` rounds do not train. */
  lemma TrainingSpaced(s: seq<Agent>, ts: seq<Transition>)
    requires Run(s, ts) && Trains(s[0])
    ensures forall i | 1 <= i < |s| && i <= TrainLocal :: !Trains(s[i])
  {
    forall i | 1 <= i < |s| && i <= TrainLocal
      ensures !Trains(s[i])
    {
      TrainCountAfterTraining(s, ts, i);
    }
  }

  // ---------------------------------------------------------------------------
  // Choosing an action

  /** `xt::argmax`: the first position of the largest value. */
  predicate IsArgmax(vs: seq<int>, i: nat)
  {
    i < |vs| && (forall j | 0 <= j < |vs| :: vs[j] <= vs[i]) && forall j | 0 <= j < i :: vs[j] < vs[i]
  }

  /** `xt::argmax` of a non-empty sequence. */
  function Argmax(vs: seq<int>): (i: nat)
    requires |vs| > 0
    ensures IsArgmax(vs, i)
  {
    if |vs| == 1 then 0
    else
      var j := Argmax(vs[..|vs| - 1]);
      if vs[j] < vs[|vs| - 1] then |vs| - 1 else j
  }

  /** Every value is the same. */
  predicate AllEqual(vs: seq<int>)
  {
    forall i, j | 0 <= i < |vs| && 0 <= j < |vs| :: vs[i] == vs[j]
  }

  /** `xt::unique(values).size() == 1` holds exactly when there are values and they are all equal. */
  lemma {:induction false} UniqueOne(vs: seq<int>)
    ensures |set v | v in vs| == 1 <==> |vs| > 0 && AllEqual(vs)
  {
    var s := set v | v in vs;
    if |vs| == 0 {
      assert s == {};
    } else {
      if AllEqual(vs) {
        assert s == {vs[0]};
      }
      if |s| == 1 {
        var x := vs[0];
        assert x in s;
        assert s == (s - {x}) + {x};
        assert s - {x} == {};
        forall i | 0 <= i < |vs|
          ensures vs[i] == x
        {
          assert vs[i] in s && vs[i] !in s - {x};
        }
      }
    }
  }

  predicate Positive(x: real)
  {
    x > 0.0
  }

  /** The range of `random_float()`. */
  predicate Unit(u: real)
  {
    0.0 <= u < 1.0
  }

  /** `view(actions, range(i, i + 1))`: row `i` of `t`, keeping its axis. */
  function Row(t: Tensor, i: nat): (r: Tensor)
    requires t.Valid() && |t.shape| >= 1 && i < t.shape[0]
    ensures r.Valid() && r.shape == [1] + t.shape[1..]
  {
    var w := Product(t.shape[1..]);
    MulMonotone(i + 1, t.shape[0], w);
    assert ([1] + t.shape[1..])[1..] == t.shape[1..];
    Tensor([1] + t.shape[1..], t.data[i * w..(i + 1) * w])
  }

  /** Position `i` of `n` candidates has the largest rating, and is the first such when the ratings differ. */
  predicate ChoosesBest(values: seq<int>, n: nat, i: nat)
  {
    i < n && i < |values| &&
    (forall j | 0 <= j < |values| :: values[j] <= values[i]) &&
    (!AllEqual(values) ==> IsArgmax(values, i))
  }

  /**
   * The choice of `find_best` among the ratings of its `n` candidates: when
   * they are all equal (one unique value), the random candidate `random`,
   * else the first best one.
   */
  function Choice(values: seq<int>, n: nat, random: nat): (i: nat)
    requires |values| == n > 0 && random < n
    ensures ChoosesBest(values, n, i)
  {
    UniqueOne(values);
    if |set v | v in values| == 1 then random else Argmax(values)
  }

  /**
   * `find_best`, the index only: the network rates every candidate action
   * of `state` and the best one is chosen. When the network rejects the
   * inputs (xtensor throws), `None`.
   */
  method FindBest(state: Tensor, actions: Tensor, model: ModelDueling) returns (r: Option<nat>)
    requires model.Valid()
    requires |state.shape| >= 1 && state.shape[0] == 1 && |actions.shape| >= 1 && actions.shape[0] > 0
    ensures r.Some? <==> DuelingCall(model.base.layers, state, actions, None).Some?
    ensures r.Some? ==> ChoosesBest(DuelingCall(model.base.layers, state, actions, None).value.value.data, actions.shape[0], r.value)
  {
    var random: nat :| random < actions.shape[0];
    var f := model.CallWithTape(Pair(state, actions), None);
    if f.None? {
      return None;
    }
    DuelingCallShape(model.base.layers, state, actions, None);
    r := Some(Choice(f.value.value.data, actions.shape[0], random));
  }

  // ---------------------------------------------------------------------------
  // Copying the variables

  predicate AllTrainable(refs: seq<VarRef>)
  {
    forall k | 0 <= k < |refs| :: refs[k].layer.Trainable()
  }

  function RefObjs(refs: seq<VarRef>): set<object>
  {
    set r | r in refs :: r.layer.Obj()
  }

  /**
   * `*dst[i] = value`: the other references of `dst` keep their values,
   * and no layer of `ls` changes anything but that one variable.
   */
  method CopyOne(dst: seq<VarRef>, i: nat, value: Tensor, ghost ls: seq<AnyLayer>)
    requires AllTrainable(dst) && i < |dst|
    modifies dst[i].layer.Obj()
    ensures dst[i].Value() == value
    ensures forall k | 0 <= k < |dst| && dst[k] != dst[i] :: dst[k].Value() == old(dst[k].Value())
    ensures LayoutsOf(ls) == old(LayoutsOf(ls))
  {
    SetVar(dst[i], value);
    forall k | 0 <= k < |dst| && dst[k] != dst[i]
      ensures dst[k].Value() == old(dst[k].Value())
    {
      if dst[k].layer.Obj() == dst[i].layer.Obj() {
        SameObject(dst[k].layer, dst[i].layer);
      }
    }
    forall j | 0 <= j < |ls|
      ensures ls[j].Layout() == old(ls[j].Layout())
    {
      if ls[j].Obj() == dst[i].layer.Obj() {
        SameObject(ls[j], dst[i].layer);
      }
    }
    assert LayoutsOf(ls) == old(LayoutsOf(ls));
  }

  /**
   * The loop of `global_update`: `*dst[i] = *src[i]` for every reference of
   * `dst`, in order. Only variables change: the layers of `ls` keep their
   * other fields.
   */
  method CopyVars(dst: seq<VarRef>, src: seq<VarRef>, ghost ls: seq<AnyLayer>)
    requires |dst| <= |src| && AllTrainable(dst) && AllTrainable(src)
    requires forall i, j | 0 <= i < j < |dst| :: dst[i] != dst[j]
    requires RefObjs(dst) !! RefObjs(src)
    modifies RefObjs(dst)
    ensures forall k | 0 <= k < |dst| :: dst[k].Value() == src[k].Value()
    ensures forall k | 0 <= k < |src| :: src[k].Value() == old(src[k].Value())
    ensures LayoutsOf(ls) == old(LayoutsOf(ls))
  {
    var i := 0;
    while i < |dst|
      invariant 0 <= i <= |dst|
      invariant forall k | 0 <= k < i :: dst[k].Value() == src[k].Value()
      invariant LayoutsOf(ls) == old(LayoutsOf(ls))
    {
      assert dst[i].layer.Obj() in RefObjs(dst);
      CopyOne(dst, i, src[i].Value(), ls);
      i := i + 1;
    }
  }

  /** The references of a layer vector point into its layers. */
  lemma RefObjsInside(ls: seq<AnyLayer>)
    ensures RefObjs(FixedRefs(ls)) <= Objs(ls)
  {
    forall o | o in RefObjs(FixedRefs(ls))
      ensures o in Objs(ls)
    {
      var r :| r in FixedRefs(ls) && r.layer.Obj() == o;
    }
  }

  lemma SameElements(a: seq<Tensor>, b: seq<Tensor>)
    requires |a| == |b| && forall k | 0 <= k < |a| :: a[k] == b[k]
    ensures a == b
  {
  }

  /** Two layer vectors of the same length whose trainable layers sit at the same positions. */
  predicate Alike(a: seq<AnyLayer>, b: seq<AnyLayer>)
  {
    |a| == |b| && forall i | 0 <= i < |a| :: a[i].Trainable() == b[i].Trainable()
  }

  /** Two networks of the dueling architecture have their trainable layers at the same positions. */
  lemma NetworksAlike(a: seq<AnyLayer>, b: seq<AnyLayer>)
    requires Architecture(a) && Architecture(b)
    ensures Alike(a, b)
  {
    TrainablePositions(a);
    TrainablePositions(b);
  }

  /** The references of two alike networks pair up, those of the target are distinct, and the two sets of layers are apart. */
  lemma CopyPlan(t: seq<AnyLayer>, l: seq<AnyLayer>)
    requires Alike(t, l) && DistinctAddrs(t) && Objs(t) !! Objs(l)
    ensures |FixedRefs(t)| == |FixedRefs(l)| && AllTrainable(FixedRefs(t)) && AllTrainable(FixedRefs(l))
    ensures forall i, j | 0 <= i < j < |FixedRefs(t)| :: FixedRefs(t)[i] != FixedRefs(t)[j]
    ensures RefObjs(FixedRefs(t)) !! RefObjs(FixedRefs(l)) && RefObjs(FixedRefs(t)) <= Objs(t)
  {
    FixedRefsAlike(t, l);
    FixedRefsDistinct(t);
    RefObjsInside(l);
    RefObjsInside(t);
  }

  /**
   * The copy of `global_update`: the references of both networks are taken in
   * layer order, and every variable of `target` becomes the variable of
   * `local` at the same position.
   */
  method CopyNetwork(target: ModelBase, local: ModelBase)
    requires Alike(target.layers, local.layers) && DistinctAddrs(target.layers)
    requires Objs(target.layers) !! Objs(local.layers)
    requires target !in Objs(target.layers) && local !in Objs(target.layers)
    modifies Objs(target.layers)
    ensures VarValues(target.layers) == VarValues(local.layers)
    ensures LayoutsOf(target.layers) == old(LayoutsOf(target.layers))
    ensures unchanged(Objs(local.layers))
  {
    ghost var ls, ll := target.layers, local.layers;
    assert forall o | o in Objs(ls) + Objs(ll) :: allocated(o);
    var localVars := local.GetTrainableVarsFixed();
    var targetVars := target.GetTrainableVarsFixed();
    assert unchanged(Objs(ls) + Objs(ll));
    CopyPlan(ls, ll);
    label planned:
    CopyVars(targetVars, localVars, ls);
    assert target.layers == ls && local.layers == ll;
    assert unchanged@planned(Objs(ll));
    CopiedValues(ls, ll);
  }

  /** Two vectors whose references, taken in layer order, point at equal values hold the same variable values. */
  lemma CopiedValues(t: seq<AnyLayer>, l: seq<AnyLayer>)
    requires |FixedRefs(t)| == |FixedRefs(l)|
    requires forall k | 0 <= k < |FixedRefs(t)| :: FixedRefs(t)[k].Value() == FixedRefs(l)[k].Value()
    ensures VarValues(t) == VarValues(l)
  {
    VarValuesAt(t);
    VarValuesAt(l);
    SameElements(VarValues(t), VarValues(l));
  }

  /**
   * Two alike layer vectors with the same variable values in layer order
   * hold the same weights and biases at every trainable position.
   */
  lemma {:induction false} VarsAgree(a: seq<AnyLayer>, b: seq<AnyLayer>)
    requires Alike(a, b) && VarValues(a) == VarValues(b)
    ensures forall i | 0 <= i < |a| && a[i].Trainable() ::
      a[i].Var(Weights) == b[i].Var(Weights) && a[i].Var(Biases) == b[i].Var(Biases)
    decreases |a|
  {
    if a != [] {
      var n := |a| - 1;
      var a', b' := a[..n], b[..n];
      var va, vb := VarValues(a'), VarValues(b');
      assert VarValues(a) == va + ValuesOf(a[n]);
      assert VarValues(b) == vb + ValuesOf(b[n]);
      assert |va| == |vb|;
      assert va == VarValues(a)[..|va|] && vb == VarValues(b)[..|vb|];
      assert ValuesOf(a[n]) == VarValues(a)[|va|..] && ValuesOf(b[n]) == VarValues(b)[|vb|..];
      VarsAgree(a', b');
      forall i | 0 <= i < |a| && a[i].Trainable()
        ensures a[i].Var(Weights) == b[i].Var(Weights) && a[i].Var(Biases) == b[i].Var(Biases)
      {
        if i < n {
          assert a'[i] == a[i] && b'[i] == b[i];
        }
      }
    }
  }

  /** The layouts `ls` must keep for a network of the architecture to be built for `s`. */
  predicate LaidOut(ls: seq<AnyLayer>, s: seq<nat>, layouts: seq<LayerLayout>)
  {
    Architecture(ls) && |s| == 4 && BuildOk(ls, s) && |layouts| == 14 &&
    forall i | 0 <= i < 14 :: ls[i].LaidOutFor(layouts[i], BuildInput(ls, s, i))
  }

  /** A built network is laid out for its shape. */
  lemma BuiltLaidOut(ls: seq<AnyLayer>, s: seq<nat>)
    requires Built(ls, s)
    ensures LaidOut(ls, s, LayoutsOf(ls))
  {
    forall i | 0 <= i < 14
      ensures ls[i].LaidOutFor(LayoutsOf(ls)[i], BuildInput(ls, s, i))
    {
      ls[i].ReadyByParts(BuildInput(ls, s, i));
    }
  }

  /**
   * A network that kept the layouts of its build and took over the
   * variables of a network built for the same shape is built for it too.
   */
  lemma BuiltCopied(t: seq<AnyLayer>, l: seq<AnyLayer>, s: seq<nat>)
    requires DistinctAddrs(t) && LaidOut(t, s, LayoutsOf(t))
    requires Built(l, s) && VarValues(t) == VarValues(l)
    ensures Built(t, s)
  {
    ConfigsAgree(t, l);
    BuildInputsAgree(t, l, s);
    NetworksAlike(t, l);
    VarsAgree(t, l);
    forall i | 0 <= i < 14
      ensures t[i].Valid() && t[i].BuiltFor(BuildInput(t, s, i))
    {
      var x := BuildInput(t, s, i);
      l[i].ReadyByParts(x);
      VarsForCopied(t[i], l[i], x);
      t[i].ReadyByParts(x);
    }
  }

  /**
   * The copy of `global_update` between two dueling networks built for
   * states of `s`: the target takes over the local network's variables and
   * stays built, and the local network does not change.
   */
  method SyncNetworks(target: ModelDueling, local: ModelDueling, ghost s: seq<nat>)
    requires target.Valid() && local.Valid()
    requires Built(target.base.layers, s) && Built(local.base.layers, s)
    requires Objs(target.base.layers) !! Objs(local.base.layers)
    requires target.base !in Objs(target.base.layers) && local.base !in Objs(target.base.layers)
    modifies Objs(target.base.layers)
    ensures VarValues(target.base.layers) == VarValues(local.base.layers)
    ensures Built(target.base.layers, s) && unchanged(Objs(local.base.layers))
  {
    ghost var t := target.base.layers;
    BuiltLaidOut(t, s);
    NetworksAlike(t, local.base.layers);
    CopyNetwork(target.base, local.base);
    BuiltCopied(t, local.base.layers, s);
  }

  /**
   * Both layer vectors are built for states of `s`. Stated over the two,
   * so that a proof unfolds a build only where it names one of them.
   */
  ghost predicate BothBuilt(a: seq<AnyLayer>, b: seq<AnyLayer>, s: seq<nat>)
    reads Objs(a), Objs(b)
  {
    forall ls {:trigger Built(ls, s)} | ls in {a, b} :: Built(ls, s)
  }

  /** Two networks built for a field that fits rate every state of it with candidate rows of it. */
  lemma BothAnswer(a: seq<AnyLayer>, b: seq<AnyLayer>, s: seq<nat>, state: Tensor, actions: Tensor)
    requires |a| == |b| == 14 && BothBuilt(a, b, s) && FieldFits(s) && state.Valid() && state.shape == s
    requires actions.Valid() && |actions.shape| >= 1 && actions.shape == s[0 := actions.shape[0]] && actions.shape[0] > 0
    ensures DuelingCall(a, state, actions, None).Some? && DuelingCall(b, state, actions, None).Some?
  {
    assert Built(a, s) && Built(b, s);
    BuiltNetworkAnswers(a, s, actions.shape[0], state, actions, None);
    BuiltNetworkAnswers(b, s, actions.shape[0], state, actions, None);
  }

  /** `ModelDueling()` followed by `build(shape)`: a new network, built for states of `shape`. */
  method NewNetwork(shape: seq<nat>) returns (m: ModelDueling)
    requires |shape| == 4
    ensures m.Valid() && m.BuiltFor(shape)
    ensures fresh(m) && fresh(m.base) && fresh(Objs(m.base.layers))
  {
    m := new ModelDueling();
    assert m !in Objs(m.base.layers) && m.base !in Objs(m.base.layers);
    m.Build(shape);
  }

  /** The local and the target network of a new agent, both built for states of `shape`, with their layers apart. */
  method NewNetworks(shape: seq<nat>) returns (local: ModelDueling, target: ModelDueling)
    requires |shape| == 4
    ensures forall m {:trigger m.Valid()} | m in {local, target} :: m.Valid()
    ensures BothBuilt(local.base.layers, target.base.layers, shape)
    ensures |local.base.layers| == |target.base.layers| == 14
    ensures Objs(local.base.layers) !! Objs(target.base.layers)
    ensures fresh(local) && fresh(local.base) && fresh(Objs(local.base.layers))
    ensures fresh(target) && fresh(target.base) && fresh(Objs(target.base.layers))
  {
    local := NewNetwork(shape);
    assert forall o | o in Objs(local.base.layers) :: allocated(o);
    target := NewNetwork(shape);
    assert local.BuiltFor(shape) && target.BuiltFor(shape);
  }

  // ---------------------------------------------------------------------------
  // The agent

  class Q {
    /** `shape`: one state of `field_height` x `field_width` x `channels_number`. */
    const shape: seq<nat>
    const modelLocal: ModelDueling
    const modelTarget: ModelDueling
    /** The layer vectors of the two networks, which nothing reassigns after construction. */
    ghost const localLayers: seq<AnyLayer>
    ghost const targetLayers: seq<AnyLayer>
    var eps: real
    var beta: real
    var updateCount: int
    var trainCount: int
    var trace: seq<Transition>
    var priorities: seq<real>
    var prevRecord: PreviousStateAction

    function State(): Agent
      reads this
    {
      Agent(trace, priorities, eps, beta, updateCount, trainCount)
    }

    /**
     * Both networks have the dueling architecture and their layers are
     * apart. Stated over the two networks, so that a proof unfolds their
     * architecture only where it names one of them.
     */
    ghost predicate Networks()
      reads modelLocal, modelLocal.base, modelTarget, modelTarget.base
    {
      modelLocal.base.layers == localLayers && modelTarget.base.layers == targetLayers &&
      (forall m {:trigger m.Valid()} | m in {modelLocal, modelTarget} :: m.Valid()) &&
      |localLayers| == |targetLayers| == 14 &&
      Objs(localLayers) !! Objs(targetLayers) &&
      this !in Objs(localLayers) && this !in Objs(targetLayers)
    }

    /**
     * Inputs the networks answer: a field of at least seven rows and columns
     * whose feature widths `size_t` holds twice over, a state of that
     * field, and candidate action rows of the same field.
     */
    predicate Answerable(state: Tensor, actions: Tensor)
    {
      FieldFits(shape) && state.Valid() && state.shape == shape &&
      actions.Valid() && |actions.shape| >= 1 && actions.shape == shape[0 := actions.shape[0]]
    }

    /** Both networks are built for one state of the field. */
    ghost predicate NetworksBuilt()
      reads Objs(localLayers), Objs(targetLayers)
    {
      BothBuilt(localLayers, targetLayers, shape)
    }

    ghost predicate Valid()
      reads this, modelLocal, modelLocal.base, modelTarget, modelTarget.base
      reads Objs(localLayers), Objs(targetLayers)
    {
      Networks() && NetworksBuilt() && |shape| == 4 && shape[0] == 1 && Inv(State())
    }

    /** The variables of the local network, in layer order. */
    ghost function LocalVars(): seq<Tensor>
      reads Objs(localLayers)
    {
      VarValues(localLayers)
    }

    /** The variables of the target network, in layer order. */
    ghost function TargetVars(): seq<Tensor>
      reads Objs(targetLayers)
    {
      VarValues(targetLayers)
    }

    /**
     * `QPrivate(...)` when no saved files exist: both networks are built for
     * one state of the field, the buffer is empty, `eps` and `beta` start at
     * `max_eps` and `beta_min`, `train_count` at `train_local`, and `load`
     * falls back on `global_update`, so the target network starts as a copy
     * of the local one and `update_count` at 0.
     */
    constructor (fieldHeight: nat, fieldWidth: nat, channelsNumber: nat)
      ensures Valid() && shape == [1, fieldHeight, fieldWidth, channelsNumber]
      ensures trace == [] && priorities == [] && prevRecord == NoRecord
      ensures eps == MaxEps && beta == BetaMin && trainCount == TrainLocal && updateCount == 0
      ensures TargetVars() == LocalVars()
    {
      var s := [1, fieldHeight, fieldWidth, channelsNumber];
      var local, target := NewNetworks(s);
      assert forall o | o in Objs(local.base.layers) + Objs(target.base.layers) :: allocated(o);
      label built:
      shape := s;
      modelLocal := local;
      modelTarget := target;
      localLayers := local.base.layers;
      targetLayers := target.base.layers;
      eps := MaxEps;
      beta := BetaMin;
      updateCount := UpdateTarget;
      trainCount := TrainLocal;
      trace := [];
      priorities := [];
      prevRecord := NoRecord;
      new;
      assert unchanged@built(Objs(localLayers) + Objs(targetLayers));
      GlobalUpdate();
    }

    /** `soft_reset`: nothing is waiting for a reward any more. */
    method SoftReset()
      modifies this
      ensures prevRecord == NoRecord && State() == old(State())
    {
      prevRecord := NoRecord;
    }

    /**
     * The loop of `global_update`: every variable of the target network
     * becomes a copy of the local network's variable at the same position
     * in layer order.
     */
    method CopyLocalToTarget()
      requires Networks() && NetworksBuilt()
      modifies Objs(targetLayers)
      ensures Networks() && NetworksBuilt() && TargetVars() == LocalVars()
    {
      assert modelLocal !in Objs(targetLayers) && modelTarget !in Objs(targetLayers);
      assert modelLocal.base !in Objs(targetLayers) && modelTarget.base !in Objs(targetLayers);
      assert modelLocal.Valid() && modelTarget.Valid();
      SyncNetworks(modelTarget, modelLocal, shape);
    }

    /** `global_update`: the target network becomes a copy of the local one and `update_count` restarts. */
    method GlobalUpdate()
      requires Networks() && NetworksBuilt()
      modifies this, Objs(targetLayers)
      ensures Networks() && NetworksBuilt() && State() == old(State()).(updateCount := 0) && prevRecord == old(prevRecord)
      ensures TargetVars() == LocalVars()
    {
      CopyLocalToTarget();
      label copied:
      updateCount := 0;
      assert unchanged@copied(Objs(localLayers) + Objs(targetLayers));
    }

    /** `add_new_priority`: the new transition's priority is the largest so far, or `max_priority`. */
    method AddNewPriority()
      modifies this
      ensures priorities == old(priorities) + [NewPriority(old(priorities))]
      ensures State() == old(State()).(priorities := priorities) && prevRecord == old(prevRecord)
    {
      if |priorities| == 0 {
        priorities := priorities + [MaxPriority];
      } else {
        var m := MaxElement(priorities);
        priorities := priorities + [m];
      }
    }

    /**
     * `get_batch`, the positions only: `batch_size` distinct positions of
     * the buffer. The source weighs them by priority; the model allows any.
     */
    method GetBatch() returns (batch: seq<nat>)
      requires |trace| >= BatchSize
      ensures Drawn(batch, |trace|)
    {
      var first: seq<nat> := [0, 1, 2, 3, 4, 5, 6, 7, 8, 9];
      assert Drawn(first, |trace|);
      batch :| Drawn(batch, |trace|);
    }

    /**
     * The index/priority write of `accumulate_vars_change`: the priority of
     * position `traceIndex` becomes `pow(|td_error| + min_priority,
     * priority_scale)`, some positive number, and no other priority changes.
     * A bootstrapping transition is rated by the target network first.
     */
    method AccumulateVarsChange(traceIndex: nat)
      requires Valid() && traceIndex < |trace|
      modifies this
      ensures |priorities| == |old(priorities)| && priorities[traceIndex] > 0.0
      ensures forall i | 0 <= i < |priorities| && i != traceIndex :: priorities[i] == old(priorities)[i]
      ensures State() == old(State()).(priorities := priorities) && prevRecord == old(prevRecord)
    {
      assert Positive(MaxPriority);
      var transition := trace[traceIndex];
      if Bootstraps(transition) {
        assert modelTarget.Valid();
        var _ := FindBest(transition.afterstate, transition.possibleActions, modelTarget);
      }
      var priority: real :| Positive(priority);
      assert Positive(priority);
      priorities := priorities[traceIndex := priority];
    }

    /**
     * `train_model` on its sequential path: a batch is drawn and each drawn
     * transition gets a new priority. The gradient step on the local
     * network's variables is not modelled.
     */
    method TrainModel()
      requires Valid() && |trace| >= MinTrace
      modifies this
      ensures Reprioritised(old(priorities), priorities)
      ensures State() == old(State()).(priorities := priorities) && prevRecord == old(prevRecord)
    {
      var batch := GetBatch();
      assert unchanged(Objs(localLayers) + Objs(targetLayers));
      ghost var ps := priorities;
      var i := 0;
      while i < BatchSize
        invariant 0 <= i <= BatchSize && Valid()
        invariant Rewritten(ps, priorities, batch[..i])
        invariant State() == old(State()).(priorities := priorities) && prevRecord == old(prevRecord)
      {
        AccumulateVarsChange(batch[i]);
        assert unchanged(Objs(localLayers) + Objs(targetLayers));
        assert batch[..i + 1] == batch[..i] + [batch[i]];
        i := i + 1;
      }
      assert batch[..i] == batch;
    }

    /** `trace.push_back(...)`, then `add_new_priority`. */
    method Push(t: Transition)
      modifies this
      ensures State() == Pushed(old(State()), t) && prevRecord == old(prevRecord)
    {
      trace := trace + [t];
      AddNewPriority();
    }

    /**
     * The first half of `update`: the transition joins the buffer with the
     * largest priority so far, and a buffer holding more than `max_trace`
     * transitions drops its oldest one.
     */
    method Remember(t: Transition)
      requires Valid() && (Bootstraps(t) ==> HasCandidates(t))
      modifies this
      ensures Valid() && State() == Evicted(Pushed(old(State()), t)) && prevRecord == old(prevRecord)
    {
      ghost var a := State();
      assert Networks();
      Push(t);
      if |trace| >= MinTrace && |trace| > MaxTrace {
        trace := trace[1..];
        priorities := priorities[1..];
      }
      assert State() == Evicted(Pushed(a, t));
      PushKeepsInv(a, t);
      assert unchanged(Objs(localLayers) + Objs(targetLayers));
      assert NetworksBuilt();
    }

    /** After training, `train_count` restarts and `eps` and `beta` take a step. */
    method Anneal()
      modifies this
      ensures State() == Annealed(old(State())).(updateCount := old(updateCount)) && prevRecord == old(prevRecord)
    {
      trainCount := 0;
      if eps > MinEps {
        eps := eps - EpsDecr;
      }
      if beta < 1.0 {
        beta := beta + BetaIncr;
      }
    }

    /**
     * A training round of `update`: the local network trains, `train_count`
     * restarts, `eps` and `beta` take a step, and `update_count` either
     * counts the round or, having reached `update_target`, gives way to
     * `global_update`.
     */
    method TrainRound()
      requires Valid() && |trace| >= MinTrace
      modifies this, Objs(targetLayers)
      ensures Networks() && NetworksBuilt() && prevRecord == old(prevRecord)
      ensures State() == Annealed(old(State())).(priorities := priorities)
      ensures Reprioritised(old(priorities), priorities)
      ensures old(updateCount) >= UpdateTarget ==> TargetVars() == LocalVars()
      ensures old(updateCount) < UpdateTarget ==> unchanged(Objs(targetLayers))
    {
      TrainModel();
      Anneal();
      assert unchanged(Objs(localLayers) + Objs(targetLayers));
      assert Networks() && NetworksBuilt();
      if updateCount < UpdateTarget {
        updateCount := updateCount + 1;
        assert unchanged(Objs(localLayers) + Objs(targetLayers));
      } else {
        GlobalUpdate();
      }
    }

    /**
     * `update(reward, afterstate, possible_actions, done)`: the waiting state
     * and action, with what followed them, are remembered. Below
     * `min_trace` transitions that is all. Until `train_count` reaches
     * `train_local` the round is only counted; then it is a training round.
     */
    method Update(reward: real, afterstate: Tensor, possibleActions: Tensor, done: bool)
      requires Valid()
      requires var t := Transition(prevRecord.state, prevRecord.action, reward, afterstate, possibleActions, done);
        Bootstraps(t) ==> HasCandidates(t)
      modifies this, Objs(targetLayers)
      ensures Valid() && prevRecord == old(prevRecord)
      ensures UpdateStep(old(State()),
        Transition(old(prevRecord).state, old(prevRecord).action, reward, afterstate, possibleActions, done), State())
      ensures Syncs(old(State())) ==> TargetVars() == LocalVars()
      ensures !Syncs(old(State())) ==> unchanged(Objs(targetLayers))
    {
      var t := Transition(prevRecord.state, prevRecord.action, reward, afterstate, possibleActions, done);
      ghost var a := State();
      Remember(t);
      ghost var e := State();
      if |trace| >= MinTrace {
        if trainCount < TrainLocal {
          trainCount := trainCount + 1;
          assert unchanged(Objs(localLayers) + Objs(targetLayers));
          assert Networks() && NetworksBuilt();
          CountingRound(a, t, e, State());
        } else {
          TrainRound();
          TrainingRound(a, t, e, State());
        }
      } else {
        StoringRound(a, t, e);
      }
      UpdateKeepsInv(a, t, State());
    }

    /**
     * The choice of `get_act`: when the draw `u` of `random_float()` falls
     * below `eps`, a random candidate; otherwise the best candidate of the
     * local network, or `None` when the network rejects the inputs. (The
     * rating is named through a quantifier over the local layers, so that a
     * caller unfolds the network only when it asks about the rating.)
     */
    method PickAction(u: real, state: Tensor, actions: Tensor) returns (r: Option<nat>)
      requires Networks() && NetworksBuilt()
      requires |state.shape| >= 1 && state.shape[0] == 1 && |actions.shape| >= 1 && actions.shape[0] > 0
      ensures r.Some? ==> r.value < actions.shape[0]
      ensures u < eps ==> r.Some?
      ensures Answerable(state, actions) ==> r.Some?
      ensures u >= eps ==>
        forall ls {:trigger DuelingCall(ls, state, actions, None)} | ls == modelLocal.base.layers ::
          (r.Some? <==> DuelingCall(ls, state, actions, None).Some?) &&
          (r.Some? ==> ChoosesBest(DuelingCall(ls, state, actions, None).value.value.data, actions.shape[0], r.value))
    {
      if u < eps {
        var i: nat :| i < actions.shape[0];
        r := Some(i);
      } else {
        assert modelLocal.Valid();
        r := FindBest(state, actions, modelLocal);
        if Answerable(state, actions) {
          assert unchanged(Objs(localLayers) + Objs(targetLayers));
          BothAnswer(localLayers, targetLayers, shape, state, actions);
        }
      }
    }

    /**
     * `get_act(prev_reward, state, actions)`: a waiting state and action
     * first receive their reward, with `state` and `actions` as what
     * followed; then the chosen candidate's row becomes the waiting action.
     * `None` when the network rejects the inputs.
     */
    method GetAct(prevReward: real, state: Tensor, actions: Tensor) returns (r: Option<nat>)
      requires Valid()
      requires |state.shape| >= 1 && state.shape[0] == 1
      requires actions.Valid() && |actions.shape| >= 1 && actions.shape[0] > 0
      modifies this, Objs(targetLayers)
      ensures Valid()
      ensures old(prevRecord).empty ==> State() == old(State())
      ensures !old(prevRecord).empty ==>
        UpdateStep(old(State()), Transition(old(prevRecord).state, old(prevRecord).action, prevReward, state, actions, false), State())
      ensures r.Some? ==> r.value < actions.shape[0] && prevRecord == PreviousStateAction(state, Row(actions, r.value), false)
      ensures r.None? ==> prevRecord == old(prevRecord)
      ensures Answerable(state, actions) ==> r.Some?
    {
      if !prevRecord.empty {
        Update(prevReward, state, actions, false);
      }
      assert Unit(0.0);
      var u: real :| Unit(u);
      label updated:
      var a := PickAction(u, state, actions);
      assert unchanged@updated(Objs(localLayers) + Objs(targetLayers));
      if a.None? {
        return None;
      }
      ghost var s1 := State();
      assert Inv(s1) && Networks() && NetworksBuilt();
      label picked:
      prevRecord := PreviousStateAction(state, Row(actions, a.value), false);
      assert unchanged@picked(Objs(localLayers) + Objs(targetLayers));
      assert State() == s1;
      r := a;
    }

    /**
     * `call_network(prev_reward, state, actions, actions_number)`: with
     * candidate actions, `get_act` on the state and the actions shaped as
     * `actions_number` rows; without, the game is over: `update` stores the
     * terminal transition (with no candidates) and the answer is -1. The
     * waiting record is neither checked nor cleared on that path.
     */
    method CallNetwork(prevReward: real, state: seq<int>, actions: seq<int>, actionsNumber: nat) returns (r: Option<int>)
      requires Valid() && |state| == Product(shape)
      requires actionsNumber > 0 ==> |actions| == Product(shape[0 := actionsNumber])
      modifies this, Objs(targetLayers)
      ensures Valid()
      ensures actionsNumber == 0 ==>
        r == Some(-1) && prevRecord == old(prevRecord) &&
        UpdateStep(old(State()), Transition(old(prevRecord).state, old(prevRecord).action, prevReward, Tensor(shape, state), Blank, true), State())
      ensures actionsNumber > 0 && old(prevRecord).empty ==> State() == old(State())
      ensures actionsNumber > 0 && !old(prevRecord).empty ==>
        UpdateStep(old(State()),
          Transition(old(prevRecord).state, old(prevRecord).action, prevReward, Tensor(shape, state), Tensor(shape[0 := actionsNumber], actions), false),
          State())
      ensures actionsNumber > 0 && r.Some? ==>
        0 <= r.value < actionsNumber &&
        prevRecord == PreviousStateAction(Tensor(shape, state), Row(Tensor(shape[0 := actionsNumber], actions), r.value), false)
      ensures actionsNumber > 0 && r.None? ==> prevRecord == old(prevRecord)
      ensures actionsNumber > 0 && FieldFits(shape) ==> r.Some?
    {
      var adaptedState := Tensor(shape, state);
      if actionsNumber > 0 {
        var adaptedActions := Tensor(shape[0 := actionsNumber], actions);
        var a := GetAct(prevReward, adaptedState, adaptedActions);
        if a.None? {
          return None;
        }
        r := Some(a.value);
      } else {
        Update(prevReward, adaptedState, Blank, true);
        r := Some(-1);
      }
    }
  }
}
