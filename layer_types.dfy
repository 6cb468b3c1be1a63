/**
 * Types shared by every layer: the tape (src/neural_network/utils/TapeFwd.h),
 * the gradient map (src/neural_network/utils/GradientMapFwd.h), the trainable
 * variable kinds, the `size_t` arithmetic the shape code relies on, and the
 * activation derivative as far as the model keeps it.
 */
module LayerTypes {
  import opened Tensors

  /**
   * A layer's identity: its address. Tape and gradient map are keyed by it,
   * and `std::map` orders gradient keys by it, which is unrelated to the
   * position of the layer in its model.
   */
  type Addr = nat

  datatype TrainableVarsType = Weights | Biases

  /** A key of the gradient map and of the trainable-variables map. */
  datatype GradKey = GradKey(layer: Addr, kind: TrainableVarsType)

  /** The order of `std::map<std::pair<const Layer*, TrainableVarsType>, ...>`. */
  predicate KeyLess(a: GradKey, b: GradKey)
  {
    a.layer < b.layer || (a.layer == b.layer && a.kind == Weights && b.kind == Biases)
  }

  /** Each layer's input of one forward pass, by layer identity. */
  type Tape = map<Addr, Tensor>

  /** Parameter gradients of one backward pass. */
  type GradientMap = map<GradKey, Tensor>

  /** `std::map::insert` and `std::unordered_map::insert`: an existing entry is kept. */
  function Insert<K, V>(m: map<K, V>, k: K, v: V): map<K, V>
  {
    if k in m then m else m[k := v]
  }

  /** The two gradient keys of a layer with weights and biases. */
  function ParamKeys(a: Addr): set<GradKey>
  {
    {GradKey(a, Weights), GradKey(a, Biases)}
  }

  /**
   * What `backward` hands back to its caller through its reference
   * parameters: the new `outputs`, the new `deltas` and the gradient map.
   */
  datatype BackwardResult = BackwardResult(outputs: Tensor, deltas: Tensor, gradients: GradientMap)

  // ---------------------------------------------------------------------------
  // size_t arithmetic

  const SizeModulus: nat := 0x1_0000_0000_0000_0000

  /** `a - b` on `size_t`: wraps around below zero. */
  function SizeSub(a: nat, b: nat): (r: nat)
    ensures b <= a < SizeModulus ==> r == a - b
    ensures a < b && b - a <= SizeModulus ==> r == SizeModulus - (b - a)
  {
    (a - b) % SizeModulus
  }

  /** `a + b` on `size_t`. */
  function SizeAdd(a: nat, b: nat): (r: nat)
    ensures a + b < SizeModulus ==> r == a + b
  {
    (a + b) % SizeModulus
  }

  /** `s` with its batch axis set to `n`; a shape without axes stays as it is. */
  function Rebatch(s: seq<nat>, n: nat): (r: seq<nat>)
    ensures |r| == |s| && (|s| > 0 ==> r == s[0 := n])
  {
    if s == [] then [] else s[0 := n]
  }

  // ---------------------------------------------------------------------------
  // Activation derivative

  /** Shape `a` broadcasts onto shape `b` without changing `b`. */
  predicate BroadcastsInto(a: seq<nat>, b: seq<nat>)
  {
    |a| == 0 || (|a| == |b| && forall j | 0 <= j < |a| :: a[j] == b[j] || a[j] == 1)
  }

  /** The tensor of shape `s` with every element `x`. */
  function Fill(s: seq<nat>, x: int): (t: Tensor)
    ensures t.Valid() && t.shape == s
    ensures forall j | 0 <= j < |t.data| :: t.data[j] == x
  {
    Tensor(s, seq(Product(s), _ => x))
  }

  /**
   * `deltas *= derive(outputs, activation)` is defined when the two shapes
   * broadcast: either `outputs` fits into `deltas`, or `deltas` is the
   * 0-dimensional seed.
   */
  predicate DerivativeBroadcasts(deltas: Tensor, outputs: Tensor)
  {
    deltas.Valid() && outputs.Valid() &&
    (BroadcastsInto(outputs.shape, deltas.shape) || deltas.shape == [])
  }

  /**
   * `deltas *= derive(outputs, activation)` with the activation's derivative
   * taken as 1 everywhere: only the broadcast of the product's shape remains.
   */
  function ScaleByDerivative(deltas: Tensor, outputs: Tensor): (r: Tensor)
    requires DerivativeBroadcasts(deltas, outputs)
    ensures r.Valid()
    ensures BroadcastsInto(outputs.shape, deltas.shape) ==> r == deltas
    ensures !BroadcastsInto(outputs.shape, deltas.shape) ==>
      r.shape == outputs.shape && forall j | 0 <= j < |r.data| :: r.data[j] == deltas.data[0]
  {
    if BroadcastsInto(outputs.shape, deltas.shape) then deltas
    else Fill(outputs.shape, deltas.data[0])
  }

  // ---------------------------------------------------------------------------
  // One-dimensional tensors (biases and their gradients)

  function At1(t: Tensor, j: int): int
  {
    if |t.shape| == 1 && 0 <= j < t.shape[0] && j < |t.data| then t.data[j] else 0
  }

  function Build1(n: nat, f: int -> int): (t: Tensor)
    ensures t.Valid() && t.shape == [n]
    ensures forall j | 0 <= j < n :: At1(t, j) == f(j)
  {
    assert Product([n]) == n by { assert [n][1..] == []; }
    Tensor([n], seq(n, j requires 0 <= j < n => f(j)))
  }

  // ---------------------------------------------------------------------------
  // Random initialisation

  /**
   * `xt::random::rand(shape, lower, upper)`: a tensor of the requested shape
   * whose elements the model leaves unconstrained.
   */
  method RandomTensor(shape: seq<nat>) returns (t: Tensor)
    ensures t.Valid() && t.shape == shape
  {
    assert |seq(Product(shape), _ => 0)| == Product(shape);
    var d: seq<int> :| |d| == Product(shape);
    t := Tensor(shape, d);
  }

  /** A bound above every element of a finite set of addresses. */
  ghost function AddrBound(used: set<Addr>): (b: nat)
    ensures forall a | a in used :: a < b
    decreases used
  {
    if used == {} then 0
    else
      var a :| a in used;
      var r := AddrBound(used - {a});
      assert forall x | x in used :: x == a || x in used - {a};
      if a + 1 > r then a + 1 else r
  }

  /** Allocation of a new layer: its address differs from every address in use. */
  method NewAddress(used: set<Addr>) returns (a: Addr)
    ensures a !in used
  {
    assert AddrBound(used) !in used;
    a :| a !in used;
  }
}
