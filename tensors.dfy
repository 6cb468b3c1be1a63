/**
 * The n-dimensional array substrate the network is built on, reduced to what
 * the core relies on: a shape and its elements in row-major order (the layout
 * of an xtensor container). Element values are integers; the network's floats
 * are not modelled. Axis 0 is the batch axis.
 */
module Tensors {

  datatype Option<T> = None | Some(value: T)

  /** Number of elements of an array of shape `s` (1 for the 0-dimensional scalar). */
  function Product(s: seq<nat>): nat
  {
    if |s| == 0 then 1 else s[0] * Product(s[1..])
  }

  /** Multiplying the dimensions one by one from the front gives the product of the prefix. */
  lemma {:induction false} ProductSnoc(s: seq<nat>, x: nat)
    ensures Product(s + [x]) == Product(s) * x
  {
    if |s| == 0 {
      assert s + [x] == [x];
    } else {
      assert (s + [x])[1..] == s[1..] + [x];
      ProductSnoc(s[1..], x);
      calc {
        Product(s + [x]);
        s[0] * Product(s[1..] + [x]);
        s[0] * (Product(s[1..]) * x);
        { MulAssoc(s[0], Product(s[1..]), x); }
        (s[0] * Product(s[1..])) * x;
      }
    }
  }

  lemma MulAssoc(a: int, b: int, c: int)
    ensures a * (b * c) == (a * b) * c
  {
  }

  lemma ProductOfTwo(a: nat, b: nat)
    ensures Product([a, b]) == a * b
  {
    assert [a, b][1..] == [b];
    assert [b][1..] == [];
    assert Product([b]) == b;
  }

  lemma ProductOfFour(a: nat, b: nat, c: nat, d: nat)
    ensures Product([a, b, c, d]) == a * (b * (c * d))
  {
    assert [a, b, c, d][1..] == [b, c, d];
    assert [b, c, d][1..] == [c, d];
    assert [c, d][1..] == [d];
    assert [d][1..] == [];
    assert Product([d]) == d;
    assert Product([c, d]) == c * d;
    assert Product([b, c, d]) == b * (c * d);
  }

  // ---------------------------------------------------------------------------
  // Row-major index arithmetic

  /** `x * m + y` with `y < m` stays below `n * m` when `x < n`. */
  lemma MulAddBound(x: int, n: int, y: int, m: int)
    requires 0 <= x < n && 0 <= y < m
    ensures 0 <= x * m + y < n * m
  {
    assert x * m + m == (x + 1) * m;
    MulMonotone(x + 1, n, m);
  }

  /** Dividing `x * m + y` by `m` recovers `x` and `y` when `0 <= y < m`. */
  lemma DivModOf(x: int, y: int, m: int)
    requires 0 <= y < m
    ensures (x * m + y) / m == x && (x * m + y) % m == y
  {
    var n := x * m + y;
    var q, r := n / m, n % m;
    assert n == q * m + r && 0 <= r < m;
    assert (q - x) * m == y - r by {
      assert (q - x) * m == q * m - x * m;
    }
    if q - x >= 1 {
      MulAtLeast(q - x, m);
    } else if x - q >= 1 {
      MulAtLeast(x - q, m);
    }
  }

  /** The quotient of an index below `p * m` is below `p`. */
  lemma DivBound(n: int, p: int, m: int)
    requires 0 <= n < p * m && 0 < m
    ensures 0 <= n / m < p
  {
    assert n == (n / m) * m + n % m;
  }

  lemma MulAtLeast(a: int, m: int)
    requires a >= 1 && m >= 0
    ensures a * m >= m
  {
    assert a * m == (a - 1) * m + m;
  }

  lemma MulMonotone(a: int, b: int, m: int)
    requires a <= b && m >= 0
    ensures a * m <= b * m
  {
    assert b * m - a * m == (b - a) * m;
  }

  lemma PositiveFactors(a: nat, b: nat)
    requires a * b > 0
    ensures a > 0 && b > 0
  {
  }

  // ---------------------------------------------------------------------------
  // Tensors

  /** A tensor: a shape and its elements in row-major order. */
  datatype Tensor = Tensor(shape: seq<nat>, data: seq<int>) {
    predicate Valid() { |data| == Product(shape) }
    predicate Is2() { Valid() && |shape| == 2 }
    predicate Is4() { Valid() && |shape| == 4 }
  }

  /** The 0-dimensional tensor holding `x` (a scalar such as the seed `1` of backpropagation). */
  function Scalar(x: int): (t: Tensor)
    ensures t.Valid() && t.shape == [] && t.data == [x]
  {
    Tensor([], [x])
  }

  // ---------------------------------------------------------------------------
  // Four dimensions: batch, height, width, channels

  predicate In4(s: seq<nat>, b: int, i: int, k: int, c: int)
  {
    |s| == 4 && 0 <= b < s[0] && 0 <= i < s[1] && 0 <= k < s[2] && 0 <= c < s[3]
  }

  function Offset4(s: seq<nat>, b: int, i: int, k: int, c: int): int
    requires |s| == 4
  {
    ((b * s[1] + i) * s[2] + k) * s[3] + c
  }

  lemma Offset4Bound(s: seq<nat>, b: int, i: int, k: int, c: int)
    requires In4(s, b, i, k, c)
    ensures 0 <= Offset4(s, b, i, k, c) < Product(s)
  {
    MulAddBound(b, s[0], i, s[1]);
    MulAddBound(b * s[1] + i, s[0] * s[1], k, s[2]);
    MulAddBound((b * s[1] + i) * s[2] + k, s[0] * s[1] * s[2], c, s[3]);
    assert s == [s[0], s[1], s[2], s[3]];
    ProductOfFour(s[0], s[1], s[2], s[3]);
    MulAssoc(s[0], s[1], s[2] * s[3]);
    MulAssoc(s[0] * s[1], s[2], s[3]);
  }

  /** The coordinates of the element stored at row-major position `idx`. */
  function Decode4(s: seq<nat>, idx: int): (r: (int, int, int, int))
    requires |s| == 4 && 0 <= idx < Product(s)
    ensures In4(s, r.0, r.1, r.2, r.3) && Offset4(s, r.0, r.1, r.2, r.3) == idx
  {
    assert s == [s[0], s[1], s[2], s[3]];
    ProductOfFour(s[0], s[1], s[2], s[3]);
    PositiveFactors(s[0], s[1] * (s[2] * s[3]));
    PositiveFactors(s[1], s[2] * s[3]);
    PositiveFactors(s[2], s[3]);
    var q1 := idx / s[3];
    var q2 := q1 / s[2];
    MulAssoc(s[0], s[1], s[2] * s[3]);
    MulAssoc(s[0] * s[1], s[2], s[3]);
    DivBound(idx, s[0] * s[1] * s[2], s[3]);
    DivBound(q1, s[0] * s[1], s[2]);
    DivBound(q2, s[0], s[1]);
    (q2 / s[1], q2 % s[1], q1 % s[2], idx % s[3])
  }

  lemma Decode4Offset(s: seq<nat>, b: int, i: int, k: int, c: int)
    requires In4(s, b, i, k, c)
    ensures 0 <= Offset4(s, b, i, k, c) < Product(s) && Decode4(s, Offset4(s, b, i, k, c)) == (b, i, k, c)
  {
    Offset4Bound(s, b, i, k, c);
    DivModOf((b * s[1] + i) * s[2] + k, c, s[3]);
    DivModOf(b * s[1] + i, k, s[2]);
    DivModOf(b, i, s[1]);
  }

  lemma Decode4OffsetAll(s: seq<nat>)
    requires |s| == 4
    ensures forall b, i, k, c | In4(s, b, i, k, c) ::
      0 <= Offset4(s, b, i, k, c) < Product(s) && Decode4(s, Offset4(s, b, i, k, c)) == (b, i, k, c)
  {
    forall b, i, k, c | In4(s, b, i, k, c)
      ensures 0 <= Offset4(s, b, i, k, c) < Product(s) && Decode4(s, Offset4(s, b, i, k, c)) == (b, i, k, c)
    {
      Decode4Offset(s, b, i, k, c);
    }
  }

  /** The element at (b, i, k, c); reads outside the tensor give 0, which is how zero padding reads. */
  function At4(t: Tensor, b: int, i: int, k: int, c: int): int
  {
    if t.Valid() && In4(t.shape, b, i, k, c) then
      Offset4Bound(t.shape, b, i, k, c);
      t.data[Offset4(t.shape, b, i, k, c)]
    else
      0
  }

  /** The tensor of shape `s` whose element at (b, i, k, c) is `f(b, i, k, c)`. */
  function Build4(s: seq<nat>, f: (int, int, int, int) -> int): (t: Tensor)
    requires |s| == 4
    ensures t.Is4() && t.shape == s
  {
    Tensor(s, seq(Product(s), idx requires 0 <= idx < Product(s) =>
      var p := Decode4(s, idx); f(p.0, p.1, p.2, p.3)))
  }

  lemma At4Build4(s: seq<nat>, f: (int, int, int, int) -> int, b: int, i: int, k: int, c: int)
    requires In4(s, b, i, k, c)
    ensures At4(Build4(s, f), b, i, k, c) == f(b, i, k, c)
  {
    Decode4Offset(s, b, i, k, c);
  }

  /** The row-major contents of a four-dimensional array. */
  function FromArray4(a: array4<int>): (t: Tensor)
    reads a
    ensures t.Is4() && t.shape == [a.Length0, a.Length1, a.Length2, a.Length3]
    ensures forall b, i, k, c | In4(t.shape, b, i, k, c) :: At4(t, b, i, k, c) == a[b, i, k, c]
  {
    var s := [a.Length0, a.Length1, a.Length2, a.Length3];
    Decode4OffsetAll(s);
    Tensor(s, seq(Product(s), idx requires 0 <= idx < Product(s) reads a =>
      var p := Decode4(s, idx); a[p.0, p.1, p.2, p.3]))
  }

  /** Two 4-dimensional tensors of one shape that agree element-wise are equal. */
  lemma Ext4(t: Tensor, u: Tensor)
    requires t.Is4() && u.Is4() && t.shape == u.shape
    requires forall b, i, k, c | In4(t.shape, b, i, k, c) :: At4(t, b, i, k, c) == At4(u, b, i, k, c)
    ensures t == u
  {
    forall idx | 0 <= idx < |t.data|
      ensures t.data[idx] == u.data[idx]
    {
      var p := Decode4(t.shape, idx);
      assert At4(t, p.0, p.1, p.2, p.3) == At4(u, p.0, p.1, p.2, p.3);
    }
  }

  /** An array holding `f` at every index of shape `s` reads back as `Build4(s, f)`. */
  lemma FromArrayBuild4(a: array4<int>, s: seq<nat>, f: (int, int, int, int) -> int)
    requires s == [a.Length0, a.Length1, a.Length2, a.Length3]
    requires forall b, i, k, c | In4(s, b, i, k, c) :: a[b, i, k, c] == f(b, i, k, c)
    ensures FromArray4(a) == Build4(s, f)
  {
    forall b, i, k, c | In4(s, b, i, k, c)
      ensures At4(FromArray4(a), b, i, k, c) == At4(Build4(s, f), b, i, k, c)
    {
      At4Build4(s, f, b, i, k, c);
    }
    Ext4(FromArray4(a), Build4(s, f));
  }

  // ---------------------------------------------------------------------------
  // Two dimensions: batch, features

  predicate In2(s: seq<nat>, r: int, c: int)
  {
    |s| == 2 && 0 <= r < s[0] && 0 <= c < s[1]
  }

  function Offset2(s: seq<nat>, r: int, c: int): int
    requires |s| == 2
  {
    r * s[1] + c
  }

  lemma Offset2Bound(s: seq<nat>, r: int, c: int)
    requires In2(s, r, c)
    ensures 0 <= Offset2(s, r, c) < Product(s)
  {
    MulAddBound(r, s[0], c, s[1]);
    assert s == [s[0], s[1]];
    ProductOfTwo(s[0], s[1]);
  }

  function Decode2(s: seq<nat>, idx: int): (p: (int, int))
    requires |s| == 2 && 0 <= idx < Product(s)
    ensures In2(s, p.0, p.1) && Offset2(s, p.0, p.1) == idx
  {
    assert s == [s[0], s[1]];
    ProductOfTwo(s[0], s[1]);
    PositiveFactors(s[0], s[1]);
    DivBound(idx, s[0], s[1]);
    (idx / s[1], idx % s[1])
  }

  lemma Decode2Offset(s: seq<nat>, r: int, c: int)
    requires In2(s, r, c)
    ensures 0 <= Offset2(s, r, c) < Product(s) && Decode2(s, Offset2(s, r, c)) == (r, c)
  {
    Offset2Bound(s, r, c);
    DivModOf(r, c, s[1]);
  }

  /** The element at row `r`, column `c`; 0 outside the tensor. */
  function At2(t: Tensor, r: int, c: int): int
  {
    if t.Valid() && In2(t.shape, r, c) then
      Offset2Bound(t.shape, r, c);
      t.data[Offset2(t.shape, r, c)]
    else
      0
  }

  function Build2(s: seq<nat>, f: (int, int) -> int): (t: Tensor)
    requires |s| == 2
    ensures t.Is2() && t.shape == s
  {
    Tensor(s, seq(Product(s), idx requires 0 <= idx < Product(s) =>
      var p := Decode2(s, idx); f(p.0, p.1)))
  }

  lemma At2Build2(s: seq<nat>, f: (int, int) -> int, r: int, c: int)
    requires In2(s, r, c)
    ensures At2(Build2(s, f), r, c) == f(r, c)
  {
    Decode2Offset(s, r, c);
  }

  lemma Ext2(t: Tensor, u: Tensor)
    requires t.Is2() && u.Is2() && t.shape == u.shape
    requires forall r, c | In2(t.shape, r, c) :: At2(t, r, c) == At2(u, r, c)
    ensures t == u
  {
    forall idx | 0 <= idx < |t.data|
      ensures t.data[idx] == u.data[idx]
    {
      var p := Decode2(t.shape, idx);
      assert At2(t, p.0, p.1) == At2(u, p.0, p.1);
    }
  }

  // ---------------------------------------------------------------------------
  // Sums

  /** `f(0) + ... + f(n - 1)`. */
  function Sum(n: nat, f: int -> int): int
  {
    if n == 0 then 0 else Sum(n - 1, f) + f(n - 1)
  }

  lemma {:induction false} SumConst(n: nat, f: int -> int, x: int)
    requires forall j | 0 <= j < n :: f(j) == x
    ensures Sum(n, f) == n * x
  {
    if n > 0 {
      SumConst(n - 1, f, x);
    }
  }

  lemma {:induction false} SumExt(n: nat, f: int -> int, g: int -> int)
    requires forall j | 0 <= j < n :: f(j) == g(j)
    ensures Sum(n, f) == Sum(n, g)
  {
    if n > 0 {
      SumExt(n - 1, f, g);
    }
  }

  lemma {:induction false} SumAdd(n: nat, f: int -> int, g: int -> int)
    ensures Sum(n, j => f(j) + g(j)) == Sum(n, f) + Sum(n, g)
  {
    if n > 0 {
      SumAdd(n - 1, f, g);
    }
  }
}
