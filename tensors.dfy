/** Tensors along their sequence axis, the position-wise linear projection and the
    split of the combined query/key/value projection into thirds. */
module Tensors {

  /** A number of the numeric library; its arithmetic plays no part in this model. */
  type Scalar = real

  type Vector = seq<Scalar>

  /** A weight matrix, as the sequence of its rows. */
  type Matrix = seq<Vector>

  /** What a tensor holds at one position of its sequence axis: a feature vector per
      batch item (per batch item and head, once projected and viewed per head). */
  type Slice = seq<Vector>

  /** A tensor, as the sequence of its positions along the sequence axis. */
  type Tensor = seq<Slice>

  /** A boolean key-padding mask of shape (batch, length), as the sequence of its
      columns along the sequence axis; each column holds one flag per batch item. */
  type Mask = seq<seq<bool>>

  /** The library's dense projection `x W^T + b` at one position, left uninterpreted. */
  type Linear = (Matrix, Vector, Slice) -> Slice

  /** `F.linear(xs, w, b)` on a tensor: the projection acts on every position of the
      sequence axis by itself. */
  function Project(lin: Linear, w: Matrix, b: Vector, xs: Tensor): (r: Tensor)
    ensures |r| == |xs|
  {
    if xs == [] then [] else [lin(w, b, xs[0])] + Project(lin, w, b, xs[1..])
  }

  /** Position `i` of the projection is the projection of position `i` alone. */
  lemma {:induction false} ProjectAt(lin: Linear, w: Matrix, b: Vector, xs: Tensor, i: nat)
    requires i < |xs|
    ensures Project(lin, w, b, xs)[i] == lin(w, b, xs[i])
  {
    if i > 0 {
      ProjectAt(lin, w, b, xs[1..], i - 1);
    }
  }

  /** Projecting a concatenation projects its parts: the projection of a history grown
      one step at a time is the projection of the whole history. */
  lemma {:induction false} ProjectAppend(lin: Linear, w: Matrix, b: Vector, xs: Tensor, ys: Tensor)
    ensures Project(lin, w, b, xs + ys) == Project(lin, w, b, xs) + Project(lin, w, b, ys)
  {
    if xs == [] {
      assert xs + ys == ys;
    } else {
      assert (xs + ys)[0] == xs[0] && (xs + ys)[1..] == xs[1..] + ys;
      ProjectAppend(lin, w, b, xs[1..], ys);
    }
  }

  /** `torch.chunk(t, 3, dim=0)` on a combined parameter of 3·E rows: the query, key and
      value thirds, in that order. */
  function SplitQkv<A>(t: seq<A>): (r: (seq<A>, seq<A>, seq<A>))
    requires |t| % 3 == 0
    ensures |r.0| == |t| / 3 && |r.1| == |t| / 3 && |r.2| == |t| / 3
    ensures r.0 + r.1 + r.2 == t
  {
    var e := |t| / 3;
    assert t == t[..e] + t[e..2 * e] + t[2 * e..];
    (t[..e], t[e..2 * e], t[2 * e..])
  }

  /** With E = |t| / 3: the query part is rows [0, E), the key part rows [E, 2E) and
      the value part rows [2E, 3E) of the combined parameter. */
  lemma SplitQkvRows<A>(t: seq<A>, i: nat)
    requires |t| % 3 == 0 && i < |t| / 3
    ensures SplitQkv(t).0[i] == t[i]
    ensures SplitQkv(t).1[i] == t[|t| / 3 + i]
    ensures SplitQkv(t).2[i] == t[2 * (|t| / 3) + i]
  {
    var r := SplitQkv(t);
    var e := |t| / 3;
    assert (r.0 + r.1 + r.2)[i] == r.0[i];
    assert (r.0 + r.1 + r.2)[e + i] == r.1[i];
    assert (r.0 + r.1 + r.2)[2 * e + i] == r.2[i];
  }

  /** Splitting a parameter laid out query-then-key-then-value gives back its three parts. */
  lemma SplitQkvOfJoin<A>(q: seq<A>, k: seq<A>, v: seq<A>)
    requires |q| == |k| == |v|
    ensures |q + k + v| % 3 == 0
    ensures SplitQkv(q + k + v) == (q, k, v)
  {
    var t := q + k + v;
    assert t[..|q|] == q;
    assert t[|q|..2 * |q|] == k;
    assert t[2 * |q|..] == v;
  }
}
