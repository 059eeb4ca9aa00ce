/**
 * Recurrent hidden states and `repackage_hidden`. A state is a tensor or a
 * tuple of states; `detach` keeps the values and drops the autograd history,
 * which is modelled by the tensor's `requiresGrad` flag.
 */
module Hidden {
  import opened Tensors

  /** A tensor value: its size, its entries and whether autograd tracks it. */
  datatype Tensor = Tensor(d0: nat, d1: nat, d2: nat, data: Cube, requiresGrad: bool)

  /** A recurrent state: a single tensor, or a tuple of states ((h, c) for LSTM). */
  datatype State = Leaf(tensor: Tensor) | Tuple(items: seq<State>)

  /** t is the zero tensor of size [d0, d1, d2] with the given autograd flag. */
  predicate IsZeroTensor(t: Tensor, d0: nat, d1: nat, d2: nat, requiresGrad: bool)
  {
    && t.d0 == d0 && t.d1 == d1 && t.d2 == d2
    && t.requiresGrad == requiresGrad
    && IsCube(t.data, d0, d1, d2)
    && forall a, b, c :: 0 <= a < d0 && 0 <= b < d1 && 0 <= c < d2 ==> t.data[a][b][c] == 0.0
  }

  /** `weight.new_zeros((d0, d1, d2), requires_grad=requiresGrad)`. */
  function ZeroTensor(d0: nat, d1: nat, d2: nat, requiresGrad: bool): (t: Tensor)
    ensures IsZeroTensor(t, d0, d1, d2, requiresGrad)
  {
    Tensor(d0, d1, d2, Zeros(d0, d1, d2), requiresGrad)
  }

  /** `t.detach()`: the same size and entries, no longer tracked by autograd. */
  function Detach(t: Tensor): (r: Tensor)
    ensures r.d0 == t.d0 && r.d1 == t.d1 && r.d2 == t.d2 && r.data == t.data
    ensures !r.requiresGrad
  {
    t.(requiresGrad := false)
  }

  /** a and b have the same structure and the same tensor sizes and entries. */
  predicate SameValues(a: State, b: State)
  {
    match (a, b)
    case (Leaf(s), Leaf(t)) => s.d0 == t.d0 && s.d1 == t.d1 && s.d2 == t.d2 && s.data == t.data
    case (Tuple(xs), Tuple(ys)) =>
      |xs| == |ys| && forall k :: 0 <= k < |xs| ==> SameValues(xs[k], ys[k])
    case _ => false
  }

  /** No tensor anywhere in s is tracked by autograd. */
  predicate Detached(s: State)
  {
    match s
    case Leaf(t) => !t.requiresGrad
    case Tuple(xs) => forall k :: 0 <= k < |xs| ==> Detached(xs[k])
  }

  /**
   * `repackage_hidden`: a tensor is detached, a tuple is rebuilt from its
   * repackaged components. The result has the input's structure and values
   * and carries no history.
   */
  function Repackage(h: State): (r: State)
    ensures SameValues(h, r)
    ensures Detached(r)
  {
    match h
    case Leaf(t) => Leaf(Detach(t))
    case Tuple(vs) => Tuple(seq(|vs|, k requires 0 <= k < |vs| => Repackage(vs[k])))
  }

  /** A state with no history is left as it is. */
  lemma {:induction false} RepackageDetached(h: State)
    requires Detached(h)
    ensures Repackage(h) == h
  {
    match h
    case Leaf(t) =>
    case Tuple(vs) =>
      forall k | 0 <= k < |vs|
        ensures Repackage(vs[k]) == vs[k]
      {
        RepackageDetached(vs[k]);
      }
  }

  /** Repackaging twice is repackaging once. */
  lemma RepackageIdempotent(h: State)
    ensures Repackage(Repackage(h)) == Repackage(h)
  {
    RepackageDetached(Repackage(h));
  }
}
