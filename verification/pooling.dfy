/**
 * Masked mean-over-time pooling (`mean_over_time` in both models): row i of the
 * result is the mean of the first seq_lens[i] time steps of sequence i.
 */
module Pooling {
  import opened Tensors

  /** Number of rows: axis 0 when batch-major, axis 1 when time-major. */
  function BatchSize(d0: nat, d1: nat, batchFirst: bool): nat
  {
    if batchFirst then d0 else d1
  }

  /** Number of (padded) time steps. */
  function Steps(d0: nat, d1: nat, batchFirst: bool): nat
  {
    if batchFirst then d1 else d0
  }

  /**
   * What the source requires of `seq_lens`: an entry per row, each positive
   * (the mean of an empty slice is NaN), so a non-empty batch has time steps.
   */
  predicate ValidLengths(lens: seq<int>, batch: nat, steps: nat)
  {
    && |lens| >= batch
    && (batch > 0 ==> steps > 0)
    && forall i :: 0 <= i < batch ==> lens[i] > 0
  }

  /** The slice `[:len]` of a non-negative `len` keeps at most `steps` steps. */
  function Clamp(len: int, steps: nat): (kept: nat)
    requires len >= 0
    ensures kept <= len && kept <= steps
    ensures kept == len || kept == steps
  {
    if len <= steps then len else steps
  }

  /** Sum of column j over the first n rows. */
  function SumOver(rows: seq<seq<real>>, n: nat, j: nat): real
    requires n <= |rows|
    requires forall t :: 0 <= t < n ==> j < |rows[t]|
  {
    if n == 0 then 0.0 else SumOver(rows, n - 1, j) + rows[n - 1][j]
  }

  /** `torch.mean(rows[:n], dim=0)[j]`. */
  function Mean(rows: seq<seq<real>>, n: nat, j: nat): (m: real)
    requires 0 < n <= |rows|
    requires forall t :: 0 <= t < n ==> j < |rows[t]|
    ensures m * (n as real) == SumOver(rows, n, j)
  {
    SumOver(rows, n, j) / (n as real)
  }

  /** The tensor in [batch, step, channel] layout: permuted when it was time-major. */
  function BatchMajor(x: Cube, d0: nat, d1: nat, d2: nat, batchFirst: bool): (r: Cube)
    requires IsCube(x, d0, d1, d2)
    ensures IsCube(r, BatchSize(d0, d1, batchFirst), Steps(d0, d1, batchFirst), d2)
  {
    if batchFirst then x else Permute102(x, d0, d1, d2)
  }

  /** Pooling of a batch-major [n, t, c] tensor. */
  function Pooled(x: Cube, n: nat, t: nat, c: nat, lens: seq<int>): (m: Matrix)
    requires IsCube(x, n, t, c)
    requires ValidLengths(lens, n, t)
    ensures IsMatrix(m, n, c)
  {
    seq(n, i requires 0 <= i < n =>
      seq(c, j requires 0 <= j < c => Mean(x[i], Clamp(lens[i], t), j)))
  }

  /** The value `mean_over_time(seqs, seq_lens, batch_first)` computes. */
  function MeanOverTimeSpec(x: Cube, d0: nat, d1: nat, d2: nat, lens: seq<int>, batchFirst: bool): (m: Matrix)
    requires IsCube(x, d0, d1, d2)
    requires ValidLengths(lens, BatchSize(d0, d1, batchFirst), Steps(d0, d1, batchFirst))
    ensures IsMatrix(m, BatchSize(d0, d1, batchFirst), d2)
  {
    Pooled(BatchMajor(x, d0, d1, d2, batchFirst), BatchSize(d0, d1, batchFirst), Steps(d0, d1, batchFirst), d2, lens)
  }

  /**
   * Allocates a zero [batch_size, input_size] buffer and fills row i with the
   * mean of the first seq_lens[i] steps of sequence i.
   */
  method MeanOverTime(seqs: Cube, d0: nat, d1: nat, d2: nat, seqLens: seq<int>, batchFirst: bool)
    returns (mot: array2<real>)
    requires IsCube(seqs, d0, d1, d2)
    requires ValidLengths(seqLens, BatchSize(d0, d1, batchFirst), Steps(d0, d1, batchFirst))
    ensures fresh(mot)
    ensures mot.Length0 == BatchSize(d0, d1, batchFirst) && mot.Length1 == d2
    ensures Rows(mot) == MeanOverTimeSpec(seqs, d0, d1, d2, seqLens, batchFirst)
  {
    var x, batchSize, steps := seqs, d0, d1;
    if !batchFirst {
      batchSize, steps := d1, d0;
      x := Permute102(seqs, d0, d1, d2);
    }
    var inputSize := d2;
    ghost var spec := Pooled(x, batchSize, steps, inputSize, seqLens);
    mot := new real[batchSize, inputSize]((i, j) => 0.0);
    for i := 0 to batchSize
      invariant forall r, j :: 0 <= r < i && 0 <= j < inputSize ==> mot[r, j] == spec[r][j]
    {
      var len := Clamp(seqLens[i], steps);
      forall j | 0 <= j < inputSize {
        mot[i, j] := Mean(x[i], len, j);
      }
    }
    assert forall r :: 0 <= r < batchSize ==> Rows(mot)[r] == spec[r];
  }

  // ---------------------------------------------------------------------------
  // What the pooled value means, stated in the tensor's own layout.

  /** Entry (row i, step t, channel j) of a tensor in either layout. */
  function At(x: Cube, d0: nat, d1: nat, d2: nat, batchFirst: bool, i: nat, t: nat, j: nat): real
    requires IsCube(x, d0, d1, d2)
    requires i < BatchSize(d0, d1, batchFirst) && t < Steps(d0, d1, batchFirst) && j < d2
  {
    if batchFirst then x[i][t][j] else x[t][i][j]
  }

  /** Sum of channel j of row i over its first n steps, in the tensor's own layout. */
  function SumSteps(x: Cube, d0: nat, d1: nat, d2: nat, batchFirst: bool, i: nat, n: nat, j: nat): real
    requires IsCube(x, d0, d1, d2)
    requires i < BatchSize(d0, d1, batchFirst) && n <= Steps(d0, d1, batchFirst) && j < d2
  {
    if n == 0 then 0.0 else SumSteps(x, d0, d1, d2, batchFirst, i, n - 1, j) + At(x, d0, d1, d2, batchFirst, i, n - 1, j)
  }

  lemma {:induction false} SumBatchMajor(x: Cube, d0: nat, d1: nat, d2: nat, batchFirst: bool, i: nat, n: nat, j: nat)
    requires IsCube(x, d0, d1, d2)
    requires i < BatchSize(d0, d1, batchFirst) && n <= Steps(d0, d1, batchFirst) && j < d2
    ensures SumOver(BatchMajor(x, d0, d1, d2, batchFirst)[i], n, j) == SumSteps(x, d0, d1, d2, batchFirst, i, n, j)
  {
    if n > 0 {
      SumBatchMajor(x, d0, d1, d2, batchFirst, i, n - 1, j);
    }
  }

  /**
   * Entry (i, j) of the result is the sum of channel j of sequence i over its
   * first min(seq_lens[i], steps) steps divided by that count; for a
   * time-major input this reads seqs[t][i][j], for a batch-major one seqs[i][t][j].
   */
  lemma MeanOverTimeMeaning(x: Cube, d0: nat, d1: nat, d2: nat, lens: seq<int>, batchFirst: bool, i: nat, j: nat)
    requires IsCube(x, d0, d1, d2)
    requires ValidLengths(lens, BatchSize(d0, d1, batchFirst), Steps(d0, d1, batchFirst))
    requires i < BatchSize(d0, d1, batchFirst) && j < d2
    ensures var n := Clamp(lens[i], Steps(d0, d1, batchFirst));
      && 0 < n <= Steps(d0, d1, batchFirst)
      && MeanOverTimeSpec(x, d0, d1, d2, lens, batchFirst)[i][j] == SumSteps(x, d0, d1, d2, batchFirst, i, n, j) / (n as real)
  {
    SumBatchMajor(x, d0, d1, d2, batchFirst, i, Clamp(lens[i], Steps(d0, d1, batchFirst)), j);
  }

  /** Sums over n steps agree when the summed entries agree step by step. */
  lemma {:induction false} SumStepsCongruent(
    x: Cube, cx: nat, i: nat, j: nat,
    y: Cube, cy: nat, k: nat, l: nat,
    d0: nat, d1: nat, batchFirst: bool, n: nat)
    requires IsCube(x, d0, d1, cx) && IsCube(y, d0, d1, cy)
    requires i < BatchSize(d0, d1, batchFirst) && k < BatchSize(d0, d1, batchFirst)
    requires n <= Steps(d0, d1, batchFirst) && j < cx && l < cy
    requires forall t :: 0 <= t < n ==> At(x, d0, d1, cx, batchFirst, i, t, j) == At(y, d0, d1, cy, batchFirst, k, t, l)
    ensures SumSteps(x, d0, d1, cx, batchFirst, i, n, j) == SumSteps(y, d0, d1, cy, batchFirst, k, n, l)
  {
    if n > 0 {
      SumStepsCongruent(x, cx, i, j, y, cy, k, l, d0, d1, batchFirst, n - 1);
    }
  }

  /**
   * Padding invariance: two inputs that agree on the first seq_lens[i] steps
   * of row i pool to the same row i, whatever their padding holds.
   */
  lemma PaddingInvariant(x: Cube, y: Cube, d0: nat, d1: nat, d2: nat, lens: seq<int>, batchFirst: bool, i: nat)
    requires IsCube(x, d0, d1, d2) && IsCube(y, d0, d1, d2)
    requires ValidLengths(lens, BatchSize(d0, d1, batchFirst), Steps(d0, d1, batchFirst))
    requires i < BatchSize(d0, d1, batchFirst)
    requires forall t, j :: 0 <= t < Clamp(lens[i], Steps(d0, d1, batchFirst)) && 0 <= j < d2 ==>
      At(x, d0, d1, d2, batchFirst, i, t, j) == At(y, d0, d1, d2, batchFirst, i, t, j)
    ensures MeanOverTimeSpec(x, d0, d1, d2, lens, batchFirst)[i] == MeanOverTimeSpec(y, d0, d1, d2, lens, batchFirst)[i]
  {
    var n := Clamp(lens[i], Steps(d0, d1, batchFirst));
    forall j | 0 <= j < d2
      ensures MeanOverTimeSpec(x, d0, d1, d2, lens, batchFirst)[i][j] == MeanOverTimeSpec(y, d0, d1, d2, lens, batchFirst)[i][j]
    {
      MeanOverTimeMeaning(x, d0, d1, d2, lens, batchFirst, i, j);
      MeanOverTimeMeaning(y, d0, d1, d2, lens, batchFirst, i, j);
      SumStepsCongruent(x, d2, i, j, y, d2, i, j, d0, d1, batchFirst, n);
    }
  }

  /** A sequence of true length one pools to its first time step exactly. */
  lemma LengthOne(x: Cube, d0: nat, d1: nat, d2: nat, lens: seq<int>, batchFirst: bool, i: nat)
    requires IsCube(x, d0, d1, d2)
    requires ValidLengths(lens, BatchSize(d0, d1, batchFirst), Steps(d0, d1, batchFirst))
    requires i < BatchSize(d0, d1, batchFirst) && lens[i] == 1
    ensures forall j :: 0 <= j < d2 ==>
      MeanOverTimeSpec(x, d0, d1, d2, lens, batchFirst)[i][j] == At(x, d0, d1, d2, batchFirst, i, 0, j)
  {
    forall j | 0 <= j < d2
      ensures MeanOverTimeSpec(x, d0, d1, d2, lens, batchFirst)[i][j] == At(x, d0, d1, d2, batchFirst, i, 0, j)
    {
      MeanOverTimeMeaning(x, d0, d1, d2, lens, batchFirst, i, j);
    }
  }

  /**
   * Rows are pooled independently: a row pools to the same vector wherever it
   * sits in the batch, so reordering the batch reorders the result.
   */
  lemma RowIndependent(x: Cube, lx: seq<int>, i: nat, y: Cube, ly: seq<int>, k: nat,
                       d0: nat, d1: nat, d2: nat, batchFirst: bool)
    requires IsCube(x, d0, d1, d2) && IsCube(y, d0, d1, d2)
    requires ValidLengths(lx, BatchSize(d0, d1, batchFirst), Steps(d0, d1, batchFirst))
    requires ValidLengths(ly, BatchSize(d0, d1, batchFirst), Steps(d0, d1, batchFirst))
    requires i < BatchSize(d0, d1, batchFirst) && k < BatchSize(d0, d1, batchFirst)
    requires lx[i] == ly[k]
    requires forall t, j :: 0 <= t < Steps(d0, d1, batchFirst) && 0 <= j < d2 ==>
      At(x, d0, d1, d2, batchFirst, i, t, j) == At(y, d0, d1, d2, batchFirst, k, t, j)
    ensures MeanOverTimeSpec(x, d0, d1, d2, lx, batchFirst)[i] == MeanOverTimeSpec(y, d0, d1, d2, ly, batchFirst)[k]
  {
    var n := Clamp(lx[i], Steps(d0, d1, batchFirst));
    forall j | 0 <= j < d2
      ensures MeanOverTimeSpec(x, d0, d1, d2, lx, batchFirst)[i][j] == MeanOverTimeSpec(y, d0, d1, d2, ly, batchFirst)[k][j]
    {
      MeanOverTimeMeaning(x, d0, d1, d2, lx, batchFirst, i, j);
      MeanOverTimeMeaning(y, d0, d1, d2, ly, batchFirst, k, j);
      SumStepsCongruent(x, d2, i, j, y, d2, k, j, d0, d1, batchFirst, n);
    }
  }
}
