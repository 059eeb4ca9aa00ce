/**
 * The bidirectional model's split and merge: encoder output of width 2H is
 * viewed as [T, N, 2, H], direction 0 (forward) and direction 1 (backward)
 * are pooled separately and the pooled halves are concatenated forward first.
 */
module Directions {
  import opened Tensors
  import opened Pooling

  type Cube4 = seq<seq<seq<seq<real>>>>

  /** `x.view(T, N, 2, H)` of a contiguous [T, N, 2H] tensor: channel d*H + k becomes [d][k]. */
  function View4(x: Cube, t: nat, n: nat, h: nat): (v: Cube4)
    requires IsCube(x, t, n, 2 * h)
    ensures |v| == t
    ensures forall a :: 0 <= a < t ==> |v[a]| == n
    ensures forall a, b :: 0 <= a < t && 0 <= b < n ==> |v[a][b]| == 2
    ensures forall a, b, d :: 0 <= a < t && 0 <= b < n && 0 <= d < 2 ==> |v[a][b][d]| == h
  {
    seq(t, a requires 0 <= a < t =>
      seq(n, b requires 0 <= b < n =>
        seq(2, d requires 0 <= d < 2 =>
          seq(h, k requires 0 <= k < h => x[a][b][d * h + k]))))
  }

  /** Channel c of the flat tensor is direction c / H, offset c % H of the view. */
  lemma ViewChannel(x: Cube, t: nat, n: nat, h: nat, a: nat, b: nat, c: nat)
    requires IsCube(x, t, n, 2 * h)
    requires a < t && b < n && c < 2 * h
    ensures c / h < 2 && c % h < h
    ensures View4(x, t, n, h)[a][b][c / h][c % h] == x[a][b][c]
  {
  }

  /** `x[:, :, d, :]` of the view. */
  function Direction(v: Cube4, t: nat, n: nat, h: nat, d: nat): (r: Cube)
    requires d < 2
    requires |v| == t
    requires forall a :: 0 <= a < t ==> |v[a]| == n
    requires forall a, b :: 0 <= a < t && 0 <= b < n ==> |v[a][b]| == 2
    requires forall a, b, e :: 0 <= a < t && 0 <= b < n && 0 <= e < 2 ==> |v[a][b][e]| == h
    ensures IsCube(r, t, n, h)
  {
    seq(t, a requires 0 <= a < t => seq(n, b requires 0 <= b < n => v[a][b][d]))
  }

  /** `x_for, x_back = x[:, :, 0, :], x[:, :, 1, :]` after the view. */
  function Split(x: Cube, t: nat, n: nat, h: nat): (halves: (Cube, Cube))
    requires IsCube(x, t, n, 2 * h)
    ensures IsCube(halves.0, t, n, h) && IsCube(halves.1, t, n, h)
    ensures forall a, b, k :: 0 <= a < t && 0 <= b < n && 0 <= k < h ==>
      halves.0[a][b][k] == x[a][b][k] && halves.1[a][b][k] == x[a][b][h + k]
  {
    var v := View4(x, t, n, h);
    (Direction(v, t, n, h, 0), Direction(v, t, n, h, 1))
  }

  /** The split loses nothing: forward channels followed by backward channels are the input. */
  lemma SplitConcat(x: Cube, t: nat, n: nat, h: nat, a: nat, b: nat)
    requires IsCube(x, t, n, 2 * h)
    requires a < t && b < n
    ensures Split(x, t, n, h).0[a][b] + Split(x, t, n, h).1[a][b] == x[a][b]
  {
  }

  /** Pooling is channel-wise: pooling one half equals pooling the matching channels of the whole. */
  lemma PoolHalf(x: Cube, t: nat, n: nat, h: nat, lens: seq<int>, half: Cube, offset: nat, i: nat, k: nat)
    requires IsCube(x, t, n, 2 * h) && IsCube(half, t, n, h)
    requires ValidLengths(lens, n, t)
    requires offset == 0 || offset == h
    requires forall a, b, j :: 0 <= a < t && 0 <= b < n && 0 <= j < h ==> half[a][b][j] == x[a][b][offset + j]
    requires i < n && k < h
    ensures MeanOverTimeSpec(half, t, n, h, lens, false)[i][k] == MeanOverTimeSpec(x, t, n, 2 * h, lens, false)[i][offset + k]
  {
    var steps := Clamp(lens[i], t);
    MeanOverTimeMeaning(half, t, n, h, lens, false, i, k);
    MeanOverTimeMeaning(x, t, n, 2 * h, lens, false, i, offset + k);
    SumStepsCongruent(half, h, i, k, x, 2 * h, i, offset + k, t, n, false, steps);
  }

  /**
   * Lines 110-121 of the bidirectional forward pass between dropout and the
   * linear layer: split, pool each direction, concatenate forward first.
   */
  method PoolDirections(x: Cube, t: nat, n: nat, h: nat, lens: seq<int>) returns (merged: Matrix)
    requires IsCube(x, t, n, 2 * h)
    requires ValidLengths(lens, n, t)
    ensures IsMatrix(merged, n, 2 * h)
    ensures forall i :: 0 <= i < n ==>
      && merged[i][..h] == MeanOverTimeSpec(Split(x, t, n, h).0, t, n, h, lens, false)[i]
      && merged[i][h..] == MeanOverTimeSpec(Split(x, t, n, h).1, t, n, h, lens, false)[i]
    ensures merged == MeanOverTimeSpec(x, t, n, 2 * h, lens, false)
  {
    var halves := Split(x, t, n, h);
    var xFor, xBack := halves.0, halves.1;
    var motFor := MeanOverTime(xFor, t, n, h, lens, false);
    var motBack := MeanOverTime(xBack, t, n, h, lens, false);
    merged := CatLast(Rows(motFor), Rows(motBack));
    ghost var whole := MeanOverTimeSpec(x, t, n, 2 * h, lens, false);
    forall i | 0 <= i < n
      ensures merged[i] == whole[i]
    {
      forall c | 0 <= c < 2 * h
        ensures merged[i][c] == whole[i][c]
      {
        if c < h {
          assert merged[i][c] == merged[i][..h][c];
          PoolHalf(x, t, n, h, lens, xFor, 0, i, c);
        } else {
          assert merged[i][c] == merged[i][h..][c - h];
          PoolHalf(x, t, n, h, lens, xBack, h, i, c - h);
        }
      }
    }
  }
}
