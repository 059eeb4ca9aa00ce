/** Dense real-valued tensors of rank three, indexed x[a][b][c]. */
module Tensors {
  type Matrix = seq<seq<real>>
  type Cube = seq<seq<seq<real>>>

  /** x has size [d0, d1, d2]. */
  predicate IsCube(x: Cube, d0: nat, d1: nat, d2: nat)
  {
    && |x| == d0
    && (forall a :: 0 <= a < d0 ==> |x[a]| == d1)
    && (forall a, b :: 0 <= a < d0 && 0 <= b < d1 ==> |x[a][b]| == d2)
  }

  /** m has size [rows, cols]. */
  predicate IsMatrix(m: Matrix, rows: nat, cols: nat)
  {
    |m| == rows && forall i :: 0 <= i < rows ==> |m[i]| == cols
  }

  /** `x.permute(1, 0, 2)`: the first two axes swap places. */
  function Permute102(x: Cube, d0: nat, d1: nat, d2: nat): (r: Cube)
    requires IsCube(x, d0, d1, d2)
    ensures IsCube(r, d1, d0, d2)
    ensures forall b, a :: 0 <= b < d1 && 0 <= a < d0 ==> r[b][a] == x[a][b]
  {
    seq(d1, b requires 0 <= b < d1 => seq(d0, a requires 0 <= a < d0 => x[a][b]))
  }

  /** Permuting the first two axes twice gives the tensor back. */
  lemma PermuteInvolutive(x: Cube, d0: nat, d1: nat, d2: nat)
    requires IsCube(x, d0, d1, d2)
    ensures Permute102(Permute102(x, d0, d1, d2), d1, d0, d2) == x
  {
    var y := Permute102(Permute102(x, d0, d1, d2), d1, d0, d2);
    forall a | 0 <= a < d0
      ensures y[a] == x[a]
    {
      assert forall b :: 0 <= b < d1 ==> y[a][b] == x[a][b];
    }
  }

  /** A [d0, d1, d2] tensor of zeros (`new_zeros`). */
  function Zeros(d0: nat, d1: nat, d2: nat): (r: Cube)
    ensures IsCube(r, d0, d1, d2)
    ensures forall a, b, c :: 0 <= a < d0 && 0 <= b < d1 && 0 <= c < d2 ==> r[a][b][c] == 0.0
  {
    seq(d0, a => seq(d1, b => seq(d2, c => 0.0)))
  }

  /** Concatenation along the last axis (`torch.cat(..., dim=-1)` on matrices). */
  function CatLast(m1: Matrix, m2: Matrix): (r: Matrix)
    requires |m1| == |m2|
    ensures |r| == |m1|
    ensures forall i :: 0 <= i < |r| ==> |r[i]| == |m1[i]| + |m2[i]| && r[i][..|m1[i]|] == m1[i] && r[i][|m1[i]|..] == m2[i]
  {
    seq(|m1|, i requires 0 <= i < |m1| => m1[i] + m2[i])
  }

  /** The contents of a two-dimensional buffer, row by row. */
  function Rows(m: array2<real>): (r: Matrix)
    reads m
    ensures IsMatrix(r, m.Length0, m.Length1)
    ensures forall i, j :: 0 <= i < m.Length0 && 0 <= j < m.Length1 ==> r[i][j] == m[i, j]
  {
    seq(m.Length0, i reads m requires 0 <= i < m.Length0 => seq(m.Length1, j reads m requires 0 <= j < m.Length1 => m[i, j]))
  }
}
