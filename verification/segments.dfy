/** The piecewise trajectory as it travels in a `DesTrajectory` message:
    one duration per segment and a flat array holding, per segment, a 3x6
    coefficient matrix in row-major order. */
module Segments {

  /** A 3x6 coefficient matrix: one row per axis, one column per coefficient
      of the quintic polynomial. */
  type Block = seq<seq<real>>

  predicate WellShaped(b: Block) {
    |b| == 3 && forall row :: 0 <= row < 3 ==> |b[row]| == 6
  }

  /** Total of the segment durations, accumulated left to right. */
  function Sum(ds: seq<int>): int
    decreases |ds|
  {
    if |ds| == 0 then 0 else Sum(ds[..|ds| - 1]) + ds[|ds| - 1]
  }

  /** The row-major 3x6 matrix that starts at offset `18 * i`. */
  function BlockAt(flat: seq<real>, i: nat): (b: Block)
    requires 18 * i + 18 <= |flat|
    ensures WellShaped(b)
    ensures forall row, col :: 0 <= row < 3 && 0 <= col < 6 ==>
              b[row][col] == flat[18 * i + 6 * row + col]
  {
    [flat[18 * i .. 18 * i + 6], flat[18 * i + 6 .. 18 * i + 12], flat[18 * i + 12 .. 18 * i + 18]]
  }

  /** The first `n` matrices of a flat array. */
  function Slice(flat: seq<real>, n: nat): (bs: seq<Block>)
    requires 18 * n <= |flat|
    ensures |bs| == n
    ensures forall i :: 0 <= i < n ==>
              WellShaped(bs[i]) && bs[i] == BlockAt(flat, i)
  {
    if n == 0 then [] else Slice(flat, n - 1) + [BlockAt(flat, n - 1)]
  }

  /** The 18 coefficients of one matrix, row after row. */
  function Cells(b: Block): seq<real>
    requires WellShaped(b)
  {
    b[0] + b[1] + b[2]
  }

  /** The sender's packing: matrices laid out one after another, row-major. */
  function Flatten(bs: seq<Block>): (flat: seq<real>)
    requires forall i :: 0 <= i < |bs| ==> WellShaped(bs[i])
    ensures |flat| == 18 * |bs|
    decreases |bs|
  {
    if |bs| == 0 then [] else Flatten(bs[..|bs| - 1]) + Cells(bs[|bs| - 1])
  }

  /** Two well-shaped matrices with the same cells are the same matrix. */
  lemma BlockExt(a: Block, b: Block)
    requires WellShaped(a) && WellShaped(b)
    requires forall row, col :: 0 <= row < 3 && 0 <= col < 6 ==> a[row][col] == b[row][col]
    ensures a == b
  {
    forall row | 0 <= row < 3
      ensures a[row] == b[row]
    {
      assert forall col :: 0 <= col < 6 ==> a[row][col] == b[row][col];
    }
  }

  /** Slicing a flat array and packing the matrices again gives back the
      part of the array that was read. */
  lemma {:induction false} FlattenSlice(flat: seq<real>, n: nat)
    requires 18 * n <= |flat|
    ensures Flatten(Slice(flat, n)) == flat[..18 * n]
    decreases n
  {
    if n > 0 {
      var bs := Slice(flat, n);
      assert bs[..n - 1] == Slice(flat, n - 1);
      FlattenSlice(flat, n - 1);
      var k := 18 * (n - 1);
      assert Cells(bs[n - 1]) == flat[k .. k + 18];
      assert flat[..k + 18] == flat[..k] + flat[k .. k + 18];
    }
  }

  /** The cell of matrix `i` at (`row`, `col`) sits at offset
      `18 * i + 6 * row + col` of the packed array. */
  lemma {:induction false} FlattenIndex(bs: seq<Block>, i: nat, row: nat, col: nat)
    requires forall j :: 0 <= j < |bs| ==> WellShaped(bs[j])
    requires i < |bs| && row < 3 && col < 6
    ensures Flatten(bs)[18 * i + 6 * row + col] == bs[i][row][col]
    decreases |bs|
  {
    var m := |bs| - 1;
    var init := bs[..m];
    assert Flatten(bs) == Flatten(init) + Cells(bs[m]);
    if i < m {
      assert init[i] == bs[i];
      FlattenIndex(init, i, row, col);
    } else {
      assert Cells(bs[m])[6 * row + col] == bs[m][row][col];
    }
  }

  /** Packing well-shaped matrices and slicing them again gives them back. */
  lemma SliceFlatten(bs: seq<Block>)
    requires forall i :: 0 <= i < |bs| ==> WellShaped(bs[i])
    ensures Slice(Flatten(bs), |bs|) == bs
  {
    var out := Slice(Flatten(bs), |bs|);
    forall i | 0 <= i < |bs|
      ensures out[i] == bs[i]
    {
      BlockAtFlatten(bs, i);
    }
  }

  /** Matrix `i` read back from the packed array is matrix `i`. */
  lemma BlockAtFlatten(bs: seq<Block>, i: nat)
    requires forall j :: 0 <= j < |bs| ==> WellShaped(bs[j])
    requires i < |bs|
    ensures BlockAt(Flatten(bs), i) == bs[i]
  {
    var b := BlockAt(Flatten(bs), i);
    forall row, col | 0 <= row < 3 && 0 <= col < 6
      ensures b[row][col] == bs[i][row][col]
    {
      FlattenIndex(bs, i, row, col);
    }
    BlockExt(b, bs[i]);
  }

  /** The loading loop of the ADD handler: one matrix per duration, each
      duration added to the end time. */
  method LoadSegments(start: int, durations: seq<int>, flat: seq<real>)
    returns (finalTime: int, coefficients: seq<Block>)
    requires 18 * |durations| <= |flat|
    ensures finalTime == start + Sum(durations)
    ensures coefficients == Slice(flat, |durations|)
    ensures |coefficients| == |durations|
  {
    finalTime := start;
    coefficients := [];
    var i := 0;
    while i < |durations|
      invariant 0 <= i <= |durations|
      invariant finalTime == start + Sum(durations[..i])
      invariant coefficients == Slice(flat, i)
    {
      coefficients := coefficients + [BlockAt(flat, i)];
      assert durations[..i + 1][..i] == durations[..i];
      finalTime := finalTime + durations[i];
      i := i + 1;
    }
    assert durations[..|durations|] == durations;
  }
}
