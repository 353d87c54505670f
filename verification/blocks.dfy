/** `diagstack`: block-diagonal assembly of a list of matrices.

    The block-diagonal matrix is specified by `BlockDiag` (each block placed
    after the ones before it, zeros elsewhere); `DiagStack` is the library's
    procedure: compute the prefix-sum corners, allocate a zero matrix of the
    total size, and copy each block into its slot. */
module Blocks {
  import opened Matrices

  /** `numpy.cumsum` of the block shapes, preceded by (0, 0): the corner at
      which block k starts.  `Corners(bs)[|bs|]` is the size of the whole result. */
  function Corners(bs: seq<Mat>): (c: seq<(nat, nat)>)
    ensures |c| == |bs| + 1
    ensures forall k :: 0 <= k <= |bs| ==> c[k] == (SumHeights(bs[..k]), SumWidths(bs[..k]))
    ensures c[|bs|] == (SumHeights(bs), SumWidths(bs))
    decreases |bs|
  {
    if bs == [] then [(0, 0)]
    else
      var front := bs[..|bs| - 1];
      var before := Corners(front);
      assert forall k :: 0 <= k <= |front| ==> front[..k] == bs[..k];
      assert bs[..|bs|] == bs;
      before + [(before[|front|].0 + bs[|bs| - 1].height, before[|front|].1 + bs[|bs| - 1].width)]
  }

  /** `[[a, 0], [0, b]]` */
  function DiagPair(a: Mat, b: Mat): (r: Mat)
    ensures r.height == a.height + b.height && r.width == a.width + b.width
  {
    var h, w := a.height + b.height, a.width + b.width;
    Matrix(h, w,
      seq(h, i requires 0 <= i < h =>
        seq(w, j requires 0 <= j < w =>
          if i < a.height && j < a.width then a.cells[i][j]
          else if i >= a.height && j >= a.width then b.cells[i - a.height][j - a.width]
          else 0.0)))
  }

  /** The top-left block of `[[a, 0], [0, b]]` is `a`. */
  lemma DiagPairTopLeft(a: Mat, b: Mat, i: nat, j: nat)
    requires i < a.height && j < a.width
    ensures DiagPair(a, b).cells[i][j] == a.cells[i][j]
  {
  }

  /** Outside both blocks `[[a, 0], [0, b]]` is zero. */
  lemma DiagPairOffBlocks(a: Mat, b: Mat, i: nat, j: nat)
    requires i < a.height + b.height && j < a.width + b.width
    requires !(i < a.height && j < a.width) && !(i >= a.height && j >= a.width)
    ensures DiagPair(a, b).cells[i][j] == 0.0
  {
  }

  /** The bottom-right block of `[[a, 0], [0, b]]` is `b`. */
  lemma DiagPairCorner(a: Mat, b: Mat, p: nat, q: nat)
    requires p < b.height && q < b.width
    ensures DiagPair(a, b).cells[a.height + p][a.width + q] == b.cells[p][q]
  {
  }

  /** The block-diagonal matrix of `bs`. */
  function BlockDiag(bs: seq<Mat>): (r: Mat)
    ensures r.height == SumHeights(bs) && r.width == SumWidths(bs)
  {
    if bs == [] then Zeros(0, 0) else DiagPair(BlockDiag(bs[..|bs| - 1]), bs[|bs| - 1])
  }

  /** Whether entry (i, j) lies in the slot of block k. */
  predicate InBlock(bs: seq<Mat>, k: nat, i: nat, j: nat)
    requires k < |bs|
  {
    && SumHeights(bs[..k]) <= i < SumHeights(bs[..k]) + bs[k].height
    && SumWidths(bs[..k]) <= j < SumWidths(bs[..k]) + bs[k].width
  }

  lemma {:induction false} PrefixSumsBounded(bs: seq<Mat>, k: nat)
    requires k <= |bs|
    ensures SumHeights(bs[..k]) <= SumHeights(bs) && SumWidths(bs[..k]) <= SumWidths(bs)
    decreases |bs|
  {
    if k < |bs| {
      var front := bs[..|bs| - 1];
      assert front[..k] == bs[..k];
      PrefixSumsBounded(front, k);
    } else {
      assert bs[..k] == bs;
    }
  }

  /** The last block fills the bottom-right slot. */
  lemma {:induction false} BlockDiagLast(bs: seq<Mat>, a: nat, b: nat)
    requires |bs| > 0 && a < bs[|bs| - 1].height && b < bs[|bs| - 1].width
    ensures BlockDiag(bs).cells[SumHeights(bs[..|bs| - 1]) + a][SumWidths(bs[..|bs| - 1]) + b]
              == bs[|bs| - 1].cells[a][b]
  {
    var front, last := bs[..|bs| - 1], bs[|bs| - 1];
    var d := BlockDiag(front);
    assert BlockDiag(bs) == DiagPair(d, last);
    assert SumHeights(bs) == d.height + last.height && SumWidths(bs) == d.width + last.width;
    DiagPairCorner(d, last, a, b);
  }

  /** Adding a block leaves the top-left part, the blocks before it, unchanged. */
  lemma {:induction false} BlockDiagFront(bs: seq<Mat>, i: nat, j: nat)
    requires |bs| > 0 && i < SumHeights(bs[..|bs| - 1]) && j < SumWidths(bs[..|bs| - 1])
    ensures i < SumHeights(bs) && j < SumWidths(bs)
    ensures BlockDiag(bs).cells[i][j] == BlockDiag(bs[..|bs| - 1]).cells[i][j]
  {
    DiagPairTopLeft(BlockDiag(bs[..|bs| - 1]), bs[|bs| - 1], i, j);
  }

  /** Block k sits at the corner given by the blocks before it, unchanged. */
  lemma {:induction false} BlockDiagPlacement(bs: seq<Mat>, k: nat, a: nat, b: nat)
    requires k < |bs| && a < bs[k].height && b < bs[k].width
    ensures SumHeights(bs[..k]) + a < SumHeights(bs) && SumWidths(bs[..k]) + b < SumWidths(bs)
    ensures BlockDiag(bs).cells[SumHeights(bs[..k]) + a][SumWidths(bs[..k]) + b] == bs[k].cells[a][b]
    decreases |bs|
  {
    var front := bs[..|bs| - 1];
    if k == |bs| - 1 {
      assert front == bs[..k];
      BlockDiagLast(bs, a, b);
    } else {
      assert front[..k] == bs[..k];
      BlockDiagPlacement(front, k, a, b);
      BlockDiagFront(bs, SumHeights(bs[..k]) + a, SumWidths(bs[..k]) + b);
    }
  }

  /** Every entry outside all block slots is zero. */
  lemma {:induction false} BlockDiagZeroOutside(bs: seq<Mat>, i: nat, j: nat)
    requires i < SumHeights(bs) && j < SumWidths(bs)
    requires forall k :: 0 <= k < |bs| ==> !InBlock(bs, k, i, j)
    ensures BlockDiag(bs).cells[i][j] == 0.0
    decreases |bs|
  {
    var front := bs[..|bs| - 1];
    var last := |bs| - 1;
    assert front == bs[..last];
    assert !InBlock(bs, last, i, j);
    if i < SumHeights(front) && j < SumWidths(front) {
      DiagPairTopLeft(BlockDiag(front), bs[last], i, j);
      forall k | 0 <= k < |front| ensures !InBlock(front, k, i, j) {
        assert front[..k] == bs[..k];
        assert !InBlock(bs, k, i, j);
      }
      BlockDiagZeroOutside(front, i, j);
    } else {
      DiagPairOffBlocks(BlockDiag(front), bs[last], i, j);
    }
  }

  /** Copies `block` into the slot of `r` whose top-left corner is
      (top, left), leaving every other entry as it was:
      `result[start[0]:stop[0], start[1]:stop[1]] = array`. */
  method CopyBlock(r: array2<real>, block: Mat, top: nat, left: nat)
    requires top + block.height <= r.Length0 && left + block.width <= r.Length1
    modifies r
    ensures forall i, j :: 0 <= i < r.Length0 && 0 <= j < r.Length1 ==>
              r[i, j] == if top <= i < top + block.height && left <= j < left + block.width
                         then block.cells[i - top][j - left] else old(r[i, j])
  {
    var a := 0;
    while a < block.height
      invariant 0 <= a <= block.height
      invariant forall i, j :: 0 <= i < r.Length0 && 0 <= j < r.Length1 ==>
                  r[i, j] == if top <= i < top + a && left <= j < left + block.width
                             then block.cells[i - top][j - left] else old(r[i, j])
    {
      var b := 0;
      while b < block.width
        invariant 0 <= b <= block.width
        invariant forall i, j :: 0 <= i < r.Length0 && 0 <= j < r.Length1 ==>
                    r[i, j] == if (top <= i < top + a && left <= j < left + block.width)
                                  || (i == top + a && left <= j < left + b)
                               then block.cells[i - top][j - left] else old(r[i, j])
      {
        r[top + a, left + b] := block.cells[a][b];
        b := b + 1;
      }
      a := a + 1;
    }
  }

  /** The entries of the result once the first k blocks are copied: the
      block-diagonal of those blocks in the top-left corner, zeros elsewhere. */
  ghost function Partial(bs: seq<Mat>, k: nat, i: nat, j: nat): real
    requires k <= |bs|
  {
    if i < SumHeights(bs[..k]) && j < SumWidths(bs[..k]) then BlockDiag(bs[..k]).cells[i][j] else 0.0
  }

  /** Copying block k into its slot turns the k-block picture into the
      (k+1)-block one. */
  lemma PartialStep(bs: seq<Mat>, k: nat, top: nat, left: nat, i: nat, j: nat)
    requires k < |bs| && top == SumHeights(bs[..k]) && left == SumWidths(bs[..k])
    ensures Partial(bs, k + 1, i, j) ==
              if top <= i < top + bs[k].height && left <= j < left + bs[k].width
              then bs[k].cells[i - top][j - left]
              else Partial(bs, k, i, j)
  {
    assert bs[..k + 1][..k] == bs[..k];
    assert bs[..k + 1][k] == bs[k];
  }

  /** One pass of the copy loop: block k goes into its slot at
      (top, left), which turns the k-block picture into the (k+1)-block one. */
  method PlaceBlock(result: array2<real>, blocks: seq<Mat>, k: nat, top: nat, left: nat)
    requires k < |blocks| && top == SumHeights(blocks[..k]) && left == SumWidths(blocks[..k])
    requires result.Length0 == SumHeights(blocks) && result.Length1 == SumWidths(blocks)
    requires forall i, j :: 0 <= i < result.Length0 && 0 <= j < result.Length1 ==>
               result[i, j] == Partial(blocks, k, i, j)
    modifies result
    ensures forall i, j :: 0 <= i < result.Length0 && 0 <= j < result.Length1 ==>
              result[i, j] == Partial(blocks, k + 1, i, j)
  {
    PrefixSumsBounded(blocks, k + 1);
    assert blocks[..k + 1][..k] == blocks[..k];
    CopyBlock(result, blocks[k], top, left);
    forall i, j | 0 <= i < result.Length0 && 0 <= j < result.Length1
      ensures result[i, j] == Partial(blocks, k + 1, i, j)
    {
      PartialStep(blocks, k, top, left, i, j);
    }
  }

  /** `diagstack(arrays)`.  The library reads `arrays[0]` before anything
      else, so an empty list is refused by the caller's obligation. */
  method DiagStack(blocks: seq<Mat>) returns (result: array2<real>)
    requires |blocks| > 0
    ensures result.Length0 == SumHeights(blocks) && result.Length1 == SumWidths(blocks)
    ensures forall i, j :: 0 <= i < result.Length0 && 0 <= j < result.Length1 ==>
              result[i, j] == BlockDiag(blocks).cells[i][j]
  {
    var corners := Corners(blocks);
    var total := corners[|blocks|];
    result := new real[total.0, total.1]((i, j) => 0.0);
    var k := 0;
    while k < |blocks|
      invariant 0 <= k <= |blocks|
      invariant result.Length0 == SumHeights(blocks) && result.Length1 == SumWidths(blocks)
      invariant forall i, j :: 0 <= i < result.Length0 && 0 <= j < result.Length1 ==>
                  result[i, j] == Partial(blocks, k, i, j)
    {
      PlaceBlock(result, blocks, k, corners[k].0, corners[k].1);
      k := k + 1;
    }
    assert blocks[..|blocks|] == blocks;
  }
}
