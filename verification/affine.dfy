/** The affine form shared by both versions of the Gaussian value: one
    matrix that stacks the scaled axes ("std") over the mean row,

        [[ std,  0 ],
         [ mean, 1 ]]

    from which the mean and the std are read back by slicing. */
module Affine {
  import opened Outcomes
  import opened Matrices

  /** A slice `[:-1]` of n items keeps n - 1 of them (none of none). */
  function Pred(n: nat): nat {
    if n == 0 then 0 else n - 1
  }

  /** `affine[-1, :-1]`: the last row without its last entry. */
  function MeanOf(affine: Mat): (mean: Mat)
    requires affine.height >= 1
    ensures mean.height == 1 && mean.width == Pred(affine.width)
    ensures forall j :: 0 <= j < mean.width ==> mean.cells[0][j] == affine.cells[affine.height - 1][j]
  {
    Matrix(1, Pred(affine.width), [affine.cells[affine.height - 1][..Pred(affine.width)]])
  }

  /** `affine[:-1, :-1]`: everything but the last row and the last column. */
  function StdOf(affine: Mat): (std: Mat)
    ensures std.height == Pred(affine.height) && std.width == Pred(affine.width)
    ensures forall i, j :: 0 <= i < std.height && 0 <= j < std.width ==> std.cells[i][j] == affine.cells[i][j]
  {
    var h, w := Pred(affine.height), Pred(affine.width);
    Matrix(h, w, seq(h, i requires 0 <= i < h => affine.cells[i][..w]))
  }

  /** `autostack([[std, zero], [mean, 1]])`.  It stacks exactly when the
      blocks of each row are equally high and both rows are equally wide,
      into a matrix one row higher than the std and one column wider than
      the mean. */
  function Layout(std: Mat, zero: Mat, mean: Mat): (r: Option<Mat>)
    ensures r.Some? <==>
              std.height == zero.height && mean.height == 1 && std.width + zero.width == mean.width + 1
    ensures r.Some? ==> r.value.height == std.height + 1 && r.value.width == mean.width + 1
  {
    var rows := [[std, zero], [mean, One()]];
    assert rows[0][..1] == [std] && rows[1][..1] == [mean];
    assert Heads(rows) == [std, mean];
    assert SumHeights([std, mean]) == std.height + mean.height by {
      assert [std][..0] == [];
      assert SumHeights([std]) == std.height;
      assert [std, mean][..1] == [std];
    }
    assert SumWidths([std]) == std.width by { assert [std][..0] == []; }
    assert SumWidths([mean]) == mean.width by { assert [mean][..0] == []; }
    assert SameHeights([std, zero]) <==> std.height == zero.height by {
      assert [std, zero][1] == zero;
    }
    assert SameHeights([mean, One()]) <==> mean.height == 1 by {
      assert [mean, One()][1] == One();
    }
    Autostack(rows)
  }

  /** Packing a mean row and a std block with a one-column block of zeros
      and reading them back returns them unchanged; the last column holds
      the zeros over a 1. */
  lemma LayoutRoundTrip(std: Mat, mean: Mat, n: nat)
    requires mean.height == 1 && mean.width == n && std.width == n
    ensures Layout(std, Zeros(std.height, 1), mean).Some?
    ensures var a := Layout(std, Zeros(std.height, 1), mean).value;
            && a.height == std.height + 1 && a.width == n + 1
            && MeanOf(a) == mean && StdOf(a) == std
            && (forall i :: 0 <= i < std.height ==> a.cells[i][n] == 0.0)
            && a.cells[std.height][n] == 1.0
  {
    var zero := Zeros(std.height, 1);
    Autostack2x2(std, zero, mean, One());
    var a := VStack(HStack(std, zero), HStack(mean, One()));
    assert Layout(std, zero, mean) == Some(a);
    SameCells(MeanOf(a), mean);
    SameCells(StdOf(a), std);
  }

  /** The scale made square: a non-square scale becomes the diagonal
      matrix holding its entries, a row vector and a column vector alike. */
  function SquareScale(scale: Mat): (s: Mat)
    ensures s.height == s.width
    ensures scale.height == scale.width ==> s == scale
    ensures scale.height != scale.width ==> s.height == Size(scale)
    ensures scale.height == 1 && scale.width != 1 ==>
              s.height == scale.width
              && forall i, j :: 0 <= i < s.height && 0 <= j < s.width ==>
                   s.cells[i][j] == if i == j then scale.cells[0][i] else 0.0
    ensures scale.width == 1 && scale.height != 1 ==>
              s.height == scale.height
              && forall i, j :: 0 <= i < s.height && 0 <= j < s.width ==>
                   s.cells[i][j] == if i == j then scale.cells[i][0] else 0.0
  {
    if scale.height != scale.width then Diagonal(Flatten(scale)) else scale
  }

  /** The means of a list of affine matrices. */
  function Means(mvars: seq<Mat>): (ms: seq<Mat>)
    requires forall k :: 0 <= k < |mvars| ==> mvars[k].height >= 1
    ensures |ms| == |mvars| && forall k :: 0 <= k < |mvars| ==> ms[k] == MeanOf(mvars[k])
  {
    seq(|mvars|, k requires 0 <= k < |mvars| => MeanOf(mvars[k]))
  }

  /** The stds of a list of affine matrices. */
  function Stds(mvars: seq<Mat>): (ss: seq<Mat>)
    ensures |ss| == |mvars| && forall k :: 0 <= k < |mvars| ==> ss[k] == StdOf(mvars[k])
  {
    seq(|mvars|, k requires 0 <= k < |mvars| => StdOf(mvars[k]))
  }

  /** A 1 x 1 rotation next to a 2 x 2 scale is an angle, turned into the
      matrix [[cos, sin], [-sin, cos]]. */
  function Turn(rotation: Mat, scale: Mat, cosSin: real -> (real, real)): (t: Mat)
    ensures rotation.height == 1 && rotation.width == 1 && scale.height == 2 && scale.width == 2 ==>
              t.height == 2 && t.width == 2
              && t.cells[0][0] == t.cells[1][1] == cosSin(rotation.cells[0][0]).0
              && t.cells[0][1] == -t.cells[1][0] == cosSin(rotation.cells[0][0]).1
    ensures !(rotation.height == 1 && rotation.width == 1 && scale.height == 2 && scale.width == 2) ==>
              t == rotation
  {
    if rotation.height == 1 && rotation.width == 1 && scale.height == 2 && scale.width == 2 then
      var (c, s) := cosSin(rotation.cells[0][0]);
      Matrix(2, 2, [[c, s], [-s, c]])
    else
      rotation
  }
}
