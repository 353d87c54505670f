/** The column-convention Gaussian value of `mvar_columns/mvar_columns.py`.

    An Mvar is one affine matrix

        [[ std,  zeros_like(mean.T) ],
         [ mean, 1                  ]]

    whose std has the scaled axes as columns (cov == std * std.T).  Every
    other property is read back from that matrix.  The factorisation of a
    covariance into a std (eigendecomposition, square roots of the
    eigenvalues, rotation * scale) is the parameter `root`; the square root
    of a scalar factor is the parameter `rootK`; cos and sin of a rotation
    angle are the parameter `cosSin`. */
module MvarColumns {
  import opened Outcomes
  import opened Matrices
  import opened Blocks
  import opened Affine

  /** An affine matrix of an Mvar over n dimensions: a 1 x n mean row under
      an n x n std, plus the homogeneous column. */
  predicate Ambient(affine: Mat, n: nat) {
    affine.height == n + 1 && affine.width == n + 1
  }

  /** The covariance-to-std factorisation: it yields an n x n std for an
      n x n covariance; nothing else is assumed of it. */
  type Factorisation = root: Mat -> Mat
    | forall c: Mat :: c.height == c.width ==> root(c).height == c.height && root(c).width == c.width
    witness (c: Mat) => c

  // ---------------------------------------------------------------------
  // Creation

  /** `Mvar(autostack([[std, zeros_like(mean.T)], [mean, 1]]))`, the final
      step of every factory.  The accessors give back exactly what was
      packed. */
  function Pack(mean: Mat, std: Mat): (r: Result<Mat>)
    ensures r.Ok? <==> mean.height == 1 && std.height == mean.width && std.width == mean.width
    ensures r.Err? ==> r.error == ShapeMismatch
    ensures r.Ok? ==> Ambient(r.value, mean.width) && MeanOf(r.value) == mean && StdOf(r.value) == std
  {
    var zero := Zeros(mean.width, mean.height);
    if mean.height == 1 && std.height == mean.width && std.width == mean.width then
      LayoutRoundTrip(std, mean, mean.width);
      OrFail(Layout(std, zero, mean), ShapeMismatch)
    else
      OrFail(Layout(std, zero, mean), ShapeMismatch)
  }

  /** `from_mean_std` as written: when only the std is given, the default
      mean is sized from the undefined name `cov`. A mean given alone gets
      the zero std it is meant to, so that call works. */
  function FromMeanStdAsWritten(mean: Option<Mat>, std: Option<Mat>): (r: Result<Mat>)
    ensures mean.None? ==> r.Err?
    ensures mean.Some? && std.Some? ==> r == Pack(mean.value, std.value)
    ensures mean.Some? && std.None? ==> r == FromMeanStd(mean, std)
    ensures mean.Some? && std.None? && mean.value.height == 1 ==>
              && r.Ok? && MeanOf(r.value) == mean.value
              && StdOf(r.value) == Zeros(mean.value.width, mean.value.width)
  {
    if mean.None? && std.None? then Err(MissingSize)
    else if mean.None? then Err(UndefinedName("cov"))
    else
      var m := mean.value;
      Pack(m, if std.Some? then std.value else Zeros(Size(m), Size(m)))
  }

  /** `from_mean_std` with the default mean sized from the std, as its
      documentation describes: a missing argument is zeros of the size the
      other one fixes. */
  function FromMeanStd(mean: Option<Mat>, std: Option<Mat>): (r: Result<Mat>)
    ensures r.Ok? ==> r.value.height >= 1
    ensures mean.None? && std.None? ==> r == Err(MissingSize)
    ensures mean.Some? && std.Some? ==> r == Pack(mean.value, std.value)
    ensures mean.Some? && std.None? && mean.value.height == 1 ==>
              && r.Ok? && MeanOf(r.value) == mean.value
              && StdOf(r.value) == Zeros(mean.value.width, mean.value.width)
    ensures mean.None? && std.Some? ==>
              (r.Ok? <==> std.value.height == std.value.width)
    ensures mean.None? && std.Some? && r.Ok? ==>
              MeanOf(r.value) == Zeros(1, std.value.height) && StdOf(r.value) == std.value
  {
    if mean.None? && std.None? then Err(MissingSize)
    else
      var m := if mean.Some? then mean.value else Zeros(1, std.value.height);
      Pack(m, if std.Some? then std.value else Zeros(Size(m), Size(m)))
  }

  /** A std given alone: as written the call fails, corrected it packs a
      zero mean with that std. */
  lemma StdAloneFromMeanStd(std: Mat)
    requires std.height == std.width
    ensures FromMeanStdAsWritten(None, Some(std)) == Err(UndefinedName("cov"))
    ensures FromMeanStd(None, Some(std)).Ok?
    ensures MeanOf(FromMeanStd(None, Some(std)).value) == Zeros(1, std.height)
    ensures StdOf(FromMeanStd(None, Some(std)).value) == std
  {
  }

  /** The part of `from_roto_scale` after the mean is known: std is the
      rotation times the (square) scale. */
  function RotoScale(rotation: Mat, scale: Mat, mean: Mat, cosSin: real -> (real, real)): (r: Result<Mat>)
    ensures r.Ok? ==> r.value.height >= 1
    ensures var s := SquareScale(scale);
            var t := Turn(rotation, s, cosSin);
            && (r.Ok? <==> t.width == s.height && Pack(mean, Product(t, s)).Ok?)
            && (r.Ok? ==> MeanOf(r.value) == mean && StdOf(r.value) == Product(t, s))
  {
    var s := SquareScale(scale);
    var t := Turn(rotation, s, cosSin);
    if t.width != s.height then Err(ShapeMismatch) else Pack(mean, Product(t, s))
  }

  /** `from_roto_scale` as written: without a mean it calls the undefined
      name `zeros`. */
  function FromRotoScaleAsWritten(rotation: Mat, scale: Mat, mean: Option<Mat>,
                                  cosSin: real -> (real, real)): (r: Result<Mat>)
    ensures mean.None? ==> r == Err(UndefinedName("zeros"))
    ensures mean.Some? ==> r == RotoScale(rotation, scale, mean.value, cosSin)
  {
    if mean.None? then Err(UndefinedName("zeros")) else RotoScale(rotation, scale, mean.value, cosSin)
  }

  /** `from_roto_scale` with the default mean a zero row as wide as the
      scale. */
  function FromRotoScale(rotation: Mat, scale: Mat, mean: Option<Mat>,
                         cosSin: real -> (real, real)): (r: Result<Mat>)
    ensures r.Ok? ==> r.value.height >= 1
    ensures mean.Some? ==> r == RotoScale(rotation, scale, mean.value, cosSin)
    ensures mean.None? && r.Ok? ==> MeanOf(r.value) == Zeros(1, SquareScale(scale).height)
  {
    RotoScale(rotation, scale, if mean.Some? then mean.value else Zeros(1, SquareScale(scale).height), cosSin)
  }

  /** A scale vector v turns into diagflat(v): every column j of the
      rotation is scaled by v[j]. */
  lemma ScaleVectorScalesColumns(rotation: Mat, v: seq<real>, mean: Option<Mat>, cosSin: real -> (real, real))
    requires |v| != 1 && rotation.height == |v| && rotation.width == |v|
    requires mean.Some? ==> mean.value.height == 1 && mean.value.width == |v|
    ensures FromRotoScale(rotation, RowVector(v), mean, cosSin).Ok?
    ensures var a := FromRotoScale(rotation, RowVector(v), mean, cosSin).value;
            && Ambient(a, |v|)
            && forall i, j :: 0 <= i < |v| && 0 <= j < |v| ==> StdOf(a).cells[i][j] == rotation.cells[i][j] * v[j]
  {
    var s := SquareScale(RowVector(v));
    assert s == Diagonal(v) by { SameCells(s, Diagonal(v)); }
    ProductDiagonalRight(rotation, v);
  }

  /** Without a mean: as written the call fails, corrected it packs a zero
      mean as wide as the scale. */
  lemma NoMeanFromRotoScale(rotation: Mat, scale: Mat, cosSin: real -> (real, real))
    requires scale.height == scale.width && rotation.height == scale.height && rotation.width == scale.height
    ensures FromRotoScaleAsWritten(rotation, scale, None, cosSin) == Err(UndefinedName("zeros"))
    ensures FromRotoScale(rotation, scale, None, cosSin).Ok?
    ensures var a := FromRotoScale(rotation, scale, None, cosSin).value;
            MeanOf(a) == Zeros(1, scale.height) && StdOf(a) == Product(rotation, scale)
  {
  }

  /** `from_mean_cov`: the covariance is factorised by `root` and the
      result packed with the mean; a missing argument is zeros sized from
      the other one. */
  function FromMeanCov(mean: Option<Mat>, cov: Option<Mat>, root: Factorisation): (r: Result<Mat>)
    ensures r.Ok? ==> r.value.height >= 1
    ensures mean.None? && cov.None? ==> r == Err(MissingSize)
    ensures r.Ok? && mean.Some? ==> MeanOf(r.value) == mean.value
    ensures r.Ok? && mean.None? ==> MeanOf(r.value) == Zeros(1, cov.value.height)
    ensures r.Ok? && cov.Some? ==> StdOf(r.value) == root(cov.value)
    ensures cov.Some? && cov.value.height != cov.value.width ==> r == Err(NotSquare)
  {
    if mean.None? && cov.None? then Err(MissingSize)
    else
      var c := if cov.Some? then cov.value else Zeros(Size(mean.value), Size(mean.value));
      var m := if mean.Some? then mean.value else Zeros(1, c.height);
      if c.height != c.width then Err(NotSquare) else Pack(m, root(c))
  }

  /** With a well-shaped factorisation, a row mean and a square covariance
      of the same size make an Mvar. */
  lemma FromMeanCovSucceeds(mean: Mat, cov: Mat, root: Factorisation)
    requires mean.height == 1 && cov.height == mean.width && cov.width == mean.width
    ensures FromMeanCov(Some(mean), Some(cov), root).Ok?
    ensures Ambient(FromMeanCov(Some(mean), Some(cov), root).value, mean.width)
  {
  }

  // ---------------------------------------------------------------------
  // Accessors and stacking

  /** `cov == std * std.T` */
  function Cov(affine: Mat): (c: Mat)
    ensures c.height == c.width == StdOf(affine).height
  {
    var s := StdOf(affine);
    Product(s, Transpose(s))
  }

  /** `Mvar.stack(*mvars)`: the means stacked side by side, the stds
      block-diagonally. */
  function Stack(mvars: seq<Mat>): (r: Result<Mat>)
    requires forall k :: 0 <= k < |mvars| ==> mvars[k].height >= 1
    ensures |mvars| == 0 ==> r == Err(EmptyInput)
  {
    if |mvars| == 0 then Err(EmptyInput)
    else
      match HStackAll(Means(mvars))
      case None => Err(ShapeMismatch)
      case Some(mean) => FromMeanStd(Some(mean), Some(BlockDiag(Stds(mvars))))
  }

  /** The stds of square Mvars are as high as their means are wide, in
      total as well as one by one. */
  lemma {:induction false} StackedSizes(mvars: seq<Mat>)
    requires forall k :: 0 <= k < |mvars| ==> mvars[k].height >= 1 && mvars[k].width == mvars[k].height
    ensures SumHeights(Stds(mvars)) == SumWidths(Stds(mvars)) == SumWidths(Means(mvars))
    decreases |mvars|
  {
    if |mvars| > 0 {
      var front := mvars[..|mvars| - 1];
      assert Stds(mvars)[..|mvars| - 1] == Stds(front);
      assert Means(mvars)[..|mvars| - 1] == Means(front);
      StackedSizes(front);
    }
  }

  /** Stacking square Mvars gives one whose mean is the concatenation of
      their means, whose std is the block-diagonal of their stds, and whose
      dimension is the sum of theirs. */
  lemma StackParts(mvars: seq<Mat>)
    requires |mvars| > 0
    requires forall k :: 0 <= k < |mvars| ==> mvars[k].height >= 1 && mvars[k].width == mvars[k].height
    ensures Stack(mvars).Ok?
    ensures var a := Stack(mvars).value;
            && Ambient(a, SumWidths(Means(mvars)))
            && MeanOf(a).cells[0] == Concat(FirstRows(Means(mvars)))
            && StdOf(a) == BlockDiag(Stds(mvars))
  {
    HStackAllRows(Means(mvars));
    StackedSizes(mvars);
  }

  // ---------------------------------------------------------------------
  // Arithmetic

  /** The right operand of `+` and `-`: another Mvar (by its affine) or
      anything else. */
  datatype Operand = AnMvar(affine: Mat) | Other

  /** `A + B`: means added, covariances added, refactorised. */
  function Add(a: Mat, other: Operand, root: Factorisation): (r: Result<Mat>)
    requires a.height >= 1 && (other.AnMvar? ==> other.affine.height >= 1)
    ensures r.Ok? ==> r.value.height >= 1
    ensures other.Other? ==> r == Err(NotAnMvar)
    ensures r.Ok? && other.AnMvar? ==> Zip(MeanOf(a), MeanOf(other.affine), Plus).Some?
    ensures r.Ok? && other.AnMvar? ==>
              MeanOf(r.value) == Zip(MeanOf(a), MeanOf(other.affine), Plus).value
  {
    if other.Other? then Err(NotAnMvar)
    else
      var mean := Zip(MeanOf(a), MeanOf(other.affine), Plus);
      var cov := Zip(Cov(a), Cov(other.affine), Plus);
      if mean.None? || cov.None? then Err(ShapeMismatch) else FromMeanCov(mean, cov, root)
  }

  /** `A - B`: means subtracted, covariances subtracted, refactorised. */
  function Sub(a: Mat, other: Operand, root: Factorisation): (r: Result<Mat>)
    requires a.height >= 1 && (other.AnMvar? ==> other.affine.height >= 1)
    ensures r.Ok? ==> r.value.height >= 1
    ensures other.Other? ==> r == Err(NotAnMvar)
    ensures r.Ok? && other.AnMvar? ==> Zip(MeanOf(a), MeanOf(other.affine), Minus).Some?
    ensures r.Ok? && other.AnMvar? ==>
              MeanOf(r.value) == Zip(MeanOf(a), MeanOf(other.affine), Minus).value
  {
    if other.Other? then Err(NotAnMvar)
    else
      var mean := Zip(MeanOf(a), MeanOf(other.affine), Minus);
      var cov := Zip(Cov(a), Cov(other.affine), Minus);
      if mean.None? || cov.None? then Err(ShapeMismatch) else FromMeanCov(mean, cov, root)
  }

  /** When the means and the covariances add entry-wise, `A + B` is
      `from_mean_cov` of the added parts. */
  lemma AddShaped(a: Mat, b: Mat, root: Factorisation)
    requires a.height >= 1 && b.height >= 1
    requires Zip(MeanOf(a), MeanOf(b), Plus).Some? && Zip(Cov(a), Cov(b), Plus).Some?
    ensures Add(a, AnMvar(b), root)
              == FromMeanCov(Some(Zip(MeanOf(a), MeanOf(b), Plus).value), Some(Zip(Cov(a), Cov(b), Plus).value), root)
  {
  }

  /** Two Mvars of the same dimension add to one of that dimension whose
      mean is the entry-wise sum of their means and whose std factorises the
      sum of their covariances. */
  lemma AddMeans(a: Mat, b: Mat, n: nat, root: Factorisation)
    requires Ambient(a, n) && Ambient(b, n)
    ensures Add(a, AnMvar(b), root).Ok?
    ensures var c := Add(a, AnMvar(b), root).value;
            && Ambient(c, n)
            && (forall j :: 0 <= j < n ==> MeanOf(c).cells[0][j] == MeanOf(a).cells[0][j] + MeanOf(b).cells[0][j])
            && StdOf(c) == root(Zip(Cov(a), Cov(b), Plus).value)
  {
    var mean := Zip(MeanOf(a), MeanOf(b), Plus);
    var cov := Zip(Cov(a), Cov(b), Plus);
    assert mean.Some? && mean.value.height == 1 && mean.value.width == n;
    assert cov.Some? && cov.value.height == n && cov.value.width == n;
    FromMeanCovSucceeds(mean.value, cov.value, root);
    AddShaped(a, b, root);
  }

  /** When the means and the covariances subtract entry-wise, `A - B` is
      `from_mean_cov` of the subtracted parts. */
  lemma SubShaped(a: Mat, b: Mat, root: Factorisation)
    requires a.height >= 1 && b.height >= 1
    requires Zip(MeanOf(a), MeanOf(b), Minus).Some? && Zip(Cov(a), Cov(b), Minus).Some?
    ensures Sub(a, AnMvar(b), root)
              == FromMeanCov(Some(Zip(MeanOf(a), MeanOf(b), Minus).value), Some(Zip(Cov(a), Cov(b), Minus).value), root)
  {
  }

  /** Two Mvars of the same dimension subtract to one of that dimension
      whose mean is the entry-wise difference of their means. */
  lemma SubMeans(a: Mat, b: Mat, n: nat, root: Factorisation)
    requires Ambient(a, n) && Ambient(b, n)
    ensures Sub(a, AnMvar(b), root).Ok?
    ensures var c := Sub(a, AnMvar(b), root).value;
            && Ambient(c, n)
            && (forall j :: 0 <= j < n ==> MeanOf(c).cells[0][j] == MeanOf(a).cells[0][j] - MeanOf(b).cells[0][j])
            && StdOf(c) == root(Zip(Cov(a), Cov(b), Minus).value)
  {
    var mean := Zip(MeanOf(a), MeanOf(b), Minus);
    var cov := Zip(Cov(a), Cov(b), Minus);
    assert mean.Some? && mean.value.height == 1 && mean.value.width == n;
    assert cov.Some? && cov.value.height == n && cov.value.width == n;
    FromMeanCovSucceeds(mean.value, cov.value, root);
    SubShaped(a, b, root);
  }

  /** Subtraction undoes addition on the mean: (A + B - B).mean == A.mean. */
  lemma SubUndoesAddOnMean(a: Mat, b: Mat, n: nat, root: Factorisation)
    requires Ambient(a, n) && Ambient(b, n)
    ensures Add(a, AnMvar(b), root).Ok?
    ensures Sub(Add(a, AnMvar(b), root).value, AnMvar(b), root).Ok?
    ensures MeanOf(Sub(Add(a, AnMvar(b), root).value, AnMvar(b), root).value) == MeanOf(a)
  {
    AddMeans(a, b, n, root);
    var c := Add(a, AnMvar(b), root).value;
    SubMeans(c, b, n, root);
    SubUndoesAdd(MeanOf(a), MeanOf(b));
  }

  /** `A * k` for a scalar k: the mean times k, the std times sqrt(k). */
  function ScalarMul(a: Mat, k: real, rootK: real): (r: Result<Mat>)
    requires a.height >= 1
    ensures a.width == a.height ==>
              && r.Ok? && Ambient(r.value, a.height - 1)
              && MeanOf(r.value) == Scaled(MeanOf(a), k)
              && StdOf(r.value) == Scaled(StdOf(a), rootK)
  {
    FromMeanStd(Some(Scaled(MeanOf(a), k)), Some(Scaled(StdOf(a), rootK)))
  }

  /** When `rootK` is a square root of k, scaling by k scales the covariance
      by k. */
  lemma ScalarMulCov(a: Mat, k: real, rootK: real)
    requires a.height >= 1 && a.width == a.height && rootK * rootK == k
    ensures ScalarMul(a, k, rootK).Ok?
    ensures Cov(ScalarMul(a, k, rootK).value) == Scaled(Cov(a), k)
  {
    var s := StdOf(a);
    TransposeScaled(s, rootK);
    ProductScaled(s, Transpose(s), rootK, rootK);
  }

  /** Scalar multiplication fits with addition on the mean: A + A has the
      mean of 2 * A. */
  lemma AddSelfIsDouble(a: Mat, n: nat, root: Factorisation, rootTwo: real)
    requires Ambient(a, n)
    ensures Add(a, AnMvar(a), root).Ok? && ScalarMul(a, 2.0, rootTwo).Ok?
    ensures MeanOf(Add(a, AnMvar(a), root).value) == MeanOf(ScalarMul(a, 2.0, rootTwo).value)
  {
    AddMeans(a, a, n, root);
    SelfSumIsDouble(MeanOf(a));
  }

  /** `A * M` for a matrix M: the mean becomes mean * M and the covariance
      M.T * cov * M. */
  function MatrixMul(a: Mat, m: Mat, root: Factorisation): (r: Result<Mat>)
    requires a.height >= 1
    ensures r.Ok? ==> r.value.height >= 1
    ensures MeanOf(a).width != m.height ==> r == Err(ShapeMismatch)
    ensures r.Ok? ==> MeanOf(r.value) == Product(MeanOf(a), m)
  {
    var mean := MeanOf(a);
    var c := Cov(a);
    if mean.width != m.height || c.height != m.height then Err(ShapeMismatch)
    else FromMeanCov(Some(Product(mean, m)), Some(Product(Product(Transpose(m), c), m)), root)
  }

  /** Multiplying an n-dimensional Mvar by an n x p matrix gives a
      p-dimensional Mvar. */
  lemma MatrixMulShape(a: Mat, m: Mat, n: nat, root: Factorisation)
    requires Ambient(a, n) && m.height == n
    ensures MatrixMul(a, m, root).Ok?
    ensures Ambient(MatrixMul(a, m, root).value, m.width)
  {
    var c := Cov(a);
    FromMeanCovSucceeds(Product(MeanOf(a), m), Product(Product(Transpose(m), c), m), root);
  }

  /** The right operand of `*=`. */
  datatype Factor = Scalar(k: real, rootK: real) | Iterable(m: Mat) | MvarFactor(affine: Mat)

  /** The value `A *= f` stores: a scalar scales; any iterable operand (an
      Mvar is turned into its std first) reaches the undefined name
      `matrix`. */
  function InPlaceMul(a: Mat, f: Factor): (r: Result<Mat>)
    requires a.height >= 1
    ensures !f.Scalar? ==> r == Err(UndefinedName("matrix"))
    ensures f.Scalar? ==> r == ScalarMul(a, f.k, f.rootK)
  {
    match f
    case Scalar(k, rootK) => ScalarMul(a, k, rootK)
    case _ => Err(UndefinedName("matrix"))
  }

  // ---------------------------------------------------------------------
  // The object

  class Mvar {
    /** The only state: every property is computed from it. */
    var affine: Mat

    /** `Mvar(affine)` stores the affine unchanged. */
    constructor (affine: Mat)
      ensures this.affine == affine
    {
      this.affine := affine;
    }

    /** `A.T`: a new Mvar holding the transposed affine. */
    method T() returns (t: Mvar)
      ensures t.affine == Transpose(affine)
    {
      t := new Mvar(Transpose(affine));
    }

    /** `A += other`: the affine becomes that of A + other; when the sum
        raises, A is left as it was. */
    method IAdd(other: Operand, root: Factorisation) returns (error: Option<Error>)
      requires affine.height >= 1 && (other.AnMvar? ==> other.affine.height >= 1)
      modifies this
      ensures match Add(old(affine), other, root)
              case Ok(sum) => affine == sum && error.None?
              case Err(e) => affine == old(affine) && error == Some(e)
    {
      match Add(affine, other, root)
      case Ok(sum) =>
        affine := sum;
        error := None;
      case Err(e) =>
        error := Some(e);
    }

    /** `A -= other` */
    method ISub(other: Operand, root: Factorisation) returns (error: Option<Error>)
      requires affine.height >= 1 && (other.AnMvar? ==> other.affine.height >= 1)
      modifies this
      ensures match Sub(old(affine), other, root)
              case Ok(diff) => affine == diff && error.None?
              case Err(e) => affine == old(affine) && error == Some(e)
    {
      match Sub(affine, other, root)
      case Ok(diff) =>
        affine := diff;
        error := None;
      case Err(e) =>
        error := Some(e);
    }

    /** `A *= f` */
    method IMul(f: Factor) returns (error: Option<Error>)
      requires affine.height >= 1
      modifies this
      ensures match InPlaceMul(old(affine), f)
              case Ok(product) => affine == product && error.None?
              case Err(e) => affine == old(affine) && error == Some(e)
    {
      match InPlaceMul(affine, f)
      case Ok(product) =>
        affine := product;
        error := None;
      case Err(e) =>
        error := Some(e);
    }
  }
}
