/** `Plane` from `mvn/plane.py`: an affine subspace given by a mean row and
    a stack of spanning vectors (one per row), with its shape bookkeeping,
    projection onto chosen dimensions, and addition. */
module Planes {
  import opened Outcomes
  import opened Matrices

  /** Every index of `ks` made non-negative against an extent of `n`, or
      None if one of them is out of range (numpy's IndexError). */
  function NormalizeAll(ks: seq<int>, n: nat): (r: Option<seq<nat>>)
    ensures r.Some? <==> forall k :: 0 <= k < |ks| ==> NormalizeIndex(ks[k], n).Some?
    ensures r.Some? ==> |r.value| == |ks| && forall k :: 0 <= k < |ks| ==> Some(r.value[k]) == NormalizeIndex(ks[k], n)
  {
    if ks == [] then Some([])
    else
      var front := ks[..|ks| - 1];
      assert forall k :: 0 <= k < |front| ==> front[k] == ks[k];
      match NormalizeAll(front, n)
      case None => None
      case Some(done) =>
        match NormalizeIndex(ks[|ks| - 1], n)
        case None => None
        case Some(last) => Some(done + [last])
  }

  /** `m[:, index]` for an integer or a list of integers: the chosen
      columns, in the order given, counting negative indexes from the end. */
  function Project(m: Mat, ks: seq<int>): (r: Result<Mat>)
    ensures r.Ok? <==> forall k :: 0 <= k < |ks| ==> -(m.width as int) <= ks[k] < m.width
    ensures r.Err? ==> r.error == IndexOutOfRange
    ensures r.Ok? ==> r.value.height == m.height && r.value.width == |ks|
    ensures r.Ok? ==> forall i, k :: 0 <= i < m.height && 0 <= k < |ks| ==>
              r.value.cells[i][k] == m.cells[i][if ks[k] < 0 then ks[k] + m.width else ks[k]]
  {
    match NormalizeAll(ks, m.width)
    case None => Err(IndexOutOfRange)
    case Some(cols) => Ok(SelectColumns(m, cols))
  }

  /** The parts of `Plane + Plane`: the means added, the vectors of the
      left plane followed by those of the right one. */
  function SumParts(mean1: Mat, vectors1: Mat, mean2: Mat, vectors2: Mat): (r: Result<(Mat, Mat)>)
    ensures r.Ok? <==> Zip(mean1, mean2, Plus).Some? && vectors1.width == vectors2.width
    ensures r.Ok? ==> r.value.0 == Zip(mean1, mean2, Plus).value
    ensures r.Ok? ==> && r.value.1.height == vectors1.height + vectors2.height
                      && r.value.1.width == vectors1.width
                      && r.value.1.cells == vectors1.cells + vectors2.cells
  {
    match Zip(mean1, mean2, Plus)
    case None => Err(ShapeMismatch)
    case Some(mean) =>
      if vectors1.width != vectors2.width then Err(ShapeMismatch)
      else Ok((mean, VStack(vectors1, vectors2)))
  }

  /** A projection index: an integer or a list of integers, or a tuple,
      which the plane refuses. */
  datatype Index = Columns(ks: seq<int>) | Tuple

  /** The right operand of `+`: a plane, an offset added to the mean, or a
      value no registered overload accepts. */
  datatype Addend = APlane(plane: Plane) | Offset(offset: Mat) | Unmatched

  class Plane {
    /** The spanning vectors, one per row. */
    var vectors: Mat
    /** The mean, a single row. */
    var mean: Mat

    /** `Plane(vectors, mean)`: the mean is flattened into a single row, so
        the plane is valid exactly when the mean has one entry per column of
        the vectors. */
    constructor (vectors: Mat, mean: Mat)
      ensures this.vectors == vectors && this.mean == RowVector(Flatten(mean))
      ensures Valid() <==> Size(mean) == vectors.width
    {
      this.vectors := vectors;
      this.mean := RowVector(Flatten(mean));
    }

    /** The mean is one row and as long as each vector. */
    predicate Valid()
      reads this
    {
      mean.height == 1 && mean.width == vectors.width
    }

    /** `shape`: the number of vectors and their length; of a valid plane,
        (rank, ndim). */
    function Shape(): (s: (nat, nat))
      reads this
      ensures s.0 == vectors.height && s.1 == vectors.width
      ensures Valid() ==> s.1 == Ndim()
    {
      (vectors.height, vectors.width)
    }

    /** `rank`: the number of spanning vectors, the first extent of the
        shape. */
    function Rank(): (r: nat)
      reads this
      ensures r == Shape().0
      ensures Valid() ==> Shape() == (r, Ndim())
    {
      vectors.height
    }

    /** `ndim`: `mean.size`, the dimension of the surrounding space. */
    function Ndim(): (n: nat)
      reads this
      ensures mean.height == 1 ==> n == mean.width
      ensures n == 0 <==> mean.height == 0 || mean.width == 0
    {
      Size(mean)
    }

    /** `flat`: how many more dimensions there are than vectors, or 0. */
    function Flat(): (f: nat)
      reads this
      ensures f == 0 <==> vectors.width <= Rank()
      ensures f > 0 ==> Rank() + f == vectors.width
    {
      if vectors.width > vectors.height then vectors.width - vectors.height else 0
    }

    /** Truthiness (`__nonzero__`): a plane is true when it has dimensions. */
    function NonZero(): (b: bool)
      reads this
      ensures b <==> Ndim() > 0
      ensures Valid() ==> (b <==> vectors.width > 0)
    {
      Ndim() != 0
    }

    /** `plane[index]`: a new plane of the chosen columns of the mean and
        of the vectors. */
    method GetItem(index: Index) returns (r: Result<Plane>)
      ensures index.Tuple? ==> r == Err(TupleIndex)
      ensures index.Columns? ==>
                (r.Ok? <==> Project(mean, index.ks).Ok? && Project(vectors, index.ks).Ok?)
      ensures r.Ok? ==> && fresh(r.value)
                        && r.value.mean == RowVector(Flatten(Project(mean, index.ks).value))
                        && r.value.vectors == Project(vectors, index.ks).value
    {
      if index.Tuple? {
        return Err(TupleIndex);
      }
      var m := Project(mean, index.ks);
      if m.Err? {
        return Err(m.error);
      }
      var v := Project(vectors, index.ks);
      if v.Err? {
        return Err(v.error);
      }
      var p := new Plane(v.value, m.value);
      r := Ok(p);
    }

    /** `plane + other`: with a plane, the sum of the means over both sets
        of vectors; with an offset, a copy whose mean is shifted; otherwise
        a TypeError.  The left plane is not changed. */
    method Add(other: Addend) returns (r: Result<Plane>)
      ensures unchanged(this)
      ensures other.Unmatched? ==> r == Err(NoOverload)
      ensures other.Offset? ==> (r.Ok? <==> Zip(mean, other.offset, Plus).Some?)
      ensures other.Offset? && r.Ok? ==>
                && fresh(r.value) && r.value.vectors == vectors
                && r.value.mean == Zip(mean, other.offset, Plus).value
      ensures other.APlane? ==>
                (r.Ok? <==> SumParts(mean, vectors, other.plane.mean, other.plane.vectors).Ok?)
      ensures other.APlane? && r.Ok? ==>
                var parts := SumParts(mean, vectors, other.plane.mean, other.plane.vectors).value;
                && fresh(r.value) && r.value.vectors == parts.1
                && r.value.mean == RowVector(Flatten(parts.0))
    {
      match other
      case Unmatched =>
        r := Err(NoOverload);
      case Offset(offset) =>
        var shifted := Zip(mean, offset, Plus);
        if shifted.None? {
          return Err(ShapeMismatch);
        }
        var copy := new Plane(vectors, mean);
        copy.mean := shifted.value;
        r := Ok(copy);
      case APlane(plane) =>
        var parts := SumParts(mean, vectors, plane.mean, plane.vectors);
        if parts.Err? {
          return Err(parts.error);
        }
        var sum := new Plane(parts.value.1, parts.value.0);
        r := Ok(sum);
    }
  }

  /** Projecting a valid plane takes the same columns from its mean and
      from its vectors: the result is valid, keeps the rank, and has one
      dimension per index. */
  lemma ProjectSameColumns(mean: Mat, vectors: Mat, ks: seq<int>)
    requires mean.height == 1 && mean.width == vectors.width
    ensures Project(mean, ks).Ok? <==> Project(vectors, ks).Ok?
    ensures Project(mean, ks).Ok? ==>
              var m, v := Project(mean, ks).value, Project(vectors, ks).value;
              && m.height == 1 && m.width == v.width == |ks| && v.height == vectors.height
              && forall k :: 0 <= k < |ks| ==>
                   exists c :: 0 <= c < vectors.width
                     && m.cells[0][k] == mean.cells[0][c]
                     && forall i :: 0 <= i < vectors.height ==> v.cells[i][k] == vectors.cells[i][c]
  {
    if Project(mean, ks).Ok? {
      var m, v := Project(mean, ks).value, Project(vectors, ks).value;
      forall k | 0 <= k < |ks|
        ensures exists c :: 0 <= c < vectors.width
                  && m.cells[0][k] == mean.cells[0][c]
                  && forall i :: 0 <= i < vectors.height ==> v.cells[i][k] == vectors.cells[i][c]
      {
        var c := if ks[k] < 0 then ks[k] + mean.width else ks[k];
        assert m.cells[0][k] == mean.cells[0][c];
      }
    }
  }

  /** Adding two valid planes of the same dimension gives a valid plane of
      that dimension whose mean is the entry-wise sum and whose rank is the
      sum of the ranks. */
  lemma SumPartsOfPlanes(mean1: Mat, vectors1: Mat, mean2: Mat, vectors2: Mat)
    requires mean1.height == 1 && mean1.width == vectors1.width
    requires mean2.height == 1 && mean2.width == vectors2.width
    requires vectors1.width == vectors2.width
    ensures SumParts(mean1, vectors1, mean2, vectors2).Ok?
    ensures var parts := SumParts(mean1, vectors1, mean2, vectors2).value;
            var mean := RowVector(Flatten(parts.0));
            && mean.height == 1 && mean.width == vectors1.width == parts.1.width
            && parts.1.height == vectors1.height + vectors2.height
            && forall j :: 0 <= j < mean.width ==> mean.cells[0][j] == mean1.cells[0][j] + mean2.cells[0][j]
  {
  }
}
