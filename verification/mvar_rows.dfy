/** The row-convention Gaussian value of `mvar.py`.

    An Mvar is one affine matrix

        [[ std,  zeros ],
         [ mean, 1     ]]

    whose std has the scaled axes as rows (cov == std.T * std, std ==
    scale * rotate).  The zero column is sized from its neighbours: as high
    as the std and one column wide.  Also here: the operand-kind table
    behind `multiply`, and the fold behind `paralell`. */
module MvarRows {
  import opened Outcomes
  import opened Matrices
  import opened Blocks
  import opened Affine

  // ---------------------------------------------------------------------
  // Creation

  /** `autostack([[std, numpy.zeros], [mean, 1]])`, with the zero block as
      high as the std and as wide as the 1 below it.  The std may have any
      number of rows; it must be as wide as the mean. */
  function Pack(mean: Mat, std: Mat): (r: Result<Mat>)
    ensures r.Ok? <==> mean.height == 1 && std.width == mean.width
    ensures r.Err? ==> r.error == ShapeMismatch
    ensures r.Ok? ==> && r.value.height == std.height + 1 && r.value.width == mean.width + 1
                      && MeanOf(r.value) == mean && StdOf(r.value) == std
  {
    var zero := Zeros(std.height, 1);
    if mean.height == 1 && std.width == mean.width then
      LayoutRoundTrip(std, mean, mean.width);
      OrFail(Layout(std, zero, mean), ShapeMismatch)
    else
      OrFail(Layout(std, zero, mean), ShapeMismatch)
  }

  /** `from_mean_std` as written.  The std is converted only when a mean is
      given (the test on line 156 looks at `mean`), so:
      - a std alone is dropped, and the missing std is then made with
        `zeros`, a name the module does not define;
      - a mean alone keeps `numpy.matrix(None)`, a 1 x 1 std holding None,
        which either does not fit the mean or leaves a non-number in the
        affine matrix.
      The layout step is `Pack`, with the zero block `autostack` was meant to
      build standing in for its broken callable branch (that branch raises
      NameError on `none`, so as written no call gets through at all); on
      that layout, only a call with both arguments gets through. */
  function FromMeanStdAsWritten(mean: Option<Mat>, std: Option<Mat>): (r: Result<Mat>)
    ensures r.Ok? <==> mean.Some? && std.Some? && Pack(mean.value, std.value).Ok?
    ensures mean.Some? && std.Some? ==> r == Pack(mean.value, std.value)
    ensures mean.None? && std.Some? ==> r == Err(UndefinedName("zeros"))
    ensures mean.Some? && std.None? ==>
              r == Err(if mean.value.height == 1 && mean.value.width == 1 then NonNumeric else ShapeMismatch)
  {
    if mean.None? && std.None? then Err(MissingSize)
    else if mean.None? then Err(UndefinedName("zeros"))
    else if std.None? then
      // the 1 x 1 placeholder fits only a 1 x 1 mean
      if mean.value.height == 1 && mean.value.width == 1 then Err(NonNumeric) else Err(ShapeMismatch)
    else Pack(mean.value, std.value)
  }

  /** `from_mean_std` as documented: a missing argument is filled with
      zeros sized from the other one. */
  function FromMeanStd(mean: Option<Mat>, std: Option<Mat>): (r: Result<Mat>)
    ensures r.Ok? ==> r.value.height >= 1
    ensures mean.None? && std.None? ==> r == Err(MissingSize)
    ensures mean.Some? && std.Some? ==> r == Pack(mean.value, std.value)
    ensures mean.Some? && std.None? && mean.value.height == 1 ==>
              && r.Ok? && MeanOf(r.value) == mean.value
              && StdOf(r.value) == Zeros(mean.value.width, mean.value.width)
    ensures mean.None? && std.Some? ==> (r.Ok? <==> std.value.height == std.value.width)
    ensures mean.None? && std.Some? && r.Ok? ==>
              MeanOf(r.value) == Zeros(1, std.value.height) && StdOf(r.value) == std.value
  {
    if mean.None? && std.None? then Err(MissingSize)
    else if mean.None? then Pack(Zeros(1, std.value.height), std.value)
    else if std.Some? then Pack(mean.value, std.value)
    else
      var n := Size(mean.value);
      assert mean.value.height == 1 ==> n == mean.value.width;
      Pack(mean.value, Zeros(n, n))
  }

  /** A std given alone: as written the call fails, as documented it packs
      a zero mean with that std. */
  lemma StdAloneFromMeanStd(std: Mat)
    requires std.height == std.width
    ensures FromMeanStdAsWritten(None, Some(std)) == Err(UndefinedName("zeros"))
    ensures FromMeanStd(None, Some(std)).Ok?
    ensures MeanOf(FromMeanStd(None, Some(std)).value) == Zeros(1, std.height)
    ensures StdOf(FromMeanStd(None, Some(std)).value) == std
  {
  }

  /** A one-row mean given alone: as written the call fails, as documented
      it packs that mean with a zero std. */
  lemma MeanAloneFromMeanStd(mean: Mat)
    requires mean.height == 1
    ensures FromMeanStdAsWritten(Some(mean), None).Err?
    ensures FromMeanStd(Some(mean), None).Ok?
    ensures MeanOf(FromMeanStd(Some(mean), None).value) == mean
    ensures StdOf(FromMeanStd(Some(mean), None).value) == Zeros(mean.width, mean.width)
  {
  }

  /** `from_roto_scale`: std is the (square) scale times the rotation, and
      a missing mean is a zero row as wide as the scale. */
  function FromRotoScale(rotation: Mat, scale: Mat, mean: Option<Mat>,
                         cosSin: real -> (real, real)): (r: Result<Mat>)
    ensures r.Ok? ==> r.value.height >= 1
    ensures var s := SquareScale(scale);
            var t := Turn(rotation, s, cosSin);
            var m := if mean.Some? then mean.value else Zeros(1, s.height);
            && (r.Ok? <==> s.width == t.height && m.height == 1 && t.width == m.width)
            && (r.Ok? ==> MeanOf(r.value) == m && StdOf(r.value) == Product(s, t))
  {
    var s := SquareScale(scale);
    var t := Turn(rotation, s, cosSin);
    var m := if mean.Some? then mean.value else Zeros(1, s.height);
    if s.width != t.height then Err(ShapeMismatch) else Pack(m, Product(s, t))
  }

  /** A scale vector v turns into diagflat(v): every row i of the rotation
      is scaled by v[i]. */
  lemma ScaleVectorScalesRows(rotation: Mat, v: seq<real>, mean: Option<Mat>, cosSin: real -> (real, real))
    requires |v| != 1 && rotation.height == |v| && rotation.width == |v|
    requires mean.Some? ==> mean.value.height == 1 && mean.value.width == |v|
    ensures FromRotoScale(rotation, RowVector(v), mean, cosSin).Ok?
    ensures var a := FromRotoScale(rotation, RowVector(v), mean, cosSin).value;
            && a.height == |v| + 1 && a.width == |v| + 1
            && forall i, j :: 0 <= i < |v| && 0 <= j < |v| ==> StdOf(a).cells[i][j] == v[i] * rotation.cells[i][j]
  {
    var s := SquareScale(RowVector(v));
    assert s == Diagonal(v) by { SameCells(s, Diagonal(v)); }
    ProductDiagonalLeft(v, rotation);
  }

  // ---------------------------------------------------------------------
  // Stacking

  /** `Mvar.stack(*mvars)`: the means stacked side by side, the stds
      block-diagonally. */
  function Stack(mvars: seq<Mat>): (r: Result<Mat>)
    requires forall k :: 0 <= k < |mvars| ==> mvars[k].height >= 1
    ensures |mvars| == 0 ==> r == Err(EmptyInput)
  {
    if |mvars| == 0 then Err(EmptyInput)
    else
      match HStackAll(Means(mvars))
      case None => Err(ShapeMismatch)
      case Some(mean) => FromMeanStd(Some(mean), Some(BlockDiag(Stds(mvars))))
  }

  /** Every mean is exactly as wide as its std, so the concatenated means
      are as wide as the block-diagonal of the stds. */
  lemma {:induction false} StackedWidths(mvars: seq<Mat>)
    requires forall k :: 0 <= k < |mvars| ==> mvars[k].height >= 1
    ensures SumWidths(Stds(mvars)) == SumWidths(Means(mvars))
    decreases |mvars|
  {
    if |mvars| > 0 {
      var front := mvars[..|mvars| - 1];
      assert Stds(mvars)[..|mvars| - 1] == Stds(front);
      assert Means(mvars)[..|mvars| - 1] == Means(front);
      StackedWidths(front);
    }
  }

  /** Stacking gives an Mvar whose mean is the concatenation of the means,
      whose std is the block-diagonal of the stds, and whose dimension is
      the sum of the dimensions. */
  lemma StackParts(mvars: seq<Mat>)
    requires |mvars| > 0 && forall k :: 0 <= k < |mvars| ==> mvars[k].height >= 1
    ensures Stack(mvars).Ok?
    ensures var a := Stack(mvars).value;
            && MeanOf(a).cells[0] == Concat(FirstRows(Means(mvars)))
            && MeanOf(a).width == SumWidths(Means(mvars))
            && StdOf(a) == BlockDiag(Stds(mvars))
  {
    HStackAllRows(Means(mvars));
    StackedWidths(mvars);
  }

  // ---------------------------------------------------------------------
  // Multiplication dispatch

  /** What `rconvert` makes of an operand: an Mvar, an array with at least
      one dimension (a matrix), or a zero-dimensional array (a scalar). */
  datatype Kind = MvarKind | MatrixKind | ScalarKind

  datatype Rule = ScalarMul | RMul | LMul

  /** The `multipliers` table, keyed by the kinds of the left and the right
      operand. */
  function Multipliers(): (table: map<(Kind, Kind), Rule>)
    ensures forall left, right :: (left, right) in table <==> left == MvarKind || right == MvarKind
  {
    var table := map[(MvarKind, MvarKind) := RMul,
                     (MatrixKind, MvarKind) := RMul,
                     (MvarKind, MatrixKind) := LMul,
                     (MvarKind, ScalarKind) := ScalarMul,
                     (ScalarKind, MvarKind) := ScalarMul];
    assert forall left, right | left == MvarKind || right == MvarKind :: (left, right) in table by {
      forall left, right | left == MvarKind || right == MvarKind ensures (left, right) in table {
        assert left == MvarKind || left == MatrixKind || left == ScalarKind;
        assert right == MvarKind || right == MatrixKind || right == ScalarKind;
      }
    }
    table
  }

  /** The rule `multiply` picks; a pair missing from the table is a lookup
      error. */
  function Dispatch(left: Kind, right: Kind): (r: Result<Rule>)
    ensures r.Ok? <==> left == MvarKind || right == MvarKind
    ensures r == Ok(RMul) <==> right == MvarKind && left != ScalarKind
    ensures r == Ok(LMul) <==> left == MvarKind && right == MatrixKind
    ensures r == Ok(ScalarMul) <==> (left == MvarKind && right == ScalarKind) || (left == ScalarKind && right == MvarKind)
  {
    if (left, right) in Multipliers() then Ok(Multipliers()[(left, right)]) else Err(NoOverload)
  }

  /** The kind each rule returns: scalarmul and lmul build an Mvar; rmul
      multiplies the left operand by matrices, which keeps its kind. */
  function Yields(rule: Rule, left: Kind): Kind {
    match rule
    case ScalarMul => MvarKind
    case LMul => MvarKind
    case RMul => left
  }

  /** The kind of `left * right`: an Mvar wins over a constant, and between
      an Mvar and a matrix the left operand wins, so only matrix * Mvar is
      a plain matrix. */
  function ProductKind(left: Kind, right: Kind): (r: Result<Kind>)
    ensures r.Ok? <==> left == MvarKind || right == MvarKind
    ensures r == Ok(MatrixKind) <==> left == MatrixKind && right == MvarKind
    ensures r.Ok? && r.value != MatrixKind ==> r.value == MvarKind
  {
    match Dispatch(left, right)
    case Err(e) => Err(e)
    case Ok(rule) => Ok(Yields(rule, left))
  }

  // ---------------------------------------------------------------------
  // Fusion

  /** `sum(xs, start)`: `+` folded from the left, starting at `start`. */
  function Sum<T>(start: T, xs: seq<T>, plus: (T, T) -> T): (r: T)
    ensures xs == [] ==> r == start
    ensures |xs| == 1 ==> r == plus(start, xs[0])
    ensures |xs| == 2 ==> r == plus(plus(start, xs[0]), xs[1])
    decreases |xs|
  {
    if xs == [] then start else Sum(plus(start, xs[0]), xs[1..], plus)
  }

  /** The sum of a non-empty list seeded with its first item. */
  function Total<T>(xs: seq<T>, plus: (T, T) -> T): T
    requires |xs| > 0
  {
    Sum(xs[0], xs[1..], plus)
  }

  function Inverted<T>(items: seq<T>, inv: T -> T): (r: seq<T>)
    ensures |r| == |items| && forall k :: 0 <= k < |items| ==> r[k] == inv(items[k])
  {
    seq(|items|, k requires 0 <= k < |items| => inv(items[k]))
  }

  /** `paralell(*items)`: invert every item, add the inverses up from the
      first, invert the sum. */
  function Paralell<T>(items: seq<T>, inv: T -> T, plus: (T, T) -> T): (r: Result<T>)
    ensures r.Err? <==> |items| == 0
    ensures |items| > 0 ==> r == Ok(inv(Total(Inverted(items, inv), plus)))
    ensures |items| == 1 ==> r == Ok(inv(inv(items[0])))
    ensures |items| == 2 ==> r == Ok(inv(plus(inv(items[0]), inv(items[1]))))
  {
    if |items| == 0 then Err(EmptyInput)
    else
      var inverted := Inverted(items, inv);
      Ok(inv(Sum(inverted[0], inverted[1..], plus)))
  }

  /** The fold adds the items left to right: one more item is one more
      addition on the outside. */
  lemma {:induction false} SumAppend<T>(start: T, xs: seq<T>, y: T, plus: (T, T) -> T)
    ensures Sum(start, xs + [y], plus) == plus(Sum(start, xs, plus), y)
    decreases |xs|
  {
    if xs == [] {
      assert ([] + [y])[1..] == [];
    } else {
      assert (xs + [y])[1..] == xs[1..] + [y];
      SumAppend(plus(start, xs[0]), xs[1..], y, plus);
    }
  }

  ghost predicate Associative<T(!new)>(plus: (T, T) -> T) {
    forall a, b, c :: plus(plus(a, b), c) == plus(a, plus(b, c))
  }

  ghost predicate Commutative<T(!new)>(plus: (T, T) -> T) {
    forall a, b :: plus(a, b) == plus(b, a)
  }

  /** `xs` without its item at index i. */
  function Without<T>(xs: seq<T>, i: nat): (r: seq<T>)
    requires i < |xs|
    ensures |r| == |xs| - 1
    ensures multiset(xs) == multiset(r) + multiset{xs[i]}
  {
    assert xs == xs[..i] + [xs[i]] + xs[i + 1..];
    xs[..i] + xs[i + 1..]
  }

  /** Taking the first item from one list and an equal item from a
      permutation of it leaves two permutations of each other. */
  lemma RestPermutation<T>(xs: seq<T>, ys: seq<T>, i: nat)
    requires |xs| > 0 && i < |ys| && ys[i] == xs[0] && multiset(xs) == multiset(ys)
    ensures multiset(xs[1..]) == multiset(Without(ys, i))
  {
    assert xs == [xs[0]] + xs[1..];
    assert multiset(xs[1..]) == multiset(xs) - multiset{xs[0]};
    assert multiset(Without(ys, i)) == multiset(ys) - multiset{ys[i]};
  }

  /** With an associative and commutative `+`, any item can be added first. */
  lemma {:induction false} SumPullOut<T(!new)>(start: T, xs: seq<T>, i: nat, plus: (T, T) -> T)
    requires i < |xs| && Associative(plus) && Commutative(plus)
    ensures Sum(start, xs, plus) == Sum(plus(start, xs[i]), Without(xs, i), plus)
    decreases i
  {
    if i > 0 {
      var head := plus(start, xs[0]);
      SumPullOut(head, xs[1..], i - 1, plus);
      assert Without(xs, i)[0] == xs[0];
      assert Without(xs, i)[1..] == Without(xs[1..], i - 1);
      assert plus(head, xs[i]) == plus(plus(start, xs[i]), xs[0]) by {
        assert plus(xs[0], xs[i]) == plus(xs[i], xs[0]);
      }
    } else {
      assert Without(xs, 0) == xs[1..];
    }
  }

  /** With an associative and commutative `+`, the sum of a list does not
      depend on the order of its items. */
  lemma {:induction false} SumPermutation<T(!new)>(start: T, xs: seq<T>, ys: seq<T>, plus: (T, T) -> T)
    requires multiset(xs) == multiset(ys) && Associative(plus) && Commutative(plus)
    ensures Sum(start, xs, plus) == Sum(start, ys, plus)
    decreases |xs|
  {
    if xs == [] {
      assert |ys| == |multiset(ys)| == 0;
    } else {
      assert xs[0] in multiset(ys) by { assert xs == [xs[0]] + xs[1..]; }
      var i :| 0 <= i < |ys| && ys[i] == xs[0];
      SumPullOut(start, ys, i, plus);
      RestPermutation(xs, ys, i);
      SumPermutation(plus(start, xs[0]), xs[1..], Without(ys, i), plus);
    }
  }

  /** The total equals the total with any one item taken as the seed. */
  lemma TotalPullOut<T(!new)>(xs: seq<T>, i: nat, plus: (T, T) -> T)
    requires i < |xs| && Associative(plus) && Commutative(plus)
    ensures Total(xs, plus) == Sum(xs[i], Without(xs, i), plus)
  {
    if i > 0 {
      SumPullOut(xs[0], xs[1..], i - 1, plus);
      assert Without(xs, i)[0] == xs[0];
      assert Without(xs, i)[1..] == Without(xs[1..], i - 1);
      assert plus(xs[0], xs[i]) == plus(xs[i], xs[0]);
    } else {
      assert Without(xs, 0) == xs[1..];
    }
  }

  /** With an associative and commutative `+`, the total of a non-empty
      list does not depend on the order of its items. */
  lemma TotalPermutation<T(!new)>(xs: seq<T>, ys: seq<T>, plus: (T, T) -> T)
    requires |xs| > 0 && multiset(xs) == multiset(ys) && Associative(plus) && Commutative(plus)
    ensures |ys| > 0 && Total(ys, plus) == Total(xs, plus)
  {
    assert xs == [xs[0]] + xs[1..];
    assert xs[0] in multiset(ys);
    var i :| 0 <= i < |ys| && ys[i] == xs[0];
    TotalPullOut(ys, i, plus);
    RestPermutation(xs, ys, i);
    SumPermutation(xs[0], xs[1..], Without(ys, i), plus);
  }

  lemma InvertedTail<T>(xs: seq<T>, inv: T -> T)
    requires |xs| > 0
    ensures Inverted(xs, inv) == [inv(xs[0])] + Inverted(xs[1..], inv)
  {
    var l, r := Inverted(xs, inv), [inv(xs[0])] + Inverted(xs[1..], inv);
    assert forall k :: 0 <= k < |l| ==> l[k] == r[k];
  }

  lemma InvertedWithout<T>(xs: seq<T>, i: nat, inv: T -> T)
    requires i < |xs|
    ensures Inverted(Without(xs, i), inv) == Without(Inverted(xs, inv), i)
  {
    var l, r := Inverted(Without(xs, i), inv), Without(Inverted(xs, inv), i);
    assert Without(xs, i) == xs[..i] + xs[i + 1..];
    assert r == Inverted(xs, inv)[..i] + Inverted(xs, inv)[i + 1..];
    assert forall k :: 0 <= k < |l| ==> l[k] == r[k];
  }

  /** Inverting every item of two permutations of each other gives two
      permutations of each other. */
  lemma {:induction false} InvertedPermutation<T>(xs: seq<T>, ys: seq<T>, inv: T -> T)
    requires multiset(xs) == multiset(ys)
    ensures multiset(Inverted(xs, inv)) == multiset(Inverted(ys, inv))
    decreases |xs|
  {
    if xs == [] {
      assert |ys| == |multiset(ys)| == 0;
      assert Inverted(ys, inv) == [];
    } else {
      assert xs == [xs[0]] + xs[1..];
      assert xs[0] in multiset(ys);
      var i :| 0 <= i < |ys| && ys[i] == xs[0];
      RestPermutation(xs, ys, i);
      InvertedPermutation(xs[1..], Without(ys, i), inv);
      var ix, iy := Inverted(xs, inv), Inverted(ys, inv);
      InvertedTail(xs, inv);
      InvertedWithout(ys, i, inv);
      calc {
        multiset(ix);
        multiset(Inverted(xs[1..], inv)) + multiset{inv(xs[0])};
        multiset(Without(iy, i)) + multiset{iy[i]};
        multiset(iy);
      }
    }
  }

  /** Fusion is symmetric: fusing any reordering of the items gives the
      same result. */
  lemma ParalellPermutation<T(!new)>(items: seq<T>, others: seq<T>, inv: T -> T, plus: (T, T) -> T)
    requires multiset(items) == multiset(others) && Associative(plus) && Commutative(plus)
    ensures Paralell(others, inv, plus) == Paralell(items, inv, plus)
  {
    assert |others| == |multiset(others)| == |multiset(items)| == |items|;
    if |items| > 0 {
      InvertedPermutation(items, others, inv);
      TotalPermutation(Inverted(items, inv), Inverted(others, inv), plus);
    }
  }

  /** `paralell(B, C, A) == paralell(A, B, C)`: the rotated argument list
      gives the same result. */
  lemma ParalellRotate<T(!new)>(a: T, b: T, c: T, inv: T -> T, plus: (T, T) -> T)
    requires Associative(plus) && Commutative(plus)
    ensures Paralell([b, c, a], inv, plus) == Paralell([a, b, c], inv, plus)
  {
    ParalellPermutation([a, b, c], [b, c, a], inv, plus);
  }
}
