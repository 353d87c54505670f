/** The numpy matrix operations the Gaussian-value code relies on, over
    exact reals: zeros, transposition, broadcasting element-wise arithmetic,
    matrix products, horizontal and vertical stacking, and `autostack`. */
module Matrices {
  import opened Outcomes

  /** A two-dimensional numpy matrix.  The shape is kept explicitly so that a
      block with no rows still has a width (and one with no columns a height). */
  datatype Matrix = Matrix(height: nat, width: nat, cells: seq<seq<real>>)
  {
    predicate WellFormed() {
      |cells| == height && forall i :: 0 <= i < height ==> |cells[i]| == width
    }
  }

  type Mat = m: Matrix | m.WellFormed() witness Matrix(0, 0, [])

  /** Two matrices with the same shape and the same entries are equal. */
  lemma SameCells(a: Mat, b: Mat)
    requires a.height == b.height && a.width == b.width
    requires forall i, j :: 0 <= i < a.height && 0 <= j < a.width ==> a.cells[i][j] == b.cells[i][j]
    ensures a == b
  {
    forall i | 0 <= i < a.height
      ensures a.cells[i] == b.cells[i]
    {
    }
  }

  /** `numpy.zeros((h, w))` */
  function Zeros(h: nat, w: nat): (z: Mat)
    ensures z.height == h && z.width == w
    ensures forall i, j :: 0 <= i < h && 0 <= j < w ==> z.cells[i][j] == 0.0
  {
    Matrix(h, w, seq(h, _ => seq(w, _ => 0.0)))
  }

  /** `numpy.matrix(1)`: the homogeneous corner of an affine block. */
  function One(): (o: Mat)
    ensures o.height == 1 && o.width == 1 && o.cells[0][0] == 1.0
  {
    Matrix(1, 1, [[1.0]])
  }

  /** A one-row matrix holding `v`. */
  function RowVector(v: seq<real>): (m: Mat)
    ensures m.height == 1 && m.width == |v| && m.cells[0] == v
  {
    Matrix(1, |v|, [v])
  }

  /** `m.T` */
  function Transpose(m: Mat): (t: Mat)
    ensures t.height == m.width && t.width == m.height
    ensures forall i, j :: 0 <= i < t.height && 0 <= j < t.width ==> t.cells[i][j] == m.cells[j][i]
  {
    Matrix(m.width, m.height,
      seq(m.width, i requires 0 <= i < m.width =>
        seq(m.height, j requires 0 <= j < m.height => m.cells[j][i])))
  }

  lemma TransposeInvolutive(m: Mat)
    ensures Transpose(Transpose(m)) == m
  {
    SameCells(Transpose(Transpose(m)), m);
  }

  // ---------------------------------------------------------------------
  // Element-wise arithmetic with numpy broadcasting

  /** Two extents can be broadcast together when they agree or one is 1. */
  predicate Broadcastable(a: nat, b: nat) {
    a == b || a == 1 || b == 1
  }

  /** The extent two broadcastable extents produce. */
  function Broadcast(a: nat, b: nat): nat {
    if a == 1 then b else a
  }

  /** The entry of `m` that broadcasting places at (i, j). */
  function Pick(m: Mat, i: nat, j: nat): real
    requires m.height == 1 || i < m.height
    requires m.width == 1 || j < m.width
  {
    m.cells[if m.height == 1 then 0 else i][if m.width == 1 then 0 else j]
  }

  /** `op` applied element-wise after broadcasting, as numpy's `+` and `-`
      do; None where numpy raises because the shapes cannot be broadcast. */
  function Zip(a: Mat, b: Mat, op: (real, real) -> real): (r: Option<Mat>)
    ensures r.Some? <==> Broadcastable(a.height, b.height) && Broadcastable(a.width, b.width)
    ensures r.Some? ==> (r.value.height == Broadcast(a.height, b.height)
                         && r.value.width == Broadcast(a.width, b.width))
    ensures r.Some? ==> forall i, j :: 0 <= i < r.value.height && 0 <= j < r.value.width ==>
              r.value.cells[i][j] == op(Pick(a, i, j), Pick(b, i, j))
    ensures a.height == b.height && a.width == b.width ==>
              r.Some? && r.value.height == a.height && r.value.width == a.width
              && forall i, j :: 0 <= i < a.height && 0 <= j < a.width ==>
                   r.value.cells[i][j] == op(a.cells[i][j], b.cells[i][j])
  {
    if Broadcastable(a.height, b.height) && Broadcastable(a.width, b.width) then
      var h, w := Broadcast(a.height, b.height), Broadcast(a.width, b.width);
      Some(Matrix(h, w,
        seq(h, i requires 0 <= i < h =>
          seq(w, j requires 0 <= j < w => op(Pick(a, i, j), Pick(b, i, j))))))
    else
      None
  }

  function Plus(x: real, y: real): real { x + y }
  function Minus(x: real, y: real): real { x - y }

  /** Every entry of `v` multiplied by `k`. */
  function ScaleSeq(v: seq<real>, k: real): (r: seq<real>)
    ensures |r| == |v| && forall i :: 0 <= i < |v| ==> r[i] == v[i] * k
  {
    seq(|v|, i requires 0 <= i < |v| => v[i] * k)
  }

  /** `m * k` for a scalar `k`. */
  function Scaled(m: Mat, k: real): (r: Mat)
    ensures r.height == m.height && r.width == m.width
    ensures forall i :: 0 <= i < m.height ==> r.cells[i] == ScaleSeq(m.cells[i], k)
  {
    Matrix(m.height, m.width, seq(m.height, i requires 0 <= i < m.height => ScaleSeq(m.cells[i], k)))
  }

  /** `(m + b) - b == m` for matrices of one shape. */
  lemma SubUndoesAdd(m: Mat, b: Mat)
    requires m.height == b.height && m.width == b.width
    ensures Zip(m, b, Plus).Some? && Zip(Zip(m, b, Plus).value, b, Minus).Some?
    ensures Zip(Zip(m, b, Plus).value, b, Minus).value == m
  {
    var sum := Zip(m, b, Plus).value;
    var back := Zip(sum, b, Minus).value;
    forall i, j | 0 <= i < m.height && 0 <= j < m.width ensures back.cells[i][j] == m.cells[i][j] {
      assert sum.cells[i][j] == m.cells[i][j] + b.cells[i][j];
    }
    SameCells(back, m);
  }

  /** `m + m == m * 2` */
  lemma SelfSumIsDouble(m: Mat)
    ensures Zip(m, m, Plus).Some? && Zip(m, m, Plus).value == Scaled(m, 2.0)
  {
    var sum, twice := Zip(m, m, Plus).value, Scaled(m, 2.0);
    forall i, j | 0 <= i < m.height && 0 <= j < m.width ensures sum.cells[i][j] == twice.cells[i][j] {
      assert twice.cells[i] == ScaleSeq(m.cells[i], 2.0);
    }
    SameCells(sum, twice);
  }

  // ---------------------------------------------------------------------
  // Matrix product

  function Dot(u: seq<real>, v: seq<real>): real
    requires |u| == |v|
  {
    if |u| == 0 then 0.0 else u[0] * v[0] + Dot(u[1..], v[1..])
  }

  /** Column `j` of `m`. */
  function Column(m: Mat, j: nat): (c: seq<real>)
    requires j < m.width
    ensures |c| == m.height && forall i :: 0 <= i < m.height ==> c[i] == m.cells[i][j]
  {
    seq(m.height, i requires 0 <= i < m.height => m.cells[i][j])
  }

  /** `a * b` for numpy matrices (defined when the inner extents agree). */
  function Product(a: Mat, b: Mat): (p: Mat)
    requires a.width == b.height
    ensures p.height == a.height && p.width == b.width
    ensures forall i, j :: 0 <= i < a.height && 0 <= j < b.width ==>
              p.cells[i][j] == Dot(a.cells[i], Column(b, j))
  {
    Matrix(a.height, b.width,
      seq(a.height, i requires 0 <= i < a.height =>
        seq(b.width, j requires 0 <= j < b.width => Dot(a.cells[i], Column(b, j)))))
  }

  /** Real multiplication behind a function symbol, so that facts about
      scaled sums are matched as terms rather than as nonlinear arithmetic. */
  function Mul(a: real, b: real): real { a * b }

  /** Scaling commutes with dropping the first entry. */
  lemma ScaleSeqTail(u: seq<real>, k: real)
    requires |u| > 0
    ensures ScaleSeq(u, k)[1..] == ScaleSeq(u[1..], k)
  {
    assert forall i :: 0 <= i < |u| - 1 ==> ScaleSeq(u, k)[1..][i] == ScaleSeq(u[1..], k)[i];
  }

  /** Scalars move out of a dot product: (u s) . (v t) = (u . v) s t. */
  lemma {:induction false} DotScaled(u: seq<real>, v: seq<real>, s: real, t: real)
    requires |u| == |v|
    ensures Dot(ScaleSeq(u, s), ScaleSeq(v, t)) == Mul(s * t, Dot(u, v))
    decreases |u|
  {
    if |u| > 0 {
      var su, sv := ScaleSeq(u, s), ScaleSeq(v, t);
      var d := Dot(u[1..], v[1..]);
      ScaleSeqTail(u, s);
      ScaleSeqTail(v, t);
      DotScaled(u[1..], v[1..], s, t);
      calc {
        Dot(su, sv);
        su[0] * sv[0] + Dot(su[1..], sv[1..]);
        (u[0] * s) * (v[0] * t) + Dot(ScaleSeq(u[1..], s), ScaleSeq(v[1..], t));
        (u[0] * s) * (v[0] * t) + Mul(s * t, d);
        { MulStep(u[0], v[0], s, t, d); }
        Mul(s * t, u[0] * v[0] + d);
        Mul(s * t, Dot(u, v));
      }
    }
  }

  /** The one nonlinear step of `DotScaled`. */
  lemma MulStep(x: real, y: real, s: real, t: real, d: real)
    ensures (x * s) * (y * t) + Mul(s * t, d) == Mul(s * t, x * y + d)
  {
    calc {
      (x * s) * (y * t) + Mul(s * t, d);
      (s * t) * (x * y) + (s * t) * d;
      (s * t) * (x * y + d);
    }
  }

  lemma TransposeScaled(m: Mat, k: real)
    ensures Transpose(Scaled(m, k)) == Scaled(Transpose(m), k)
  {
    SameCells(Transpose(Scaled(m, k)), Scaled(Transpose(m), k));
  }

  /** A column of a scaled matrix is the scaled column. */
  lemma ColumnScaled(m: Mat, k: real, j: nat)
    requires j < m.width
    ensures Column(Scaled(m, k), j) == ScaleSeq(Column(m, j), k)
  {
    assert forall i :: 0 <= i < m.height ==> Column(Scaled(m, k), j)[i] == ScaleSeq(Column(m, j), k)[i];
  }

  /** Scalars move out of a product: (a s)(b t) = (a b) s t. */
  lemma ProductScaled(a: Mat, b: Mat, s: real, t: real)
    requires a.width == b.height
    ensures Product(Scaled(a, s), Scaled(b, t)) == Scaled(Product(a, b), s * t)
  {
    var lhs, rhs := Product(Scaled(a, s), Scaled(b, t)), Scaled(Product(a, b), s * t);
    forall i, j | 0 <= i < a.height && 0 <= j < b.width
      ensures lhs.cells[i][j] == rhs.cells[i][j]
    {
      ColumnScaled(b, t, j);
      assert Scaled(a, s).cells[i] == ScaleSeq(a.cells[i], s);
      DotScaled(a.cells[i], Column(b, j), s, t);
      assert lhs.cells[i][j] == Mul(s * t, Dot(a.cells[i], Column(b, j)));
      assert rhs.cells[i][j] == Product(a, b).cells[i][j] * (s * t);
    }
    SameCells(lhs, rhs);
  }

  // ---------------------------------------------------------------------
  // Stacking

  /** `numpy.hstack([a, b])` */
  function HStack(a: Mat, b: Mat): (r: Mat)
    requires a.height == b.height
    ensures r.height == a.height && r.width == a.width + b.width
    ensures forall i, j :: 0 <= i < r.height && 0 <= j < r.width ==>
              r.cells[i][j] == if j < a.width then a.cells[i][j] else b.cells[i][j - a.width]
  {
    Matrix(a.height, a.width + b.width, seq(a.height, i requires 0 <= i < a.height => a.cells[i] + b.cells[i]))
  }

  /** `numpy.vstack([a, b])` */
  function VStack(a: Mat, b: Mat): (r: Mat)
    requires a.width == b.width
    ensures r.height == a.height + b.height && r.width == a.width
    ensures forall i, j :: 0 <= i < r.height && 0 <= j < r.width ==>
              r.cells[i][j] == if i < a.height then a.cells[i][j] else b.cells[i - a.height][j]
  {
    Matrix(a.height + b.height, a.width, a.cells + b.cells)
  }

  function SumHeights(ms: seq<Mat>): nat {
    if ms == [] then 0 else SumHeights(ms[..|ms| - 1]) + ms[|ms| - 1].height
  }

  function SumWidths(ms: seq<Mat>): nat {
    if ms == [] then 0 else SumWidths(ms[..|ms| - 1]) + ms[|ms| - 1].width
  }

  predicate SameHeights(ms: seq<Mat>) {
    forall k :: 0 <= k < |ms| ==> ms[k].height == ms[0].height
  }

  predicate SameWidths(ms: seq<Mat>) {
    forall k :: 0 <= k < |ms| ==> ms[k].width == ms[0].width
  }

  /** `numpy.hstack(ms)`: defined exactly when there is at least one block
      and all blocks have the same height. */
  function HStackAll(ms: seq<Mat>): (r: Option<Mat>)
    ensures r.Some? <==> |ms| > 0 && SameHeights(ms)
    ensures r.Some? ==> r.value.height == ms[0].height && r.value.width == SumWidths(ms)
  {
    if |ms| == 0 then None
    else if |ms| == 1 then Some(ms[0])
    else
      var front := ms[..|ms| - 1];
      assert SameHeights(ms) ==> SameHeights(front);
      match HStackAll(front)
      case None => None
      case Some(left) =>
        if left.height == ms[|ms| - 1].height then Some(HStack(left, ms[|ms| - 1])) else None
  }

  /** `numpy.vstack(ms)`: defined exactly when there is at least one block
      and all blocks have the same width. */
  function VStackAll(ms: seq<Mat>): (r: Option<Mat>)
    ensures r.Some? <==> |ms| > 0 && SameWidths(ms)
    ensures r.Some? ==> r.value.width == ms[0].width && r.value.height == SumHeights(ms)
  {
    if |ms| == 0 then None
    else if |ms| == 1 then Some(ms[0])
    else
      var front := ms[..|ms| - 1];
      assert SameWidths(ms) ==> SameWidths(front);
      match VStackAll(front)
      case None => None
      case Some(top) =>
        if top.width == ms[|ms| - 1].width then Some(VStack(top, ms[|ms| - 1])) else None
  }

  /** The horizontal stack of every row, or None if some row cannot be stacked. */
  function StackRows(rows: seq<seq<Mat>>): (r: Option<seq<Mat>>)
    ensures r.Some? <==> forall k :: 0 <= k < |rows| ==> HStackAll(rows[k]).Some?
    ensures r.Some? ==> (|r.value| == |rows|
                         && forall k :: 0 <= k < |rows| ==> HStackAll(rows[k]) == Some(r.value[k]))
  {
    if rows == [] then Some([])
    else
      var front := rows[..|rows| - 1];
      assert forall k :: 0 <= k < |front| ==> front[k] == rows[k];
      match StackRows(front)
      case None => None
      case Some(done) =>
        match HStackAll(rows[|rows| - 1])
        case None => None
        case Some(last) => Some(done + [last])
  }


  /** Every row is a non-empty list of blocks of one height, and all rows
      are equally wide. */
  predicate Stackable(rows: seq<seq<Mat>>) {
    && |rows| > 0
    && (forall k :: 0 <= k < |rows| ==> |rows[k]| > 0 && SameHeights(rows[k]))
    && (forall k :: 0 <= k < |rows| ==> SumWidths(rows[k]) == SumWidths(rows[0]))
  }

  /** The first block of each row; its height is the row's height. */
  function Heads(rows: seq<seq<Mat>>): (hs: seq<Mat>)
    requires forall k :: 0 <= k < |rows| ==> |rows[k]| > 0
    ensures |hs| == |rows| && forall k :: 0 <= k < |rows| ==> hs[k] == rows[k][0]
  {
    seq(|rows|, k requires 0 <= k < |rows| => rows[k][0])
  }

  lemma {:induction false} SumHeightsPointwise(xs: seq<Mat>, ys: seq<Mat>)
    requires |xs| == |ys| && forall k :: 0 <= k < |xs| ==> xs[k].height == ys[k].height
    ensures SumHeights(xs) == SumHeights(ys)
    decreases |xs|
  {
    if xs != [] {
      SumHeightsPointwise(xs[..|xs| - 1], ys[..|ys| - 1]);
    }
  }

  /** The horizontal stacks of the rows stack vertically exactly when the
      rows are stackable, into a matrix as wide as a row and as high as all
      row heights together. */
  lemma StackedRowsShape(rows: seq<seq<Mat>>, hs: seq<Mat>)
    requires StackRows(rows) == Some(hs)
    ensures VStackAll(hs).Some? <==> Stackable(rows)
    ensures VStackAll(hs).Some? ==>
              VStackAll(hs).value.width == SumWidths(rows[0])
              && VStackAll(hs).value.height == SumHeights(Heads(rows))
  {
    if Stackable(rows) {
      assert SameWidths(hs) by {
        forall k | 0 <= k < |hs| ensures hs[k].width == hs[0].width {
          assert HStackAll(rows[k]) == Some(hs[k]);
          assert HStackAll(rows[0]) == Some(hs[0]);
        }
      }
      SumHeightsPointwise(hs, Heads(rows));
    }
    if VStackAll(hs).Some? {
      assert |rows| > 0;
      forall k | 0 <= k < |rows|
        ensures |rows[k]| > 0 && SameHeights(rows[k]) && SumWidths(rows[k]) == SumWidths(rows[0])
      {
        assert HStackAll(rows[k]) == Some(hs[k]);
        assert HStackAll(rows[0]) == Some(hs[0]);
      }
      SumHeightsPointwise(hs, Heads(rows));
    }
  }

  /** `autostack(rows)`: vertically stack the horizontal stack of each row.
      It succeeds exactly when every row is a non-empty list of blocks of
      one height and all rows are equally wide; the result is as wide as a
      row and as high as all row heights together. */
  function Autostack(rows: seq<seq<Mat>>): (r: Option<Mat>)
    ensures r.Some? <==> Stackable(rows)
    ensures r.Some? ==> r.value.width == SumWidths(rows[0]) && r.value.height == SumHeights(Heads(rows))
  {
    match StackRows(rows)
    case None =>
      assert !Stackable(rows) by {
        var k :| 0 <= k < |rows| && HStackAll(rows[k]).None?;
      }
      None
    case Some(hs) =>
      StackedRowsShape(rows, hs);
      VStackAll(hs)
  }

  /** A two-by-two block layout stacks into the expected block matrix. */
  lemma Autostack2x2(a: Mat, b: Mat, c: Mat, d: Mat)
    requires a.height == b.height && c.height == d.height
    requires a.width + b.width == c.width + d.width
    ensures Autostack([[a, b], [c, d]]) == Some(VStack(HStack(a, b), HStack(c, d)))
  {
    var rows := [[a, b], [c, d]];
    assert [a, b][..1] == [a];
    assert [c, d][..1] == [c];
    assert HStackAll([a, b]) == Some(HStack(a, b));
    assert HStackAll([c, d]) == Some(HStack(c, d));
    var first := rows[..1];
    var none: seq<seq<Mat>> := [];
    assert first == [[a, b]];
    assert first[..0] == none;
    assert StackRows(none) == Some([]);
    assert first[|first| - 1] == [a, b];
    assert [] + [HStack(a, b)] == [HStack(a, b)];
    assert StackRows(first) == Some([HStack(a, b)]);
    assert rows[..|rows| - 1] == first;
    assert rows[|rows| - 1] == [c, d];
    assert [HStack(a, b)] + [HStack(c, d)] == [HStack(a, b), HStack(c, d)];
    assert StackRows(rows) == Some([HStack(a, b), HStack(c, d)]);
    var hs := [HStack(a, b), HStack(c, d)];
    assert hs[..1] == [HStack(a, b)];
    assert VStackAll([HStack(a, b)]) == Some(HStack(a, b));
    assert VStackAll(hs) == Some(VStack(HStack(a, b), HStack(c, d)));
  }

  // ---------------------------------------------------------------------
  // Vectors and diagonals

  /** The rows of `rows` laid end to end. */
  function Concat(rows: seq<seq<real>>): seq<real> {
    if rows == [] then [] else Concat(rows[..|rows| - 1]) + rows[|rows| - 1]
  }

  /** The single rows of one-row matrices. */
  function FirstRows(ms: seq<Mat>): (rows: seq<seq<real>>)
    requires forall k :: 0 <= k < |ms| ==> ms[k].height == 1
    ensures |rows| == |ms| && forall k :: 0 <= k < |ms| ==> rows[k] == ms[k].cells[0]
  {
    seq(|ms|, k requires 0 <= k < |ms| => ms[k].cells[0])
  }

  /** Horizontally stacking row vectors concatenates them. */
  lemma {:induction false} HStackAllRows(ms: seq<Mat>)
    requires |ms| > 0 && forall k :: 0 <= k < |ms| ==> ms[k].height == 1
    ensures HStackAll(ms).Some?
    ensures HStackAll(ms).value.cells[0] == Concat(FirstRows(ms))
    decreases |ms|
  {
    var front := ms[..|ms| - 1];
    if |ms| == 1 {
      assert FirstRows(ms)[..0] == [];
    } else {
      HStackAllRows(front);
      assert FirstRows(ms)[..|ms| - 1] == FirstRows(front);
      var left := HStackAll(front).value;
      var r := HStack(left, ms[|ms| - 1]);
      assert r.cells[0] == left.cells[0] + ms[|ms| - 1].cells[0];
    }
  }

  /** `numpy.array(m).flatten()`: the entries in row-major order. */
  function Flatten(m: Mat): (v: seq<real>)
    ensures m.height == 1 ==> v == m.cells[0]
    ensures m.width == 1 ==> v == Column(m, 0)
    ensures |v| == Size(m)
  {
    FlattenRows(m.cells, m.width)
  }

  function FlattenRows(rows: seq<seq<real>>, w: nat): (v: seq<real>)
    requires forall i :: 0 <= i < |rows| ==> |rows[i]| == w
    ensures |rows| == 1 ==> v == rows[0]
    ensures w == 1 ==> |v| == |rows| && forall i :: 0 <= i < |rows| ==> v[i] == rows[i][0]
    ensures |v| == |rows| * w
  {
    if rows == [] then []
    else
      var n := |rows| - 1;
      var front := FlattenRows(rows[..n], w);
      assert |front| + w == |rows| * w by {
        assert |front| == n * w;
        assert (n + 1) * w == n * w + w;
      }
      assert n == 0 ==> front == [];
      assert w == 1 ==> forall i :: 0 <= i < |rows| ==> (front + rows[n])[i] == rows[i][0] by {
        if w == 1 {
          assert |front| == n;
          forall i | 0 <= i < |rows| ensures (front + rows[n])[i] == rows[i][0] {
            if i < n { assert rows[..n][i] == rows[i]; }
          }
        }
      }
      front + rows[n]
  }

  /** `numpy.diagflat(v)`: the square matrix with `v` on its diagonal. */
  function Diagonal(v: seq<real>): (d: Mat)
    ensures d.height == |v| && d.width == |v|
    ensures forall i, j :: 0 <= i < |v| && 0 <= j < |v| ==> d.cells[i][j] == if i == j then v[i] else 0.0
  {
    Matrix(|v|, |v|,
      seq(|v|, i requires 0 <= i < |v| => seq(|v|, j requires 0 <= j < |v| => if i == j then v[i] else 0.0)))
  }

  lemma {:induction false} DotZero(u: seq<real>, e: seq<real>)
    requires |u| == |e| && forall k :: 0 <= k < |e| ==> e[k] == 0.0
    ensures Dot(u, e) == 0.0 && Dot(e, u) == 0.0
    decreases |u|
  {
    if |u| > 0 {
      DotZero(u[1..], e[1..]);
    }
  }

  /** A dot product with a vector that is zero except at position j picks
      out entry j of the other vector, times the non-zero entry. */
  lemma {:induction false} DotPicks(u: seq<real>, e: seq<real>, j: nat, x: real)
    requires |u| == |e| && j < |u|
    requires forall k :: 0 <= k < |e| ==> e[k] == if k == j then x else 0.0
    ensures Dot(u, e) == u[j] * x && Dot(e, u) == x * u[j]
    decreases |u|
  {
    if j == 0 {
      DotZero(u[1..], e[1..]);
    } else {
      DotPicks(u[1..], e[1..], j - 1, x);
    }
  }

  /** Multiplying by `diagflat(v)` on the right scales column j by `v[j]`. */
  lemma ProductDiagonalRight(m: Mat, v: seq<real>)
    requires m.width == |v|
    ensures forall i, j :: 0 <= i < m.height && 0 <= j < |v| ==>
              Product(m, Diagonal(v)).cells[i][j] == m.cells[i][j] * v[j]
  {
    forall i, j | 0 <= i < m.height && 0 <= j < |v|
      ensures Product(m, Diagonal(v)).cells[i][j] == m.cells[i][j] * v[j]
    {
      DotPicks(m.cells[i], Column(Diagonal(v), j), j, v[j]);
    }
  }

  /** Multiplying by `diagflat(v)` on the left scales row i by `v[i]`. */
  lemma ProductDiagonalLeft(v: seq<real>, m: Mat)
    requires m.height == |v|
    ensures forall i, j :: 0 <= i < |v| && 0 <= j < m.width ==>
              Product(Diagonal(v), m).cells[i][j] == v[i] * m.cells[i][j]
  {
    forall i, j | 0 <= i < |v| && 0 <= j < m.width
      ensures Product(Diagonal(v), m).cells[i][j] == v[i] * m.cells[i][j]
    {
      DotPicks(Column(m, j), Diagonal(v).cells[i], i, v[i]);
    }
  }

  /** `m.size` */
  function Size(m: Mat): nat {
    m.height * m.width
  }

  /** Python's `index < 0` counts from the end. */
  function NormalizeIndex(index: int, n: nat): (k: Option<nat>)
    ensures k.Some? <==> -(n as int) <= index < n
    ensures k.Some? ==> k.value < n && (k.value == index || k.value == index + n)
  {
    if 0 <= index < n then Some(index)
    else if -(n as int) <= index < 0 then Some(index + n)
    else None
  }

  /** `m[:, cols]` for already normalised column indexes. */
  function SelectColumns(m: Mat, cols: seq<nat>): (r: Mat)
    requires forall k :: 0 <= k < |cols| ==> cols[k] < m.width
    ensures r.height == m.height && r.width == |cols|
    ensures forall i, k :: 0 <= i < m.height && 0 <= k < |cols| ==> r.cells[i][k] == m.cells[i][cols[k]]
  {
    Matrix(m.height, |cols|,
      seq(m.height, i requires 0 <= i < m.height =>
        seq(|cols|, k requires 0 <= k < |cols| => m.cells[i][cols[k]])))
  }
}
