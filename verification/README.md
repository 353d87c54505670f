# Index and shape bookkeeping of the `mvn` Gaussian values

`mvn` represents a multivariate normal distribution (an "Mvar") by a single
affine matrix

    [[ std,  0 ],
     [ mean, 1 ]]

and reads every other property back from it. This project models the exact
part of that design over exact reals. The numerical parts are parameters of
the model; see "## Left out". The modules are:

- `Matrices` (`matrices.dfy`): the numpy operations the code relies on.
  - zeros, transpose and `diagflat`;
  - broadcasting element-wise `+`/`-` and matrix product;
  - `hstack`/`vstack`, and `autostack` as `mvar_columns.py` defines it (the
    vertical stack of each row's horizontal stack);
  - column selection with negative indexes.
- `Blocks` (`blocks.dfy`): `diagstack`, the same procedure in both Mvar
  files.
  - `BlockDiag` is its specification.
  - `DiagStack` is the procedure. It computes the prefix-sum corners,
    allocates a zero `array2` of the total size and copies every block into
    its slot in a loop. It is proved equal to `BlockDiag`.
  - Lemmas give the shape, the placement of every block, and zeros
    everywhere else.
- `Affine` (`affine.dfy`): the layout `[[std, 0], [mean, 1]]`.
  - The accessors `get_mean` (last row without its last entry) and `get_std`
    (everything but the last row and column).
  - The pack/unpack round trip.
  - The scale and rotation handling `from_roto_scale` does in both files.
- `MvarColumns` (`mvar_columns.dfy`): `mvar_columns/mvar_columns.py`.
  - The factories, `stack`, `cov`, `+`, `-` and the scalar and matrix
    branches of `*`.
  - The class `Mvar`, whose only field `affine` is reassigned by
    `+=`, `-=` and `*=`.
- `MvarRows` (`mvar_rows.dfy`): `mvar.py`.
  - Its factories. Here the std is `scale * rotate`, the scaled axes as
    rows, and the zero column is sized automatically.
  - `stack`.
  - The operand-kind table behind `multiply`.
  - The fold behind `paralell`.
- `Planes` (`plane.dfy`): the class `Plane` of `mvn/plane.py`.
  - `shape`, `rank`, `ndim`, `flat` and truthiness.
  - Projection by `[]`.
  - The two `+` overloads and the TypeError fallback.

The model has three parameters:

- `root`: the factorisation of a covariance into a std. In the source this
  is `numpy.linalg.eigh`, square roots, and `rotation * scale` through
  `from_roto_scale`. The model assumes only that it maps an n×n matrix to an
  n×n matrix (the subset type `Factorisation`).
- `rootK`: the square root of a scalar factor.
- `cosSin`: the cosine and sine of a rotation angle.

Errors the Python code raises are `Err` values of `Outcomes.Error`. Each one
names the failing case: a shape mismatch, a missing size, an undefined name,
a tuple index, an index out of range, a missing overload, and so on.

## Model

| member | source | states |
|---|---|---|
| `Matrices.Autostack` | mvar_columns/mvar_columns.py:472-485 | `autostack` succeeds exactly when every row's blocks are equally high and all rows are equally wide. The result is as wide as the first row's blocks together and as high as the sum of the row heights. |
| `Matrices.Autostack2x2` | mvar_columns/mvar_columns.py:477-485 | A 2×2 arrangement is the vertical stack of the two horizontal stacks. |
| `Matrices.TransposeInvolutive` | mvar_columns/mvar_columns.py:255-268 | Transposing twice gives back the original matrix. So `A.T.T` holds A's affine. |
| `Matrices.HStackAllRows` | mvar_columns/mvar_columns.py:189-191 | Horizontally stacking row vectors (the means in `stack`) gives their concatenation. |
| `Blocks.Corners` | mvar.py:792-800 | The cumulative sum of the shapes, preceded by (0, 0): corner k is the total height and width of the first k blocks, and the last corner is the size of the whole result. |
| `Blocks.BlockDiag` | mvar_columns/mvar_columns.py:457-465 | The block-diagonal matrix is (sum of heights) × (sum of widths). |
| `Blocks.BlockDiagPlacement` | mvar.py:796-807 | Block k sits unchanged at row offset = sum of the earlier heights and column offset = sum of the earlier widths. |
| `Blocks.BlockDiagZeroOutside` | mvar.py:802-807 | Every entry outside all block slots is zero. |
| `Blocks.PlaceBlock` | mvar_columns/mvar_columns.py:467-468 | One loop step: after copying block k into its corner, the result holds blocks 0..k and zeros elsewhere. |
| `Blocks.CopyBlock` | mvar_columns/mvar_columns.py:467-468 | The slice assignment writes the block into its slot and leaves every other entry as it was. |
| `Blocks.DiagStack` | mvar_columns/mvar_columns.py:440-470 | The loop fills a result of size (sum of heights) × (sum of widths) that equals `BlockDiag` entry for entry. The same loop is mvar.py:771-810. |
| `Affine.MeanOf` | mvar.py:336-342 | `get_mean` is one row: the last row without its last entry. The same slice is at mvar_columns.py:233-237. |
| `Affine.StdOf` | mvar_columns/mvar_columns.py:239-245 | `get_std` is the top-left block without the last row and column. The same slice is at mvar.py:344-351. |
| `Affine.Layout` | mvar_columns/mvar_columns.py:93-96 | `[[std, zero], [mean, 1]]` stacks exactly when std and zero are equally high, the mean is one row, and both rows are equally wide. The result is one row higher than the std and one column wider than the mean. The same layout is at mvar.py:162-165. |
| `Affine.Means` | mvar_columns/mvar_columns.py:191 | `[mvar.mean for mvar in mvars]`: one mean per Mvar, in order. The same list is at mvar.py:266. |
| `Affine.Stds` | mvar_columns/mvar_columns.py:193 | `[mvar.std for mvar in mvars]`: one std per Mvar, in order. The same list is at mvar.py:268. |
| `Affine.LayoutRoundTrip` | mvar.py:95-98 | Packing a mean row and a std of the same width with a zero column and reading them back returns both unchanged. The last column is zeros over a 1. |
| `Affine.SquareScale` | mvar_columns/mvar_columns.py:115-118 | A non-square scale becomes a square matrix with one row per entry. A row vector v and a column vector v both become the matrix with v on the diagonal and zeros elsewhere, as `numpy.diagflat` does. A square scale is kept. |
| `Affine.Turn` | mvar_columns/mvar_columns.py:120-127 | A 1×1 rotation next to a 2×2 scale becomes [[cos, sin], [-sin, cos]] of that angle. Otherwise the rotation is kept. |
| `MvarColumns.Pack` | mvar_columns/mvar_columns.py:93-96 | Packing succeeds exactly for a 1×n mean and an n×n std. The result is (n+1)×(n+1) and its accessors return the mean and std exactly. |
| `MvarColumns.FromMeanStdAsWritten` | mvar_columns/mvar_columns.py:84-96 | As written, every call without a mean fails. With both arguments it packs them. A mean given alone gets a zero std (line 90) and behaves as the intended `from_mean_std`: a one-row mean gives an Mvar with that mean and an all-zero std. |
| `MvarColumns.FromMeanStd` | mvar_columns/mvar_columns.py:78-96 | Neither argument gives an error. A mean alone gets a zero std of its size. A std alone gets a zero mean and succeeds exactly when it is square. Both are packed as given. |
| `MvarColumns.StdAloneFromMeanStd` | mvar_columns/mvar_columns.py:90-91 | For a square std alone, the as-written version fails and the corrected one gives mean 0 and that std. |
| `MvarColumns.RotoScale` | mvar_columns/mvar_columns.py:115-136 | The std is rotation × scale, after the scale is made square and an angle is turned into a rotation. It succeeds exactly when the product is defined and packs. |
| `MvarColumns.FromRotoScaleAsWritten` | mvar_columns/mvar_columns.py:129-130 | As written, a call without a mean fails on the undefined `zeros`. |
| `MvarColumns.FromRotoScale` | mvar_columns/mvar_columns.py:99-136 | A missing mean becomes a zero row as wide as the scale. A given mean is kept. |
| `MvarColumns.NoMeanFromRotoScale` | mvar_columns/mvar_columns.py:129-136 | For a square rotation and scale without a mean, the as-written version fails. The corrected one gives mean 0 and std = rotation × scale. |
| `MvarColumns.ScaleVectorScalesColumns` | mvar_columns/mvar_columns.py:105-136 | With a scale vector v, std[i][j] = rotation[i][j] · v[j]: each rotation column is scaled along its own axis. |
| `MvarColumns.FromMeanCov` | mvar_columns/mvar_columns.py:139-163 | Neither argument gives an error. A non-square covariance is refused. The mean is the given one or zeros as wide as the covariance. The std is the factorisation of the covariance. |
| `MvarColumns.FromMeanCovSucceeds` | mvar_columns/mvar_columns.py:150-163 | A 1×n mean with an n×n covariance always gives an n-dimensional Mvar. |
| `MvarColumns.Cov` | mvar_columns/mvar_columns.py:224-231 | `cov = std * std.T` is square and as large as the std is high. |
| `MvarColumns.Stack` | mvar_columns/mvar_columns.py:182-194 | Stacking no Mvars is an error. |
| `MvarColumns.StackParts` | mvar_columns/mvar_columns.py:189-194 | Stacking gives an Mvar whose mean is the concatenation of the means and whose std is the block-diagonal of the stds. Its dimension is the sum of the dimensions. |
| `MvarColumns.Add` | mvar_columns/mvar_columns.py:370-392 | A non-Mvar operand is refused. On success the mean is the broadcast sum of the two means. |
| `MvarColumns.Sub` | mvar_columns/mvar_columns.py:400-424 | A non-Mvar operand is refused. On success the mean is the broadcast difference of the two means. |
| `MvarColumns.AddMeans` | mvar_columns/mvar_columns.py:381-389 | For two n-dimensional Mvars, A + B is n-dimensional with mean A.mean + B.mean entry by entry. Its std is the factorisation of A.cov + B.cov. |
| `MvarColumns.SubMeans` | mvar_columns/mvar_columns.py:407-421 | For two n-dimensional Mvars, A − B is n-dimensional with mean A.mean − B.mean entry by entry. Its std is the factorisation of A.cov − B.cov. |
| `MvarColumns.SubUndoesAddOnMean` | mvar_columns/mvar_columns.py:402-410 | (A + B) − B has the mean of A. |
| `MvarColumns.ScalarMul` | mvar_columns/mvar_columns.py:336-343 | A * k keeps the dimension, scales the mean row by k and scales the std by the supplied root of k. |
| `MvarColumns.ScalarMulCov` | mvar_columns/mvar_columns.py:338-343 | When the root squares to k, the covariance of A * k is k · A.cov. |
| `MvarColumns.AddSelfIsDouble` | mvar_columns/mvar_columns.py:377-381 | A + A has the mean of 2 * A: scalar multiplication fits with addition. |
| `MvarColumns.MatrixMul` | mvar_columns/mvar_columns.py:344-348 | A * M with a matrix M is refused when M is not as high as the mean is wide. On success the mean is mean · M. |
| `MvarColumns.MatrixMulShape` | mvar_columns/mvar_columns.py:344-348 | An n-dimensional Mvar times an n×p matrix is a p-dimensional Mvar. |
| `MvarColumns.InPlaceMul` | mvar_columns/mvar_columns.py:355-368 | `*=` with a scalar stores the scalar product. Any iterable operand, an Mvar included, reaches the undefined name `matrix`. |
| `MvarColumns.Mvar.constructor` | mvar_columns/mvar_columns.py:40-72 | `Mvar(affine)` stores the affine unchanged. |
| `MvarColumns.Mvar.T` | mvar_columns/mvar_columns.py:255-268 | `A.T` is an Mvar holding the transposed affine. |
| `MvarColumns.Mvar.IAdd` | mvar_columns/mvar_columns.py:394-398 | `+=` replaces the affine by that of the sum. When the sum raises, the affine is unchanged and the error is reported. |
| `MvarColumns.Mvar.ISub` | mvar_columns/mvar_columns.py:426-430 | `-=` replaces the affine by that of the difference. When the difference raises, the affine is unchanged. |
| `MvarColumns.Mvar.IMul` | mvar_columns/mvar_columns.py:356-368 | `*=` replaces the affine by the value `InPlaceMul` gives. When that fails, the affine is unchanged. |
| `MvarRows.Pack` | mvar.py:162-165 | Packing succeeds exactly for a one-row mean as wide as the std, whose row count is free. The zero column is as high as the std. The accessors return mean and std exactly. |
| `MvarRows.FromMeanStdAsWritten` | mvar.py:148-165 | As written, with `autostack`'s intended zero block standing in for its broken callable branch (see Left out), a call succeeds exactly when both arguments are given and pack. A std alone fails on the undefined `zeros`. A mean alone keeps the 1×1 `numpy.matrix(None)` std: it does not fit a wider mean, and it puts a non-number into a 1×1 mean's affine. |
| `MvarRows.FromMeanStd` | mvar.py:148-152 | Neither argument gives an error. A mean alone gets a zero std. A std alone gets a zero mean and succeeds exactly when it is square. Both are packed as given. |
| `MvarRows.StdAloneFromMeanStd` | mvar.py:155-160 | For a square std alone, the as-written version fails and the corrected one gives mean 0 and that std. |
| `MvarRows.MeanAloneFromMeanStd` | mvar.py:155-159 | For a one-row mean alone, the as-written version fails and the corrected one gives that mean with a zero std. |
| `MvarRows.FromRotoScale` | mvar.py:210-247 | The std is scale × rotation, after the scale is made square and an angle is turned into a rotation. A missing mean becomes a zero row as wide as the scale. The call succeeds exactly when the product is defined, the mean is one row and the rotation is as wide as the mean. |
| `MvarRows.ScaleVectorScalesRows` | mvar.py:226-247 | With a scale vector v, std[i][j] = v[i] · rotation[i][j]: each rotation row is scaled along its own axis. |
| `MvarRows.Stack` | mvar.py:251-269 | Stacking no Mvars is an error. |
| `MvarRows.StackParts` | mvar.py:264-269 | Stacking gives an Mvar whose mean is the concatenation of the means and whose std is the block-diagonal of the stds. The dimension is the sum. |
| `MvarRows.Multipliers` | mvar.py:972-979 | The `multipliers` table has an entry exactly for the pairs in which one operand is an Mvar. |
| `MvarRows.Dispatch` | mvar.py:973-979 | The table has a rule exactly when one operand is an Mvar. rmul is chosen for an Mvar on the right unless the left is a scalar. lmul is chosen for Mvar × matrix. scalarmul is chosen for a scalar on either side of an Mvar. |
| `MvarRows.ProductKind` | mvar.py:466-479 | Every product with an Mvar is an Mvar except matrix × Mvar, which is a plain matrix. A product without an Mvar has no rule. |
| `MvarRows.Sum` | mvar.py:887 | `sum(xs, start)`: no items give the start, one item is one addition, two items are added from the left. |
| `MvarRows.Paralell` | mvar.py:880-887 | No items is an error. Otherwise the result inverts the sum of the inverses, added from the left starting at the first. One item gives inv(inv(x)). Two items give inv(inv(a) + inv(b)). mvar_columns.py:487-494 is the same fold, called with one list instead of separate arguments. |
| `MvarRows.SumAppend` | mvar.py:887 | `sum` is a left fold: one more item is one more addition on the outside. |
| `MvarRows.TotalPermutation` | mvar.py:887 | With an associative and commutative `+`, the sum of the items does not depend on their order: any permutation gives the same total. |
| `MvarRows.ParalellPermutation` | mvar.py:880-887 | With an associative and commutative `+`, `paralell` of any permutation of the items is the same, the order-independence the `__and__` docstring claims at mvar.py:390-395 for the intended call `paralell(*mvars)` (the call as written is under Left out). |
| `MvarRows.ParalellRotate` | mvar.py:880-887 | `paralell(B, C, A) == paralell(A, B, C)`: the rotated argument list gives the same result. |
| `Planes.Project` | mvn/plane.py:72-81 | `m[:, index]` succeeds exactly when every index lies in [-width, width). It keeps the height, has one column per index, and counts negative indexes from the end. |
| `Planes.ProjectSameColumns` | mvn/plane.py:76-81 | For a plane whose mean is as long as its vectors, projection takes the same columns from both. The result keeps the rank and has one dimension per index. |
| `Planes.SumParts` | mvn/plane.py:148-153 | Plane + Plane succeeds exactly when the means broadcast and the vectors are equally long. The mean is the sum and the vectors are self's rows followed by other's, so the rank adds. |
| `Planes.SumPartsOfPlanes` | mvn/plane.py:148-153 | Two valid planes of one dimension add to a valid plane of that dimension. The mean is the entry-wise sum and the rank is the sum of the ranks. |
| `Planes.Plane.constructor` | mvn/plane.py:40-55 | The vectors are stored as given and the mean is flattened into one row. The new plane is valid exactly when the mean has as many entries as the vectors have columns. |
| `Planes.Plane.Shape` | mvn/plane.py:85-106 | `shape` is (rank, length of the vectors), and for a valid plane (rank, ndim). |
| `Planes.Plane.Rank` | mvn/plane.py:99-106 | `rank` is the first extent of `shape`, and for a valid plane `shape` is (rank, ndim). |
| `Planes.Plane.Ndim` | mvn/plane.py:108-116 | `ndim` is `mean.size`: the mean's width for a one-row mean, and 0 exactly when the mean is empty. |
| `Planes.Plane.Flat` | mvn/plane.py:118-123 | `flat` is never negative. It is 0 exactly when rank ≥ the vectors' length; otherwise rank + flat = length. |
| `Planes.Plane.NonZero` | mvn/plane.py:125-133 | A plane is true exactly when ndim > 0. For a valid plane that means the vectors have positive length. |
| `Planes.Plane.GetItem` | mvn/plane.py:72-81 | A tuple index is refused. Otherwise the result is a new plane of the selected columns of the mean and the vectors, and it fails exactly when either selection does. |
| `Planes.Plane.Add` | mvn/plane.py:135-153 | A plane operand gives a new plane from `SumParts`. An offset gives a copy with the same vectors and a shifted mean, failing exactly when the shapes do not broadcast. Anything else is the TypeError. The left plane is unchanged. |

## Left out

- Floating point. Numbers are exact reals, so `numpy.real_if_close`, `allclose` and tolerances do not arise.
- The eigendecomposition, square roots and powers are parameters of the model: `root`, `rootK` and `cosSin`. Consequently:
  - `MvarColumns.AddMeans` and `MvarColumns.SubMeans` state the std as the factorisation of A.cov ± B.cov. They do not state that cov(A + B) = A.cov + B.cov, which depends on the factorisation.
  - The rotate/scale getters, `__pow__`, `blend`, `wiki`, `__eq__`, `sample`, `get_patch` and `from_data` are numerical or I/O and are not modelled.
- mvar.py's `__and__` (line 403) is not modelled. It calls `paralell(mvars)`, passing the tuple of operands as one item to the varargs `paralell(*items)` (line 880). Line 885 then raises the tuple to the power -1, so `A & B` raises TypeError as written. The intended call is `paralell(*mvars)`, which is `MvarRows.Paralell`. The nested `A & B & C` of its docstring (line 394) is `(A & B) & C`, which equals the three-item `paralell` only if inverting twice gives back the operand; the model does not assume that, so only the flat rotation `MvarRows.ParalellRotate` is stated.
- The Mvar × Mvar branch of `__mul__` in mvar_columns.py (lines 321-333) is not modelled. It is built from `__pow__`-style eigen-scale powers.
- `__rmul__` in mvar_columns.py (lines 350-352) is not modelled. It computes `(self.T*other.T).T`: the left operand multiplies the Mvar with its affine transposed, and the product is transposed back. The `T` property says a transposed affine has no readable mean (lines 258-266). mvar.py's `rmul` rule (lines 985-987) makes `M * A` a plain matrix built from A's std instead. With the two files disagreeing, the intended meaning is unclear, and it is outside the modelled scalar and matrix branches of `__mul__`.
- mvar.py's `Mvar.__init__` and `refresh` (lines 136-141, 271-278):
  - the constructor re-factorises through `from_mean_cov`, whose `from_roto_scale` builds a new Mvar;
  - as written, this fails in `autostack` first (below);
  - the model packs the layout without re-factorising.
- mvar.py's `autostack` callable branch (lines 836-868):
  - it fails on the undefined name `none` and has no return value;
  - the model uses the zero block it was meant to produce, as high as the std and one column wide;
  - the non-callable branch is the `autostack` of `Matrices`.
- mvar.py's `multiply`: only the table and the kind of result each rule yields are modelled. The rule bodies use undefined names, and `rconvert` returns the class `Mvar` itself. The same goes for mvar.py's `__imul__`, `__div__`, `__idiv__` and its own `__add__`/`__sub__`, which go through the same factories.
- `MvarRows.Dispatch` and `MvarRows.ProductKind` classify both operands as `Kind`s. In the source only the right operand goes through `rconvert` (mvar.py:993-995). The left key is its raw Python type. `rconvert` turns an Mvar into the class `Mvar` itself (mvar.py:967-968), so the right key is `type`, and `2 * A` looks up `(int, type)`, which the table does not hold. The model treats the left operand as if it had been converted as well.
- mvar.py's `isplit` and `product` are not modelled: they fail as written. `EM.py` is a plotting script.
- `Affine.MeanOf` and the operations built on it require an affine with at least one row. These are `Affine.Means`, `Stack`, `Add`, `Sub`, `ScalarMul`, `MatrixMul`, `InPlaceMul`, `IAdd`, `ISub` and `IMul` in `MvarColumns`, and `Stack` in `MvarRows`. `Mvar(affine)` accepts any matrix. For an affine with no rows, `.mean` raises IndexError in the source; that error path is not modelled.
- The in-place operators in both Mvar files return None, so `A += B` rebinds the name A to None after updating the object. The model's `IAdd`, `ISub` and `IMul` describe the update of the object only.
- `NotImplemented(...)` in mvar_columns.py is not callable, so the refusal of a non-Mvar operand is a TypeError in Python. The model reports it as `NotAnMvar`.
- `Affine.SquareScale`: for a non-square scale with more than one row and more than one column, only the size of the result is stated. `numpy.diagflat` lays the entries out in row-major order; the model does not state that order.
- `Blocks.DiagStack`:
  - it requires at least one block, because the source reads `arrays[0]` before anything else;
  - the output type (`atype`) is not modelled.
- `Plane`:
  - the default arguments (`Matrix.eye`, `numpy.zeros`), `mvn.helpers.autoshape`, `Matrix`, `copy` and the `decorate` multimethod machinery are not part of this model;
  - the constructor takes both parts as given;
  - which operands reach the fallback overload is the `Unmatched` tag;
  - slice indexes are not modelled; integer and list indexes are.
- `Plane.__and__` (null spaces and `pinv`) and `approx` are not modelled.

## Findings

| source | as written | input that shows it | evidently intended | confidence | as-written member | corrected member |
|---|---|---|---|---|---|---|
| mvar.py:155-160 | The std is kept only when a mean is given (line 156 tests `mean`). A std given alone is dropped, and the missing std is then made with `zeros`, which is not imported. A mean given alone keeps `numpy.matrix(None)` as its std. | `Mvar.from_mean_std(std=numpy.eye(2))` | A missing argument is filled with zeros sized from the other, as the docstring says. | high; not executed | `MvarRows.FromMeanStdAsWritten` (with `MvarRows.StdAloneFromMeanStd`) | `MvarRows.FromMeanStd` |
| mvar_columns/mvar_columns.py:91 | The default mean is sized from `cov`, a name that is not defined here. | `Mvar.from_mean_std(std=numpy.eye(2))` | A zero mean as wide as the std. | high; not executed | `MvarColumns.FromMeanStdAsWritten` (with `MvarColumns.StdAloneFromMeanStd`) | `MvarColumns.FromMeanStd` |
| mvar_columns/mvar_columns.py:130 | The default mean calls `zeros`, which is not imported. | `Mvar.from_roto_scale(numpy.eye(2), numpy.eye(2))` | A zero mean row as wide as the scale. | high; not executed | `MvarColumns.FromRotoScaleAsWritten` (with `MvarColumns.NoMeanFromRotoScale`) | `MvarColumns.FromRotoScale` |
