# Image reconstruction from row and column projections

A model of the reconstruction core of `seitai_iryou`, a small Rust program
that recovers a non-negative 2-D image from its two projections: the vector
of row sums and the vector of column sums. The program builds a first
estimate by back-projection, then improves it with repeated correction
sweeps. Each sweep has two passes. The row pass adds, to every cell of row
`i`, the row's share of the gap between its target and its current sum, and
clamps the cell at zero. The column pass does the same on columns.

The project has five modules:

- `Sums` (`sums.dfy`): finite sums of real sequences and the laws of
  summation that the proofs use (concatenation, shifting, scaling, equal
  shares).
- `Images` (`images.dfy`): the `Image` matrix value with its shape, the row
  and column projections, the proof that they are the products the program
  computes (the matrix, or its transpose, times an all-ones vector), and
  conservation of mass.
- `Reconstruction` (`reconstruction.dfy`): what the inferrer computes, as
  functions of values: `BackProjection`, the row pass `RowPass`, the column
  pass `ColPass` and one sweep `Sweep`, with their properties.
- `Inferrer` (`inferrer.dfy`): the `ImageInferrer` object. It holds the
  estimate as an `array2<real>` and the two targets. Its constructor and its
  `Adjust` method update the array in place with the program's nested loops.
  Each is proved to leave exactly the value that `Reconstruction` defines.
- `Fixture` (`fixture.dfy`): the program's fixed 5x5 test image, its
  projections, the back-projection built from them, and one sweep, all on
  concrete numbers.

Decisions worth knowing:

- Back-projection follows the code's divisors. A row target is divided by
  the number of rows and a column target by the number of columns, so cell
  `(i, j)` is `rows[i]/R + cols[j]/C`. Spreading row `i`'s total evenly
  over its own `C` cells would divide by `C`; the code divides by `R`, and
  the two agree only for square images such as the 5x5 test image. The
  model follows the code.
- Each pass of `adjust` takes its projection once, before its loop; the
  model does the same. Since a row step changes only its own row
  (`RowPassLocal`, `ShiftRow`), this equals recomputing the projection
  before every row. The same holds for columns.
- Empty targets are not an error in the code, and there is no
  precondition on them in the model. The program divides by a length only
  inside an iteration over that length, with two exceptions. The row pass
  computes `diff / ncols` for every row even when there are no columns, and
  the column pass computes `diff / nrows` for every column even when there
  are no rows. In both cases no cell ever receives the value.
  `AdjustRows` and `AdjustColumns` skip these unused divisions.
- Values are `f32` in the program and exact `real`s in the model.
- Determinism needs no lemma. The constructor and `Adjust` are specified
  as functions of their inputs and of the old state, so equal targets and
  equal sequences of calls give equal estimates.

## Model

| member | source | states |
|---|---|---|
| Images.RowsProjection | src/main.rs:52-56 | the row projection has one entry per row |
| Images.RowsProjectionIsProduct | src/main.rs:52-56 | the row projection, entry `i` being the sum of row `i`, equals the matrix times the all-ones vector of length `ncols` |
| Images.ColsProjection | src/main.rs:58-62 | the column projection has one entry per column |
| Images.ColsProjectionIsProduct | src/main.rs:58-62 | the column projection, entry `j` being the sum of column `j`, equals the transpose times the all-ones vector of length `nrows` |
| Images.Transpose | src/main.rs:61 | the transpose has the swapped shape, and its row `j` is column `j` of the matrix |
| Images.ProjectionConservation | src/main.rs:52-62 | for every matrix, the row projection and the column projection both sum to the matrix's total mass |
| Reconstruction.Clamp | src/main.rs:103 | `max(0, x)` is non-negative, at least `x`, and is either `x` or 0 |
| Reconstruction.BackProjection | src/main.rs:78-92 | the back-projection is `R x C`, one row per row target and one column per column target |
| Reconstruction.BackProjectionNonNegative | src/main.rs:78-92 | with non-negative targets, every back-projected cell is non-negative |
| Reconstruction.BackProjectionRowSums | src/main.rs:78-92 | row `i` of the back-projection sums to `C * rows[i]/R + sum(cols)/C` |
| Reconstruction.BackProjectionColSums | src/main.rs:78-92 | column `j` sums to `sum(rows)/R + R * cols[j]/C` |
| Reconstruction.BackProjectionMass | src/main.rs:78-92 | the back-projection's mass is `C * sum(rows)/R + R * sum(cols)/C` |
| Reconstruction.BackProjectionMassSquare | src/main.rs:78-92 | when `R = C`, the mass is `sum(rows) + sum(cols)`, not the true mass |
| Reconstruction.SumClamped | src/main.rs:103 | clamping a vector never lowers its sum, and leaves it unchanged exactly when no element is negative |
| Reconstruction.ClampedCorrection | src/main.rs:100-104 | shifting a vector by its share of the gap to a target and clamping gives a sum at least the target, equal to it exactly when no clamp fires |
| Reconstruction.RowPass | src/main.rs:99-105 | the row pass keeps the shape |
| Reconstruction.ColPass | src/main.rs:106-112 | the column pass keeps the shape and leaves every cell non-negative, whatever the input holds |
| Reconstruction.Sweep | src/main.rs:98-113 | one sweep keeps the shape and leaves every cell non-negative |
| Reconstruction.RowPassLocal | src/main.rs:99-105 | row `i` after the row pass depends only on row `i` before it and on target `i` |
| Reconstruction.ColPassLocal | src/main.rs:106-112 | column `j` after the column pass depends only on column `j` before it and on target `j` |
| Reconstruction.RowPassRow | src/main.rs:99-105 | row `i` after the row pass is row `i` shifted by its share of the gap to target `i`, then clamped |
| Reconstruction.ColPassColumn | src/main.rs:106-112 | column `j` after the column pass is column `j` shifted by its share of the gap to target `j`, then clamped |
| Reconstruction.RowPassRowSum | src/main.rs:99-105 | after the row pass, row `i` sums to at least its target, and to exactly its target if and only if no cell of the row hits the clamp |
| Reconstruction.ColPassColSum | src/main.rs:106-112 | after the column pass, column `j` sums to at least its target, and to exactly its target if and only if no cell of the column hits the clamp |
| Reconstruction.SweepFixedPoint | src/main.rs:98-113 | a non-negative estimate whose projections already equal the targets is left unchanged by a sweep |
| Inferrer.ImageInferrer.Estimate | src/main.rs:72 | the estimate as a value has the array's shape and its cells |
| Inferrer.ImageInferrer.InferByBackProjection | src/main.rs:78-96 | a fresh `R x C` estimate whose cell `(i, j)` is `rows[i]/R + cols[j]/C`, equal to `BackProjection(rows, cols)`, with the targets stored as given |
| Inferrer.ImageInferrer.Adjust | src/main.rs:98-113 | the new estimate is `Sweep` of the old one; the shape and both targets are unchanged, and every cell is non-negative |
| Inferrer.ImageInferrer.AdjustRows | src/main.rs:99-105 | the row loop, taking one projection snapshot first, leaves `RowPass` of the old estimate |
| Inferrer.ImageInferrer.AdjustColumns | src/main.rs:106-112 | the column loop, taking one projection snapshot first, leaves `ColPass` of the old estimate |
| Inferrer.ImageInferrer.ShiftRow | src/main.rs:102-104 | a row step sets each cell of row `ri` to `max(0, cell + delta)` and writes no other cell |
| Inferrer.ImageInferrer.ShiftColumn | src/main.rs:109-111 | a column step sets each cell of column `ci` to `max(0, cell + delta)` and writes no other cell |
| Fixture.OriginalImage | src/main.rs:6-16 | the test image is 5x5 |
| Fixture.OriginalProjections | src/main.rs:6-16 | the test image has row projection `[0,10,30,30,0]`, column projection `[0,20,30,20,0]` and mass 70 |
| Fixture.OriginalBackProjection | src/main.rs:78-92 | back-projection from those targets gives cell `(2,2) = 12`, cell `(0,0) = 0` and mass 140 |
| Fixture.FirstRowPass | src/main.rs:99-105 | on that back-projection, whose row sums are `[14,24,44,44,14]`, the row pass gives the hand-computed matrix `AfterFirstRowPass` |
| Fixture.FirstColPass | src/main.rs:106-112 | the column pass then gives the hand-computed matrix `AfterFirstSweep` |
| Fixture.FirstSweep | src/main.rs:98-113 | one sweep moves the row projection from `[14,24,44,44,14]` to `[5.6,11.6,27.44,27.44,5.6]`, and its squared distance to the row targets from 980 to 78.3872 |

## Left out

- `main` (src/main.rs:116-146): the driver that prints and calls `adjust` a fixed 100 times. It is I/O with no behaviour of its own.
- `Display for Image` (src/main.rs:41-45): formatting only.
- `random_image` and `sparse_random_image` (src/main.rs:18-34): they draw from a random number generator. The core only ever receives the projections of the image they build.
- `Image::round` (src/main.rs:64-68): rounding used only for display.
- `Image::new` (src/main.rs:48-50): a plain wrapper; the `Image` datatype is built directly.
- `f32` arithmetic: rounding, overflow, NaN and infinities, and the matrix library's internals. Values are exact reals.
- Convergence: nothing is claimed about repeated sweeps. The program has no stopping rule and promises none. The one concrete sweep on the test image is covered by `Fixture.FirstSweep`.
- Stability under re-anchoring (rebuilding a back-projection from the projections of an improved estimate, then sweeping again): this is a convergence claim of the same kind, and it is not modelled.
- Errors on empty targets: the program raises none, and neither does the model.
