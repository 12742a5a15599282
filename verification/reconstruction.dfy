/**
 * What the image inferrer computes, as functions of values: the
 * back-projection estimate built from two target projections, and one
 * adjustment sweep (a clamped row pass followed by a clamped column pass).
 * The in-place implementation in module `Inferrer` is proved to produce
 * exactly these values; the properties of the technique are proved here.
 */
module Reconstruction {
  import opened Sums
  import opened Images

  /** `0.0_f32.max(x)`: the non-negativity clamp. */
  function Clamp(x: real): (r: real)
    ensures r >= 0.0 && r >= x
    ensures r == x || r == 0.0
  {
    if 0.0 >= x then 0.0 else x
  }

  /** `v` with every element clamped. */
  function Clamped(v: seq<real>): seq<real>
  {
    seq(|v|, k requires 0 <= k < |v| => Clamp(v[k]))
  }

  /** No cell of `m` is negative. */
  predicate NonNegative(m: Image)
    requires m.Valid()
  {
    forall i, j | 0 <= i < m.nrows && 0 <= j < m.ncols :: m.cells[i][j] >= 0.0
  }

  /**
   * Clamping never lowers a total, and leaves it unchanged exactly when no
   * element needed clamping: the mass the clamp adds is not taken back
   * anywhere else.
   */
  lemma {:induction false} SumClamped(v: seq<real>)
    ensures Sum(Clamped(v)) >= Sum(v)
    ensures Sum(Clamped(v)) == Sum(v) <==> forall k | 0 <= k < |v| :: v[k] >= 0.0
  {
    var n := |v|;
    if n > 0 {
      var v' := v[..n - 1];
      assert Clamped(v)[..n - 1] == Clamped(v');
      SumClamped(v');
      if Sum(Clamped(v)) == Sum(v) {
        assert Sum(Clamped(v')) == Sum(v') && Clamp(v[n - 1]) == v[n - 1];
        forall k | 0 <= k < n
          ensures v[k] >= 0.0
        {
          if k < n - 1 {
            assert v'[k] == v[k];
          }
        }
      }
    }
  }

  // ---------------------------------------------------------------------------
  // Back-projection (ImageInferrer::infer_by_back_projection)
  // ---------------------------------------------------------------------------

  /**
   * The back-projection estimate as the loops build it: cell (i, j) receives
   * row target i divided by the number of ROWS, plus column target j divided
   * by the number of COLUMNS.
   */
  function BackProjection(rows: seq<real>, cols: seq<real>): (m: Image)
    ensures m.Valid() && m.nrows == |rows| && m.ncols == |cols|
  {
    Image(|rows|, |cols|,
      seq(|rows|, i requires 0 <= i < |rows| =>
        seq(|cols|, j requires 0 <= j < |cols| =>
          Mean(rows[i], |rows|) + Mean(cols[j], |cols|))))
  }

  lemma {:induction false} BackProjectionNonNegative(rows: seq<real>, cols: seq<real>)
    requires forall i | 0 <= i < |rows| :: rows[i] >= 0.0
    requires forall j | 0 <= j < |cols| :: cols[j] >= 0.0
    ensures NonNegative(BackProjection(rows, cols))
  {
  }

  /** Row i of the estimate is the column targets' C-th shares, each raised by row target i's R-th share. */
  lemma {:induction false} BackProjectionRow(rows: seq<real>, cols: seq<real>, i: nat)
    requires i < |rows| && |cols| > 0
    ensures BackProjection(rows, cols).cells[i] == Shift(Shares(cols, |cols|), Mean(rows[i], |rows|))
  {
    var m := BackProjection(rows, cols);
    forall j | 0 <= j < |cols|
      ensures m.cells[i][j] == Shift(Shares(cols, |cols|), Mean(rows[i], |rows|))[j]
    {
    }
  }

  /** Column j of the estimate is the row targets' R-th shares, each raised by column target j's C-th share. */
  lemma {:induction false} BackProjectionColumn(rows: seq<real>, cols: seq<real>, j: nat)
    requires j < |cols| && |rows| > 0
    ensures Column(BackProjection(rows, cols), j) == Shift(Shares(rows, |rows|), Mean(cols[j], |cols|))
  {
    var m := BackProjection(rows, cols);
    forall i | 0 <= i < |rows|
      ensures Column(m, j)[i] == Shift(Shares(rows, |rows|), Mean(cols[j], |cols|))[i]
    {
    }
  }

  /**
   * Row i of the estimate sums to C times row target i's R-th share plus
   * the column targets' C-th share: it is the row target plus the column
   * mean only when R == C.
   */
  lemma {:induction false} BackProjectionRowSums(rows: seq<real>, cols: seq<real>)
    requires |cols| > 0
    ensures forall i | 0 <= i < |rows| ::
      RowsProjection(BackProjection(rows, cols))[i]
        == |cols| as real * Mean(rows[i], |rows|) + Mean(Sum(cols), |cols|)
  {
    var m := BackProjection(rows, cols);
    forall i | 0 <= i < |rows|
      ensures RowsProjection(m)[i] == |cols| as real * Mean(rows[i], |rows|) + Mean(Sum(cols), |cols|)
    {
      BackProjectionRow(rows, cols, i);
      SumShift(Shares(cols, |cols|), Mean(rows[i], |rows|), |cols|);
      SumShares(cols, |cols|);
    }
  }

  /**
   * Column j of the estimate sums to the row targets' R-th share plus R
   * times column target j's C-th share.
   */
  lemma {:induction false} BackProjectionColSums(rows: seq<real>, cols: seq<real>)
    requires |rows| > 0
    ensures forall j | 0 <= j < |cols| ::
      ColsProjection(BackProjection(rows, cols))[j]
        == Mean(Sum(rows), |rows|) + |rows| as real * Mean(cols[j], |cols|)
  {
    var m := BackProjection(rows, cols);
    forall j | 0 <= j < |cols|
      ensures ColsProjection(m)[j] == Mean(Sum(rows), |rows|) + |rows| as real * Mean(cols[j], |cols|)
    {
      BackProjectionColumn(rows, cols, j);
      SumShift(Shares(rows, |rows|), Mean(cols[j], |cols|), |rows|);
      SumShares(rows, |rows|);
    }
  }

  /**
   * The estimate's total mass: C times the R-th share of the row targets'
   * total plus R times the C-th share of the column targets' total. It is
   * not the mass of the image the targets came from.
   */
  lemma {:induction false} BackProjectionMass(rows: seq<real>, cols: seq<real>)
    requires |rows| > 0 && |cols| > 0
    ensures Mass(BackProjection(rows, cols))
      == |cols| as real * Mean(Sum(rows), |rows|) + |rows| as real * Mean(Sum(cols), |cols|)
  {
    RowsProjectionMass(BackProjection(rows, cols));
    BackProjectionRowsTotal(rows, cols);
  }

  lemma {:induction false} BackProjectionRowsTotal(rows: seq<real>, cols: seq<real>)
    requires |rows| > 0 && |cols| > 0
    ensures Sum(RowsProjection(BackProjection(rows, cols)))
      == |cols| as real * Mean(Sum(rows), |rows|) + |rows| as real * Mean(Sum(cols), |cols|)
  {
    BackProjectionRowsProjection(rows, cols);
    SumScaledShares(rows, |rows|, |cols| as real, Mean(Sum(cols), |cols|));
  }

  /**
   * For a square estimate (as in the 5x5 driver) the mass is the sum of
   * both target vectors: twice the true mass when both targets are
   * projections of the same image.
   */
  lemma {:induction false} BackProjectionMassSquare(rows: seq<real>, cols: seq<real>)
    requires |rows| == |cols| > 0
    ensures Mass(BackProjection(rows, cols)) == Sum(rows) + Sum(cols)
  {
    BackProjectionMass(rows, cols);
    MeanTimes(|cols|, Sum(rows));
    MeanTimes(|rows|, Sum(cols));
  }

  /** The row projection of the estimate, as a whole vector. */
  lemma {:induction false} BackProjectionRowsProjection(rows: seq<real>, cols: seq<real>)
    requires |rows| > 0 && |cols| > 0
    ensures RowsProjection(BackProjection(rows, cols))
      == Shift(Scale(Shares(rows, |rows|), |cols| as real), Mean(Sum(cols), |cols|))
  {
    var m := BackProjection(rows, cols);
    BackProjectionRowSums(rows, cols);
    forall i | 0 <= i < |rows|
      ensures RowsProjection(m)[i]
        == Shift(Scale(Shares(rows, |rows|), |cols| as real), Mean(Sum(cols), |cols|))[i]
    {
    }
  }

  // ---------------------------------------------------------------------------
  // One adjustment sweep (ImageInferrer::adjust)
  // ---------------------------------------------------------------------------

  /**
   * The row pass: with the row projection taken once before the pass, row i
   * is shifted by its discrepancy spread over the `ncols` cells, and every
   * cell is clamped.
   */
  function RowPass(m: Image, targets: seq<real>): (r: Image)
    requires m.Valid() && |targets| == m.nrows
    ensures r.Valid() && r.nrows == m.nrows && r.ncols == m.ncols
  {
    var computed := RowsProjection(m);
    Image(m.nrows, m.ncols,
      seq(m.nrows, i requires 0 <= i < m.nrows =>
        seq(m.ncols, j requires 0 <= j < m.ncols =>
          Clamp(m.cells[i][j] + Mean(targets[i] - computed[i], m.ncols)))))
  }

  /**
   * The column pass: with the column projection taken once before the pass,
   * column j is shifted by its discrepancy spread over the `nrows` cells, and
   * every cell is clamped.
   */
  function ColPass(m: Image, targets: seq<real>): (r: Image)
    requires m.Valid() && |targets| == m.ncols
    ensures r.Valid() && r.nrows == m.nrows && r.ncols == m.ncols
    ensures NonNegative(r)
  {
    var computed := ColsProjection(m);
    Image(m.nrows, m.ncols,
      seq(m.nrows, i requires 0 <= i < m.nrows =>
        seq(m.ncols, j requires 0 <= j < m.ncols =>
          Clamp(m.cells[i][j] + Mean(targets[j] - computed[j], m.nrows)))))
  }

  /** One call of `adjust`: the row pass, then the column pass on its result. */
  function Sweep(m: Image, rowTargets: seq<real>, colTargets: seq<real>): (r: Image)
    requires m.Valid() && |rowTargets| == m.nrows && |colTargets| == m.ncols
    ensures r.Valid() && r.nrows == m.nrows && r.ncols == m.ncols
    ensures NonNegative(r)
  {
    ColPass(RowPass(m, rowTargets), colTargets)
  }

  /**
   * Row i after the row pass depends on nothing but row i and its target
   * before it, so a projection taken before the pass agrees with one taken
   * just before row i is processed.
   */
  lemma {:induction false} RowPassLocal(m1: Image, t1: seq<real>, m2: Image, t2: seq<real>, i: nat)
    requires m1.Valid() && |t1| == m1.nrows && m2.Valid() && |t2| == m2.nrows
    requires m1.ncols == m2.ncols && i < m1.nrows && i < m2.nrows
    requires m1.cells[i] == m2.cells[i] && t1[i] == t2[i]
    ensures RowPass(m1, t1).cells[i] == RowPass(m2, t2).cells[i]
  {
  }

  /** Column j after the column pass depends on nothing but column j and its target. */
  lemma {:induction false} ColPassLocal(m1: Image, t1: seq<real>, m2: Image, t2: seq<real>, j: nat)
    requires m1.Valid() && |t1| == m1.ncols && m2.Valid() && |t2| == m2.ncols
    requires m1.nrows == m2.nrows && j < m1.ncols && j < m2.ncols
    requires Column(m1, j) == Column(m2, j) && t1[j] == t2[j]
    ensures Column(ColPass(m1, t1), j) == Column(ColPass(m2, t2), j)
  {
    forall i | 0 <= i < m1.nrows
      ensures Column(ColPass(m1, t1), j)[i] == Column(ColPass(m2, t2), j)[i]
    {
      assert m1.cells[i][j] == Column(m1, j)[i];
      assert m2.cells[i][j] == Column(m2, j)[i];
    }
  }

  /** Row i after the row pass: row i shifted by its share of the discrepancy, then clamped. */
  lemma {:induction false} RowPassRow(m: Image, targets: seq<real>, i: nat)
    requires m.Valid() && |targets| == m.nrows && i < m.nrows && m.ncols > 0
    ensures RowPass(m, targets).cells[i]
      == Clamped(Shift(m.cells[i], Mean(targets[i] - Sum(m.cells[i]), m.ncols)))
  {
    var shifted := Shift(m.cells[i], Mean(targets[i] - Sum(m.cells[i]), m.ncols));
    forall j | 0 <= j < m.ncols
      ensures RowPass(m, targets).cells[i][j] == Clamped(shifted)[j]
    {
    }
  }

  /** Column j after the column pass: column j shifted by its share of the discrepancy, then clamped. */
  lemma {:induction false} ColPassColumn(m: Image, targets: seq<real>, j: nat)
    requires m.Valid() && |targets| == m.ncols && j < m.ncols && m.nrows > 0
    ensures Column(ColPass(m, targets), j)
      == Clamped(Shift(Column(m, j), Mean(targets[j] - Sum(Column(m, j)), m.nrows)))
  {
    var shifted := Shift(Column(m, j), Mean(targets[j] - Sum(Column(m, j)), m.nrows));
    forall i | 0 <= i < m.nrows
      ensures Column(ColPass(m, targets), j)[i] == Clamped(shifted)[i]
    {
    }
  }

  /**
   * Shifting `v` by its share of the gap to `target` makes it total
   * `target`; after clamping it totals at least `target`, and exactly
   * `target` if and only if no element needed clamping.
   */
  lemma {:induction false} ClampedCorrection(v: seq<real>, target: real)
    requires |v| > 0
    ensures Sum(Clamped(Shift(v, Mean(target - Sum(v), |v|)))) >= target
    ensures Sum(Clamped(Shift(v, Mean(target - Sum(v), |v|)))) == target
      <==> forall k | 0 <= k < |v| :: v[k] + Mean(target - Sum(v), |v|) >= 0.0
  {
    var delta := Mean(target - Sum(v), |v|);
    var shifted := Shift(v, delta);
    SumShift(v, delta, |v|);
    MeanTimes(|v|, target - Sum(v));
    SumClamped(shifted);
    assert forall k | 0 <= k < |v| :: shifted[k] == v[k] + delta;
  }

  /**
   * After the row pass, row i sums to at least its target, and to exactly
   * its target if and only if no cell of the row was clamped.
   */
  lemma {:induction false} RowPassRowSum(m: Image, targets: seq<real>, i: nat)
    requires m.Valid() && |targets| == m.nrows && i < m.nrows && m.ncols > 0
    ensures RowsProjection(RowPass(m, targets))[i] >= targets[i]
    ensures RowsProjection(RowPass(m, targets))[i] == targets[i]
      <==> forall j | 0 <= j < m.ncols ::
             m.cells[i][j] + Mean(targets[i] - Sum(m.cells[i]), m.ncols) >= 0.0
  {
    RowPassRow(m, targets, i);
    ClampedCorrection(m.cells[i], targets[i]);
  }

  /**
   * After the column pass, column j sums to at least its target, and to
   * exactly its target if and only if no cell of the column was clamped.
   */
  lemma {:induction false} ColPassColSum(m: Image, targets: seq<real>, j: nat)
    requires m.Valid() && |targets| == m.ncols && j < m.ncols && m.nrows > 0
    ensures ColsProjection(ColPass(m, targets))[j] >= targets[j]
    ensures ColsProjection(ColPass(m, targets))[j] == targets[j]
      <==> forall i | 0 <= i < m.nrows ::
             m.cells[i][j] + Mean(targets[j] - Sum(Column(m, j)), m.nrows) >= 0.0
  {
    ColPassColumn(m, targets, j);
    ClampedCorrection(Column(m, j), targets[j]);
    assert forall i | 0 <= i < m.nrows :: Column(m, j)[i] == m.cells[i][j];
  }

  /**
   * Fixed point: a non-negative image whose projections already equal the
   * targets is left unchanged by a sweep.
   */
  lemma {:induction false} SweepFixedPoint(m: Image, rowTargets: seq<real>, colTargets: seq<real>)
    requires m.Valid() && NonNegative(m)
    requires RowsProjection(m) == rowTargets && ColsProjection(m) == colTargets
    ensures Sweep(m, rowTargets, colTargets) == m
  {
    var afterRows := RowPass(m, rowTargets);
    forall i, j | 0 <= i < m.nrows && 0 <= j < m.ncols
      ensures afterRows.cells[i][j] == m.cells[i][j]
    {
      assert rowTargets[i] - RowsProjection(m)[i] == 0.0;
    }
    SameCells(afterRows, m);
    var afterCols := ColPass(m, colTargets);
    forall i, j | 0 <= i < m.nrows && 0 <= j < m.ncols
      ensures afterCols.cells[i][j] == m.cells[i][j]
    {
      assert colTargets[j] - ColsProjection(m)[j] == 0.0;
    }
    SameCells(afterCols, m);
  }
}
