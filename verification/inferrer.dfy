/**
 * `ImageInferrer`: the working estimate, held as a mutable `array2<real>`,
 * together with the two target projections captured when it was built.
 * The constructor is the back-projection initialiser and `Adjust` is one
 * in-place correction sweep; both are proved to produce exactly the values
 * that module `Reconstruction` defines, so every property proved there
 * holds of the object's state.
 */
module Inferrer {
  import opened Sums
  import opened Images
  import opened Reconstruction

  class ImageInferrer {
    /** The estimate's cells (`self.image.data`); its shape never changes. */
    var image: array2<real>
    /** The row targets (`self.rows_proj`). */
    var rowsProj: seq<real>
    /** The column targets (`self.cols_proj`). */
    var colsProj: seq<real>

    /** The estimate has one row per row target and one column per column target. */
    ghost predicate Valid()
      reads this
    {
      image.Length0 == |rowsProj| && image.Length1 == |colsProj|
    }

    /** The estimate as a matrix value (what `self.image.data.clone()` yields). */
    function Estimate(): (m: Image)
      reads this, image
      ensures m.Valid() && m.nrows == image.Length0 && m.ncols == image.Length1
      ensures forall i, j | 0 <= i < m.nrows && 0 <= j < m.ncols :: m.cells[i][j] == image[i, j]
    {
      var a := image;
      Image(a.Length0, a.Length1,
        seq(a.Length0, i requires 0 <= i < a.Length0 reads a =>
          seq(a.Length1, j requires 0 <= j < a.Length1 reads a => a[i, j])))
    }

    /**
     * `ImageInferrer::infer_by_back_projection`: a zeroed `R x C` matrix
     * receives each row target's R-th share along its row, then each column
     * target's C-th share down its column.
     */
    constructor InferByBackProjection(rows: seq<real>, cols: seq<real>)
      ensures Valid() && fresh(image)
      ensures rowsProj == rows && colsProj == cols
      ensures forall i, j | 0 <= i < |rows| && 0 <= j < |cols| ::
        image[i, j] == Mean(rows[i], |rows|) + Mean(cols[j], |cols|)
      ensures Estimate() == BackProjection(rows, cols)
    {
      var nr, nc := |rows|, |cols|;
      var data := new real[nr, nc]((_, _) => 0.0);
      for ri := 0 to nr
        invariant forall i, j | 0 <= i < ri && 0 <= j < nc :: data[i, j] == Mean(rows[i], nr)
        invariant forall i, j | ri <= i < nr && 0 <= j < nc :: data[i, j] == 0.0
      {
        var meanVal := Mean(rows[ri], nr);
        for ci := 0 to nc
          invariant forall i, j | 0 <= i < nr && 0 <= j < nc && i != ri ::
            data[i, j] == if i < ri then Mean(rows[i], nr) else 0.0
          invariant forall j | 0 <= j < ci :: data[ri, j] == meanVal
          invariant forall j | ci <= j < nc :: data[ri, j] == 0.0
        {
          data[ri, ci] := data[ri, ci] + meanVal;
        }
      }
      for ci := 0 to nc
        invariant forall i, j | 0 <= i < nr && 0 <= j < nc ::
          data[i, j] == if j < ci then Mean(rows[i], nr) + Mean(cols[j], nc) else Mean(rows[i], nr)
      {
        var meanVal := Mean(cols[ci], nc);
        for ri := 0 to nr
          invariant forall i, j | 0 <= i < nr && 0 <= j < nc && j != ci ::
            data[i, j] == if j < ci then Mean(rows[i], nr) + Mean(cols[j], nc) else Mean(rows[i], nr)
          invariant forall i | 0 <= i < ri :: data[i, ci] == Mean(rows[i], nr) + meanVal
          invariant forall i | ri <= i < nr :: data[i, ci] == Mean(rows[i], nr)
        {
          data[ri, ci] := data[ri, ci] + meanVal;
        }
      }
      image := data;
      rowsProj := rows;
      colsProj := cols;
      new;
      SameCells(Estimate(), BackProjection(rows, cols));
    }

    /**
     * `ImageInferrer::adjust`: the row pass, then the column pass on the
     * state the row pass left. The new estimate is `Sweep` of the old one,
     * so it is non-negative whatever the old one held.
     */
    method Adjust()
      requires Valid()
      modifies image
      ensures Valid() && rowsProj == old(rowsProj) && colsProj == old(colsProj)
      ensures Estimate() == Sweep(old(Estimate()), rowsProj, colsProj)
      ensures forall i, j | 0 <= i < image.Length0 && 0 <= j < image.Length1 :: image[i, j] >= 0.0
    {
      AdjustRows();
      AdjustColumns();
    }

    /**
     * The row pass of `adjust`: the row projection is taken once, then each
     * row is raised by its share of the gap to its target and clamped.
     */
    method AdjustRows()
      requires Valid()
      modifies image
      ensures Estimate() == RowPass(old(Estimate()), rowsProj)
    {
      var nr, nc := image.Length0, image.Length1;
      ghost var before := Estimate();
      ghost var after := RowPass(before, rowsProj);
      var computedRows := RowsProjection(Estimate());
      for ri := 0 to nr
        invariant forall i, j | 0 <= i < nr && 0 <= j < nc ::
          image[i, j] == if i < ri then after.cells[i][j] else before.cells[i][j]
      {
        // With no columns the share is never used (`ImageInferrer::adjust`
        // divides by zero there, and no cell receives the result).
        var meanVal := if nc == 0 then 0.0 else Mean(rowsProj[ri] - computedRows[ri], nc);
        ShiftRow(ri, meanVal);
      }
      SameCells(Estimate(), after);
    }

    /**
     * The column pass of `adjust`: the column projection is taken once,
     * then each column is raised by its share of the gap to its target and
     * clamped.
     */
    method AdjustColumns()
      requires Valid()
      modifies image
      ensures Estimate() == ColPass(old(Estimate()), colsProj)
    {
      var nr, nc := image.Length0, image.Length1;
      ghost var before := Estimate();
      ghost var after := ColPass(before, colsProj);
      var computedCols := ColsProjection(Estimate());
      for ci := 0 to nc
        invariant forall i, j | 0 <= i < nr && 0 <= j < nc ::
          image[i, j] == if j < ci then after.cells[i][j] else before.cells[i][j]
      {
        // With no rows the share is never used (`ImageInferrer::adjust`
        // divides by zero there too).
        var meanVal := if nr == 0 then 0.0 else Mean(colsProj[ci] - computedCols[ci], nr);
        ShiftColumn(ci, meanVal);
      }
      SameCells(Estimate(), after);
    }

    /** One row step of the row pass: every cell of row `ri` is raised by `delta` and clamped. */
    method ShiftRow(ri: nat, delta: real)
      requires ri < image.Length0
      modifies image
      ensures forall j | 0 <= j < image.Length1 :: image[ri, j] == Clamp(old(image[ri, j]) + delta)
      ensures forall i, j | 0 <= i < image.Length0 && 0 <= j < image.Length1 && i != ri ::
        image[i, j] == old(image[i, j])
    {
      for ci := 0 to image.Length1
        invariant forall j | 0 <= j < ci :: image[ri, j] == Clamp(old(image[ri, j]) + delta)
        invariant forall i, j | 0 <= i < image.Length0 && 0 <= j < image.Length1 && (i != ri || ci <= j) ::
          image[i, j] == old(image[i, j])
      {
        image[ri, ci] := Clamp(image[ri, ci] + delta);
      }
    }

    /** One column step of the column pass: every cell of column `ci` is raised by `delta` and clamped. */
    method ShiftColumn(ci: nat, delta: real)
      requires ci < image.Length1
      modifies image
      ensures forall i | 0 <= i < image.Length0 :: image[i, ci] == Clamp(old(image[i, ci]) + delta)
      ensures forall i, j | 0 <= i < image.Length0 && 0 <= j < image.Length1 && j != ci ::
        image[i, j] == old(image[i, j])
    {
      for ri := 0 to image.Length0
        invariant forall i | 0 <= i < ri :: image[i, ci] == Clamp(old(image[i, ci]) + delta)
        invariant forall i, j | 0 <= i < image.Length0 && 0 <= j < image.Length1 && (j != ci || ri <= i) ::
          image[i, j] == old(image[i, j])
      {
        image[ri, ci] := Clamp(image[ri, ci] + delta);
      }
    }
  }
}
