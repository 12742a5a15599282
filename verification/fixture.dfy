/**
 * The fixed 5x5 test image of the driver and what the reconstruction does
 * with its projections, checked on concrete numbers.
 */
module Fixture {
  import opened Sums
  import opened Images
  import opened Reconstruction

  /**
   * `original_image`: a zero 5x5 matrix with 10 at (1,2), (2,1), (2,2),
   * (2,3), (3,1), (3,2) and (3,3).
   */
  function OriginalImage(): (m: Image)
    ensures m.Valid() && m.nrows == 5 && m.ncols == 5
  {
    Image(5, 5, [
      [0.0, 0.0, 0.0, 0.0, 0.0],
      [0.0, 0.0, 10.0, 0.0, 0.0],
      [0.0, 10.0, 10.0, 10.0, 0.0],
      [0.0, 10.0, 10.0, 10.0, 0.0],
      [0.0, 0.0, 0.0, 0.0, 0.0]])
  }

  lemma {:induction false} SumOfFive(a: real, b: real, c: real, d: real, e: real)
    ensures Sum([a, b, c, d, e]) == a + b + c + d + e
  {
    assert [a, b, c, d, e][..4] == [a, b, c, d];
    assert [a, b, c, d][..3] == [a, b, c];
    assert [a, b, c][..2] == [a, b];
    assert [a, b][..1] == [a];
    assert [a][..0] == [];
    assert Sum([a]) == a;
    assert Sum([a, b]) == a + b;
    assert Sum([a, b, c]) == a + b + c;
    assert Sum([a, b, c, d]) == a + b + c + d;
  }

  /** The driver's targets: the projections of the test image. */
  lemma {:induction false} OriginalProjections()
    ensures RowsProjection(OriginalImage()) == [0.0, 10.0, 30.0, 30.0, 0.0]
    ensures ColsProjection(OriginalImage()) == [0.0, 20.0, 30.0, 20.0, 0.0]
    ensures Mass(OriginalImage()) == 70.0
  {
    var m := OriginalImage();
    forall i | 0 <= i < 5
      ensures RowsProjection(m)[i] == [0.0, 10.0, 30.0, 30.0, 0.0][i]
    {
      var r := m.cells[i];
      assert r == [r[0], r[1], r[2], r[3], r[4]];
      SumOfFive(r[0], r[1], r[2], r[3], r[4]);
    }
    forall j | 0 <= j < 5
      ensures ColsProjection(m)[j] == [0.0, 20.0, 30.0, 20.0, 0.0][j]
    {
      var c := Column(m, j);
      assert c == [c[0], c[1], c[2], c[3], c[4]];
      SumOfFive(c[0], c[1], c[2], c[3], c[4]);
    }
    ProjectionConservation(m);
    SumOfFive(0.0, 10.0, 30.0, 30.0, 0.0);
  }

  /**
   * Back-projection from those targets: the centre cell is 30/5 + 30/5 =
   * 12, the corner is 0, and the total mass is 140, twice the test image's.
   */
  lemma {:induction false} OriginalBackProjection()
    ensures BackProjection([0.0, 10.0, 30.0, 30.0, 0.0], [0.0, 20.0, 30.0, 20.0, 0.0]).cells[2][2] == 12.0
    ensures BackProjection([0.0, 10.0, 30.0, 30.0, 0.0], [0.0, 20.0, 30.0, 20.0, 0.0]).cells[0][0] == 0.0
    ensures Mass(BackProjection([0.0, 10.0, 30.0, 30.0, 0.0], [0.0, 20.0, 30.0, 20.0, 0.0])) == 140.0
  {
    var rows, cols := [0.0, 10.0, 30.0, 30.0, 0.0], [0.0, 20.0, 30.0, 20.0, 0.0];
    BackProjectionMassSquare(rows, cols);
    SumOfFive(0.0, 10.0, 30.0, 30.0, 0.0);
    SumOfFive(0.0, 20.0, 30.0, 20.0, 0.0);
  }

  /** Sum of squared differences between two vectors of the same length. */
  function SquaredDistance(u: seq<real>, v: seq<real>): real
    requires |u| == |v|
  {
    if |u| == 0 then 0.0 else
      var d := u[|u| - 1] - v[|v| - 1];
      SquaredDistance(u[..|u| - 1], v[..|v| - 1]) + d * d
  }

  /** The estimate after the row pass of the first `adjust`, worked out by hand. */
  function AfterFirstRowPass(): Image
  {
    Image(5, 5, [
      [0.0, 1.2, 3.2, 1.2, 0.0],
      [0.0, 3.2, 5.2, 3.2, 0.0],
      [3.2, 7.2, 9.2, 7.2, 3.2],
      [3.2, 7.2, 9.2, 7.2, 3.2],
      [0.0, 1.2, 3.2, 1.2, 0.0]])
  }

  /** The estimate after the first `adjust`, worked out by hand. */
  function AfterFirstSweep(): Image
  {
    Image(5, 5, [
      [0.0, 1.2, 3.2, 1.2, 0.0],
      [0.0, 3.2, 5.2, 3.2, 0.0],
      [1.92, 7.2, 9.2, 7.2, 1.92],
      [1.92, 7.2, 9.2, 7.2, 1.92],
      [0.0, 1.2, 3.2, 1.2, 0.0]])
  }

  lemma {:induction false} FirstRowPass()
    ensures RowPass(BackProjection([0.0, 10.0, 30.0, 30.0, 0.0], [0.0, 20.0, 30.0, 20.0, 0.0]),
                    [0.0, 10.0, 30.0, 30.0, 0.0])
      == AfterFirstRowPass()
    ensures RowsProjection(BackProjection([0.0, 10.0, 30.0, 30.0, 0.0], [0.0, 20.0, 30.0, 20.0, 0.0]))
      == [14.0, 24.0, 44.0, 44.0, 14.0]
  {
    var rows, cols := [0.0, 10.0, 30.0, 30.0, 0.0], [0.0, 20.0, 30.0, 20.0, 0.0];
    var bp := BackProjection(rows, cols);
    BackProjectionRowSums(rows, cols);
    SumOfFive(0.0, 20.0, 30.0, 20.0, 0.0);
    assert RowsProjection(bp) == [14.0, 24.0, 44.0, 44.0, 14.0];
    var after := RowPass(bp, rows);
    forall i, j | 0 <= i < 5 && 0 <= j < 5
      ensures after.cells[i][j] == AfterFirstRowPass().cells[i][j]
    {
    }
    SameCells(after, AfterFirstRowPass());
  }

  lemma {:induction false} FirstColPass()
    ensures ColPass(AfterFirstRowPass(), [0.0, 20.0, 30.0, 20.0, 0.0]) == AfterFirstSweep()
  {
    var m := AfterFirstRowPass();
    forall j | 0 <= j < 5
      ensures ColsProjection(m)[j] == [6.4, 20.0, 30.0, 20.0, 6.4][j]
    {
      var c := Column(m, j);
      assert c == [c[0], c[1], c[2], c[3], c[4]];
      SumOfFive(c[0], c[1], c[2], c[3], c[4]);
    }
    assert ColsProjection(m) == [6.4, 20.0, 30.0, 20.0, 6.4];
    var after := ColPass(m, [0.0, 20.0, 30.0, 20.0, 0.0]);
    forall i, j | 0 <= i < 5 && 0 <= j < 5
      ensures after.cells[i][j] == AfterFirstSweep().cells[i][j]
    {
    }
    SameCells(after, AfterFirstSweep());
  }

  /**
   * One `adjust` on the back-projected test image: the row projection moves
   * from [14, 24, 44, 44, 14] to [5.6, 11.6, 27.44, 27.44, 5.6], and its
   * squared distance to the row targets drops from 980 to 78.3872.
   */
  lemma {:induction false} FirstSweep()
    ensures Sweep(BackProjection([0.0, 10.0, 30.0, 30.0, 0.0], [0.0, 20.0, 30.0, 20.0, 0.0]),
                  [0.0, 10.0, 30.0, 30.0, 0.0], [0.0, 20.0, 30.0, 20.0, 0.0])
      == AfterFirstSweep()
    ensures RowsProjection(BackProjection([0.0, 10.0, 30.0, 30.0, 0.0], [0.0, 20.0, 30.0, 20.0, 0.0]))
      == [14.0, 24.0, 44.0, 44.0, 14.0]
    ensures RowsProjection(AfterFirstSweep()) == [5.6, 11.6, 27.44, 27.44, 5.6]
    ensures SquaredDistance([14.0, 24.0, 44.0, 44.0, 14.0], [0.0, 10.0, 30.0, 30.0, 0.0]) == 980.0
    ensures SquaredDistance([5.6, 11.6, 27.44, 27.44, 5.6], [0.0, 10.0, 30.0, 30.0, 0.0]) == 78.3872
  {
    var rows := [0.0, 10.0, 30.0, 30.0, 0.0];
    FirstRowPass();
    FirstColPass();
    FirstSweepRows();
    SquaredDistanceOfFive([14.0, 24.0, 44.0, 44.0, 14.0], rows);
    SquaredDistanceOfFive([5.6, 11.6, 27.44, 27.44, 5.6], rows);
  }

  lemma {:induction false} FirstSweepRows()
    ensures RowsProjection(AfterFirstSweep()) == [5.6, 11.6, 27.44, 27.44, 5.6]
  {
    var m := AfterFirstSweep();
    forall i | 0 <= i < 5
      ensures RowsProjection(m)[i] == [5.6, 11.6, 27.44, 27.44, 5.6][i]
    {
      var r := m.cells[i];
      assert r == [r[0], r[1], r[2], r[3], r[4]];
      SumOfFive(r[0], r[1], r[2], r[3], r[4]);
    }
  }

  lemma {:induction false} SquaredDistanceOfFive(u: seq<real>, v: seq<real>)
    requires |u| == |v| == 5
    ensures SquaredDistance(u, v) == (u[0] - v[0]) * (u[0] - v[0]) + (u[1] - v[1]) * (u[1] - v[1])
      + (u[2] - v[2]) * (u[2] - v[2]) + (u[3] - v[3]) * (u[3] - v[3]) + (u[4] - v[4]) * (u[4] - v[4])
  {
    assert u[..4][..3] == u[..3] && v[..4][..3] == v[..3];
    assert u[..3][..2] == u[..2] && v[..3][..2] == v[..2];
    assert u[..2][..1] == u[..1] && v[..2][..1] == v[..1];
    assert u[..1][..0] == [] && v[..1][..0] == [];
    var d0, d1, d2, d3, d4 := u[0] - v[0], u[1] - v[1], u[2] - v[2], u[3] - v[3], u[4] - v[4];
    assert SquaredDistance(u[..1], v[..1]) == d0 * d0;
    assert SquaredDistance(u[..2], v[..2]) == d0 * d0 + d1 * d1;
    assert SquaredDistance(u[..3], v[..3]) == d0 * d0 + d1 * d1 + d2 * d2;
    assert SquaredDistance(u[..4], v[..4]) == d0 * d0 + d1 * d1 + d2 * d2 + d3 * d3;
    assert u[..5] == u && v[..5] == v;
  }
}
