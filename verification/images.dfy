/**
 * The `Image` of the reconstruction: a dense `nrows x ncols` matrix of reals
 * (the `f32` cells of the Rust `Image`, modelled as exact reals), and its two
 * projections. As in `Image::rows_projection` and `Image::cols_projection`,
 * the row projection is the product of the matrix with an all-ones vector,
 * and the column projection is the same product taken on the transpose.
 */
module Images {
  import opened Sums

  /**
   * A matrix value with its shape. The shape is kept explicitly because a
   * matrix with no rows still has a number of columns (and so a column
   * projection of that length).
   */
  datatype Image = Image(nrows: nat, ncols: nat, cells: seq<seq<real>>)
  {
    /** The cells form a rectangle of the declared shape. */
    predicate Valid()
    {
      |cells| == nrows && forall i | 0 <= i < nrows :: |cells[i]| == ncols
    }
  }

  /** Column `j` of `m`, top to bottom. */
  function Column(m: Image, j: nat): seq<real>
    requires m.Valid() && j < m.ncols
  {
    seq(m.nrows, i requires 0 <= i < m.nrows => m.cells[i][j])
  }

  /** The all-ones vector of length `n` (`DVector::zeros(n)` filled with 1). */
  function Ones(n: nat): seq<real>
  {
    seq(n, _ => 1.0)
  }

  /** Inner product of two vectors of the same length. */
  function Dot(u: seq<real>, v: seq<real>): real
    requires |u| == |v|
  {
    if |u| == 0 then 0.0 else Dot(u[..|u| - 1], v[..|v| - 1]) + u[|u| - 1] * v[|v| - 1]
  }

  /** Matrix-vector product: one inner product per row. */
  function MatVec(m: Image, v: seq<real>): (r: seq<real>)
    requires m.Valid() && |v| == m.ncols
    ensures |r| == m.nrows
  {
    seq(m.nrows, i requires 0 <= i < m.nrows => Dot(m.cells[i], v))
  }

  /** The transposed matrix: row `j` of the result is column `j` of `m`. */
  function Transpose(m: Image): (t: Image)
    requires m.Valid()
    ensures t.Valid() && t.nrows == m.ncols && t.ncols == m.nrows
    ensures forall j | 0 <= j < m.ncols :: t.cells[j] == Column(m, j)
  {
    Image(m.ncols, m.nrows, seq(m.ncols, j requires 0 <= j < m.ncols => Column(m, j)))
  }

  /** All cells of `m` in row-major order. */
  function Flatten(rows: seq<seq<real>>): seq<real>
  {
    if |rows| == 0 then [] else Flatten(rows[..|rows| - 1]) + rows[|rows| - 1]
  }

  /** Total mass of the image: the sum of all its cells. */
  function Mass(m: Image): real
  {
    Sum(Flatten(m.cells))
  }

  lemma {:induction false} DotOnes(u: seq<real>)
    ensures Dot(u, Ones(|u|)) == Sum(u)
  {
    var n := |u|;
    if n > 0 {
      assert Ones(n)[..n - 1] == Ones(n - 1);
      DotOnes(u[..n - 1]);
    }
  }

  lemma {:induction false} MatVecOnes(m: Image)
    requires m.Valid()
    ensures forall i | 0 <= i < m.nrows :: MatVec(m, Ones(m.ncols))[i] == Sum(m.cells[i])
  {
    forall i | 0 <= i < m.nrows
      ensures MatVec(m, Ones(m.ncols))[i] == Sum(m.cells[i])
    {
      DotOnes(m.cells[i]);
    }
  }

  /** `Image::rows_projection`: one total per row. */
  function RowsProjection(m: Image): (r: seq<real>)
    requires m.Valid()
    ensures |r| == m.nrows
  {
    seq(m.nrows, i requires 0 <= i < m.nrows => Sum(m.cells[i]))
  }

  /** `Image::cols_projection`: one total per column. */
  function ColsProjection(m: Image): (r: seq<real>)
    requires m.Valid()
    ensures |r| == m.ncols
  {
    seq(m.ncols, j requires 0 <= j < m.ncols => Sum(Column(m, j)))
  }

  /**
   * The row projection is what `Image::rows_projection` computes: the matrix times the
   * all-ones vector of length `ncols`.
   */
  lemma {:induction false} RowsProjectionIsProduct(m: Image)
    requires m.Valid()
    ensures RowsProjection(m) == MatVec(m, Ones(m.ncols))
  {
    MatVecOnes(m);
  }

  /**
   * The column projection is what `Image::cols_projection` computes: the transposed
   * matrix times the all-ones vector of length `nrows`.
   */
  lemma {:induction false} ColsProjectionIsProduct(m: Image)
    requires m.Valid()
    ensures ColsProjection(m) == MatVec(Transpose(m), Ones(m.nrows))
  {
    MatVecOnes(Transpose(m));
  }

  /** The image made of the first `k` rows of `m`. */
  function TopRows(m: Image, k: nat): (t: Image)
    requires m.Valid() && k <= m.nrows
    ensures t.Valid()
  {
    Image(k, m.ncols, m.cells[..k])
  }

  lemma {:induction false} RowsProjectionMass(m: Image)
    requires m.Valid()
    ensures Sum(RowsProjection(m)) == Mass(m)
    decreases m.nrows
  {
    var n := m.nrows;
    if n > 0 {
      var top := TopRows(m, n - 1);
      assert RowsProjection(m)[..n - 1] == RowsProjection(top);
      RowsProjectionMass(top);
      SumConcat(Flatten(top.cells), m.cells[n - 1]);
    }
  }

  lemma {:induction false} ColsProjectionMass(m: Image)
    requires m.Valid()
    ensures Sum(ColsProjection(m)) == Mass(m)
    decreases m.nrows
  {
    var n := m.nrows;
    if n == 0 {
      assert ColsProjection(m) == Const(m.ncols, 0.0);
      SumConst(m.ncols, 0.0);
    } else {
      var top := TopRows(m, n - 1);
      forall j | 0 <= j < m.ncols
        ensures ColsProjection(m)[j] == ColsProjection(top)[j] + m.cells[n - 1][j]
      {
        assert Column(m, j)[..n - 1] == Column(top, j);
      }
      assert ColsProjection(m) == Add(ColsProjection(top), m.cells[n - 1]);
      SumAdd(ColsProjection(top), m.cells[n - 1]);
      ColsProjectionMass(top);
      SumConcat(Flatten(top.cells), m.cells[n - 1]);
    }
  }

  /**
   * Conservation: the row projection and the column projection of any image
   * carry the same total, which is the image's mass.
   */
  lemma {:induction false} ProjectionConservation(m: Image)
    requires m.Valid()
    ensures Sum(RowsProjection(m)) == Mass(m)
    ensures Sum(ColsProjection(m)) == Mass(m)
  {
    RowsProjectionMass(m);
    ColsProjectionMass(m);
  }

  /** Images of the same shape whose cells agree are equal. */
  lemma {:induction false} SameCells(a: Image, b: Image)
    requires a.Valid() && b.Valid() && a.nrows == b.nrows && a.ncols == b.ncols
    requires forall i, j | 0 <= i < a.nrows && 0 <= j < a.ncols :: a.cells[i][j] == b.cells[i][j]
    ensures a == b
  {
    forall i | 0 <= i < a.nrows
      ensures a.cells[i] == b.cells[i]
    {
    }
  }
}
