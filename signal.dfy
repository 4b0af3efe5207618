/**
 * Blocks of EEG samples as values. BrainFlow hands out samples as a
 * `double[,]` whose rows are the board's data rows (channels) and whose
 * columns are successive samples; `Matrix` is the value such an array holds.
 */
module Signal {

  /** A `rows` by `cols` block of samples; row `i` is `cells[i]`. */
  datatype Matrix = Matrix(rows: nat, cols: nat, cells: seq<seq<real>>) {
    ghost predicate Valid() {
      |cells| == rows && forall i :: 0 <= i < rows ==> |cells[i]| == cols
    }
  }

  /** The samples an array currently holds, with its two dimensions. */
  function Snapshot(a: array2<real>): (m: Matrix)
    reads a
    ensures m.Valid() && m.rows == a.Length0 && m.cols == a.Length1
    ensures forall i, j :: 0 <= i < a.Length0 && 0 <= j < a.Length1 ==> m.cells[i][j] == a[i, j]
  {
    Matrix(a.Length0, a.Length1,
      seq(a.Length0, i requires 0 <= i < a.Length0 reads a =>
        seq(a.Length1, j requires 0 <= j < a.Length1 reads a => a[i, j])))
  }

  /**
   * `left` and `right` side by side along the time axis: every row of the
   * result is the row of `left` followed by the same row of `right`.
   */
  function Join(left: Matrix, right: Matrix): (m: Matrix)
    requires left.Valid() && right.Valid() && left.rows == right.rows
    ensures m.Valid() && m.rows == left.rows && m.cols == left.cols + right.cols
    ensures forall i, j :: 0 <= i < m.rows && 0 <= j < left.cols ==> m.cells[i][j] == left.cells[i][j]
    ensures forall i, j :: 0 <= i < m.rows && 0 <= j < right.cols ==>
      m.cells[i][left.cols + j] == right.cells[i][j]
  {
    Matrix(left.rows, left.cols + right.cols,
      seq(left.rows, i requires 0 <= i < left.rows => left.cells[i] + right.cells[i]))
  }

  /** Columns `from` up to (not including) `to` of `m`. */
  function Columns(m: Matrix, from: nat, to: nat): (c: Matrix)
    requires m.Valid() && from <= to <= m.cols
    ensures c.Valid() && c.rows == m.rows && c.cols == to - from
    ensures forall i, j :: 0 <= i < c.rows && 0 <= j < c.cols ==> c.cells[i][j] == m.cells[i][from + j]
  {
    Matrix(m.rows, to - from, seq(m.rows, i requires 0 <= i < m.rows => m.cells[i][from..to]))
  }

  /** Two valid matrices with the same shape and the same cells are equal. */
  lemma SameCells(a: Matrix, b: Matrix)
    requires a.Valid() && b.Valid() && a.rows == b.rows && a.cols == b.cols
    requires forall i, j :: 0 <= i < a.rows && 0 <= j < a.cols ==> a.cells[i][j] == b.cells[i][j]
    ensures a == b
  {
    forall i | 0 <= i < a.rows
      ensures a.cells[i] == b.cells[i]
    {
      assert |a.cells[i]| == |b.cells[i]| == a.cols;
    }
    assert a.cells == b.cells;
  }

  /**
   * The join determines its parts: the first `left.cols` columns give back
   * `left` and the rest give back `right`.
   */
  lemma JoinSplits(left: Matrix, right: Matrix)
    requires left.Valid() && right.Valid() && left.rows == right.rows
    ensures Columns(Join(left, right), 0, left.cols) == left
    ensures Columns(Join(left, right), left.cols, left.cols + right.cols) == right
  {
    var m := Join(left, right);
    SameCells(Columns(m, 0, left.cols), left);
    SameCells(Columns(m, left.cols, left.cols + right.cols), right);
  }

  /**
   * The join is the only matrix of its shape that holds `left` in its first
   * columns and `right` in the columns after them: no cell is left
   * undefined and none is written twice.
   */
  lemma JoinUnique(left: Matrix, right: Matrix, m: Matrix)
    requires left.Valid() && right.Valid() && left.rows == right.rows
    requires m.Valid() && m.rows == left.rows && m.cols == left.cols + right.cols
    requires forall i, j :: 0 <= i < m.rows && 0 <= j < left.cols ==> m.cells[i][j] == left.cells[i][j]
    requires forall i, j :: 0 <= i < m.rows && 0 <= j < right.cols ==>
      m.cells[i][left.cols + j] == right.cells[i][j]
    ensures m == Join(left, right)
  {
    var joined := Join(left, right);
    forall i, j | 0 <= i < m.rows && 0 <= j < m.cols
      ensures m.cells[i][j] == joined.cells[i][j]
    {
      if j >= left.cols {
        assert m.cells[i][left.cols + (j - left.cols)] == right.cells[i][j - left.cols];
      }
    }
    SameCells(m, joined);
  }
}
