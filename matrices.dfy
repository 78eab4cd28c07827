/** Real matrices and vectors with the shape rules numpy applies to the DMDc
    computations: a product of mismatched shapes is a ValueError, slices are
    clamped to the array bounds. Arithmetic is exact over `real`. */
module Matrices {
  import opened PyErrors

  type Vec = seq<real>

  /** A `rows` x `cols` array. `data` holds the rows; the shape is kept
      separately so that arrays with no rows still have a column count. */
  datatype Mat = Mat(rows: nat, cols: nat, data: seq<seq<real>>) {
    predicate Valid() {
      |data| == rows && forall i | 0 <= i < |data| :: |data[i]| == cols
    }

    predicate HasShape(r: nat, c: nat) {
      rows == r && cols == c
    }
  }

  function Dot(a: Vec, b: Vec): real
    requires |a| == |b|
  {
    if a == [] then 0.0 else a[0] * b[0] + Dot(a[1..], b[1..])
  }

  function Add(a: Vec, b: Vec): (r: Vec)
    requires |a| == |b|
    ensures |r| == |a| && forall i | 0 <= i < |a| :: r[i] == a[i] + b[i]
  {
    seq(|a|, i requires 0 <= i < |a| => a[i] + b[i])
  }

  function Sub(a: Vec, b: Vec): (r: Vec)
    requires |a| == |b|
    ensures |r| == |a| && forall i | 0 <= i < |a| :: r[i] == a[i] - b[i]
  {
    seq(|a|, i requires 0 <= i < |a| => a[i] - b[i])
  }

  /** Subtracting and adding back the same vector gives the input. */
  lemma AddSub(a: Vec, b: Vec)
    requires |a| == |b|
    ensures Add(Sub(a, b), b) == a
  {
  }

  function Zeros(r: nat, c: nat): (m: Mat)
    ensures m.Valid() && m.HasShape(r, c)
  {
    Mat(r, c, seq(r, _ => seq(c, _ => 0.0)))
  }

  function Column(m: Mat, j: nat): (v: Vec)
    requires m.Valid() && j < m.cols
    ensures |v| == m.rows && forall k | 0 <= k < m.rows :: v[k] == m.data[k][j]
  {
    seq(m.rows, k requires 0 <= k < m.rows => m.data[k][j])
  }

  /** `m.T` */
  function Transpose(m: Mat): (t: Mat)
    requires m.Valid()
    ensures t.Valid() && t.HasShape(m.cols, m.rows)
    ensures forall i, j | 0 <= i < m.cols && 0 <= j < m.rows :: t.data[i][j] == m.data[j][i]
  {
    Mat(m.cols, m.rows, seq(m.cols, i requires 0 <= i < m.cols => Column(m, i)))
  }

  /** `m.dot(v)` for a matrix and a vector of matching length. */
  function MatVec(m: Mat, v: Vec): (r: Vec)
    requires m.Valid() && m.cols == |v|
    ensures |r| == m.rows && forall i | 0 <= i < m.rows :: r[i] == Dot(m.data[i], v)
  {
    seq(m.rows, i requires 0 <= i < m.rows => Dot(m.data[i], v))
  }

  /** `a.dot(b)`: numpy refuses mismatched inner dimensions. */
  function Mul(a: Mat, b: Mat): (r: Result<Mat>)
    requires a.Valid() && b.Valid()
    ensures r.Ok? <==> a.cols == b.rows
    ensures r.Ok? ==> r.value.Valid() && r.value.HasShape(a.rows, b.cols)
    ensures r.Err? ==> r.error == ValueError
  {
    if a.cols != b.rows then Err(ValueError)
    else
      Ok(Mat(a.rows, b.cols,
             seq(a.rows, i requires 0 <= i < a.rows =>
               seq(b.cols, j requires 0 <= j < b.cols => Dot(a.data[i], Column(b, j))))))
  }

  /** `np.dot(m, v)` checked: a ValueError when the lengths disagree. */
  function Apply(m: Mat, v: Vec): (r: Result<Vec>)
    requires m.Valid()
    ensures r.Ok? <==> m.cols == |v|
    ensures r.Ok? ==> r.value == MatVec(m, v)
    ensures r.Err? ==> r.error == ValueError
  {
    if m.cols != |v| then Err(ValueError) else Ok(MatVec(m, v))
  }

  /** `np.concatenate((a, b), axis=0)` */
  function StackRows(a: Mat, b: Mat): (r: Result<Mat>)
    requires a.Valid() && b.Valid()
    ensures r.Ok? <==> a.cols == b.cols
    ensures r.Ok? ==> r.value.Valid() && r.value.HasShape(a.rows + b.rows, a.cols)
    ensures r.Ok? ==> r.value.data[..a.rows] == a.data && r.value.data[a.rows..] == b.data
    ensures r.Err? ==> r.error == ValueError
  {
    if a.cols != b.cols then Err(ValueError) else Ok(Mat(a.rows + b.rows, a.cols, a.data + b.data))
  }

  /** `m[lo:hi, :]`, clamped to the rows that exist. */
  function RowSlice(m: Mat, lo: nat, hi: nat): (r: Mat)
    requires m.Valid()
    ensures r.Valid() && r.cols == m.cols
    ensures var h := if hi <= m.rows then hi else m.rows;
            r.rows == (if lo <= h then h - lo else 0) && (lo <= h ==> r.data == m.data[lo..h])
  {
    var h := if hi <= m.rows then hi else m.rows;
    var l := if lo <= h then lo else h;
    Mat(h - l, m.cols, m.data[l..h])
  }

  /** `m[:, :k]`, clamped to the columns that exist. */
  function FirstCols(m: Mat, k: nat): (r: Mat)
    requires m.Valid()
    ensures r.Valid() && r.rows == m.rows
    ensures r.cols == if k <= m.cols then k else m.cols
    ensures forall i, j | 0 <= i < r.rows && 0 <= j < r.cols :: r.data[i][j] == m.data[i][j]
  {
    var c := if k <= m.cols then k else m.cols;
    Mat(m.rows, c, seq(m.rows, i requires 0 <= i < m.rows => m.data[i][..c]))
  }

  /** `np.diag(s)` */
  function Diag(s: Vec): (d: Mat)
    ensures d.Valid() && d.HasShape(|s|, |s|)
    ensures forall i, j | 0 <= i < |s| && 0 <= j < |s| :: d.data[i][j] == if i == j then s[i] else 0.0
  {
    Mat(|s|, |s|, seq(|s|, i requires 0 <= i < |s| => seq(|s|, j requires 0 <= j < |s| => if i == j then s[i] else 0.0)))
  }

  /** `m[:k, :k]`, clamped. */
  function LeadingBlock(m: Mat, k: nat): (r: Mat)
    requires m.Valid()
    ensures r.Valid()
    ensures r.rows == (if k <= m.rows then k else m.rows) && r.cols == (if k <= m.cols then k else m.cols)
  {
    FirstCols(RowSlice(m, 0, k), k)
  }
}
