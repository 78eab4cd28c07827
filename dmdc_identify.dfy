/** Per-sample system identification of the DMDc surrogate: the snapshot
    matrices, the rank-truncation rule and the least-squares solution for the
    state-space triple (A, B, C). The singular value decomposition, the QR
    factorisation, the determinant, the inverse and the pseudoinverse are
    foreign numerics; they are parameters of the model, constrained only by
    the shapes of what they return. */
module DmdcIdentify {
  import opened PyErrors
  import opened Matrices

  /** Singular values below this are treated as zero. */
  const SingularValueFloor: real := 0.000001

  /** `sum(x >= 1e-6 for x in s)` */
  function EffectiveRank(s: seq<real>): (k: nat)
    ensures k <= |s|
  {
    if s == [] then 0
    else (if s[0] >= SingularValueFloor then 1 else 0) + EffectiveRank(s[1..])
  }

  predicate Descending(s: seq<real>) {
    forall i, j | 0 <= i < j < |s| :: s[i] >= s[j]
  }

  /** For singular values in the usual descending order, the effective rank
      is the position of the first value below the floor: the kept values are
      exactly those at least 1e-6. */
  lemma {:induction false} RankSplitsDescending(s: seq<real>)
    requires Descending(s)
    ensures forall i | 0 <= i < EffectiveRank(s) :: s[i] >= SingularValueFloor
    ensures forall i | EffectiveRank(s) <= i < |s| :: s[i] < SingularValueFloor
  {
    if s != [] {
      assert Descending(s[1..]) by {
        forall i, j | 0 <= i < j < |s[1..]| ensures s[1..][i] >= s[1..][j] {
          assert s[1..][i] == s[i + 1] && s[1..][j] == s[j + 1];
        }
      }
      RankSplitsDescending(s[1..]);
      var k := EffectiveRank(s[1..]);
      if s[0] >= SingularValueFloor {
        forall i | 0 <= i < 1 + k ensures s[i] >= SingularValueFloor {
          if i > 0 { assert s[i] == s[1..][i - 1]; }
        }
        forall i | 1 + k <= i < |s| ensures s[i] < SingularValueFloor {
          assert s[i] == s[1..][i - 1];
        }
      } else {
        ZeroRankBelowFloor(s);
      }
    }
  }

  /** When the largest value is already below the floor nothing is kept. */
  lemma {:induction false} ZeroRankBelowFloor(s: seq<real>)
    requires Descending(s) && s != [] && s[0] < SingularValueFloor
    ensures EffectiveRank(s) == 0
    ensures forall i | 0 <= i < |s| :: s[i] < SingularValueFloor
  {
    if |s| > 1 {
      assert Descending(s[1..]) && s[1..][0] < SingularValueFloor by {
        forall i, j | 0 <= i < j < |s[1..]| ensures s[1..][i] >= s[1..][j] {
          assert s[1..][i] == s[i + 1] && s[1..][j] == s[j + 1];
        }
      }
      ZeroRankBelowFloor(s[1..]);
      forall i | 0 <= i < |s| ensures s[i] < SingularValueFloor {
        if i > 0 { assert s[i] == s[1..][i - 1]; }
      }
    }
  }

  /** The factors of a (truncated) singular value decomposition: `u` holds
      the left vectors as columns, `v` the right vectors as columns. */
  datatype Svd = Svd(u: Mat, s: Vec, v: Mat)

  /** The numeric library calls used by the identification. */
  datatype Numerics = Numerics(
    svd: (Mat, Option<int>) -> Svd,
    qr: Mat -> (Mat, Mat),
    det: Mat -> real,
    inv: Mat -> Mat,
    pinv: Mat -> Mat)
  {
    /** The shapes the library calls return: an SVD of an r x c array has
        r x k and c x k factors and k singular values; QR and the inverse
        of a square array are square of the same size; the pseudoinverse
        of an r x c array is c x r. */
    ghost predicate Sound() {
      && (forall m: Mat, k: Option<int> {:trigger svd(m, k)} | m.Valid() :: SvdShaped(m, svd(m, k)))
      && (forall m: Mat {:trigger qr(m)} | m.Valid() && m.rows == m.cols ::
            qr(m).0.Valid() && qr(m).1.Valid() && qr(m).0.HasShape(m.rows, m.rows) && qr(m).1.HasShape(m.rows, m.rows))
      && (forall m: Mat {:trigger inv(m)} | m.Valid() && m.rows == m.cols :: inv(m).Valid() && inv(m).HasShape(m.rows, m.rows))
      && (forall m: Mat {:trigger pinv(m)} | m.Valid() :: pinv(m).Valid() && pinv(m).HasShape(m.cols, m.rows))
    }
  }

  ghost predicate SvdShaped(m: Mat, d: Svd) {
    && d.u.Valid() && d.v.Valid()
    && d.u.rows == m.rows && d.v.rows == m.cols
    && d.u.cols == |d.s| && d.v.cols == |d.s|
  }

  /** The factors kept after the rank rule. */
  datatype Truncated = Truncated(u: Mat, v: Mat, s: Mat)

  /** Columns are cut to the effective rank only when it is below the
      number of columns of `u`; otherwise the factors are kept whole. */
  function Truncate(d: Svd): (t: Truncated)
    requires d.u.Valid() && d.v.Valid()
  {
    var rank := EffectiveRank(d.s);
    if rank < d.u.cols then
      Truncated(FirstCols(d.u, rank), FirstCols(d.v, rank), LeadingBlock(Diag(d.s), rank))
    else
      Truncated(d.u, d.v, Diag(d.s))
  }

  /** With consistently shaped factors, exactly `EffectiveRank` columns are
      kept, the rows are unchanged, and nothing is cut when every singular
      value is at least the floor. */
  lemma TruncationKeepsRank(m: Mat, d: Svd)
    requires SvdShaped(m, d)
    ensures var t := Truncate(d);
            var k := EffectiveRank(d.s);
            && t.u.Valid() && t.v.Valid() && t.s.Valid()
            && t.u.HasShape(m.rows, k) && t.v.HasShape(m.cols, k) && t.s.HasShape(k, k)
            && (k == |d.s| ==> t.u == d.u && t.v == d.v && t.s == Diag(d.s))
  {
  }

  /** The triple identified for one sample. */
  datatype Triple = Triple(a: Mat, b: Mat, c: Mat)

  /** The truncated factors of the SVD of `omega`: `k` columns each, where
      `k` is the effective rank of the singular values. */
  function KeptFactors(num: Numerics, omega: Mat, rankSVD: Option<int>): (t: Truncated)
    requires num.Sound() && omega.Valid()
    ensures t.u.Valid() && t.v.Valid() && t.s.Valid()
    ensures var k := EffectiveRank(num.svd(omega, rankSVD).s);
            t.u.HasShape(omega.rows, k) && t.v.HasShape(omega.cols, k) && t.s.HasShape(k, k)
  {
    var d := num.svd(omega, rankSVD);
    assert SvdShaped(omega, d);
    TruncationKeepsRank(omega, d);
    Truncate(d)
  }

  /** The R factor whose determinant decides whether the solve goes ahead. */
  function RFactor(num: Numerics, x1: Mat, u: Mat, rankSVD: Option<int>): Mat
    requires num.Sound() && x1.Valid() && u.Valid() && x1.cols == u.cols
  {
    var omega := StackRows(x1, u).value;
    num.qr(KeptFactors(num, omega, rankSVD).s).1
  }

  /** beta = X2 V inv(R) Q^T */
  function Beta(x2: Mat, v: Mat, rInv: Mat, q: Mat): (r: Result<Mat>)
    requires x2.Valid() && v.Valid() && rInv.Valid() && q.Valid()
    ensures r.Ok? <==> x2.cols == v.rows && v.cols == rInv.rows && rInv.cols == q.cols
    ensures r.Ok? ==> r.value.Valid() && r.value.HasShape(x2.rows, q.rows)
    ensures r.Err? ==> r.error == ValueError
  {
    var b0 :- Mul(x2, v);
    var b1 :- Mul(b0, rInv);
    Mul(b1, Transpose(q))
  }

  /** The solve once R is known to be regular: A = beta U[:n]^T,
      B = beta U[n:]^T and C = Y1 pinv(X1). */
  function Solve(x2: Mat, y1: Mat, t: Truncated, q: Mat, rInv: Mat, x1Pinv: Mat): (r: Result<Triple>)
    requires x2.Valid() && y1.Valid() && t.u.Valid() && t.v.Valid() && q.Valid() && rInv.Valid() && x1Pinv.Valid()
    ensures r.Err? ==> r.error == ValueError
  {
    var n := x2.rows;
    var beta :- Beta(x2, t.v, rInv, q);
    if beta.cols != t.u.cols then Err(ValueError)
    else
      var a := Mul(beta, Transpose(RowSlice(t.u, 0, n))).value;
      var b := Mul(beta, Transpose(RowSlice(t.u, n, t.u.rows))).value;
      var c :- Mul(y1, x1Pinv);
      Ok(Triple(a, b, c))
  }

  /** With factors of consistent shapes the solve succeeds with A n x n,
      B n x (rows of U - n) and C (rows of Y1) x (columns of pinv(X1)). */
  lemma SolveShapes(x2: Mat, y1: Mat, t: Truncated, q: Mat, rInv: Mat, x1Pinv: Mat)
    requires x2.Valid() && y1.Valid() && t.u.Valid() && t.v.Valid() && q.Valid() && rInv.Valid() && x1Pinv.Valid()
    requires var k := t.u.cols;
             && x2.cols == t.v.rows && t.v.cols == k && rInv.HasShape(k, k) && q.HasShape(k, k)
             && x2.rows <= t.u.rows && y1.cols == x1Pinv.rows
    ensures var r := Solve(x2, y1, t, q, rInv, x1Pinv);
            && r.Ok?
            && r.value.a.Valid() && r.value.a.HasShape(x2.rows, x2.rows)
            && r.value.b.Valid() && r.value.b.HasShape(x2.rows, t.u.rows - x2.rows)
            && r.value.c.Valid() && r.value.c.HasShape(y1.rows, x1Pinv.cols)
  {
  }

  /** `_evaluateMatrices(X1, X2, U, Y1, rankSVD)`: stack [X1; U], take its
      SVD, cut it to the effective rank, factor the kept singular values as
      Q R; a singular R is a RuntimeError; otherwise
      beta = X2 V inv(R) Q^T, A = beta U[:n]^T, B = beta U[n:]^T and
      C = Y1 pinv(X1). Products of mismatched shapes are ValueErrors. */
  function EvaluateMatrices(num: Numerics, x1: Mat, x2: Mat, u: Mat, y1: Mat, rankSVD: Option<int>): (r: Result<Triple>)
    requires num.Sound() && x1.Valid() && x2.Valid() && u.Valid() && y1.Valid()
    ensures r.Err? ==> r.error == RuntimeError || r.error == ValueError
  {
    if x1.cols != u.cols then Err(ValueError)
    else
      var omega := StackRows(x1, u).value;
      var t := KeptFactors(num, omega, rankSVD);
      var qr := num.qr(t.s);
      if num.det(qr.1) == 0.0 then Err(RuntimeError)
      else Solve(x2, y1, t, qr.0, num.inv(qr.1), num.pinv(x1))
  }

  /** For snapshot matrices of matching shapes (n states, m actuators,
      p outputs, L columns) the identification fails only on a singular R,
      and then with a RuntimeError; otherwise A is n x n, B is n x m and
      C is p x n. */
  lemma IdentifiedShapes(num: Numerics, x1: Mat, x2: Mat, u: Mat, y1: Mat, rankSVD: Option<int>,
                         n: nat, m: nat, p: nat, l: nat)
    requires num.Sound()
    requires x1.Valid() && x2.Valid() && u.Valid() && y1.Valid()
    requires x1.HasShape(n, l) && x2.HasShape(n, l) && u.HasShape(m, l) && y1.HasShape(p, l)
    ensures var r := EvaluateMatrices(num, x1, x2, u, y1, rankSVD);
            && (r.Ok? <==> num.det(RFactor(num, x1, u, rankSVD)) != 0.0)
            && (r.Err? ==> r.error == RuntimeError)
            && (r.Ok? ==> r.value.a.HasShape(n, n) && r.value.b.HasShape(n, m) && r.value.c.HasShape(p, n))
            && (r.Ok? ==> r.value.a.Valid() && r.value.b.Valid() && r.value.c.Valid())
  {
    var omega := StackRows(x1, u).value;
    var t := KeptFactors(num, omega, rankSVD);
    var qr := num.qr(t.s);
    assert qr.0.HasShape(t.s.rows, t.s.rows) && qr.1.HasShape(t.s.rows, t.s.rows);
    assert num.inv(qr.1).HasShape(t.s.rows, t.s.rows);
    assert num.pinv(x1).HasShape(l, n);
    if num.det(qr.1) != 0.0 {
      SolveShapes(x2, y1, t, qr.0, num.inv(qr.1), num.pinv(x1));
    }
  }
}
