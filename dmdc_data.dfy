/** The data layout shared by training and evaluation of the DMDc surrogate:
    name lookup as Python's `list.index`, selection of variables out of
    sample x time x variable arrays, and the shifted snapshot matrices. */
module DmdcData {
  import opened PyErrors
  import opened Matrices
  import opened PyList

  /** `[sample][time][variable]`, the layout of `featureVals`/`targetVals`. */
  type Tensor = seq<seq<Vec>>

  ghost predicate Shaped(x: Tensor, samples: nat, steps: nat, width: nat) {
    |x| == samples && forall s | 0 <= s < samples :: |x[s]| == steps && forall t | 0 <= t < steps :: |x[s][t]| == width
  }

  /** `[within.index(x) for x in names]`: a ValueError for a missing name. */
  function Positions(names: seq<string>, within: seq<string>): (r: Result<seq<nat>>)
    ensures r.Ok? <==> forall x | x in names :: x in within
    ensures r.Ok? ==> |r.value| == |names|
    ensures r.Ok? ==> forall k | 0 <= k < |names| :: r.value[k] == FirstIndex(within, names[k])
    ensures r.Err? ==> r.error == ValueError
  {
    if names == [] then Ok([])
    else if names[0] !in within then Err(ValueError)
    else
      var rest := Positions(names[1..], within);
      assert forall x | x in names[1..] :: x in names;
      if rest.Err? then rest
      else Ok([FirstIndex(within, names[0])] + rest.value)
  }

  predicate IndicesBelow(idx: seq<nat>, width: nat) {
    forall k | 0 <= k < |idx| :: idx[k] < width
  }

  /** `row[idx]` */
  function Pick(row: Vec, idx: seq<nat>): (v: Vec)
    requires IndicesBelow(idx, |row|)
    ensures |v| == |idx| && forall k | 0 <= k < |idx| :: v[k] == row[idx[k]]
  {
    seq(|idx|, k requires 0 <= k < |idx| => row[idx[k]])
  }

  /** The selected variables, per sample and time step. */
  function Select(x: Tensor, samples: nat, steps: nat, width: nat, idx: seq<nat>): (y: Tensor)
    requires Shaped(x, samples, steps, width) && IndicesBelow(idx, width)
    ensures Shaped(y, samples, steps, |idx|)
    ensures forall s, t | 0 <= s < samples && 0 <= t < steps :: y[s][t] == Pick(x[s][t], idx)
  {
    seq(samples, s requires 0 <= s < samples =>
      seq(steps, t requires 0 <= t < steps => Pick(x[s][t], idx)))
  }

  /** Variable `k` over time. */
  function Series(traj: seq<Vec>, k: nat): (v: Vec)
    requires forall t | 0 <= t < |traj| :: k < |traj[t]|
    ensures |v| == |traj| && forall t | 0 <= t < |traj| :: v[t] == traj[t][k]
  {
    seq(|traj|, t requires 0 <= t < |traj| => traj[t][k])
  }

  ghost predicate Rows(traj: seq<Vec>, width: nat) {
    forall t | 0 <= t < |traj| :: |traj[t]| == width
  }

  /** The matrix whose column `j` is `traj[lo + j] - ref`, for `count`
      columns: `(traj[lo:lo + count] - ref).T`. */
  function Snapshot(traj: seq<Vec>, width: nat, lo: nat, count: nat, ref: Vec): (m: Mat)
    requires Rows(traj, width) && |ref| == width && lo + count <= |traj|
    ensures m.Valid() && m.HasShape(width, count)
    ensures forall k, j | 0 <= k < width && 0 <= j < count :: m.data[k][j] == traj[lo + j][k] - ref[k]
  {
    Mat(width, count, seq(width, k requires 0 <= k < width =>
      seq(count, j requires 0 <= j < count => traj[lo + j][k] - ref[k])))
  }

  /** The number of snapshot pairs of a trajectory: `len(x[:-1])`. */
  function Pairs(steps: nat): nat {
    if steps >= 1 then steps - 1 else 0
  }

  /** The value subtracted from a trajectory: its value at t = 0 when
      centring, otherwise zero. */
  function Reference(traj: seq<Vec>, width: nat, center: bool): (ref: Vec)
    requires Rows(traj, width) && (center ==> |traj| >= 1)
    ensures |ref| == width
  {
    if center then traj[0] else seq(width, _ => 0.0)
  }

  /** `X1`: the first T-1 values (`x[:-1]`), optionally centred. */
  function Earlier(traj: seq<Vec>, width: nat, center: bool): (m: Mat)
    requires Rows(traj, width) && (center ==> |traj| >= 1)
    ensures m.Valid() && m.HasShape(width, Pairs(|traj|))
    ensures forall k, j | 0 <= k < width && 0 <= j < Pairs(|traj|) ::
              m.data[k][j] == traj[j][k] - Reference(traj, width, center)[k]
  {
    Snapshot(traj, width, 0, Pairs(|traj|), Reference(traj, width, center))
  }

  /** `X2`: the last T-1 values (`x[1:]`), optionally centred. */
  function Later(traj: seq<Vec>, width: nat, center: bool): (m: Mat)
    requires Rows(traj, width) && (center ==> |traj| >= 1)
    ensures m.Valid() && m.HasShape(width, Pairs(|traj|))
    ensures forall k, j | 0 <= k < width && 0 <= j < Pairs(|traj|) ::
              m.data[k][j] == traj[j + 1][k] - Reference(traj, width, center)[k]
  {
    Snapshot(traj, width, if |traj| >= 1 then 1 else 0, Pairs(|traj|), Reference(traj, width, center))
  }

  /** The snapshot pairs: X1 and X2 have T-1 columns, X2 is X1 moved one
      step forward in time, adding back the reference recovers the
      trajectory, and with centring the first column of X1 is zero. */
  lemma SnapshotPairs(traj: seq<Vec>, width: nat, center: bool)
    requires Rows(traj, width) && (center ==> |traj| >= 1)
    ensures var x1 := Earlier(traj, width, center);
            var x2 := Later(traj, width, center);
            var ref := Reference(traj, width, center);
            && x1.HasShape(width, Pairs(|traj|)) && x2.HasShape(width, Pairs(|traj|))
            && (forall k, j | 0 <= k < width && 0 <= j && j + 1 < Pairs(|traj|) :: x2.data[k][j] == x1.data[k][j + 1])
            && (forall k, j | 0 <= k < width && 0 <= j < Pairs(|traj|) ::
                  x1.data[k][j] + ref[k] == traj[j][k] && x2.data[k][j] + ref[k] == traj[j + 1][k])
            && (center && Pairs(|traj|) > 0 ==> forall k | 0 <= k < width :: x1.data[k][0] == 0.0)
  {
  }
}
