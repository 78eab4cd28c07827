/** What `getFinished` does to the handler's books, as values: which finished
    runs it hands out, how it fills and releases the batches of grouped runs,
    what it records about failed runs and which runs it deletes. The class in
    `job_handler.dfy` is proved against `GetFinishedSpec`. */
module JobCollect {
  import opened PyErrors
  import opened PyStr
  import opened JobQueues

  /** One entry of `__batching`: how many jobs were added to the group, their
      identifiers, the group's size (fixed by its first job) and the finished
      runs collected so far. */
  datatype Batch = Batch(counter: int, ids: seq<string>, size: int, finished: seq<Runner>)

  /** An entry of `__failedJobs`: the return code and the kept metadata. */
  datatype Failure = Failure(returnCode: int, metadata: Option<map<string, string>>)

  /** An element of the list `getFinished` returns: a run, or a whole batch. */
  datatype Item = Single(run: Runner) | Group(runs: seq<Runner>)

  /** The books `getFinished` reads and writes. `groupOrder` is the insertion
      order of the keys of `batching`. */
  datatype Books = Books(
    finished: seq<Runner>,
    batching: map<string, Batch>,
    groupOrder: seq<string>,
    failed: map<string, Failure>)

  /** The groups are listed once each, and exactly the open groups are listed. */
  predicate BooksValid(bk: Books) {
    && Distinct(bk.groupOrder)
    && (forall g | g in bk.batching :: g in bk.groupOrder)
    && (forall g | g in bk.groupOrder :: g in bk.batching)
  }

  /** A run is collected when its identifier starts with the prefix and its
      handler is the requested one. */
  predicate Matches(run: Runner, prefix: string, handler: string) {
    StartsWith(run.identifier, prefix) && handler == run.uniqueHandler
  }

  /** A run belongs to a group that is still open. */
  predicate Grouped(run: Runner, batching: map<string, Batch>) {
    run.groupId.Some? && run.groupId.value in batching
  }

  // ---------------------------------------------------------------------
  // __checkAndRemoveFinished

  /** The metadata kept for a failed run: all of it but the "jobHandler" entry. */
  function KeptMetadata(m: Option<map<string, string>>): (k: Option<map<string, string>>)
    ensures k.Some? <==> m.Some?
    ensures k.Some? ==> "jobHandler" !in k.value
    ensures k.Some? ==> forall key | key in m.value && key != "jobHandler" :: key in k.value && k.value[key] == m.value[key]
    ensures k.Some? ==> forall key | key in k.value :: key in m.value
  {
    if m.Some? && "jobHandler" in m.value then Some(m.value - {"jobHandler"}) else m
  }

  /** A run with a nonzero return code is entered in the failed table under
      its identifier (a later failure of the same identifier overwrites). */
  function RecordFailure(failed: map<string, Failure>, run: Runner, code: int): map<string, Failure> {
    if code != 0 then failed[run.identifier := Failure(code, KeptMetadata(run.metadata))] else failed
  }

  // ---------------------------------------------------------------------
  // The scan over the finished list

  /** What the scan has built: the loose runs handed out, the batches, the
      failed table and the indices to delete. */
  datatype Scan = Scan(items: seq<Item>, batching: map<string, Batch>, failed: map<string, Failure>, picked: seq<nat>)

  /** One matched run, at index `i` of the finished list: it joins its open
      batch unless already there, or is handed out alone; with removal its
      index is picked and its failure recorded. */
  function Gather(s: Scan, run: Runner, i: nat, remove: bool, code: int): Scan {
    var s1 :=
      if Grouped(run, s.batching) then
        var g := run.groupId.value;
        var b := s.batching[g];
        if run in b.finished then s
        else s.(batching := s.batching[g := b.(finished := b.finished + [run])])
      else s.(items := s.items + [Single(run)]);
    if remove then s1.(picked := s1.picked + [i], failed := RecordFailure(s1.failed, run, code)) else s1
  }

  /** The scan over the first `k` finished runs. */
  function ScanUpTo(fin: seq<Runner>, batching: map<string, Batch>, failed: map<string, Failure>,
                    prefix: string, handler: string, remove: bool, code: Runner -> int, k: nat): (s: Scan)
    requires k <= |fin|
    ensures s.batching.Keys == batching.Keys
  {
    if k == 0 then Scan([], batching, failed, [])
    else
      var s := ScanUpTo(fin, batching, failed, prefix, handler, remove, code, k - 1);
      if Matches(fin[k - 1], prefix, handler) then Gather(s, fin[k - 1], k - 1, remove, code(fin[k - 1])) else s
  }

  /** The indices, among the first `k`, of the runs that match. */
  function MatchedIndices(fin: seq<Runner>, prefix: string, handler: string, k: nat): (ps: seq<nat>)
    requires k <= |fin|
    ensures forall j | 0 <= j < |ps| :: ps[j] < k && Matches(fin[ps[j]], prefix, handler)
    ensures forall i | 0 <= i < k && Matches(fin[i], prefix, handler) :: i in ps
    ensures forall j, l | 0 <= j < l < |ps| :: ps[j] < ps[l]
  {
    if k == 0 then []
    else
      var ps := MatchedIndices(fin, prefix, handler, k - 1);
      if Matches(fin[k - 1], prefix, handler) then ps + [k - 1] else ps
  }

  /** The runs that do not match, in order: the reference for what stays. */
  function Unmatched(rs: seq<Runner>, prefix: string, handler: string): (u: seq<Runner>)
    ensures forall r | r in u :: r in rs && !Matches(r, prefix, handler)
  {
    if rs == [] then []
    else
      var n := |rs| - 1;
      Unmatched(rs[..n], prefix, handler) + (if Matches(rs[n], prefix, handler) then [] else [rs[n]])
  }

  /** The runs handed out alone: those that match and whose group is not open. */
  function Loose(rs: seq<Runner>, batching: map<string, Batch>, prefix: string, handler: string): (l: seq<Item>)
    ensures forall it | it in l :: it.Single? && it.run in rs && Matches(it.run, prefix, handler) && !Grouped(it.run, batching)
  {
    if rs == [] then []
    else
      var n := |rs| - 1;
      var r := rs[n];
      Loose(rs[..n], batching, prefix, handler) + (if Matches(r, prefix, handler) && !Grouped(r, batching) then [Single(r)] else [])
  }

  // ---------------------------------------------------------------------
  // Deleting the picked indices, highest first

  function RemoveAt<T>(xs: seq<T>, i: nat): (r: seq<T>)
    requires i < |xs|
    ensures |r| == |xs| - 1
  {
    xs[..i] + xs[i + 1..]
  }

  /** `for i in reversed(ps): del xs[i]`. */
  function RemoveAll<T>(xs: seq<T>, ps: seq<nat>): seq<T>
    requires forall j | 0 <= j < |ps| :: ps[j] < |xs|
    requires forall j, l | 0 <= j < l < |ps| :: ps[j] < ps[l]
    decreases |ps|
  {
    if ps == [] then xs
    else
      var n := |ps| - 1;
      assert forall j | 0 <= j < n :: ps[j] < ps[n];
      RemoveAll(RemoveAt(xs, ps[n]), ps[..n])
  }

  // ---------------------------------------------------------------------
  // Releasing the batches

  /** What the pass over the groups has built. `corrupted` stands for the
      RuntimeError raised when a batch holds more runs than its size. */
  datatype Collected = Collected(items: seq<Item>, batching: map<string, Batch>, order: seq<string>, corrupted: bool)

  /** The list without `g`. */
  function Without(xs: seq<string>, g: string): (r: seq<string>)
    ensures forall x :: x in r <==> x in xs && x != g
  {
    if xs == [] then []
    else
      var n := |xs| - 1;
      Without(xs[..n], g) + (if xs[n] == g then [] else [xs[n]])
  }

  /** A batch holding more runs than its size. */
  predicate Over(b: Batch) {
    |b.finished| > b.size
  }

  /** A batch holding exactly its size. */
  predicate Full(b: Batch) {
    |b.finished| == b.size
  }

  /** The batches of the groups `gs`, in order, as handed out: all of them,
      or only the full ones. */
  function Batches(gs: seq<string>, batching: map<string, Batch>, onlyFull: bool): (items: seq<Item>)
    requires forall g | g in gs :: g in batching
    ensures |items| <= |gs|
    ensures !onlyFull ==> |items| == |gs|
    ensures forall it | it in items :: it.Group?
  {
    if gs == [] then []
    else
      var n := |gs| - 1;
      var b := batching[gs[n]];
      Batches(gs[..n], batching, onlyFull) + (if !onlyFull || Full(b) then [Group(b.finished)] else [])
  }

  /** One group: an over-full batch is an error; without removal every batch
      is handed out as it is; with removal only a full batch is handed out,
      and it is closed. */
  function Release(c: Collected, g: string, remove: bool): Collected {
    if g !in c.batching then c
    else
      var b := c.batching[g];
      if |b.finished| > b.size then c.(corrupted := true)
      else if !remove then c.(items := c.items + [Group(b.finished)])
      else if |b.finished| == b.size then
        Collected(c.items + [Group(b.finished)], c.batching - {g}, Without(c.order, g), false)
      else c
  }

  /** The pass over the first `j` groups of `gs`, which stops at the first
      over-full batch. */
  function CollectUpTo(gs: seq<string>, c0: Collected, remove: bool, j: nat): Collected
    requires j <= |gs|
  {
    if j == 0 then c0
    else
      var c := CollectUpTo(gs, c0, remove, j - 1);
      if c.corrupted then c else Release(c, gs[j - 1], remove)
  }

  // ---------------------------------------------------------------------
  // getFinished

  /** `getFinished(removeFinished, jobIdentifier, uniqueHandler)` on the
      books; `code` gives each run's return code. On the error the books keep
      what was done before it was raised. */
  function GetFinishedSpec(bk: Books, remove: bool, prefix: string, handler: string,
                           code: Runner -> int): (Result<seq<Item>>, Books)
  {
    var fin := bk.finished;
    var s := ScanAll(bk, remove, prefix, handler, code);
    var c := CollectUpTo(bk.groupOrder, Collected(s.items, s.batching, bk.groupOrder, false), remove, |bk.groupOrder|);
    var finished := if remove && !c.corrupted then RemoveAll(fin, MatchedIndices(fin, prefix, handler, |fin|)) else fin;
    var bk' := Books(finished, c.batching, c.order, s.failed);
    if c.corrupted then (Err(RuntimeError), bk') else (Ok(c.items), bk')
  }

  /** The scan over the whole finished list. */
  function ScanAll(bk: Books, remove: bool, prefix: string, handler: string, code: Runner -> int): Scan {
    ScanUpTo(bk.finished, bk.batching, bk.failed, prefix, handler, remove, code, |bk.finished|)
  }

  // ---------------------------------------------------------------------
  // The scan

  /** The scan adds runs to the open batches and changes nothing else about
      them: the same groups stay open with the same counter, ids and size,
      and what a batch held before is still at its head. */
  lemma {:induction false} ScanKeepsBatches(fin: seq<Runner>, batching: map<string, Batch>, failed: map<string, Failure>,
                                            prefix: string, handler: string, remove: bool, code: Runner -> int, k: nat)
    requires k <= |fin|
    ensures var s := ScanUpTo(fin, batching, failed, prefix, handler, remove, code, k);
            forall g | g in batching ::
                 && s.batching[g].counter == batching[g].counter
                 && s.batching[g].ids == batching[g].ids
                 && s.batching[g].size == batching[g].size
                 && batching[g].finished <= s.batching[g].finished
  {
    if k > 0 {
      ScanKeepsBatches(fin, batching, failed, prefix, handler, remove, code, k - 1);
    }
  }

  /** A grouped run enters its batch at most once: batches without repeats
      stay without repeats. */
  lemma {:induction false} ScanEntersOnce(fin: seq<Runner>, batching: map<string, Batch>, failed: map<string, Failure>,
                                          prefix: string, handler: string, remove: bool, code: Runner -> int, k: nat)
    requires k <= |fin|
    requires forall g | g in batching :: Distinct(batching[g].finished)
    ensures var s := ScanUpTo(fin, batching, failed, prefix, handler, remove, code, k);
            forall g | g in batching :: Distinct(s.batching[g].finished)
  {
    if k > 0 {
      ScanEntersOnce(fin, batching, failed, prefix, handler, remove, code, k - 1);
      var s := ScanUpTo(fin, batching, failed, prefix, handler, remove, code, k - 1);
      var r := fin[k - 1];
      if Matches(r, prefix, handler) && Grouped(r, s.batching) && r !in s.batching[r.groupId.value].finished {
        var g := r.groupId.value;
        assert g in s.batching;
        assert Distinct(s.batching[g].finished);
        AppendFresh(s.batching[g].finished, r);
      }
    }
  }

  lemma AppendFresh<T>(xs: seq<T>, x: T)
    requires Distinct(xs) && x !in xs
    ensures Distinct(xs + [x])
  {
    forall i, j | 0 <= i < j < |xs| + 1
      ensures (xs + [x])[i] != (xs + [x])[j]
    {
      if j == |xs| {
        assert (xs + [x])[i] == xs[i];
      }
    }
  }

  /** Only matching runs of the group enter a batch, and every matching run
      of an open group is in its batch after the scan. */
  lemma {:induction false} ScanFillsBatches(fin: seq<Runner>, batching: map<string, Batch>, failed: map<string, Failure>,
                                            prefix: string, handler: string, remove: bool, code: Runner -> int, k: nat)
    requires k <= |fin|
    ensures var s := ScanUpTo(fin, batching, failed, prefix, handler, remove, code, k);
            && (forall g, r | g in batching && r in s.batching[g].finished ::
                  r in batching[g].finished || (r in fin[..k] && Matches(r, prefix, handler) && r.groupId == Some(g)))
            && (forall i | 0 <= i < k && Matches(fin[i], prefix, handler) && Grouped(fin[i], batching) ::
                  fin[i] in s.batching[fin[i].groupId.value].finished)
  {
    if k > 0 {
      ScanFillsBatches(fin, batching, failed, prefix, handler, remove, code, k - 1);
      ScanKeepsBatches(fin, batching, failed, prefix, handler, remove, code, k - 1);
      assert fin[..k] == fin[..k - 1] + [fin[k - 1]];
    }
  }

  /** The runs handed out alone are the loose matching runs, in order. */
  lemma {:induction false} ScanLoose(fin: seq<Runner>, batching: map<string, Batch>, failed: map<string, Failure>,
                                     prefix: string, handler: string, remove: bool, code: Runner -> int, k: nat)
    requires k <= |fin|
    ensures ScanUpTo(fin, batching, failed, prefix, handler, remove, code, k).items == Loose(fin[..k], batching, prefix, handler)
  {
    if k > 0 {
      ScanLoose(fin, batching, failed, prefix, handler, remove, code, k - 1);
      ScanKeepsBatches(fin, batching, failed, prefix, handler, remove, code, k - 1);
      assert fin[..k][..k - 1] == fin[..k - 1];
    }
  }

  /** With removal exactly the matching indices are picked, in ascending
      order; without removal none is, and no failure is recorded. */
  lemma {:induction false} ScanPicks(fin: seq<Runner>, batching: map<string, Batch>, failed: map<string, Failure>,
                                     prefix: string, handler: string, remove: bool, code: Runner -> int, k: nat)
    requires k <= |fin|
    ensures var s := ScanUpTo(fin, batching, failed, prefix, handler, remove, code, k);
            && (remove ==> s.picked == MatchedIndices(fin, prefix, handler, k))
            && (!remove ==> s.picked == [] && s.failed == failed)
  {
    if k > 0 {
      ScanPicks(fin, batching, failed, prefix, handler, remove, code, k - 1);
      var s := ScanUpTo(fin, batching, failed, prefix, handler, remove, code, k - 1);
      var r := fin[k - 1];
      if Matches(r, prefix, handler) {
        GatherPicks(s, r, k - 1, remove, code(r));
      }
    }
  }

  /** Gathering one run picks its index exactly when removing, and leaves
      the failures alone otherwise. */
  lemma GatherPicks(s: Scan, run: Runner, i: nat, remove: bool, c: int)
    ensures Gather(s, run, i, remove, c).picked == if remove then s.picked + [i] else s.picked
    ensures !remove ==> Gather(s, run, i, remove, c).failed == s.failed
  {
  }

  /** Failures are only added: a run collected with removal and a nonzero
      return code is in the failed table afterwards, and every new entry
      comes from such a run. */
  lemma {:induction false} ScanRecordsFailures(fin: seq<Runner>, batching: map<string, Batch>, failed: map<string, Failure>,
                                               prefix: string, handler: string, remove: bool, code: Runner -> int, k: nat)
    requires k <= |fin|
    ensures var s := ScanUpTo(fin, batching, failed, prefix, handler, remove, code, k);
            && failed.Keys <= s.failed.Keys
            && (remove ==> forall i | 0 <= i < k && Matches(fin[i], prefix, handler) && code(fin[i]) != 0 ::
                             fin[i].identifier in s.failed)
            && (forall id | id in s.failed && id !in failed ::
                  exists i | 0 <= i < k :: fin[i].identifier == id && Matches(fin[i], prefix, handler) && code(fin[i]) != 0)
  {
    if k > 0 {
      ScanRecordsFailures(fin, batching, failed, prefix, handler, remove, code, k - 1);
    }
  }

  // ---------------------------------------------------------------------
  // The pass over the groups

  /** What the pass over the groups may assume: the groups are distinct and
      open, and the key order lists exactly the open groups once each. */
  predicate CollectReady(gs: seq<string>, c0: Collected) {
    && Distinct(gs)
    && (forall g | g in gs :: g in c0.batching)
    && Distinct(c0.order)
    && (forall x | x in c0.order :: x in c0.batching)
    && (forall x | x in c0.batching :: x in c0.order)
  }

  /** The pass only closes groups: what stays open is unchanged, the key
      order still lists exactly the open groups once each, and the groups
      not yet visited are open. */
  lemma {:induction false} CollectFrame(gs: seq<string>, c0: Collected, remove: bool, j: nat)
    requires j <= |gs| && CollectReady(gs, c0)
    ensures var c := CollectUpTo(gs, c0, remove, j);
            && (forall g | g in c.batching :: g in c0.batching && c.batching[g] == c0.batching[g])
            && Distinct(c.order)
            && (forall x | x in c.order :: x in c.batching)
            && (forall x | x in c.batching :: x in c.order)
            && (forall i | j <= i < |gs| :: gs[i] in c.batching)
  {
    if j > 0 {
      CollectFrame(gs, c0, remove, j - 1);
      var c := CollectUpTo(gs, c0, remove, j - 1);
      var g := gs[j - 1];
      forall i | j <= i < |gs|
        ensures gs[i] != g
      {
        assert gs[j - 1] != gs[i];
      }
      if !c.corrupted && remove && g in c.batching && !Over(c.batching[g]) && Full(c.batching[g]) {
        WithoutDistinct(c.order, g);
      }
    }
  }

  /** Removing an element keeps a list without repeats. */
  lemma {:induction false} WithoutDistinct(xs: seq<string>, g: string)
    requires Distinct(xs)
    ensures Distinct(Without(xs, g))
    decreases |xs|
  {
    if xs != [] {
      var n := |xs| - 1;
      assert Distinct(xs[..n]);
      WithoutDistinct(xs[..n], g);
      if xs[n] != g {
        assert xs[n] !in xs[..n];
        AppendFresh(Without(xs[..n], g), xs[n]);
      }
    }
  }

  /** The pass raises exactly when one of the visited batches is over-full. */
  lemma {:induction false} CollectFails(gs: seq<string>, c0: Collected, remove: bool, j: nat)
    requires j <= |gs| && CollectReady(gs, c0) && !c0.corrupted
    ensures CollectUpTo(gs, c0, remove, j).corrupted <==> exists i | 0 <= i < j :: Over(c0.batching[gs[i]])
  {
    if j > 0 {
      CollectFails(gs, c0, remove, j - 1);
      CollectFrame(gs, c0, remove, j - 1);
    }
  }

  /** Without an error, the pass hands out the batches of the visited groups
      (all of them, or with removal the full ones), and with removal exactly
      the full ones are closed. */
  lemma {:induction false} CollectHandsOut(gs: seq<string>, c0: Collected, remove: bool, j: nat)
    requires j <= |gs| && CollectReady(gs, c0)
    ensures var c := CollectUpTo(gs, c0, remove, j);
            !c.corrupted ==>
              && c.items == c0.items + Batches(gs[..j], c0.batching, remove)
              && forall g | g in c0.batching :: (g in c.batching <==> !(remove && g in gs[..j] && Full(c0.batching[g])))
  {
    if j > 0 {
      CollectHandsOut(gs, c0, remove, j - 1);
      CollectFrame(gs, c0, remove, j - 1);
      var c := CollectUpTo(gs, c0, remove, j - 1);
      assert gs[..j] == gs[..j - 1] + [gs[j - 1]];
      assert gs[..j][..j - 1] == gs[..j - 1];
    }
  }

  // ---------------------------------------------------------------------
  // The deletion

  /** Deleting indices below the end leaves an appended element in place. */
  lemma {:induction false} RemoveAllSnoc<T>(xs: seq<T>, y: T, ps: seq<nat>)
    requires forall j | 0 <= j < |ps| :: ps[j] < |xs|
    requires forall j, l | 0 <= j < l < |ps| :: ps[j] < ps[l]
    ensures RemoveAll(xs + [y], ps) == RemoveAll(xs, ps) + [y]
    decreases |ps|
  {
    if ps != [] {
      var n := |ps| - 1;
      assert forall j | 0 <= j < n :: ps[j] < ps[n];
      assert RemoveAt(xs + [y], ps[n]) == RemoveAt(xs, ps[n]) + [y];
      RemoveAllSnoc(RemoveAt(xs, ps[n]), y, ps[..n]);
    }
  }

  /** Deleting the last index drops the appended element. */
  lemma RemoveAllLast<T>(xs: seq<T>, y: T, ps: seq<nat>)
    requires forall j | 0 <= j < |ps| :: ps[j] < |xs|
    requires forall j, l | 0 <= j < l < |ps| :: ps[j] < ps[l]
    ensures RemoveAll(xs + [y], ps + [|xs|]) == RemoveAll(xs, ps)
  {
    var qs := ps + [|xs|];
    assert qs[..|ps|] == ps;
    assert RemoveAt(xs + [y], |xs|) == xs;
  }

  lemma UnmatchedSnoc(rs: seq<Runner>, r: Runner, prefix: string, handler: string)
    ensures Unmatched(rs + [r], prefix, handler)
            == Unmatched(rs, prefix, handler) + (if Matches(r, prefix, handler) then [] else [r])
  {
    assert (rs + [r])[..|rs|] == rs;
  }

  /** Deleting the matched indices, highest first, leaves exactly the runs
      that do not match, in their order. */
  lemma {:induction false} DeleteMatched(fin: seq<Runner>, prefix: string, handler: string, k: nat)
    requires k <= |fin|
    ensures RemoveAll(fin[..k], MatchedIndices(fin, prefix, handler, k)) == Unmatched(fin[..k], prefix, handler)
  {
    if k > 0 {
      DeleteMatched(fin, prefix, handler, k - 1);
      var ps := MatchedIndices(fin, prefix, handler, k - 1);
      var a, y := fin[..k - 1], fin[k - 1];
      PrefixSnoc(fin, k);
      UnmatchedSnoc(a, y, prefix, handler);
      if Matches(y, prefix, handler) {
        RemoveAllLast(a, y, ps);
      } else {
        RemoveAllSnoc(a, y, ps);
      }
    }
  }

  // ---------------------------------------------------------------------
  // getFinished as a whole

  /** After the scan, the pass over the groups may start. */
  lemma ReadyAfterScan(bk: Books, remove: bool, prefix: string, handler: string, code: Runner -> int)
    requires BooksValid(bk)
    ensures var s := ScanAll(bk, remove, prefix, handler, code);
            CollectReady(bk.groupOrder, Collected(s.items, s.batching, bk.groupOrder, false))
  {
  }

  /** `getFinished` raises exactly when, after the scan, some batch holds
      more runs than its size. */
  lemma GetFinishedFails(bk: Books, remove: bool, prefix: string, handler: string, code: Runner -> int)
    requires BooksValid(bk)
    ensures var s := ScanAll(bk, remove, prefix, handler, code);
            var r := GetFinishedSpec(bk, remove, prefix, handler, code).0;
            && (r.Err? <==> exists g | g in bk.groupOrder :: Over(s.batching[g]))
            && (r.Err? ==> r.error == RuntimeError)
  {
    var s := ScanAll(bk, remove, prefix, handler, code);
    var gs := bk.groupOrder;
    var c0 := Collected(s.items, s.batching, gs, false);
    ReadyAfterScan(bk, remove, prefix, handler, code);
    CollectFails(gs, c0, remove, |gs|);
    if exists g | g in gs :: Over(s.batching[g]) {
      var g :| g in gs && Over(s.batching[g]);
      var i :| 0 <= i < |gs| && gs[i] == g;
      assert Over(c0.batching[gs[i]]);
    }
  }

  /** The books stay valid, whether or not `getFinished` raises. */
  lemma GetFinishedKeepsBooks(bk: Books, remove: bool, prefix: string, handler: string, code: Runner -> int)
    requires BooksValid(bk)
    ensures BooksValid(GetFinishedSpec(bk, remove, prefix, handler, code).1)
  {
    var s := ScanAll(bk, remove, prefix, handler, code);
    ReadyAfterScan(bk, remove, prefix, handler, code);
    CollectFrame(bk.groupOrder, Collected(s.items, s.batching, bk.groupOrder, false), remove, |bk.groupOrder|);
  }

  /** With removal and no error, exactly the matched runs leave the finished
      list and the others stay in order; otherwise the list is unchanged. */
  lemma GetFinishedDeletes(bk: Books, remove: bool, prefix: string, handler: string, code: Runner -> int)
    ensures var (r, bk') := GetFinishedSpec(bk, remove, prefix, handler, code);
            && (remove && r.Ok? ==> bk'.finished == Unmatched(bk.finished, prefix, handler))
            && (!(remove && r.Ok?) ==> bk'.finished == bk.finished)
  {
    DeleteMatched(bk.finished, prefix, handler, |bk.finished|);
    Whole(bk.finished);
  }

  /** The list handed out: the loose matching runs in finished order, then
      the batches in group order (all of them without removal, the full
      ones with removal). */
  lemma GetFinishedHandsOut(bk: Books, remove: bool, prefix: string, handler: string, code: Runner -> int)
    requires BooksValid(bk)
    ensures var s := ScanAll(bk, remove, prefix, handler, code);
            var r := GetFinishedSpec(bk, remove, prefix, handler, code).0;
            r.Ok? ==> r.value == Loose(bk.finished, bk.batching, prefix, handler) + Batches(bk.groupOrder, s.batching, remove)
  {
    var s := ScanAll(bk, remove, prefix, handler, code);
    var gs := bk.groupOrder;
    ReadyAfterScan(bk, remove, prefix, handler, code);
    ScanLoose(bk.finished, bk.batching, bk.failed, prefix, handler, remove, code, |bk.finished|);
    CollectHandsOut(gs, Collected(s.items, s.batching, gs, false), remove, |gs|);
    Whole(bk.finished);
    Whole(gs);
  }

  /** With removal and no error, a group is closed exactly when its batch is
      full; the batches left open are as the scan left them. */
  lemma GetFinishedCloses(bk: Books, prefix: string, handler: string, code: Runner -> int)
    requires BooksValid(bk)
    ensures var s := ScanAll(bk, true, prefix, handler, code);
            var (r, bk') := GetFinishedSpec(bk, true, prefix, handler, code);
            r.Ok? ==>
              && (forall g :: g in bk'.batching <==> g in bk.batching && !Full(s.batching[g]))
              && (forall g | g in bk'.batching :: bk'.batching[g] == s.batching[g])
  {
    var s := ScanAll(bk, true, prefix, handler, code);
    var gs := bk.groupOrder;
    var c0 := Collected(s.items, s.batching, gs, false);
    ReadyAfterScan(bk, true, prefix, handler, code);
    CollectHandsOut(gs, c0, true, |gs|);
    CollectFrame(gs, c0, true, |gs|);
    Whole(gs);
  }

  /** Without removal the finished list, the failed table and the groups
      stay as they are, and every group yields one element of the result. */
  lemma GetFinishedPeeks(bk: Books, prefix: string, handler: string, code: Runner -> int)
    requires BooksValid(bk)
    ensures var (r, bk') := GetFinishedSpec(bk, false, prefix, handler, code);
            && bk'.finished == bk.finished
            && bk'.failed == bk.failed
            && bk'.groupOrder == bk.groupOrder
            && bk'.batching.Keys == bk.batching.Keys
            && (r.Ok? ==> |r.value| == |Loose(bk.finished, bk.batching, prefix, handler)| + |bk.groupOrder|)
  {
    var s := ScanAll(bk, false, prefix, handler, code);
    var gs := bk.groupOrder;
    var c0 := Collected(s.items, s.batching, gs, false);
    ReadyAfterScan(bk, false, prefix, handler, code);
    ScanPicks(bk.finished, bk.batching, bk.failed, prefix, handler, false, code, |bk.finished|);
    GetFinishedHandsOut(bk, false, prefix, handler, code);
    CollectUnchanged(gs, c0, |gs|);
  }

  /** The pass stops at the first over-full batch: nothing after it changes. */
  lemma {:induction false} CollectStops(gs: seq<string>, c0: Collected, remove: bool, j: nat, k: nat)
    requires j <= k <= |gs| && CollectUpTo(gs, c0, remove, j).corrupted
    ensures CollectUpTo(gs, c0, remove, k) == CollectUpTo(gs, c0, remove, j)
    decreases k
  {
    if j < k {
      CollectStops(gs, c0, remove, j, k - 1);
    }
  }

  /** Without removal the pass over the groups closes none. */
  lemma {:induction false} CollectUnchanged(gs: seq<string>, c0: Collected, j: nat)
    requires j <= |gs|
    ensures var c := CollectUpTo(gs, c0, false, j);
            c.batching == c0.batching && c.order == c0.order
  {
    if j > 0 {
      CollectUnchanged(gs, c0, j - 1);
    }
  }
}
