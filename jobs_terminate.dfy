/** What `terminateJobs` does, as values: a pass over one queue or slot list
    that marks the jobs whose identifier is requested (striking each found
    identifier off the request once), followed by their removal from the
    queue or the freeing of their slots. The class in `job_handler.dfy`
    runs this over its four lists. */
module JobTerminate {
  import opened PyErrors
  import opened PyList
  import opened JobQueues

  /** The jobs found so far, and the identifiers still requested. */
  datatype Marked = Marked(found: seq<Runner>, ids: seq<string>)

  /** The marking pass over the first `k` entries of `jobs`. */
  function MarkUpTo(jobs: Slots, ids: seq<string>, k: nat): Marked
    requires k <= |jobs|
  {
    if k == 0 then Marked([], ids)
    else
      var m := MarkUpTo(jobs, ids, k - 1);
      var x := jobs[k - 1];
      if x.Some? && x.value.identifier in m.ids
      then Marked(m.found + [x.value], RemoveFirst(m.ids, x.value.identifier))
      else m
  }

  /** A deque seen as a slot list without free slots. */
  function Lift(q: seq<Runner>): (s: Slots)
    ensures |s| == |q|
  {
    if q == [] then [] else Lift(q[..|q| - 1]) + [Some(q[|q| - 1])]
  }

  /** The identifiers of the runners, in order. */
  function Identifiers(rs: seq<Runner>): (ids: seq<string>)
    ensures |ids| == |rs|
  {
    if rs == [] then [] else Identifiers(rs[..|rs| - 1]) + [rs[|rs| - 1].identifier]
  }

  /** `for job in toRemove: queue.remove(job)` on a deque. */
  function RemoveEach(q: seq<Runner>, rs: seq<Runner>, k: nat): seq<Runner>
    requires k <= |rs|
  {
    if k == 0 then q
    else
      var p := RemoveEach(q, rs, k - 1);
      if rs[k - 1] in p then RemoveFirst(p, rs[k - 1]) else p
  }

  /** `for job in toRemove: queue[queue.index(job)] = None` on a slot list. */
  function ClearEach(slots: Slots, rs: seq<Runner>, k: nat): (c: Slots)
    requires k <= |rs|
    ensures |c| == |slots|
  {
    if k == 0 then slots
    else
      var p := ClearEach(slots, rs, k - 1);
      if Some(rs[k - 1]) in p then p[FirstIndex(p, Some(rs[k - 1])) := None] else p
  }

  // ---------------------------------------------------------------------
  // Marking

  /** Each found job used up one requested identifier: the identifiers left
      and those of the found jobs are together the identifiers requested. */
  lemma {:induction false} MarkAccounts(jobs: Slots, ids: seq<string>, k: nat)
    requires k <= |jobs|
    ensures multiset(MarkUpTo(jobs, ids, k).ids) + multiset(Identifiers(MarkUpTo(jobs, ids, k).found)) == multiset(ids)
  {
    if k > 0 {
      MarkAccounts(jobs, ids, k - 1);
      var m := MarkUpTo(jobs, ids, k - 1);
      var x := jobs[k - 1];
      if x.Some? && x.value.identifier in m.ids {
        var id := x.value.identifier;
        assert (m.found + [x.value])[..|m.found|] == m.found;
        AccountStep(m.ids, Identifiers(m.found), ids, id);
      }
    }
  }

  /** Striking one requested identifier off and recording it as found keeps
      the account. */
  lemma AccountStep<T>(left: seq<T>, found: seq<T>, requested: seq<T>, id: T)
    requires id in left && multiset(left) + multiset(found) == multiset(requested)
    ensures multiset(RemoveFirst(left, id)) + multiset(found + [id]) == multiset(requested)
  {
    RemoveFirstCounts(left, id);
  }

  /** Moving one part of a sum from one side to the other. */
  lemma Shift<T>(a: multiset<T>, b: multiset<T>, x: multiset<T>, c: multiset<T>, d: multiset<T>, e: multiset<T>)
    requires a + x == c && c + b == d && b + x == e
    ensures a + e == d
  {
  }

  /** The found jobs are jobs of the list: as many of each as it holds at most. */
  lemma {:induction false} MarkFindsHeld(jobs: Slots, ids: seq<string>, k: nat)
    requires k <= |jobs|
    ensures multiset(MarkUpTo(jobs, ids, k).found) <= multiset(Occupied(jobs[..k]))
  {
    if k > 0 {
      MarkFindsHeld(jobs, ids, k - 1);
      PrefixSnoc(jobs, k);
      OccupiedSnoc(jobs[..k - 1], jobs[k - 1]);
    }
  }

  /** A job that was not found had an identifier that is not requested any
      more at the end of the pass. */
  lemma {:induction false} MarkMissesNone(jobs: Slots, ids: seq<string>, k: nat)
    requires k <= |jobs|
    ensures var m := MarkUpTo(jobs, ids, k);
            forall i | 0 <= i < k && jobs[i].Some? && jobs[i].value !in m.found :: jobs[i].value.identifier !in m.ids
  {
    if k > 0 {
      MarkMissesNone(jobs, ids, k - 1);
      var m := MarkUpTo(jobs, ids, k - 1);
      var x := jobs[k - 1];
      if x.Some? && x.value.identifier in m.ids {
        var id := x.value.identifier;
        RemoveFirstCounts(m.ids, id);
        forall i | 0 <= i < k - 1 && jobs[i].Some? && jobs[i].value !in m.found + [x.value]
          ensures jobs[i].value.identifier !in RemoveFirst(m.ids, id)
        {
          assert jobs[i].value.identifier !in m.ids;
          assert multiset(RemoveFirst(m.ids, id)) <= multiset(m.ids);
        }
      }
    }
  }

  /** The found jobs all carry a requested identifier. */
  lemma MarkFindsRequested(jobs: Slots, ids: seq<string>, k: nat)
    requires k <= |jobs|
    ensures forall r | r in MarkUpTo(jobs, ids, k).found :: r.identifier in ids
  {
    var m := MarkUpTo(jobs, ids, k);
    MarkAccounts(jobs, ids, k);
    forall r | r in m.found
      ensures r.identifier in ids
    {
      var i :| 0 <= i < |m.found| && m.found[i] == r;
      IdentifiersAt(m.found, i);
      InPart(Identifiers(m.found), m.ids, ids, i);
    }
  }

  /** The `i`-th identifier is that of the `i`-th runner. */
  lemma {:induction false} IdentifiersAt(rs: seq<Runner>, i: nat)
    requires i < |rs|
    ensures Identifiers(rs)[i] == rs[i].identifier
    decreases |rs|
  {
    if i < |rs| - 1 {
      IdentifiersAt(rs[..|rs| - 1], i);
    }
  }

  /** An element of one part of a split is an element of the whole. */
  lemma InPart<T>(part: seq<T>, rest: seq<T>, whole: seq<T>, i: nat)
    requires i < |part| && multiset(rest) + multiset(part) == multiset(whole)
    ensures part[i] in whole
  {
    var y := part[i];
    assert y in multiset(part);
    assert multiset(whole)[y] == multiset(rest)[y] + multiset(part)[y];
    assert y in multiset(whole);
  }

  // ---------------------------------------------------------------------
  // Removing

  /** Removing found jobs from a deque that holds them takes exactly them out. */
  lemma {:induction false} RemoveEachTakes(q: seq<Runner>, rs: seq<Runner>, k: nat)
    requires k <= |rs| && multiset(rs) <= multiset(q)
    ensures multiset(RemoveEach(q, rs, k)) + multiset(rs[..k]) == multiset(q)
  {
    if k > 0 {
      RemoveEachTakes(q, rs, k - 1);
      var p := RemoveEach(q, rs, k - 1);
      var r := rs[k - 1];
      PrefixSnoc(rs, k);
      StillHeld(q, rs, k - 1, p);
      RemoveFirstCounts(p, r);
      assert multiset(rs[..k]) == multiset(rs[..k - 1]) + multiset{r};
      Shift(multiset(RemoveFirst(p, r)), multiset(rs[..k - 1]), multiset{r}, multiset(p),
            multiset(q), multiset(rs[..k]));
    }
  }

  /** What is left to remove is still held. */
  lemma StillHeld<T>(q: seq<T>, rs: seq<T>, k: nat, p: seq<T>)
    requires k < |rs| && multiset(rs) <= multiset(q)
    requires multiset(p) + multiset(rs[..k]) == multiset(q)
    ensures rs[k] in p
  {
    var y := rs[k];
    assert rs == rs[..k] + [y] + rs[k + 1..];
    assert multiset(rs)[y] >= multiset(rs[..k])[y] + 1;
    assert multiset(q)[y] == multiset(p)[y] + multiset(rs[..k])[y];
  }

  /** Freeing the slots of found jobs that the slots hold takes exactly them
      out, and keeps the number of slots. */
  lemma {:induction false} ClearEachTakes(slots: Slots, rs: seq<Runner>, k: nat)
    requires k <= |rs| && multiset(rs) <= multiset(Occupied(slots))
    ensures multiset(Occupied(ClearEach(slots, rs, k))) + multiset(rs[..k]) == multiset(Occupied(slots))
  {
    if k > 0 {
      ClearEachTakes(slots, rs, k - 1);
      ClearTakesStep(ClearEach(slots, rs, k - 1), slots, rs, k);
    }
  }

  /** The inductive step of `ClearEachTakes`, given the account so far. */
  lemma ClearTakesStep(p: Slots, slots: Slots, rs: seq<Runner>, k: nat)
    requires 0 < k <= |rs| && multiset(rs) <= multiset(Occupied(slots))
    requires multiset(Occupied(p)) + multiset(rs[..k - 1]) == multiset(Occupied(slots))
    ensures Some(rs[k - 1]) in p
    ensures multiset(Occupied(p[FirstIndex(p, Some(rs[k - 1])) := None])) + multiset(rs[..k]) == multiset(Occupied(slots))
  {
    StillHeld(Occupied(slots), rs, k - 1, Occupied(p));
    ClearStep(p, rs[k - 1], rs[..k - 1], Occupied(slots));
    PrefixSnoc(rs, k);
  }

  /** Freeing the first slot of one more found job keeps the account. */
  lemma ClearStep(p: Slots, r: Runner, done: seq<Runner>, held: seq<Runner>)
    requires r in Occupied(p) && multiset(Occupied(p)) + multiset(done) == multiset(held)
    ensures Some(r) in p
    ensures multiset(Occupied(p[FirstIndex(p, Some(r)) := None])) + multiset(done + [r]) == multiset(held)
  {
    OccupiedHolds(p, r);
    var i := FirstIndex(p, Some(r));
    OccupiedSet(p, i, None);
    assert Opt(p[i]) == [r] && Opt(None) == [];
    assert multiset(done + [r]) == multiset(done) + multiset{r};
    Shift(multiset(Occupied(p[i := None])), multiset(done), multiset{r}, multiset(Occupied(p)),
          multiset(held), multiset(done + [r]));
  }

  /** The `i`-th slot of a lifted deque holds the deque's `i`-th runner. */
  lemma {:induction false} LiftAt(q: seq<Runner>, i: nat)
    requires i < |q|
    ensures Lift(q)[i] == Some(q[i])
    decreases |q|
  {
    if i < |q| - 1 {
      LiftAt(q[..|q| - 1], i);
    }
  }

  /** A deque holds, as runners, what its lifted slot list holds. */
  lemma {:induction false} LiftHolds(q: seq<Runner>)
    ensures Occupied(Lift(q)) == q
    decreases |q|
  {
    if q != [] {
      var n := |q| - 1;
      var p := Lift(q[..n]);
      LiftHolds(q[..n]);
      assert Lift(q) == p + [Some(q[n])];
      OccupiedSnoc(p, Some(q[n]));
      assert Opt(Some(q[n])) == [q[n]];
      assert q == q[..n] + [q[n]];
    }
  }

  // ---------------------------------------------------------------------
  // One list of terminateJobs

  /** Over a deque: exactly the found jobs leave it, each carries a
      requested identifier, the identifiers still requested are those not
      used up, and every job that stays is no longer requested. */
  lemma TerminateDeque(q: seq<Runner>, ids: seq<string>)
    ensures var m := MarkUpTo(Lift(q), ids, |q|);
            && multiset(RemoveEach(q, m.found, |m.found|)) + multiset(m.found) == multiset(q)
            && (forall r | r in m.found :: r.identifier in ids)
            && multiset(m.ids) + multiset(Identifiers(m.found)) == multiset(ids)
            && (forall i | 0 <= i < |q| && q[i] !in m.found :: q[i].identifier !in m.ids)
  {
    var m := MarkUpTo(Lift(q), ids, |q|);
    MarkFindsHeld(Lift(q), ids, |q|);
    Whole(Lift(q));
    LiftHolds(q);
    RemoveEachTakes(q, m.found, |m.found|);
    Whole(m.found);
    MarkFindsRequested(Lift(q), ids, |q|);
    MarkAccounts(Lift(q), ids, |q|);
    MarkMissesNone(Lift(q), ids, |q|);
    forall i | 0 <= i < |q| && q[i] !in m.found
      ensures q[i].identifier !in m.ids
    {
      LiftAt(q, i);
    }
  }

  /** Over a slot list: exactly the found jobs leave their slots, the slot
      count stays, each found job carries a requested identifier, the
      identifiers still requested are those not used up, and every job that
      stays is no longer requested. */
  lemma TerminateSlots(slots: Slots, ids: seq<string>)
    ensures var m := MarkUpTo(slots, ids, |slots|);
            var c := ClearEach(slots, m.found, |m.found|);
            && |c| == |slots|
            && multiset(Occupied(c)) + multiset(m.found) == multiset(Occupied(slots))
            && (forall r | r in m.found :: r.identifier in ids)
            && multiset(m.ids) + multiset(Identifiers(m.found)) == multiset(ids)
            && (forall i | 0 <= i < |slots| && slots[i].Some? && slots[i].value !in m.found ::
                  slots[i].value.identifier !in m.ids)
  {
    var m := MarkUpTo(slots, ids, |slots|);
    MarkFindsHeld(slots, ids, |slots|);
    Whole(slots);
    ClearEachTakes(slots, m.found, |m.found|);
    Whole(m.found);
    MarkFindsRequested(slots, ids, |slots|);
    MarkAccounts(slots, ids, |slots|);
    MarkMissesNone(slots, ids, |slots|);
  }
}
