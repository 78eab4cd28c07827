/** The bookkeeping of the job handler as values: the runner record, the
    fixed-size slot lists, and what filling, cleaning, collecting and
    terminating do to them. The class in `job_handler.dfy` is proved against
    these functions. */
module JobQueues {
  import opened PyErrors
  import opened PyStr
  import opened PyList

  /** The attributes of a runner that the handler reads. `uid` stands for
      the object's identity (Python compares runners with `is`/`==` on the
      object); whether the run is done and its return code come from the
      process and are inputs of the operations that ask for them. */
  datatype Runner = Runner(
    uid: nat,
    identifier: string,
    uniqueHandler: string,
    clientRunner: bool,
    groupId: Option<string>,
    metadata: Option<map<string, string>>)

  /** A slot list (`__running` / `__clientRunning`): `None` marks a free slot. */
  type Slots = seq<Option<Runner>>

  predicate Distinct<T(==)>(xs: seq<T>) {
    forall i, j | 0 <= i < j < |xs| :: xs[i] != xs[j]
  }

  // ---------------------------------------------------------------------
  // Free and occupied slots

  /** `[i for i, run in enumerate(slots) if run is None]`: the free slots in
      ascending order. */
  function EmptySlots(slots: Slots): (e: seq<nat>)
    ensures forall k | 0 <= k < |e| :: e[k] < |slots| && slots[e[k]].None?
    ensures forall i | 0 <= i < |slots| && slots[i].None? :: i in e
    ensures forall k, l | 0 <= k < l < |e| :: e[k] < e[l]
  {
    if slots == [] then []
    else
      var n := |slots| - 1;
      var e := EmptySlots(slots[..n]);
      assert forall k | 0 <= k < |e| :: slots[e[k]] == slots[..n][e[k]];
      if slots[n].None? then e + [n] else e
  }

  /** The runner of a slot, as a list of zero or one element. */
  function Opt(x: Option<Runner>): seq<Runner> {
    if x.Some? then [x.value] else []
  }

  /** The runners held by the slots, in slot order. */
  function Occupied(slots: Slots): (rs: seq<Runner>)
    ensures |rs| <= |slots|
  {
    if slots == [] then []
    else
      var n := |slots| - 1;
      Occupied(slots[..n]) + Opt(slots[n])
  }

  /** Every slot is either free or held: the held count and the free count
      add up to the number of slots. */
  lemma {:induction false} SlotsPartition(slots: Slots)
    ensures |Occupied(slots)| + |EmptySlots(slots)| == |slots|
    decreases |slots|
  {
    if slots != [] {
      SlotsPartition(slots[..|slots| - 1]);
    }
  }

  /** Overwriting a slot: the runners held afterwards, plus the old
      occupant, are the runners held before, plus the new one. */
  lemma {:induction false} OccupiedSet(slots: Slots, i: nat, x: Option<Runner>)
    requires i < |slots|
    ensures multiset(Occupied(slots[i := x])) + multiset(Opt(slots[i]))
            == multiset(Occupied(slots)) + multiset(Opt(x))
    decreases |slots|
  {
    var n := |slots| - 1;
    if i < n {
      var front := slots[..n];
      UpdatePrefix(slots, i, x, n);
      assert slots[i := x][..n] == front[i := x] && front[i] == slots[i];
      OccupiedSet(front, i, x);
      OccupiedSetBelow(slots, i, x);
    } else {
      assert i == n;
      OccupiedSetLast(slots, x);
    }
  }

  /** The inductive step of `OccupiedSet`: the last slot is untouched. */
  lemma OccupiedSetBelow(slots: Slots, i: nat, x: Option<Runner>)
    requires i < |slots| - 1
    requires var n := |slots| - 1;
             multiset(Occupied(slots[i := x][..n])) + multiset(Opt(slots[i]))
             == multiset(Occupied(slots[..n])) + multiset(Opt(x))
    ensures multiset(Occupied(slots[i := x])) + multiset(Opt(slots[i]))
            == multiset(Occupied(slots)) + multiset(Opt(x))
  {
    var n := |slots| - 1;
    var t := slots[i := x];
    var a, a', o := Occupied(slots[..n]), Occupied(t[..n]), Opt(slots[n]);
    OccupiedLast(slots);
    OccupiedLast(t);
    assert t[n] == slots[n];
    assert Occupied(t) == a' + o && Occupied(slots) == a + o;
    AddBoth(a, a', o, Opt(slots[i]), Opt(x));
  }

  /** Overwriting the last slot. */
  lemma OccupiedSetLast(slots: Slots, x: Option<Runner>)
    requires slots != []
    ensures var n := |slots| - 1;
            multiset(Occupied(slots[n := x])) + multiset(Opt(slots[n]))
            == multiset(Occupied(slots)) + multiset(Opt(x))
  {
    var n := |slots| - 1;
    var t := slots[n := x];
    OccupiedLast(slots);
    OccupiedLast(t);
    UpdateAfter(slots, n, x, n);
    SwapLast(Occupied(slots[..n]), Opt(x), Opt(slots[n]));
  }

  lemma OccupiedLast(slots: Slots)
    requires slots != []
    ensures Occupied(slots) == Occupied(slots[..|slots| - 1]) + Opt(slots[|slots| - 1])
  {
  }

  lemma AddBoth<T>(a: seq<T>, a': seq<T>, o: seq<T>, p: seq<T>, q: seq<T>)
    requires multiset(a') + multiset(p) == multiset(a) + multiset(q)
    ensures multiset(a' + o) + multiset(p) == multiset(a + o) + multiset(q)
  {
    calc {
      multiset(a' + o) + multiset(p);
      multiset(a') + multiset(p) + multiset(o);
      multiset(a) + multiset(q) + multiset(o);
      multiset(a + o) + multiset(q);
    }
  }

  lemma SwapLast<T>(a: seq<T>, x: seq<T>, y: seq<T>)
    ensures multiset(a + x) + multiset(y) == multiset(a + y) + multiset(x)
  {
    calc {
      multiset(a + x) + multiset(y);
      multiset(a) + multiset(x) + multiset(y);
      multiset(a + y) + multiset(x);
    }
  }

  /** A runner is held by the slots exactly when some slot holds it. */
  lemma {:induction false} OccupiedHolds(slots: Slots, r: Runner)
    ensures r in Occupied(slots) <==> Some(r) in slots
    decreases |slots|
  {
    if slots != [] {
      var n := |slots| - 1;
      OccupiedHolds(slots[..n], r);
      assert slots == slots[..n] + [slots[n]];
    }
  }

  /** Occupied slots of a list with a slot in front. */
  lemma {:induction false} OccupiedCons(x: Option<Runner>, slots: Slots)
    ensures Occupied([x] + slots) == Opt(x) + Occupied(slots)
    decreases |slots|
  {
    if slots != [] {
      var n := |slots| - 1;
      assert ([x] + slots)[..n + 1] == [x] + slots[..n];
      OccupiedCons(x, slots[..n]);
    } else {
      assert ([x] + slots)[..0] == [];
    }
  }

  // ---------------------------------------------------------------------
  // fillJobQueue

  datatype Filled = Filled(slots: Slots, queue: seq<Runner>, started: nat)

  /** The loop of `fillJobQueue` over the free slots `e`: while the queue is
      not empty its head is popped into the next free slot. */
  function FillAt(slots: Slots, queue: seq<Runner>, e: seq<nat>): (f: Filled)
    requires forall k | 0 <= k < |e| :: e[k] < |slots|
    ensures |f.slots| == |slots|
    decreases |e|
  {
    if e == [] || queue == [] then Filled(slots, queue, 0)
    else
      var f := FillAt(slots[e[0] := Some(queue[0])], queue[1..], e[1..]);
      Filled(f.slots, f.queue, f.started + 1)
  }

  function Min(a: nat, b: nat): nat {
    if a <= b then a else b
  }

  /** Filling puts the first `n` queued runners, in queue order, into the
      first `n` free slots, in slot order, where `n` is the smaller of the
      two counts; every other slot keeps its content and the queue loses
      exactly its first `n` runners, one start per runner. */
  lemma {:induction false} FillPlacesHeads(slots: Slots, queue: seq<Runner>, e: seq<nat>)
    requires forall k | 0 <= k < |e| :: e[k] < |slots|
    requires forall k, l | 0 <= k < l < |e| :: e[k] < e[l]
    ensures var n := Min(|e|, |queue|);
            var f := FillAt(slots, queue, e);
            && f.started == n && f.queue == queue[n..]
            && (forall j | 0 <= j < n :: f.slots[e[j]] == Some(queue[j]))
            && (forall i | 0 <= i < |slots| && i !in e[..n] :: f.slots[i] == slots[i])
    decreases |e|
  {
    if e != [] && queue != [] {
      var s' := slots[e[0] := Some(queue[0])];
      FillPlacesHeads(s', queue[1..], e[1..]);
      var n := Min(|e|, |queue|);
      var f := FillAt(slots, queue, e);
      assert f == Filled(FillAt(s', queue[1..], e[1..]).slots, FillAt(s', queue[1..], e[1..]).queue, FillAt(s', queue[1..], e[1..]).started + 1);
      assert queue[1..][n - 1..] == queue[n..];
      assert e[0] !in e[1..][..n - 1];
      forall j | 0 <= j < n
        ensures f.slots[e[j]] == Some(queue[j])
      {
        if j > 0 {
          assert e[j] == e[1..][j - 1];
        }
      }
      forall i | 0 <= i < |slots| && i !in e[..n]
        ensures f.slots[i] == slots[i]
      {
        assert i !in e[1..][..n - 1];
      }
    }
  }

  /** Filling moves runners and never copies or loses one: the queue and the
      slots together hold the same runners before and after. */
  lemma {:induction false} FillConserves(slots: Slots, queue: seq<Runner>, e: seq<nat>)
    requires forall k | 0 <= k < |e| :: e[k] < |slots| && slots[e[k]].None?
    requires forall k, l | 0 <= k < l < |e| :: e[k] < e[l]
    ensures var f := FillAt(slots, queue, e);
            multiset(f.queue) + multiset(Occupied(f.slots)) == multiset(queue) + multiset(Occupied(slots))
    decreases |e|
  {
    if e != [] && queue != [] {
      var s' := slots[e[0] := Some(queue[0])];
      forall k | 0 <= k < |e[1..]|
        ensures e[1..][k] < |s'| && s'[e[1..][k]].None?
      {
        assert e[1..][k] == e[k + 1];
      }
      FillConserves(s', queue[1..], e[1..]);
      OccupiedSet(slots, e[0], Some(queue[0]));
      var f' := FillAt(s', queue[1..], e[1..]);
      var f := FillAt(slots, queue, e);
      assert f.queue == f'.queue && f.slots == f'.slots;
      assert Opt(slots[e[0]]) == [] && Opt(Some(queue[0])) == [queue[0]];
      HeadTail(queue);
      Rebalance(multiset(f'.queue), multiset(Occupied(f'.slots)), multiset(queue[1..]),
                multiset(Occupied(s')), multiset(Occupied(slots)), multiset([queue[0]]));
    }
  }

  /** The multiset step of `FillConserves`: one runner leaves the queue and
      enters the slots. */
  lemma Rebalance<T>(fq: multiset<T>, fo: multiset<T>, rest: multiset<T>,
                     so: multiset<T>, o: multiset<T>, head: multiset<T>)
    requires fq + fo == rest + so
    requires so + multiset{} == o + head
    ensures fq + fo == (head + rest) + o
  {
    assert so + multiset{} == so;
    calc {
      fq + fo;
      rest + so;
      rest + (o + head);
      (head + rest) + o;
    }
  }

  lemma HeadTail<T>(xs: seq<T>)
    requires xs != []
    ensures multiset(xs) == multiset([xs[0]]) + multiset(xs[1..])
  {
    assert xs == [xs[0]] + xs[1..];
  }

  // ---------------------------------------------------------------------
  // cleanJobQueue

  datatype Cleaned = Cleaned(slots: Slots, moved: seq<Runner>)

  /** The loop of `cleanJobQueue` over one slot list, up to index `k`: a done
      runner is appended to the moved list and its slot freed. */
  function CleanUpTo(slots: Slots, isDone: Runner -> bool, k: nat): (c: Cleaned)
    requires k <= |slots|
    ensures |c.slots| == |slots| && c.slots[k..] == slots[k..]
    ensures forall i | 0 <= i < k ::
              c.slots[i] == (if slots[i].Some? && isDone(slots[i].value) then None else slots[i])
  {
    if k == 0 then Cleaned(slots, [])
    else
      var c := CleanUpTo(slots, isDone, k - 1);
      var run := slots[k - 1];
      if run.Some? && isDone(run.value) then Cleaned(c.slots[k - 1 := None], c.moved + [run.value]) else c
  }

  /** The runners of `rs` that are done, in order. */
  function DoneRuns(rs: seq<Runner>, isDone: Runner -> bool): (d: seq<Runner>)
    ensures forall r | r in d :: r in rs && isDone(r)
  {
    if rs == [] then []
    else
      var n := |rs| - 1;
      DoneRuns(rs[..n], isDone) + (if isDone(rs[n]) then [rs[n]] else [])
  }

  /** The runners of `rs` that are not done, in order. */
  function PendingRuns(rs: seq<Runner>, isDone: Runner -> bool): (p: seq<Runner>)
    ensures forall r | r in p :: r in rs && !isDone(r)
  {
    if rs == [] then []
    else
      var n := |rs| - 1;
      PendingRuns(rs[..n], isDone) + (if isDone(rs[n]) then [] else [rs[n]])
  }

  lemma {:induction false} DoneAndPending(rs: seq<Runner>, isDone: Runner -> bool)
    ensures multiset(DoneRuns(rs, isDone)) + multiset(PendingRuns(rs, isDone)) == multiset(rs)
    decreases |rs|
  {
    if rs != [] {
      var n := |rs| - 1;
      var front, r := rs[..n], rs[n];
      var d, p := DoneRuns(front, isDone), PendingRuns(front, isDone);
      DoneAndPending(front, isDone);
      SplitRunsSnoc(front, r, isDone);
      assert rs == front + [r];
      calc {
        multiset(DoneRuns(front + [r], isDone)) + multiset(PendingRuns(front + [r], isDone));
        multiset(d) + multiset(p) + multiset{r};
        multiset(front + [r]);
      }
    }
  }

  lemma OccupiedSnoc(slots: Slots, x: Option<Runner>)
    ensures Occupied(slots + [x]) == Occupied(slots) + Opt(x)
  {
    assert (slots + [x])[..|slots|] == slots;
  }

  lemma SplitRunsSnoc(rs: seq<Runner>, r: Runner, isDone: Runner -> bool)
    ensures DoneRuns(rs + [r], isDone) == DoneRuns(rs, isDone) + (if isDone(r) then [r] else [])
    ensures PendingRuns(rs + [r], isDone) == PendingRuns(rs, isDone) + (if isDone(r) then [] else [r])
  {
    assert (rs + [r])[..|rs|] == rs;
  }

  /** Cleaning up to `k` moves exactly the done runners of the first `k`
      slots, in slot order, and leaves exactly the pending ones there. */
  lemma {:induction false} CleanMovesDone(slots: Slots, isDone: Runner -> bool, k: nat)
    requires k <= |slots|
    ensures var c := CleanUpTo(slots, isDone, k);
            && c.moved == DoneRuns(Occupied(slots[..k]), isDone)
            && Occupied(c.slots[..k]) == PendingRuns(Occupied(slots[..k]), isDone)
  {
    if k > 0 {
      CleanMovesDone(slots, isDone, k - 1);
      var c := CleanUpTo(slots, isDone, k - 1);
      var x := slots[k - 1];
      var y := if x.Some? && isDone(x.value) then None else x;
      CleanStep(slots, isDone, k);
      PrefixSnoc(slots, k);
      OccupiedSnoc(slots[..k - 1], x);
      OccupiedSnoc(c.slots[..k - 1], y);
      var rs := Occupied(slots[..k - 1]);
      var c' := CleanUpTo(slots, isDone, k);
      if x.Some? {
        SplitRunsSnoc(rs, x.value, isDone);
        assert Occupied(slots[..k]) == rs + [x.value];
        assert c'.moved == DoneRuns(rs + [x.value], isDone);
        assert Occupied(c'.slots[..k]) == PendingRuns(rs, isDone) + Opt(y);
      } else {
        assert Occupied(slots[..k]) == rs;
        assert c'.moved == DoneRuns(rs, isDone);
        assert Occupied(c'.slots[..k]) == PendingRuns(rs, isDone);
      }
    }
  }

  /** One step of the cleaning loop, on the prefix it has processed. */
  lemma CleanStep(slots: Slots, isDone: Runner -> bool, k: nat)
    requires 0 < k <= |slots|
    ensures var c := CleanUpTo(slots, isDone, k - 1);
            var c' := CleanUpTo(slots, isDone, k);
            var x := slots[k - 1];
            var done := x.Some? && isDone(x.value);
            && c'.moved == c.moved + (if done then [x.value] else [])
            && c'.slots[..k] == c.slots[..k - 1] + [if done then None else x]
  {
    var c := CleanUpTo(slots, isDone, k - 1);
    PrefixSnoc(c.slots, k);
    PrefixUpdate(c.slots, k, None);
  }

  lemma UpdatePrefix<T>(xs: seq<T>, i: nat, v: T, n: nat)
    requires i < n <= |xs|
    ensures xs[i := v][..n] == xs[..n][i := v]
  {
  }

  lemma UpdateAfter<T>(xs: seq<T>, i: nat, v: T, n: nat)
    requires n <= i < |xs|
    ensures xs[i := v][..n] == xs[..n]
  {
  }

  lemma Whole<T>(xs: seq<T>)
    ensures xs[..|xs|] == xs
  {
  }

  lemma PrefixSnoc<T>(xs: seq<T>, k: nat)
    requires 0 < k <= |xs|
    ensures xs[..k] == xs[..k - 1] + [xs[k - 1]]
  {
  }

  lemma PrefixUpdate<T>(xs: seq<T>, k: nat, v: T)
    requires 0 < k <= |xs|
    ensures xs[k - 1 := v][..k] == xs[..k - 1] + [v]
  {
  }

  /** Over a whole slot list: the moved runners and those still in the slots
      are together the runners held before, and a runner not done stays. */
  lemma CleanConserves(slots: Slots, isDone: Runner -> bool)
    ensures var c := CleanUpTo(slots, isDone, |slots|);
            && multiset(c.moved) + multiset(Occupied(c.slots)) == multiset(Occupied(slots))
            && (forall r | r in c.moved :: isDone(r))
            && (forall r | r in Occupied(c.slots) :: !isDone(r))
  {
    CleanMovesDone(slots, isDone, |slots|);
    var c := CleanUpTo(slots, isDone, |slots|);
    Whole(slots);
    Whole(c.slots);
    DoneAndPending(Occupied(slots), isDone);
  }
}
