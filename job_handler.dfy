/** The job handler: two pending queues, two fixed-size slot lists of running
    jobs, the list of finished jobs waiting to be collected, the batches of
    grouped jobs, the failed-job table and the submitted identifiers. Each
    method is proved against the value-level functions of `JobQueues`,
    `JobCollect` and `JobTerminate`, where the properties are proved. */
module JobHandling {
  import opened PyErrors
  import opened PyStr
  import opened PyList
  import opened JobQueues
  import opened JobCollect
  import opened JobTerminate

  // ---------------------------------------------------------------------
  // initialize

  /** `maxQueueSize` after `initialize`: the configured value, or the batch
      size when none is configured, and never below 1. */
  function QueueSize(maxQueue: Option<int>, batchSize: int): (q: int)
    ensures q >= 1
    ensures maxQueue.Some? && maxQueue.value >= 1 ==> q == maxQueue.value
    ensures maxQueue.None? && batchSize >= 1 ==> q == batchSize
    ensures (if maxQueue.Some? then maxQueue.value else batchSize) < 1 ==> q == 1
  {
    var m := if maxQueue.Some? then maxQueue.value else batchSize;
    if m < 1 then 1 else m
  }

  /** `[None] * n`: a negative count gives the empty list. */
  function SlotCount(n: int): (k: nat)
    ensures n >= 0 ==> k == n
    ensures n < 0 ==> k == 0
  {
    if n < 0 then 0 else n
  }

  // ---------------------------------------------------------------------
  // addJob: the grouping part

  /** The `groupInfo` argument: the group's identifier and its size. */
  datatype GroupInfo = GroupInfo(id: string, size: int)

  /** What the grouping part of `addJob` leaves behind: whether it raised,
      and the batches with their insertion order. */
  datatype Enrolled = Enrolled(outcome: Outcome, batching: map<string, Batch>, order: seq<string>)

  /** A job of group `g` is counted in: the group is opened (with the size
      given now) if it is not open yet, its counter goes up by one, and the
      job's identifier is listed unless the counter now exceeds the size,
      which raises RuntimeError. */
  function Enrol(batching: map<string, Batch>, order: seq<string>, g: GroupInfo, identifier: string): (e: Enrolled)
    ensures e.batching.Keys == batching.Keys + {g.id}
    ensures forall h | h in batching && h != g.id :: e.batching[h] == batching[h]
    ensures e.order == if g.id in batching then order else order + [g.id]
  {
    var b0 := if g.id in batching then batching[g.id] else Batch(0, [], g.size, []);
    var b1 := b0.(counter := b0.counter + 1);
    var order' := if g.id in batching then order else order + [g.id];
    if b1.counter > b1.size then Enrolled(Fail(RuntimeError), batching[g.id := b1], order')
    else Enrolled(Pass, batching[g.id := b1.(ids := b1.ids + [identifier])], order')
  }

  /** The size of a group is the one given with its first job and never
      changes; each job adds one to the counter; the job is refused exactly
      when the counter then exceeds the size, and only an accepted job's
      identifier is listed. */
  lemma EnrolCounts(batching: map<string, Batch>, order: seq<string>, g: GroupInfo, identifier: string)
    ensures var e := Enrol(batching, order, g, identifier);
            var b := e.batching[g.id];
            && b.size == (if g.id in batching then batching[g.id].size else g.size)
            && b.counter == (if g.id in batching then batching[g.id].counter else 0) + 1
            && b.finished == (if g.id in batching then batching[g.id].finished else [])
            && (e.outcome.Fail? <==> b.counter > b.size)
            && (e.outcome.Fail? ==> e.outcome.error == RuntimeError)
            && b.ids == (if g.id in batching then batching[g.id].ids else [])
                        + (if e.outcome.Pass? then [identifier] else [])
  {
  }

  /** A group whose counter matches its listed jobs keeps doing so for an
      accepted job, and then never holds more jobs than its size. */
  lemma EnrolWithinSize(batching: map<string, Batch>, order: seq<string>, g: GroupInfo, identifier: string)
    requires g.id in batching ==> batching[g.id].counter == |batching[g.id].ids|
    ensures var e := Enrol(batching, order, g, identifier);
            e.outcome.Pass? ==>
              && e.batching[g.id].counter == |e.batching[g.id].ids|
              && |e.batching[g.id].ids| <= e.batching[g.id].size
  {
  }

  /** Enrolling keeps every open group listed exactly once in the order. */
  lemma EnrolKeepsBooks(bk: Books, g: GroupInfo, identifier: string)
    requires BooksValid(bk)
    ensures var e := Enrol(bk.batching, bk.groupOrder, g, identifier);
            BooksValid(bk.(batching := e.batching, groupOrder := e.order))
  {
    var e := Enrol(bk.batching, bk.groupOrder, g, identifier);
    if g.id !in bk.batching {
      assert g.id !in bk.groupOrder;
      AppendFresh(bk.groupOrder, g.id);
    }
  }

  // ---------------------------------------------------------------------
  // Lookups over the lists

  /** Some runner of `rs` carries the identifier. */
  predicate HoldsId(rs: seq<Runner>, id: string) {
    exists j | 0 <= j < |rs| :: rs[j].identifier == id
  }

  /** Some occupied slot holds a runner with the identifier. */
  predicate SlotHoldsId(slots: Slots, id: string) {
    exists j | 0 <= j < |slots| :: slots[j].Some? && slots[j].value.identifier == id
  }

  /** Some runner of `rs` carries the unique handler. */
  predicate HoldsHandler(rs: seq<Runner>, handler: string) {
    exists j | 0 <= j < |rs| :: rs[j].uniqueHandler == handler
  }

  /** Some occupied slot holds a runner with the unique handler. */
  predicate SlotHoldsHandler(slots: Slots, handler: string) {
    exists j | 0 <= j < |slots| :: slots[j].Some? && slots[j].value.uniqueHandler == handler
  }

  /** Some slot is occupied. */
  predicate AnyHeld(slots: Slots) {
    exists j | 0 <= j < |slots| :: slots[j].Some?
  }

  // ---------------------------------------------------------------------
  // isFinished

  /** The last step of `isFinished`, once nothing is queued or running: the
      collection without removal (`getFinishedNoPop`) must hand out nothing. */
  function NothingToCollect(bk: Books, code: Runner -> int): (Result<bool>, Books) {
    var (res, bk') := GetFinishedSpec(bk, false, "", "any", code);
    (if res.Err? then Err(res.error) else Ok(|res.value| == 0), bk')
  }

  /** Collecting without removal hands out every batch, full or not, so the
      handler is never finished while a group is open, nor while a finished
      run of the default handler waits outside a group. */
  lemma NothingToCollectMeansNoGroups(bk: Books, code: Runner -> int)
    requires BooksValid(bk)
    ensures NothingToCollect(bk, code).0 == Ok(true) ==>
              bk.groupOrder == [] && Loose(bk.finished, bk.batching, "", "any") == []
    ensures NothingToCollect(bk, code).1.finished == bk.finished
  {
    GetFinishedPeeks(bk, "", "any", code);
  }

  // ---------------------------------------------------------------------
  // Loops over one list, shared by both lists of a kind

  /** One loop of `fillJobQueue`: the heads of the queue go, in order, into
      the free slots, in ascending order, until the queue is empty. */
  method Fill(slots: array<Option<Runner>>, queue: seq<Runner>) returns (rest: seq<Runner>, started: nat)
    modifies slots
    ensures var f := FillAt(old(slots[..]), queue, EmptySlots(old(slots[..])));
            slots[..] == f.slots && rest == f.queue && started == f.started
  {
    var e := EmptySlots(slots[..]);
    ghost var f0 := FillAt(slots[..], queue, e);
    rest, started := queue, 0;
    if |e| > 0 && |rest| > 0 {
      for k := 0 to |e|
        invariant var f := FillAt(slots[..], rest, e[k..]);
                  f.slots == f0.slots && f.queue == f0.queue && started + f.started == f0.started
      {
        if |rest| > 0 {
          assert e[k..][1..] == e[k + 1..];
          slots[e[k]] := Some(rest[0]);
          rest := rest[1..];
          started := started + 1;
        } else {
          break;
        }
      }
    }
  }

  /** One loop of `cleanJobQueue`: every done runner leaves its slot, which
      becomes free, and is returned in slot order. */
  method Clean(slots: array<Option<Runner>>, isDone: Runner -> bool) returns (moved: seq<Runner>)
    modifies slots
    ensures var c := CleanUpTo(old(slots[..]), isDone, slots.Length);
            slots[..] == c.slots && moved == c.moved
  {
    ghost var s0 := slots[..];
    moved := [];
    for i := 0 to slots.Length
      invariant slots[..] == CleanUpTo(s0, isDone, i).slots && moved == CleanUpTo(s0, isDone, i).moved
    {
      var run := slots[i];
      if run.Some? && isDone(run.value) {
        moved := moved + [run.value];
        slots[i] := None;
      }
    }
  }

  /** The marking loop of `terminateJobs` over one list. */
  method Mark(jobs: Slots, ids: seq<string>) returns (m: Marked)
    ensures m == MarkUpTo(jobs, ids, |jobs|)
  {
    m := Marked([], ids);
    for i := 0 to |jobs|
      invariant m == MarkUpTo(jobs, ids, i)
    {
      var job := jobs[i];
      if job.Some? && job.value.identifier in m.ids {
        m := Marked(m.found + [job.value], RemoveFirst(m.ids, job.value.identifier));
      }
    }
  }

  /** The removal loop of `terminateJobs` over a deque. */
  method RemoveJobs(queue: seq<Runner>, toRemove: seq<Runner>) returns (q: seq<Runner>)
    ensures q == RemoveEach(queue, toRemove, |toRemove|)
  {
    q := queue;
    for k := 0 to |toRemove|
      invariant q == RemoveEach(queue, toRemove, k)
    {
      if toRemove[k] in q {
        q := RemoveFirst(q, toRemove[k]);
      }
    }
  }

  /** The removal loop of `terminateJobs` over a slot list: the first slot
      holding each job is freed. */
  method ClearJobs(slots: array<Option<Runner>>, toRemove: seq<Runner>)
    modifies slots
    ensures slots[..] == ClearEach(old(slots[..]), toRemove, |toRemove|)
  {
    ghost var s0 := slots[..];
    for k := 0 to |toRemove|
      invariant slots[..] == ClearEach(s0, toRemove, k)
    {
      if Some(toRemove[k]) in slots[..] {
        slots[FirstIndex(slots[..], Some(toRemove[k]))] := None;
      }
    }
  }

  // ---------------------------------------------------------------------
  // The handler

  class JobHandler {
    /** `None` until `initialize` has run. */
    var maxQueueSize: Option<int>
    var running: array<Option<Runner>>
    var clientRunning: array<Option<Runner>>
    var queue: seq<Runner>
    var clientQueue: seq<Runner>
    var nextId: int
    var finished: seq<Runner>
    var submittedJobs: seq<string>
    var failedJobs: map<string, Failure>
    var batching: map<string, Batch>
    /** The insertion order of the keys of `batching`. */
    var groupOrder: seq<string>

    /** The two slot lists are separate lists, and every open group is
        listed once in the order. */
    predicate Valid()
      reads this
    {
      running != clientRunning && BooksValid(Bookkeeping())
    }

    /** What `getFinished` reads and writes. */
    function Bookkeeping(): Books
      reads this
    {
      Books(finished, batching, groupOrder, failedJobs)
    }

    constructor()
      ensures Valid()
      ensures maxQueueSize == None && nextId == 0
      ensures running.Length == 0 && clientRunning.Length == 0
      ensures queue == [] && clientQueue == [] && finished == [] && submittedJobs == []
      ensures failedJobs == map[] && batching == map[] && groupOrder == []
    {
      maxQueueSize := None;
      running := new Option<Runner>[0];
      clientRunning := new Option<Runner>[0];
      queue, clientQueue := [], [];
      nextId := 0;
      finished, submittedJobs := [], [];
      failedJobs, batching, groupOrder := map[], map[], [];
    }

    /** `initialize`, with `maxQueueSize` and `batchSize` of the run info. */
    method Initialize(maxQueue: Option<int>, batchSize: int)
      requires Valid()
      modifies this
      ensures Valid()
      ensures maxQueueSize == Some(QueueSize(maxQueue, batchSize))
      ensures fresh(running) && fresh(clientRunning)
      ensures running.Length == SlotCount(batchSize) && clientRunning.Length == SlotCount(batchSize)
      ensures forall i | 0 <= i < running.Length :: running[i].None?
      ensures forall i | 0 <= i < clientRunning.Length :: clientRunning[i].None?
      ensures queue == old(queue) && clientQueue == old(clientQueue) && nextId == old(nextId)
      ensures submittedJobs == old(submittedJobs) && Bookkeeping() == old(Bookkeeping())
    {
      var m := if maxQueue.Some? then maxQueue.value else batchSize;
      if m < 1 {
        m := 1;
      }
      maxQueueSize := Some(m);
      running := new Option<Runner>[SlotCount(batchSize)](_ => None);
      clientRunning := new Option<Runner>[SlotCount(batchSize)](_ => None);
    }

    /** `reAddJob`: the runner joins the client queue or the normal queue,
        by its flag, and its identifier is recorded as submitted. */
    method ReAddJob(run: Runner)
      modifies this
      ensures queue == old(queue) + (if run.clientRunner then [] else [run])
      ensures clientQueue == old(clientQueue) + (if run.clientRunner then [run] else [])
      ensures submittedJobs == old(submittedJobs) + [run.identifier]
      ensures running == old(running) && clientRunning == old(clientRunning)
      ensures maxQueueSize == old(maxQueueSize) && nextId == old(nextId) && Bookkeeping() == old(Bookkeeping())
    {
      if !run.clientRunner {
        queue := queue + [run];
      } else {
        clientQueue := clientQueue + [run];
      }
      submittedJobs := submittedJobs + [run.identifier];
    }

    /** `addJob`: the runner (its object identity given by `uid`) is built
        from the arguments; a grouped job is counted into its group first,
        and a refused one is not queued. */
    method AddJob(uid: nat, identifier: string, metadata: Option<map<string, string>>,
                  uniqueHandler: string, clientQueue': bool, groupInfo: Option<GroupInfo>)
      returns (r: Outcome)
      requires Valid()
      modifies this
      ensures Valid()
      ensures var run := Runner(uid, identifier, uniqueHandler, clientQueue',
                                if groupInfo.Some? then Some(groupInfo.value.id) else None, metadata);
              var e := if groupInfo.Some? then Enrol(old(batching), old(groupOrder), groupInfo.value, identifier)
                       else Enrolled(Pass, old(batching), old(groupOrder));
              && r == e.outcome && batching == e.batching && groupOrder == e.order
              && queue == old(queue) + (if r.Pass? && !clientQueue' then [run] else [])
              && clientQueue == old(clientQueue) + (if r.Pass? && clientQueue' then [run] else [])
              && submittedJobs == old(submittedJobs) + (if r.Pass? then [identifier] else [])
      ensures running == old(running) && clientRunning == old(clientRunning)
      ensures maxQueueSize == old(maxQueueSize) && nextId == old(nextId)
      ensures finished == old(finished) && failedJobs == old(failedJobs)
    {
      var groupId: Option<string> := None;
      if groupInfo.Some? {
        groupId := Some(groupInfo.value.id);
        EnrolKeepsBooks(Bookkeeping(), groupInfo.value, identifier);
        var e := Enrol(batching, groupOrder, groupInfo.value, identifier);
        batching, groupOrder := e.batching, e.order;
        if e.outcome.Fail? {
          return e.outcome;
        }
      }
      var run := Runner(uid, identifier, uniqueHandler, clientQueue', groupId, metadata);
      ReAddJob(run);
      r := Pass;
    }

    /** `availability(client)`: how many more jobs may be queued. */
    function Availability(client: bool): (a: int)
      reads this, running, clientRunning
      ensures var slots := if client then clientRunning[..] else running[..];
              var q := if client then clientQueue else queue;
              && (maxQueueSize.Some? ==> a + |q| + |finished| == maxQueueSize.value)
              && (maxQueueSize.None? ==> a + |q| + |finished| + |Occupied(slots)| == |slots|)
    {
      var slots := if client then clientRunning[..] else running[..];
      SlotsPartition(slots);
      var maxCount := if maxQueueSize.Some? then maxQueueSize.value else |EmptySlots(slots)|;
      var queueCount := if client then |clientQueue| else |queue|;
      maxCount - queueCount - |finished|
    }

    /** `numRunning`: the number of occupied normal slots. */
    function NumRunning(): (n: nat)
      reads this, running
      ensures n + |EmptySlots(running[..])| == running.Length
      ensures n == 0 <==> !AnyHeld(running[..])
    {
      SlotsPartition(running[..]);
      NoneHeld(running[..]);
      |Occupied(running[..])|
    }

    /** `startingNewStep`: the submitted identifiers are forgotten. */
    method StartingNewStep()
      modifies this
      ensures submittedJobs == []
      ensures queue == old(queue) && clientQueue == old(clientQueue)
      ensures running == old(running) && clientRunning == old(clientRunning)
      ensures maxQueueSize == old(maxQueueSize) && nextId == old(nextId) && Bookkeeping() == old(Bookkeeping())
    {
      submittedJobs := [];
    }

    /** `fillJobQueue`: each queue's heads start, in order, in the free slots
        of its slot list, in ascending order; `nextId` counts the starts. */
    method FillJobQueue()
      requires Valid()
      modifies this, running, clientRunning
      ensures Valid()
      ensures var f := FillAt(old(running[..]), old(queue), EmptySlots(old(running[..])));
              var g := FillAt(old(clientRunning[..]), old(clientQueue), EmptySlots(old(clientRunning[..])));
              && running[..] == f.slots && queue == f.queue
              && clientRunning[..] == g.slots && clientQueue == g.queue
              && nextId == old(nextId) + f.started + g.started
      ensures running == old(running) && clientRunning == old(clientRunning)
      ensures maxQueueSize == old(maxQueueSize) && submittedJobs == old(submittedJobs)
      ensures Bookkeeping() == old(Bookkeeping())
    {
      var started;
      ghost var c0 := clientRunning[..];
      queue, started := Fill(running, queue);
      nextId := nextId + started;
      assert clientRunning[..] == c0;
      clientQueue, started := Fill(clientRunning, clientQueue);
      nextId := nextId + started;
    }

    /** `cleanJobQueue`, with `isDone` telling which runners have ended: the
        done runners of the normal slots, then of the client slots, are
        appended to the finished list and their slots freed. */
    method CleanJobQueue(isDone: Runner -> bool)
      requires Valid()
      modifies this, running, clientRunning
      ensures Valid()
      ensures var c := CleanUpTo(old(running[..]), isDone, |old(running[..])|);
              var d := CleanUpTo(old(clientRunning[..]), isDone, |old(clientRunning[..])|);
              && running[..] == c.slots && clientRunning[..] == d.slots
              && finished == old(finished) + c.moved + d.moved
      ensures running == old(running) && clientRunning == old(clientRunning)
      ensures queue == old(queue) && clientQueue == old(clientQueue) && nextId == old(nextId)
      ensures maxQueueSize == old(maxQueueSize) && submittedJobs == old(submittedJobs)
      ensures batching == old(batching) && groupOrder == old(groupOrder) && failedJobs == old(failedJobs)
    {
      ghost var c0 := clientRunning[..];
      var moved := Clean(running, isDone);
      finished := finished + moved;
      assert clientRunning[..] == c0;
      moved := Clean(clientRunning, isDone);
      finished := finished + moved;
    }

    /** `__checkAndRemoveFinished`, with the run's return code: a failed run
        is entered in the failed table with its kept metadata. */
    method CheckAndRemoveFinished(run: Runner, returnCode: int)
      modifies this
      ensures failedJobs == RecordFailure(old(failedJobs), run, returnCode)
      ensures running == old(running) && clientRunning == old(clientRunning)
      ensures queue == old(queue) && clientQueue == old(clientQueue) && nextId == old(nextId)
      ensures maxQueueSize == old(maxQueueSize) && submittedJobs == old(submittedJobs)
      ensures finished == old(finished) && batching == old(batching) && groupOrder == old(groupOrder)
    {
      if returnCode != 0 {
        failedJobs := failedJobs[run.identifier := Failure(returnCode, KeptMetadata(run.metadata))];
      }
    }

    /** `isFinished`, with `code` giving each run's return code: not while
        a job is queued or running; otherwise whether collecting without
        removal hands out nothing (which still adds finished runs to their
        batches). */
    method IsFinished(code: Runner -> int) returns (r: Result<bool>)
      requires Valid()
      modifies this
      ensures Valid() && QueuesKept()
      ensures var busy := |old(queue)| > 0 || |old(clientQueue)| > 0
                          || AnyHeld(old(running[..]) + old(clientRunning[..]));
              && (busy ==> r == Ok(false) && Bookkeeping() == old(Bookkeeping()))
              && (!busy ==> (r, Bookkeeping()) == NothingToCollect(old(Bookkeeping()), code))
    {
      if |queue| > 0 || |clientQueue| > 0 {
        return Ok(false);
      }
      var all := running[..] + clientRunning[..];
      for i := 0 to |all|
        invariant forall j | 0 <= j < i :: all[j].None?
      {
        if all[i].Some? {
          return Ok(false);
        }
      }
      var collected := GetFinished(false, Some(""), "any", code);
      if collected.Err? {
        return Err(collected.error);
      }
      r := Ok(|collected.value| == 0);
    }

    /** `isThisJobFinished(identifier)`: true when a finished run carries the
        stripped identifier, false when a queued or running one does, and
        RuntimeError when none does. */
    method IsThisJobFinished(identifier: string) returns (r: Result<bool>)
      ensures var id := Strip(identifier);
              var pending := HoldsId(queue, id) || HoldsId(clientQueue, id)
                             || SlotHoldsId(running[..] + clientRunning[..], id);
              && (HoldsId(finished, id) ==> r == Ok(true))
              && (!HoldsId(finished, id) && pending ==> r == Ok(false))
              && (!HoldsId(finished, id) && !pending ==> r == Err(RuntimeError))
    {
      var id := Strip(identifier);
      for i := 0 to |finished|
        invariant forall j | 0 <= j < i :: finished[j].identifier != id
      {
        if finished[i].identifier == id {
          return Ok(true);
        }
      }
      for i := 0 to |queue|
        invariant forall j | 0 <= j < i :: queue[j].identifier != id
      {
        if queue[i].identifier == id {
          return Ok(false);
        }
      }
      for i := 0 to |clientQueue|
        invariant forall j | 0 <= j < i :: clientQueue[j].identifier != id
      {
        if clientQueue[i].identifier == id {
          return Ok(false);
        }
      }
      var all := running[..] + clientRunning[..];
      for i := 0 to |all|
        invariant forall j | 0 <= j < i :: !(all[j].Some? && all[j].value.identifier == id)
      {
        if all[i].Some? && all[i].value.identifier == id {
          return Ok(false);
        }
      }
      r := Err(RuntimeError);
    }

    /** `areTheseJobsFinished(uniqueHandler)`: true exactly when no finished,
        queued or running job carries the stripped handler. */
    method AreTheseJobsFinished(uniqueHandler: string) returns (b: bool)
      ensures var h := Strip(uniqueHandler);
              b <==> !(HoldsHandler(finished, h) || HoldsHandler(queue, h) || HoldsHandler(clientQueue, h)
                       || SlotHoldsHandler(running[..] + clientRunning[..], h))
    {
      var h := Strip(uniqueHandler);
      for i := 0 to |finished|
        invariant forall j | 0 <= j < i :: finished[j].uniqueHandler != h
      {
        if finished[i].uniqueHandler == h {
          return false;
        }
      }
      for i := 0 to |queue|
        invariant forall j | 0 <= j < i :: queue[j].uniqueHandler != h
      {
        if queue[i].uniqueHandler == h {
          return false;
        }
      }
      for i := 0 to |clientQueue|
        invariant forall j | 0 <= j < i :: clientQueue[j].uniqueHandler != h
      {
        if clientQueue[i].uniqueHandler == h {
          return false;
        }
      }
      var all := running[..] + clientRunning[..];
      for i := 0 to |all|
        invariant forall j | 0 <= j < i :: !(all[j].Some? && all[j].value.uniqueHandler == h)
      {
        if all[i].Some? && all[i].value.uniqueHandler == h {
          return false;
        }
      }
      b := true;
    }

    /** `terminateAll`: both queues are emptied and every running job is
        killed; the kill requests are returned, normal slots first. The slots
        themselves are left for `cleanJobQueue`. */
    method TerminateAll() returns (killed: seq<Runner>)
      modifies this
      ensures queue == [] && clientQueue == []
      ensures killed == Occupied(running[..]) + Occupied(clientRunning[..])
      ensures running == old(running) && clientRunning == old(clientRunning)
      ensures nextId == old(nextId) && maxQueueSize == old(maxQueueSize) && submittedJobs == old(submittedJobs)
      ensures Bookkeeping() == old(Bookkeeping())
    {
      queue, clientQueue := [], [];
      killed := Occupied(running[..]) + Occupied(clientRunning[..]);
    }

    /** `terminateJobs(ids)`: over the normal queue, the client queue, the
        normal slots and the client slots in turn, each job whose identifier
        is still requested is struck off the request and removed (from a
        queue) or killed and its slot freed. Returns the identifiers not
        found and the killed jobs. */
    method TerminateJobs(ids: seq<string>) returns (left: seq<string>, killed: seq<Runner>)
      requires Valid()
      modifies this, running, clientRunning
      ensures Valid()
      ensures var m1 := MarkUpTo(Lift(old(queue)), ids, |old(queue)|);
              var m2 := MarkUpTo(Lift(old(clientQueue)), m1.ids, |old(clientQueue)|);
              var m3 := MarkUpTo(old(running[..]), m2.ids, |old(running[..])|);
              var m4 := MarkUpTo(old(clientRunning[..]), m3.ids, |old(clientRunning[..])|);
              && queue == RemoveEach(old(queue), m1.found, |m1.found|)
              && clientQueue == RemoveEach(old(clientQueue), m2.found, |m2.found|)
              && running[..] == ClearEach(old(running[..]), m3.found, |m3.found|)
              && clientRunning[..] == ClearEach(old(clientRunning[..]), m4.found, |m4.found|)
              && left == m4.ids && killed == m3.found + m4.found
      ensures running == old(running) && clientRunning == old(clientRunning)
      ensures nextId == old(nextId) && maxQueueSize == old(maxQueueSize) && submittedJobs == old(submittedJobs)
      ensures Bookkeeping() == old(Bookkeeping())
    {
      var m := Mark(Lift(queue), ids);
      queue := RemoveJobs(queue, m.found);
      m := Mark(Lift(clientQueue), m.ids);
      clientQueue := RemoveJobs(clientQueue, m.found);
      ghost var c0 := clientRunning[..];
      m := Mark(running[..], m.ids);
      ClearJobs(running, m.found);
      killed := m.found;
      assert clientRunning[..] == c0;
      m := Mark(clientRunning[..], m.ids);
      ClearJobs(clientRunning, m.found);
      killed := killed + m.found;
      left := m.ids;
    }

    /** The queues, the slot lists, the counters and the submitted
        identifiers are as they were. */
    twostate predicate QueuesKept()
      reads this
    {
      && running == old(running) && clientRunning == old(clientRunning)
      && queue == old(queue) && clientQueue == old(clientQueue) && nextId == old(nextId)
      && maxQueueSize == old(maxQueueSize) && submittedJobs == old(submittedJobs)
    }

    /** `getFinished(removeFinished, jobIdentifier, uniqueHandler)`, with
        `code` giving each run's return code; a `None` identifier stands for
        the empty prefix. The error leaves the books as they were when it was
        raised. */
    method GetFinished(remove: bool, jobIdentifier: Option<string>, uniqueHandler: string, code: Runner -> int)
      returns (r: Result<seq<Item>>)
      requires Valid()
      modifies this
      ensures Valid() && QueuesKept()
      ensures (r, Bookkeeping()) == GetFinishedSpec(old(Bookkeeping()), remove,
                                                    if jobIdentifier.None? then "" else jobIdentifier.value,
                                                    uniqueHandler, code)
    {
      var prefix := if jobIdentifier.None? then "" else jobIdentifier.value;
      ghost var bk := Bookkeeping();
      GetFinishedKeepsBooks(bk, remove, prefix, uniqueHandler, code);
      var items, picked := ScanFinished(remove, prefix, uniqueHandler, code);
      var corrupted;
      items, corrupted := ReleaseBatches(items, remove);
      if corrupted {
        return Err(RuntimeError);
      }
      if remove {
        ScanPicks(bk.finished, bk.batching, bk.failed, prefix, uniqueHandler, remove, code, |bk.finished|);
        DeleteFinished(picked);
      }
      r := Ok(items);
    }

    /** The loop of `getFinished` over the finished runs: matching runs join
        their open batch once or are handed out alone, and with removal their
        indices are picked and their failures recorded. */
    method ScanFinished(remove: bool, prefix: string, uniqueHandler: string, code: Runner -> int)
      returns (items: seq<Item>, picked: seq<nat>)
      modifies this
      ensures QueuesKept() && finished == old(finished) && groupOrder == old(groupOrder)
      ensures Scan(items, batching, failedJobs, picked)
              == ScanUpTo(old(finished), old(batching), old(failedJobs), prefix, uniqueHandler, remove, code, |old(finished)|)
    {
      items, picked := [], [];
      for i := 0 to |finished|
        invariant QueuesKept() && finished == old(finished) && groupOrder == old(groupOrder)
        invariant Scan(items, batching, failedJobs, picked)
                  == ScanUpTo(old(finished), old(batching), old(failedJobs), prefix, uniqueHandler, remove, code, i)
      {
        var run := finished[i];
        if StartsWith(run.identifier, prefix) && uniqueHandler == run.uniqueHandler {
          if run.groupId.Some? && run.groupId.value in batching {
            var g := run.groupId.value;
            if run !in batching[g].finished {
              batching := batching[g := batching[g].(finished := batching[g].finished + [run])];
            }
          } else {
            items := items + [Single(run)];
          }
          if remove {
            picked := picked + [i];
            CheckAndRemoveFinished(run, code(run));
          }
        }
      }
    }

    /** The loop of `getFinished` over the groups open when it starts: an
        over-full batch stops it (the RuntimeError); without removal every
        batch is handed out, with removal only the full ones, which close. */
    method ReleaseBatches(items0: seq<Item>, remove: bool) returns (items: seq<Item>, corrupted: bool)
      modifies this
      ensures QueuesKept() && finished == old(finished) && failedJobs == old(failedJobs)
      ensures Collected(items, batching, groupOrder, corrupted)
              == CollectUpTo(old(groupOrder), Collected(items0, old(batching), old(groupOrder), false), remove, |old(groupOrder)|)
    {
      ghost var c0 := Collected(items0, batching, groupOrder, false);
      var groups := groupOrder;
      items, corrupted := items0, false;
      for j := 0 to |groups|
        invariant QueuesKept() && finished == old(finished) && failedJobs == old(failedJobs)
        invariant Collected(items, batching, groupOrder, false) == CollectUpTo(groups, c0, remove, j)
      {
        var g := groups[j];
        if g in batching {
          if |batching[g].finished| > batching[g].size {
            CollectStops(groups, c0, remove, j + 1, |groups|);
            return items, true;
          }
          if remove {
            if |batching[g].finished| == batching[g].size {
              var done := batching[g];
              batching := batching - {g};
              groupOrder := Without(groupOrder, g);
              items := items + [Group(done.finished)];
            }
          } else {
            items := items + [Group(batching[g].finished)];
          }
        }
      }
    }

    /** The deletion loop of `getFinished`: the picked indices, highest
        first. */
    method DeleteFinished(picked: seq<nat>)
      requires forall j | 0 <= j < |picked| :: picked[j] < |finished|
      requires forall j, l | 0 <= j < l < |picked| :: picked[j] < picked[l]
      modifies this
      ensures QueuesKept() && batching == old(batching) && groupOrder == old(groupOrder) && failedJobs == old(failedJobs)
      ensures finished == RemoveAll(old(finished), picked)
    {
      var k := |picked|;
      assert picked[..k] == picked;
      while k > 0
        invariant 0 <= k <= |picked|
        invariant QueuesKept() && batching == old(batching) && groupOrder == old(groupOrder) && failedJobs == old(failedJobs)
        invariant forall l | 0 <= l < k :: picked[l] < |finished|
        invariant RemoveAll(finished, picked[..k]) == RemoveAll(old(finished), picked)
      {
        assert picked[..k][..k - 1] == picked[..k - 1];
        finished := RemoveAt(finished, picked[k - 1]);
        k := k - 1;
      }
    }
  }

  /** No runner is held exactly when no slot is occupied. */
  lemma NoneHeld(slots: Slots)
    ensures Occupied(slots) == [] <==> !AnyHeld(slots)
  {
    if Occupied(slots) != [] {
      OccupiedHolds(slots, Occupied(slots)[0]);
      assert Some(Occupied(slots)[0]) in slots;
    }
    if AnyHeld(slots) {
      var j :| 0 <= j < |slots| && slots[j].Some?;
      OccupiedHolds(slots, slots[j].value);
    }
  }
}
