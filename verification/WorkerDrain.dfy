/** Draining at shutdown, bounded waiting in the queue, and what becomes of pinned tasks. */
module WorkerDrain {
  import opened Basics
  import opened WorkerProtocol
  import opened WorkerSafety

  // ---------- where entries go ----------

  /** The action takes an entry out of the queue. */
  predicate IsPick(s: State, a: Action)
    requires Enabled(s, a)
  {
    a.Inspect? && Eligible(s, s.queue[s.workers[a.w].phase.next], a.w)
  }

  /** Where the entry at position p is after the action; None when it was picked. */
  function Moved(s: State, a: Action, p: nat): Option<nat>
    requires Enabled(s, a)
  {
    if !IsPick(s, a) || s.workers[a.w].phase.next > p then Some(p)
    else if s.workers[a.w].phase.next == p then None
    else Some(p - 1)
  }

  /** Every step but Inspect only adds to the end of the queue. */
  lemma QueueGrows(s: State, a: Action)
    requires Enabled(s, a) && !a.Inspect?
    ensures s.queue <= Apply(s, a).queue && |Apply(s, a).queue| <= |s.queue| + 1
  {
  }

  /** A step keeps every queue entry in its order, except that a pick hands its entry to
      the worker that scans. */
  lemma EntryKept(s: State, a: Action, p: nat)
    requires Enabled(s, a) && p < |s.queue|
    ensures Moved(s, a, p).Some? ==>
      var q := Moved(s, a, p).value;
      q < |Apply(s, a).queue| && Apply(s, a).queue[q] == s.queue[p]
    ensures Moved(s, a, p).None? ==> Apply(s, a).workers[a.w].phase == Picked(s.queue[p].task)
  {
    if !a.Inspect? {
      QueueGrows(s, a);
    }
  }

  /** The entry at position q was at position p before the step, or is new. */
  lemma Came(s: State, a: Action, q: nat) returns (p: nat)
    requires Enabled(s, a) && q < |Apply(s, a).queue|
    ensures p < |s.queue| ==> Moved(s, a, p) == Some(q) && Apply(s, a).queue[q] == s.queue[p]
    ensures p >= |s.queue| ==> p == q == |s.queue| && s.queue < Apply(s, a).queue
  {
    p := if IsPick(s, a) && s.workers[a.w].phase.next <= q then q + 1 else q;
    if !a.Inspect? {
      QueueGrows(s, a);
    }
  }

  /** No scan will find the entry's fiber running, and none that may take the entry has
      passed it. */
  predicate Untaken(s: State, p: nat) {
    && p < |s.queue|
    && !InExec(s, s.queue[p].task)
    && forall w | 0 <= w < |s.workers| && s.workers[w].phase.Scan? && !PinnedElsewhere(s.queue[p].thread, w) ::
         s.workers[w].phase.next <= p
  }

  /** Only swapIn puts a fiber in EXEC: one picked, or the one cached for callbacks. */
  lemma EntersExec(s: State, a: Action, f: FiberId)
    requires Enabled(s, a) && f < |s.fibers| && s.fibers[f].state != EXEC && Apply(s, a).fibers[f].state == EXEC
    ensures a.Begin? && (Held(s.workers[a.w].phase) == Some(f) || s.workers[a.w].cached == Some(f))
  {
  }

  /** A fiber with an entry in the queue is not about to be put in EXEC. */
  lemma StaysOutOfExec(s: State, book: Book, a: Action, i: nat)
    requires Safe(s, book) && Enabled(s, a) && i < |s.queue| && !InExec(s, s.queue[i].task)
    ensures !InExec(Apply(s, a), s.queue[i].task)
  {
    if s.queue[i].task.ByFiber? {
      var f := s.queue[i].task.fiber;
      assert FiberOk(s, f, s.fibers[f], book[f]) && book[f].token == InQueue;
      assert a.Begin? ==> WorkerOk(s, book, a.w, s.workers[a.w]);
      if Apply(s, a).fibers[f].state == EXEC {
        EntersExec(s, a, f);
      }
    }
  }

  /** A worker is in a scan only after it takes the lock, or after Inspect. */
  lemma EntersScan(s: State, a: Action)
    requires Enabled(s, a) && Actor(a).Some?
    ensures Apply(s, a).workers[Actor(a).value].phase.Scan? ==>
      a.Inspect? || (a.Acquire? && Apply(s, a).workers[a.w].phase.next == 0)
  {
    match a
    case Begin(w) => assert !ApplyBegin(s, w).workers[w].phase.Scan?;
    case Settle(w) => assert ApplySettle(s, w).workers[w].phase.AtTop?;
    case _ =>
  }

  lemma UntakenOther(s: State, book: Book, a: Action, p: nat)
    requires Safe(s, book) && Enabled(s, a) && !a.Inspect? && Untaken(s, p)
    ensures Untaken(Apply(s, a), p)
  {
    StaysOutOfExec(s, book, a, p);
    ActorOnly(s, a);
    QueueGrows(s, a);
    forall w | 0 <= w < |s.workers| && Apply(s, a).workers[w].phase.Scan? && !PinnedElsewhere(s.queue[p].thread, w)
      ensures Apply(s, a).workers[w].phase.next <= p
    {
      if Actor(a) == Some(w) {
        EntersScan(s, a);
      }
    }
  }

  /** An entry that no scan has missed is taken by the next scan that comes to it. */
  lemma UntakenStep(s: State, book: Book, a: Action, p: nat)
    requires Safe(s, book) && Enabled(s, a) && Untaken(s, p) && Moved(s, a, p).Some?
    ensures Untaken(Apply(s, a), Moved(s, a, p).value)
    ensures Apply(s, a).queue[Moved(s, a, p).value] == s.queue[p]
  {
    EntryKept(s, a, p);
    if !a.Inspect? {
      UntakenOther(s, book, a, p);
    }
  }

  // ---------- draining ----------

  /** The worker has made its final scan: it will take nothing from the queue again. */
  predicate Leaving(x: Worker) {
    x.phase.Exited? || (x.phase.NoneFound? && x.idleDone)
  }

  /** Some worker other than `w` has its final scan still to come. */
  predicate OtherStays(s: State, w: nat) {
    exists v :: 0 <= v < |s.workers| && v != w && !Leaving(s.workers[v])
  }

  predicate SomeoneStays(s: State) {
    exists v :: 0 <= v < |s.workers| && !Leaving(s.workers[v])
  }

  predicate AllExited(s: State) {
    forall w | 0 <= w < |s.workers| :: s.workers[w].phase.Exited?
  }

  /** One of the first n entries may run on any worker. */
  predicate UnpinnedBefore(q: seq<Entry>, n: nat) {
    exists i :: 0 <= i < n && i < |q| && q[i].thread.None?
  }

  /** A scanner that has passed an unpinned entry is not the last to stay. */
  predicate ScannerNotLast(s: State) {
    forall w | 0 <= w < |s.workers| && s.workers[w].phase.Scan? && UnpinnedBefore(s.queue, s.workers[w].phase.next) ::
      OtherStays(s, w)
  }

  /** Idle fibers end only after stop, and workers leave only after that. */
  predicate ExitsInOrder(s: State) {
    forall w | 0 <= w < |s.workers| ::
      (s.workers[w].phase.Exited? ==> s.workers[w].idleDone) && (s.workers[w].idleDone ==> s.stop)
  }

  /** While an unpinned entry is queued, somebody has yet to scan for the last time; and
      once a scanner has passed one, that somebody is another worker. */
  predicate DrainSafe(s: State) {
    && |s.workers| > 0
    && (UnpinnedBefore(s.queue, |s.queue|) ==> SomeoneStays(s))
    && ScannerNotLast(s)
    && ExitsInOrder(s)
  }

  /** A step makes its worker leave only at the end of a scan. */
  lemma LeavesAtScanEnd(s: State, a: Action)
    requires Enabled(s, a) && Actor(a).Some? && Leaving(Apply(s, a).workers[Actor(a).value])
    ensures a.ScanEnd? || Leaving(s.workers[Actor(a).value])
  {
  }

  lemma SomeoneStaysOn(s: State, a: Action)
    requires Enabled(s, a) && SomeoneStays(s) && !a.ScanEnd?
    ensures SomeoneStays(Apply(s, a))
  {
    var v :| 0 <= v < |s.workers| && !Leaving(s.workers[v]);
    ActorOnly(s, a);
    if Actor(a) == Some(v) && Leaving(Apply(s, a).workers[v]) {
      LeavesAtScanEnd(s, a);
    }
    assert !Leaving(Apply(s, a).workers[v]);
  }

  /** A thread outside puts an entry into the queue only while some worker has a scan to
      come. Before stop that is always so. */
  predicate InTime(s: State, a: Action)
    requires Enabled(s, a)
  {
    a.SubmitFiber? || a.SubmitCallback? || a.WakeOutside? || a.FireOutside? ==> SomeoneStays(s)
  }

  predicate RunsInTime(s: State, acts: seq<Action>)
    requires Runs(s, acts)
    decreases |acts|
  {
    acts == [] || (InTime(s, acts[0]) && RunsInTime(Apply(s, acts[0]), acts[1..]))
  }

  lemma BeforeStopInTime(s: State, a: Action)
    requires ExitsInOrder(s) && |s.workers| > 0 && Enabled(s, a) && !s.stop
    ensures InTime(s, a)
  {
    assert !Leaving(s.workers[0]);
  }

  /** Entries are added by workers that stay, or in time. */
  lemma NewEntry(s: State, a: Action)
    requires Enabled(s, a) && InTime(s, a) && s.queue < Apply(s, a).queue
    ensures SomeoneStays(Apply(s, a))
  {
    ActorOnly(s, a);
    if Actor(a).Some? {
      assert !Leaving(Apply(s, a).workers[Actor(a).value]);
    }
  }

  lemma QueueHasTaker(s: State, a: Action)
    requires DrainSafe(s) && Enabled(s, a) && InTime(s, a)
    requires UnpinnedBefore(Apply(s, a).queue, |Apply(s, a).queue|)
    ensures SomeoneStays(Apply(s, a))
  {
    var q :| 0 <= q < |Apply(s, a).queue| && Apply(s, a).queue[q].thread.None?;
    var p := Came(s, a, q);
    if p >= |s.queue| {
      NewEntry(s, a);
    } else if a.ScanEnd? {
      assert UnpinnedBefore(s.queue, s.workers[a.w].phase.next);
      var v :| 0 <= v < |s.workers| && v != a.w && !Leaving(s.workers[v]);
      assert !Leaving(Apply(s, a).workers[v]);
    } else {
      assert UnpinnedBefore(s.queue, |s.queue|);
      SomeoneStaysOn(s, a);
    }
  }

  /** Passing an unpinned entry means that another worker runs its fiber. */
  lemma SkipMeansRunner(s: State, book: Book, w: nat)
    requires Safe(s, book) && Enabled(s, Inspect(w))
    requires s.queue[s.workers[w].phase.next].thread.None? && !Eligible(s, s.queue[s.workers[w].phase.next], w)
    ensures OtherStays(ApplyInspect(s, w), w)
  {
    var f := s.queue[s.workers[w].phase.next].task.fiber;
    SafeMeans(s, book);
    assert HasRunner(s, f);
    var v :| 0 <= v < |s.workers| && OnStack(s.workers[v].phase) && Held(s.workers[v].phase) == Some(f);
    assert !Leaving(ApplyInspect(s, w).workers[v]);
  }

  /** Another worker's step does not take away the one that stays with the scanner. */
  lemma OtherStaysOn(s: State, book: Book, a: Action, w: nat)
    requires Safe(s, book) && Enabled(s, a) && w < |s.workers| && s.workers[w].phase.Scan?
    requires OtherStays(s, w) && Actor(a) != Some(w)
    ensures OtherStays(Apply(s, a), w)
  {
    var v :| 0 <= v < |s.workers| && v != w && !Leaving(s.workers[v]);
    ActorOnly(s, a);
    assert s.lock == Some(w);
    if Actor(a) == Some(v) && Leaving(Apply(s, a).workers[v]) {
      LeavesAtScanEnd(s, a);
    }
    assert !Leaving(Apply(s, a).workers[v]);
  }

  /** Only the scanner changes the queue while it holds the lock. */
  lemma LockedQueue(s: State, book: Book, a: Action, w: nat)
    requires Safe(s, book) && Enabled(s, a) && w < |s.workers| && s.workers[w].phase.Scan? && Actor(a) != Some(w)
    ensures Apply(s, a).queue == s.queue
  {
    assert s.lock == Some(w);
  }

  lemma ScannerInspect(s: State, book: Book, w: nat)
    requires Safe(s, book) && ScannerNotLast(s) && Enabled(s, Inspect(w)) && ApplyInspect(s, w).workers[w].phase.Scan?
    requires UnpinnedBefore(s.queue, s.workers[w].phase.next + 1)
    ensures OtherStays(ApplyInspect(s, w), w)
  {
    if s.queue[s.workers[w].phase.next].thread.None? {
      SkipMeansRunner(s, book, w);
    } else {
      assert UnpinnedBefore(s.queue, s.workers[w].phase.next);
      var v :| 0 <= v < |s.workers| && v != w && !Leaving(s.workers[v]);
      assert !Leaving(ApplyInspect(s, w).workers[v]);
    }
  }

  lemma ScannerStep(s: State, book: Book, a: Action, w: nat)
    requires Safe(s, book) && DrainSafe(s) && Enabled(s, a) && w < |s.workers| == |Apply(s, a).workers|
    requires Apply(s, a).workers[w].phase.Scan?
    requires UnpinnedBefore(Apply(s, a).queue, Apply(s, a).workers[w].phase.next)
    ensures OtherStays(Apply(s, a), w)
  {
    ActorOnly(s, a);
    if Actor(a) == Some(w) {
      EntersScan(s, a);
      ScannerInspect(s, book, w);
    } else {
      LockedQueue(s, book, a, w);
      OtherStaysOn(s, book, a, w);
    }
  }

  lemma ExitsStayInOrder(s: State, a: Action)
    requires ExitsInOrder(s) && Enabled(s, a)
    ensures ExitsInOrder(Apply(s, a))
  {
    ActorOnly(s, a);
    match a
    case Inspect(w) => assert !ApplyInspect(s, w).workers[w].phase.Exited?;
    case Begin(w) => assert !ApplyBegin(s, w).workers[w].phase.Exited?;
    case Settle(w) => assert !ApplySettle(s, w).workers[w].phase.Exited?;
    case _ =>
  }

  lemma DrainStep(s: State, book: Book, a: Action)
    requires Safe(s, book) && DrainSafe(s) && Enabled(s, a) && InTime(s, a)
    ensures DrainSafe(Apply(s, a))
  {
    ActorOnly(s, a);
    var t := Apply(s, a);
    ExitsStayInOrder(s, a);
    if UnpinnedBefore(t.queue, |t.queue|) {
      QueueHasTaker(s, a);
    }
    forall w | 0 <= w < |t.workers| && t.workers[w].phase.Scan? && UnpinnedBefore(t.queue, t.workers[w].phase.next)
      ensures OtherStays(t, w)
    {
      ScannerStep(s, book, a, w);
    }
  }

  // ---------- pinned tasks ----------

  /** The thread that the action pins its entry to. */
  function PinOf(a: Action): Option<nat> {
    match a
    case SpawnFiber(_, _, t) => t
    case SpawnCallback(_, _, t) => t
    case Wake(_, _, t) => t
    case SubmitFiber(_, t) => t
    case SubmitCallback(_, t) => t
    case WakeOutside(_, t) => t
    case _ => None
  }

  /** A worker that is pinned to exists, and its idle fiber has not ended; or it has, but
      the worker has a scan to come and the task is not a fiber that is still running. */
  predicate PinInReach(s: State, a: Action)
    requires Enabled(s, a)
  {
    PinOf(a).Some? ==>
      var v := PinOf(a).value;
      && v < |s.workers|
      && (s.workers[v].idleDone ==>
            && !Leaving(s.workers[v])
            && !((a.Wake? || a.WakeOutside?) && InExec(s, ByFiber(a.fiber))))
  }

  predicate RunsInReach(s: State, acts: seq<Action>)
    requires Runs(s, acts)
    decreases |acts|
  {
    acts == [] || (PinInReach(s, acts[0]) && RunsInReach(Apply(s, acts[0]), acts[1..]))
  }

  /** The worker that the entry at position p is pinned to, if any, will still take it. */
  predicate Served(s: State, p: nat)
    requires p < |s.queue|
  {
    s.queue[p].thread.Some? ==>
      var v := s.queue[p].thread.value;
      && v < |s.workers|
      && (s.workers[v].idleDone ==> !Leaving(s.workers[v]) && Untaken(s, p))
  }

  predicate AllServed(s: State) {
    forall p | 0 <= p < |s.queue| :: Served(s, p)
  }

  /** Idle fibers end only on an empty queue. */
  lemma IdleEndsOnEmpty(s: State, a: Action, v: nat)
    requires Enabled(s, a) && v < |s.workers| == |Apply(s, a).workers| && s.queue != []
    ensures Apply(s, a).workers[v].idleDone == s.workers[v].idleDone
  {
    ActorOnly(s, a);
  }

  lemma ServedStays(s: State, book: Book, a: Action, p: nat)
    requires Safe(s, book) && Enabled(s, a) && p < |s.queue| && Served(s, p) && Moved(s, a, p).Some?
    ensures Moved(s, a, p).value < |Apply(s, a).queue| && Served(Apply(s, a), Moved(s, a, p).value)
  {
    ActorOnly(s, a);
    EntryKept(s, a, p);
    if s.queue[p].thread.Some? {
      var v := s.queue[p].thread.value;
      IdleEndsOnEmpty(s, a, v);
      if s.workers[v].idleDone {
        UntakenStep(s, book, a, p);
        if Actor(a) == Some(v) && Leaving(Apply(s, a).workers[v]) {
          LeavesAtScanEnd(s, a);
        }
      }
    }
  }

  /** A step that pins an entry leaves all workers where they are, and none is scanning. */
  lemma PinnersStay(s: State, book: Book, a: Action)
    requires Safe(s, book) && Enabled(s, a) && PinOf(a).Some?
    ensures Apply(s, a).workers == s.workers
    ensures forall w | 0 <= w < |s.workers| :: !s.workers[w].phase.Scan?
  {
  }

  lemma EntryMade(s: State, a: Action)
    requires Enabled(s, a) && s.queue < Apply(s, a).queue
    ensures Apply(s, a).queue[|s.queue|].thread == PinOf(a) && s.lock.None?
    ensures InExec(Apply(s, a), Apply(s, a).queue[|s.queue|].task) ==>
      PinOf(a).None? || ((a.Wake? || a.WakeOutside?) && InExec(s, ByFiber(a.fiber)))
  {
  }

  /** A new entry is behind every scan. */
  lemma NewServed(s: State, book: Book, a: Action)
    requires Safe(s, book) && Enabled(s, a) && PinInReach(s, a) && s.queue < Apply(s, a).queue
    ensures Served(Apply(s, a), |s.queue|)
  {
    EntryMade(s, a);
    if PinOf(a).Some? {
      PinnersStay(s, book, a);
    }
  }

  lemma ServedStep(s: State, book: Book, a: Action)
    requires Safe(s, book) && AllServed(s) && Enabled(s, a) && PinInReach(s, a)
    ensures AllServed(Apply(s, a))
  {
    forall q | 0 <= q < |Apply(s, a).queue| ensures Served(Apply(s, a), q) {
      var p := Came(s, a, q);
      if p < |s.queue| {
        ServedStays(s, book, a, p);
      } else {
        NewServed(s, book, a);
      }
    }
  }

  lemma {:induction false} DrainRun(s: State, book: Book, acts: seq<Action>)
    requires Safe(s, book) && DrainSafe(s) && RunsDisciplined(s, acts) && RunsInTime(s, acts)
    ensures DrainSafe(After(s, acts))
    ensures AllServed(s) && RunsInReach(s, acts) ==> AllServed(After(s, acts))
    decreases |acts|
  {
    if acts != [] {
      DrainStep(s, book, acts[0]);
      if AllServed(s) && RunsInReach(s, acts) {
        ServedStep(s, book, acts[0]);
      }
      var next := Step(s, book, acts[0]);
      DrainRun(Apply(s, acts[0]), next, acts[1..]);
    }
  }

  // ---------- bounded waiting ----------

  /** The entry at position p may be taken by any worker, and no scan has passed it. */
  predicate Takeable(s: State, p: nat) {
    Untaken(s, p) && s.queue[p].thread.None?
  }

  /** The number of picks in a run up to the pick of the entry at position p, and that
      entry's position afterwards (None once it is picked). */
  function Wait(s: State, acts: seq<Action>, p: nat): (r: (nat, Option<nat>))
    requires Runs(s, acts)
    decreases |acts|
  {
    if acts == [] then (0, Some(p)) else
      var one := if IsPick(s, acts[0]) then 1 else 0;
      match Moved(s, acts[0], p)
      case None => (one, None)
      case Some(q) => var r := Wait(Apply(s, acts[0]), acts[1..], q); (one + r.0, r.1)
  }

  /** The number of entries taken in a run. */
  function Picks(s: State, acts: seq<Action>): nat
    requires Runs(s, acts)
    decreases |acts|
  {
    if acts == [] then 0 else (if IsPick(s, acts[0]) then 1 else 0) + Picks(Apply(s, acts[0]), acts[1..])
  }

  /** A pick that does not take the entry brings it one place forward. */
  lemma WaitStep(s: State, book: Book, a: Action, p: nat)
    requires Safe(s, book) && Enabled(s, a) && Takeable(s, p) && Moved(s, a, p).Some?
    ensures Takeable(Apply(s, a), Moved(s, a, p).value) && Apply(s, a).queue[Moved(s, a, p).value] == s.queue[p]
    ensures IsPick(s, a) ==> p > 0
    ensures Moved(s, a, p).value == if IsPick(s, a) then p - 1 else p
  {
    UntakenStep(s, book, a, p);
  }

  lemma {:induction false} WaitRun(s: State, book: Book, acts: seq<Action>, p: nat)
    requires Safe(s, book) && RunsDisciplined(s, acts) && Takeable(s, p)
    ensures Wait(s, acts, p).0 <= p + 1
    ensures Wait(s, acts, p).1.Some? ==>
      var q := Wait(s, acts, p).1.value;
      && q + Picks(s, acts) == p
      && q < |After(s, acts).queue| && After(s, acts).queue[q] == s.queue[p]
    decreases |acts|
  {
    if acts != [] {
      if Moved(s, acts[0], p).Some? {
        WaitStep(s, book, acts[0], p);
        var next := Step(s, book, acts[0]);
        WaitRun(Apply(s, acts[0]), next, acts[1..], Moved(s, acts[0], p).value);
      }
    }
  }

  /** An unpinned entry that no scan has passed, and whose fiber is not running, is taken
      within p + 1 picks when p entries are ahead of it; until then it only moves forward,
      one place for every pick. */
  lemma WaitUnpassed(s: State, acts: seq<Action>, p: nat)
    requires Reachable(s) && RunsDisciplined(s, acts) && Takeable(s, p)
    ensures Wait(s, acts, p).0 <= p + 1
    ensures Picks(s, acts) > p ==> Wait(s, acts, p).1.None?
    ensures Wait(s, acts, p).1.Some? ==>
      var q := Wait(s, acts, p).1.value;
      q == p - Picks(s, acts) && q < |After(s, acts).queue| && After(s, acts).queue[q] == s.queue[p]
  {
    var book := ReachableSafe(s);
    WaitRun(s, book, acts, p);
  }

  /** The entry at position p may be taken by any worker, now or by the next scan. */
  predicate Ready(s: State, p: nat) {
    p < |s.queue| && s.queue[p].thread.None? && !InExec(s, s.queue[p].task)
  }

  /** The worker is in a scan that has passed position p. */
  predicate HasPassed(s: State, w: nat, p: nat) {
    w < |s.workers| && s.workers[w].phase.Scan? && s.workers[w].phase.next > p
  }

  /** While the scan that has passed the entry goes on, the entry stays where it is; after
      that no scan has passed it. */
  lemma PassedStep(s: State, book: Book, a: Action, w: nat, p: nat)
    requires Safe(s, book) && Enabled(s, a) && Ready(s, p) && HasPassed(s, w, p)
    ensures Moved(s, a, p) == Some(p) && Ready(Apply(s, a), p) && Apply(s, a).queue[p] == s.queue[p]
    ensures (HasPassed(Apply(s, a), w, p) && !IsPick(s, a)) || Takeable(Apply(s, a), p)
  {
    assert s.lock == Some(w) && WorkerOk(s, book, w, s.workers[w]);
    StaysOutOfExec(s, book, a, p);
    ActorOnly(s, a);
    EntryKept(s, a, p);
    if Actor(a) != Some(w) {
      LockedQueue(s, book, a, w);
    } else {
      NoScanAfter(s, book, a, w);
    }
  }

  /** The lock lets one worker scan at a time. */
  lemma NoScanAfter(s: State, book: Book, a: Action, w: nat)
    requires Safe(s, book) && Enabled(s, a) && Actor(a) == Some(w) && s.workers[w].phase.Scan?
    ensures a.Inspect? || a.ScanEnd?
    ensures a.ScanEnd? || IsPick(s, a) ==>
      forall v | 0 <= v < |Apply(s, a).workers| :: !Apply(s, a).workers[v].phase.Scan?
    ensures a.Inspect? && !IsPick(s, a) ==>
      Apply(s, a).workers == s.workers[w := s.workers[w].(phase := Scan(s.workers[w].phase.next + 1))]
  {
    assert forall v | 0 <= v < |s.workers| && s.workers[v].phase.Scan? :: WorkerOk(s, book, v, s.workers[v]) && v == w;
  }

  lemma {:induction false} PassedRun(s: State, book: Book, acts: seq<Action>, w: nat, p: nat)
    requires Safe(s, book) && RunsDisciplined(s, acts) && Ready(s, p) && HasPassed(s, w, p)
    ensures Wait(s, acts, p).0 <= p + 2
    ensures Wait(s, acts, p).1.Some? ==>
      var q := Wait(s, acts, p).1.value;
      && p <= q + Picks(s, acts) <= p + 1
      && q < |After(s, acts).queue| && After(s, acts).queue[q] == s.queue[p]
    decreases |acts|
  {
    if acts != [] {
      PassedStep(s, book, acts[0], w, p);
      var next := Step(s, book, acts[0]);
      if Takeable(Apply(s, acts[0]), p) {
        WaitRun(Apply(s, acts[0]), next, acts[1..], p);
      } else {
        PassedRun(Apply(s, acts[0]), next, acts[1..], w, p);
      }
    }
  }

  lemma PassedOrTakeable(s: State, p: nat)
    requires Ready(s, p)
    ensures Takeable(s, p) || exists w :: 0 <= w < |s.workers| && HasPassed(s, w, p)
  {
    if !Takeable(s, p) {
      var w :| 0 <= w < |s.workers| && s.workers[w].phase.Scan? && s.workers[w].phase.next > p;
      assert HasPassed(s, w, p);
    }
  }

  lemma ReadyRun(s: State, book: Book, acts: seq<Action>, p: nat)
    requires Safe(s, book) && RunsDisciplined(s, acts) && Ready(s, p)
    ensures Wait(s, acts, p).0 <= p + 2
    ensures Wait(s, acts, p).1.Some? ==>
      var q := Wait(s, acts, p).1.value;
      && p <= q + Picks(s, acts) <= p + 1
      && q < |After(s, acts).queue| && After(s, acts).queue[q] == s.queue[p]
  {
    PassedOrTakeable(s, p);
    if Takeable(s, p) {
      WaitRun(s, book, acts, p);
    } else {
      var w :| 0 <= w < |s.workers| && HasPassed(s, w, p);
      PassedRun(s, book, acts, w, p);
    }
  }

  /** Bounded waiting: in every reachable state an unpinned entry whose fiber is not
      running, with p entries ahead of it, is taken within p + 2 picks by any mix of
      workers. One of these picks may be that of a scan that passed the entry while its
      fiber was still running; all others bring the entry one place forward. */
  lemma BoundedWaiting(s: State, acts: seq<Action>, p: nat)
    requires Reachable(s) && RunsDisciplined(s, acts) && Ready(s, p)
    ensures Wait(s, acts, p).0 <= p + 2
    ensures Picks(s, acts) > p + 1 ==> Wait(s, acts, p).1.None?
    ensures Wait(s, acts, p).1.Some? ==>
      var q := Wait(s, acts, p).1.value;
      && p <= q + Picks(s, acts) <= p + 1
      && q < |After(s, acts).queue| && After(s, acts).queue[q] == s.queue[p]
  {
    var book := ReachableSafe(s);
    ReadyRun(s, book, acts, p);
  }

  // ---------- tasks out of reach ----------

  /** The entry is pinned to a worker that does not exist or has made its last scan. */
  predicate OutOfReach(s: State, e: Entry) {
    e.thread.Some? && (e.thread.value >= |s.workers| || Leaving(s.workers[e.thread.value]))
  }

  lemma LeavingStays(s: State, a: Action, v: nat)
    requires Enabled(s, a) && v < |s.workers| && Leaving(s.workers[v])
    ensures v < |Apply(s, a).workers| && Leaving(Apply(s, a).workers[v])
  {
    ActorOnly(s, a);
  }

  /** In every run from any state, disciplined or not, an entry that is out of reach is
      never taken. */
  lemma {:induction false} NeverTaken(s: State, acts: seq<Action>, p: nat)
    requires Runs(s, acts) && p < |s.queue| && OutOfReach(s, s.queue[p])
    ensures Wait(s, acts, p).1.Some?
    ensures
      var q := Wait(s, acts, p).1.value;
      q < |After(s, acts).queue| && After(s, acts).queue[q] == s.queue[p]
    decreases |acts|
  {
    if acts != [] {
      var a, v := acts[0], s.queue[p].thread.value;
      ActorOnly(s, a);
      EntryKept(s, a, p);
      if v < |s.workers| {
        LeavingStays(s, a, v);
      }
      NeverTaken(Apply(s, a), acts[1..], Moved(s, a, p).value);
    }
  }

  /** The step puts an entry out of reach: it pins it there, or a worker ends its last
      scan with an entry of its own still queued. */
  predicate Strands(s: State, a: Action)
    requires Enabled(s, a)
  {
    || (PinOf(a).Some? && (PinOf(a).value >= |s.workers| || Leaving(s.workers[PinOf(a).value])))
    || (a.ScanEnd? && s.workers[a.w].idleDone && exists i :: 0 <= i < |s.queue| && s.queue[i].thread == Some(a.w))
  }

  predicate NoneStranded(s: State, acts: seq<Action>)
    requires Runs(s, acts)
    decreases |acts|
  {
    acts == [] || (!Strands(s, acts[0]) && NoneStranded(Apply(s, acts[0]), acts[1..]))
  }

  predicate AllInReach(s: State) {
    forall p | 0 <= p < |s.queue| :: !OutOfReach(s, s.queue[p])
  }

  lemma InReachStep(s: State, a: Action)
    requires Enabled(s, a) && AllInReach(s) && !Strands(s, a)
    ensures AllInReach(Apply(s, a))
  {
    ActorOnly(s, a);
    var t := Apply(s, a);
    forall q | 0 <= q < |t.queue| ensures !OutOfReach(t, t.queue[q]) {
      var p := Came(s, a, q);
      if p >= |s.queue| {
        EntryMade(s, a);
      }
      if t.queue[q].thread.Some? && t.queue[q].thread.value < |s.workers| {
        var v := t.queue[q].thread.value;
        if Actor(a) == Some(v) && Leaving(t.workers[v]) {
          LeavesAtScanEnd(s, a);
        }
      }
    }
  }

  lemma StrandedNow(s: State, a: Action) returns (p: nat)
    requires Enabled(s, a) && Strands(s, a)
    ensures p < |Apply(s, a).queue| && OutOfReach(Apply(s, a), Apply(s, a).queue[p])
  {
    ActorOnly(s, a);
    if a.ScanEnd? {
      p :| 0 <= p < |s.queue| && s.queue[p].thread == Some(a.w);
    } else {
      p := |s.queue|;
      if PinOf(a).value < |s.workers| {
        LeavingStays(s, a, PinOf(a).value);
      }
      assert Apply(s, a).queue[p].thread == PinOf(a);
    }
  }

  /** A run strands an entry exactly when it ends with one that is out of reach. */
  lemma {:induction false} StrandedExactly(s: State, acts: seq<Action>)
    requires Runs(s, acts) && AllInReach(s)
    ensures NoneStranded(s, acts) <==> AllInReach(After(s, acts))
    decreases |acts|
  {
    if acts != [] {
      if Strands(s, acts[0]) {
        var p := StrandedNow(s, acts[0]);
        NeverTaken(Apply(s, acts[0]), acts[1..], p);
        StillOutOfReach(Apply(s, acts[0]), acts[1..], Apply(s, acts[0]).queue[p]);
      } else {
        InReachStep(s, acts[0]);
        StrandedExactly(Apply(s, acts[0]), acts[1..]);
      }
    }
  }

  lemma {:induction false} StillOutOfReach(s: State, acts: seq<Action>, e: Entry)
    requires Runs(s, acts) && OutOfReach(s, e)
    ensures OutOfReach(After(s, acts), e)
    decreases |acts|
  {
    if acts != [] {
      ActorOnly(s, acts[0]);
      if e.thread.value < |s.workers| {
        LeavingStays(s, acts[0], e.thread.value);
      }
      StillOutOfReach(Apply(s, acts[0]), acts[1..], e);
    }
  }

  // ---------- nothing is lost ----------

  /** The fiber waits to run without having parked itself: it yielded READY, or is new. */
  predicate MustRun(x: Fib) {
    x.state == READY || (x.state == INIT && x.work.Some?)
  }

  predicate HeldBy(s: State, f: FiberId, v: nat) {
    v < |s.workers| && Held(s.workers[v].phase) == Some(f)
  }

  predicate IsHeld(s: State, f: FiberId) {
    exists v :: 0 <= v < |s.workers| && HeldBy(s, f, v)
  }

  /** Such a fiber is in the queue or in some worker's hands. */
  predicate NotLost(s: State) {
    forall f | 0 <= f < |s.fibers| && MustRun(s.fibers[f]) :: Queued(s, f) || IsHeld(s, f)
  }

  lemma QueuedStays(s: State, a: Action, f: FiberId)
    requires Enabled(s, a) && Queued(s, f)
    ensures Queued(Apply(s, a), f) || IsHeld(Apply(s, a), f)
  {
    var i :| 0 <= i < |s.queue| && s.queue[i].task == ByFiber(f);
    EntryKept(s, a, i);
    if Moved(s, a, i).Some? {
      assert Apply(s, a).queue[Moved(s, a, i).value].task == ByFiber(f);
    } else {
      assert HeldBy(Apply(s, a), f, a.w);
    }
  }

  lemma HolderMoves(s: State, a: Action)
    requires Enabled(s, a) && Actor(a).Some? && Held(s.workers[Actor(a).value].phase).Some?
    ensures
      || Held(Apply(s, a).workers[Actor(a).value].phase) == Held(s.workers[Actor(a).value].phase)
      || a.Settle?
      || (a.Begin? && Ended(s.fibers[Held(s.workers[a.w].phase).value].state))
  {
  }

  /** The holder of a fiber lets go of it only when it settles it, or drops it as ended. */
  lemma HolderSteps(s: State, a: Action, f: FiberId, v: nat)
    requires Enabled(s, a) && HeldBy(s, f, v) && f < |s.fibers|
    ensures HeldBy(Apply(s, a), f, v) || a == Settle(v) || (a == Begin(v) && Ended(s.fibers[f].state))
  {
    ActorOnly(s, a);
    if Actor(a) == Some(v) {
      HolderMoves(s, a);
    }
  }

  lemma SettledNotLost(s: State, w: nat, f: FiberId)
    requires Enabled(s, Settle(w)) && s.workers[w].phase.fiber == f
    ensures MustRun(ApplySettle(s, w).fibers[f]) ==> Queued(ApplySettle(s, w), f)
  {
    if s.fibers[f].state == READY {
      assert ApplySettle(s, w).queue[|s.queue|].task == ByFiber(f);
    }
  }

  /** A new fiber is made with its entry, or by a worker that runs it at once. */
  lemma NewFiberQueued(s: State, a: Action, f: FiberId)
    requires Enabled(s, a) && |s.fibers| <= f < |Apply(s, a).fibers| && MustRun(Apply(s, a).fibers[f])
    ensures Queued(Apply(s, a), f)
  {
    assert Apply(s, a).queue[|s.queue|].task == ByFiber(f);
  }

  /** A known fiber comes to wait for its turn only by yielding READY, still held. */
  lemma NewlyWaiting(s: State, a: Action, f: FiberId)
    requires Enabled(s, a) && f < |s.fibers|
    requires !MustRun(s.fibers[f]) && MustRun(Apply(s, a).fibers[f])
    ensures a.YieldReady? && HeldBy(Apply(s, a), f, a.w)
  {
  }

  lemma NotLostStep(s: State, a: Action)
    requires NotLost(s) && Enabled(s, a)
    ensures NotLost(Apply(s, a))
  {
    var t := Apply(s, a);
    forall f | 0 <= f < |t.fibers| && MustRun(t.fibers[f]) ensures Queued(t, f) || IsHeld(t, f) {
      if f >= |s.fibers| {
        NewFiberQueued(s, a, f);
      } else if !MustRun(s.fibers[f]) {
        NewlyWaiting(s, a, f);
      } else if Queued(s, f) {
        QueuedStays(s, a, f);
      } else {
        var v :| 0 <= v < |s.workers| && HeldBy(s, f, v);
        HolderSteps(s, a, f, v);
        if a == Settle(v) {
          SettledNotLost(s, v, f);
        } else {
          assert HeldBy(t, f, v);
        }
      }
    }
  }

  lemma {:induction false} NotLostRun(s: State, acts: seq<Action>)
    requires NotLost(s) && Runs(s, acts)
    ensures NotLost(After(s, acts))
    decreases |acts|
  {
    if acts != [] {
      NotLostStep(s, acts[0]);
      NotLostRun(Apply(s, acts[0]), acts[1..]);
    }
  }

  /** In every run, disciplined or not, a fiber that is READY or has never run is queued or
      in a worker's hands. */
  lemma NoFiberLost(n: nat, acts: seq<Action>)
    requires Runs(Initial(n), acts)
    ensures NotLost(After(Initial(n), acts))
  {
    NotLostRun(Initial(n), acts);
  }

  // ---------- draining, concluded ----------

  /** Once every worker has left the loop nothing is active, and every fiber that is not
      queued has ended, is parked in HOLD, or is a blank one kept for callbacks. */
  lemma ExitedAtRest(n: nat, acts: seq<Action>)
    requires RunsDisciplined(Initial(n), acts) && AllExited(After(Initial(n), acts))
    ensures After(Initial(n), acts).active == 0 && After(Initial(n), acts).idle == 0
    ensures AtRest(After(Initial(n), acts))
  {
    var s := After(Initial(n), acts);
    NotLostRun(Initial(n), acts);
    var book := SafeRun(Initial(n), [], acts);
    SafeMeans(s, book);
    AllAtRest(s);
    CountZero(Initial(n).workers, Busy);
    CountZero(Initial(n).workers, InIdle);
    CountersAlwaysExact(Initial(n), acts);
    CountZero(s.workers, Busy);
    CountZero(s.workers, InIdle);
  }

  /** If every entry from outside came in time, whatever is then left in the queue is
      pinned. */
  lemma RestIsPinned(n: nat, acts: seq<Action>)
    requires n > 0 && RunsDisciplined(Initial(n), acts) && AllExited(After(Initial(n), acts))
    requires RunsInTime(Initial(n), acts)
    ensures forall i | 0 <= i < |After(Initial(n), acts).queue| :: After(Initial(n), acts).queue[i].thread.Some?
  {
    var s := After(Initial(n), acts);
    DrainRun(Initial(n), [], acts);
    forall i | 0 <= i < |s.queue| ensures s.queue[i].thread.Some? {
      assert !SomeoneStays(s);
    }
  }

  /** When nobody stays, the queue is never touched again but for new entries. */
  lemma {:induction false} KeptForGood(s: State, acts: seq<Action>)
    requires Runs(s, acts) && !SomeoneStays(s)
    ensures s.queue <= After(s, acts).queue
    decreases |acts|
  {
    if acts != [] {
      var a := acts[0];
      ActorOnly(s, a);
      QueueGrows(s, a);
      forall v | 0 <= v < |s.workers| ensures Leaving(Apply(s, a).workers[v]) {
        LeavingStays(s, a, v);
      }
      KeptForGood(Apply(s, a), acts[1..]);
    }
  }

  lemma LateEntry(s: State, a: Action)
    requires Enabled(s, a) && !InTime(s, a)
    ensures Apply(s, a).workers == s.workers && Apply(s, a).queue != []
  {
  }

  /** An entry that comes too late is never taken, so the queue is not empty again. */
  lemma {:induction false} LateIsKept(s: State, acts: seq<Action>)
    requires Runs(s, acts) && After(s, acts).queue == []
    ensures RunsInTime(s, acts)
    decreases |acts|
  {
    if acts != [] {
      if !InTime(s, acts[0]) {
        LateEntry(s, acts[0]);
        KeptForGood(Apply(s, acts[0]), acts[1..]);
        assert false;
      }
      LateIsKept(Apply(s, acts[0]), acts[1..]);
    }
  }

  lemma NothingInReach(s: State)
    requires AllExited(s) && AllInReach(s) && forall i | 0 <= i < |s.queue| :: s.queue[i].thread.Some?
    ensures s.queue == []
  {
    assert s.queue != [] ==> OutOfReach(s, s.queue[0]);
  }

  /** Exactly when the queue drains: once all workers have left it is empty if and only if
      every entry from outside came while some worker had a scan to come, no step pinned an
      entry to a worker that does not exist or has made its last scan, and no worker ended
      its last scan with an entry of its own still queued. */
  lemma DrainsExactly(n: nat, acts: seq<Action>)
    requires n > 0 && RunsDisciplined(Initial(n), acts) && AllExited(After(Initial(n), acts))
    ensures After(Initial(n), acts).queue == [] <==> NoneStranded(Initial(n), acts) && RunsInTime(Initial(n), acts)
  {
    var s := After(Initial(n), acts);
    StrandedExactly(Initial(n), acts);
    if s.queue == [] {
      LateIsKept(Initial(n), acts);
    }
    if NoneStranded(Initial(n), acts) && RunsInTime(Initial(n), acts) {
      RestIsPinned(n, acts);
      NothingInReach(s);
    }
  }

  /** When all workers have left, nobody is left to serve a pinned entry. */
  lemma NothingServed(s: State)
    requires AllServed(s) && AllExited(s) && ExitsInOrder(s)
    ensures s.queue != [] ==> s.queue[0].thread.None?
  {
    assert s.queue != [] ==> Served(s, 0);
  }

  /** If every entry from outside came in time, and every pin was in reach when it was
      made, the queue is empty. */
  lemma QueueDrained(n: nat, acts: seq<Action>)
    requires n > 0 && RunsDisciplined(Initial(n), acts) && AllExited(After(Initial(n), acts))
    requires RunsInTime(Initial(n), acts) && RunsInReach(Initial(n), acts)
    ensures After(Initial(n), acts).queue == []
  {
    var s := After(Initial(n), acts);
    RestIsPinned(n, acts);
    DrainRun(Initial(n), [], acts);
    NothingServed(s);
  }

  /** No fiber is under way: those not queued have ended, wait in HOLD, or are blank. */
  predicate AtRest(s: State) {
    forall f | 0 <= f < |s.fibers| ::
      Queued(s, f) || Ended(s.fibers[f].state) || s.fibers[f].state == HOLD || s.fibers[f] == Fib(INIT, None)
  }

  lemma AllAtRest(s: State)
    requires ExecHasRunner(s) && NotLost(s) && AllExited(s)
    ensures AtRest(s)
  {
    forall f | 0 <= f < |s.fibers| && !Queued(s, f)
      ensures Ended(s.fibers[f].state) || s.fibers[f].state == HOLD || s.fibers[f] == Fib(INIT, None)
    {
      assert !IsHeld(s, f) && !HasRunner(s, f);
    }
  }
}
