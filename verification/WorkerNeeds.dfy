/** Runs that show which hypotheses of the worker theorems are needed. */
module WorkerNeeds {
  import opened Basics
  import opened WorkerProtocol
  import opened WorkerSafety
  import opened WorkerDrain

  /** Some run leads from s to t; a disciplined one if `strict`. */
  ghost predicate Leads(s: State, t: State, strict: bool) {
    exists acts: seq<Action> :: Runs(s, acts) && After(s, acts) == t && (strict ==> RunsDisciplined(s, acts))
  }

  lemma LeadsNowhere(s: State)
    ensures Leads(s, s, true) && Leads(s, s, false)
  {
    assert RunsDisciplined(s, []) && After(s, []) == s;
  }

  lemma LeadsOn(s: State, t: State, a: Action, u: State, strict: bool)
    requires Leads(s, t, strict) && Enabled(t, a) && Apply(t, a) == u && (strict ==> Disciplined(t, a))
    ensures Leads(s, u, strict)
  {
    var acts: seq<Action> :| Runs(s, acts) && After(s, acts) == t && (strict ==> RunsDisciplined(s, acts));
    RunSnoc(s, acts, a);
  }

  /** Two workers in the given phases around one fiber of callback c. */
  function TwoWorkers(p: Phase, q: Phase, copies: nat, st: FiberState, c: Callback, active: int): State {
    State([Worker(p, false, None), Worker(q, false, None)], seq(copies, _ => Entry(ByFiber(0), None)), None,
          [Fib(st, Some(c))], multiset{}, active, 0, false)
  }

  /** A fiber is submitted and picked. */
  lemma ReachPicked(c: Callback, strict: bool)
    ensures Leads(Initial(2), TwoWorkers(Picked(ByFiber(0)), AtTop, 0, INIT, c, 1), strict)
  {
    var s := Initial(2);
    var queued := TwoWorkers(AtTop, AtTop, 1, INIT, c, 0);
    LeadsNowhere(s);
    LeadsOn(s, s, SubmitFiber(c, None), queued, strict);
    LeadsPick(s, queued, 0, TwoWorkers(Picked(ByFiber(0)), AtTop, 0, INIT, c, 1), strict);
  }

  /** It begins, and queues a wake-up for itself. */
  lemma ReachWoken(c: Callback, strict: bool)
    ensures Leads(Initial(2), TwoWorkers(Running(0, false), AtTop, 1, EXEC, c, 1), strict)
  {
    var s := Initial(2);
    var up := TwoWorkers(Running(0, false), AtTop, 0, EXEC, c, 1);
    ReachPicked(c, strict);
    LeadsOn(s, TwoWorkers(Picked(ByFiber(0)), AtTop, 0, INIT, c, 1), Begin(0), up, strict);
    LeadsOn(s, up, Wake(0, 0, None), TwoWorkers(Running(0, false), AtTop, 1, EXEC, c, 1), strict);
  }

  /** It queues a second one, and is parked. */
  lemma ReachDoublyQueued(c: Callback)
    ensures Leads(Initial(2), TwoWorkers(AtTop, AtTop, 2, HOLD, c, 0), false)
  {
    ReachWoken(c, false);
    LeadsOn(Initial(2), TwoWorkers(Running(0, false), AtTop, 1, EXEC, c, 1), Wake(0, 0, None),
            TwoWorkers(Running(0, false), AtTop, 2, EXEC, c, 1), false);
    LeadsHold(Initial(2), c);
  }

  lemma LeadsHold(s: State, c: Callback)
    requires Leads(s, TwoWorkers(Running(0, false), AtTop, 2, EXEC, c, 1), false)
    ensures Leads(s, TwoWorkers(AtTop, AtTop, 2, HOLD, c, 0), false)
  {
    var on := TwoWorkers(Running(0, false), AtTop, 2, EXEC, c, 1);
    var off := Goto(on, 0, Returned(0, false));
    var done := Goto(on, 0, Decremented(0, false)).(active := 0);
    LeadsOn(s, on, YieldHold(0), off, false);
    LeadsOn(s, off, Decrement(0), done, false);
    LeadsOn(s, done, Settle(0), TwoWorkers(AtTop, AtTop, 2, HOLD, c, 0), false);
  }

  /** A worker takes the lock and picks the first entry. */
  lemma LeadsPick(s: State, t: State, w: nat, u: State, strict: bool)
    requires Leads(s, t, strict) && Enabled(t, Acquire(w)) && t.queue != [] && Eligible(t, t.queue[0], w)
    requires u == Goto(t, w, Picked(t.queue[0].task)).(queue := t.queue[1..], active := t.active + 1)
    ensures Leads(s, u, strict)
  {
    var scan := Apply(t, Acquire(w));
    LeadsOn(s, t, Acquire(w), scan, strict);
    assert RemoveAt(t.queue, 0) == t.queue[1..];
    LeadsOn(s, scan, Inspect(w), u, strict);
  }

  /** The discipline is needed: a fiber that queues two wake-ups for itself before it
      yields is picked by two workers, and the second one fails the assertion in swapIn. */
  lemma TwoWakeUpsBreakExclusion(c: Callback)
    ensures exists t :: Leads(Initial(2), t, false) && !Exclusive(t)
    ensures exists t :: Leads(Initial(2), t, false) && Enabled(t, Begin(1)) && !AssertsHold(t, Begin(1))
  {
    var s := Initial(2);
    var p := Picked(ByFiber(0));
    var both := TwoWorkers(p, p, 0, HOLD, c, 2);
    ReachDoublyQueued(c);
    LeadsPick(s, TwoWorkers(AtTop, AtTop, 2, HOLD, c, 0), 0, TwoWorkers(p, AtTop, 1, HOLD, c, 1), false);
    LeadsPick(s, TwoWorkers(p, AtTop, 1, HOLD, c, 1), 1, both, false);
    assert Held(both.workers[0].phase) == Some(0) == Held(both.workers[1].phase);
    LeadsOn(s, both, Begin(0), TwoWorkers(Running(0, false), p, 0, EXEC, c, 2), false);
    assert !AssertsHold(TwoWorkers(Running(0, false), p, 0, EXEC, c, 2), Begin(1));
  }

  // ---------- a callback that schedules its own fiber ----------

  /** Two workers, worker 0 with the cached fiber 0, after a callback has scheduled it. */
  function CachedPair(p: Phase, q: Phase, queue: seq<Entry>, f: Fib, active: int): State {
    State([Worker(p, false, Some(0)), Worker(q, false, None)], queue, None, [f], multiset{}, active, 0, false)
  }

  const WOKEN := [Entry(ByFiber(0), None)]

  /** A callback is submitted and picked. */
  lemma ReachCallbackPicked(c: Callback)
    ensures Leads(Initial(2), Goto(Initial(2), 0, Picked(ByCallback(c))).(active := 1), true)
  {
    var s := Initial(2);
    var t := s.(queue := [Entry(ByCallback(c), None)]);
    LeadsNowhere(s);
    LeadsOn(s, s, SubmitCallback(c, None), t, true);
    LeadsPick(s, t, 0, Goto(s, 0, Picked(ByCallback(c))).(active := 1), true);
  }

  /** It runs, on a new fiber that worker 0 caches, and schedules that fiber once. */
  lemma ReachSelfWoken(c: Callback)
    ensures Leads(Initial(2), CachedPair(Running(0, true), AtTop, WOKEN, Fib(EXEC, Some(c)), 1), true)
  {
    var s := Initial(2);
    var t := Goto(s, 0, Picked(ByCallback(c))).(active := 1);
    var u := CachedPair(Running(0, true), AtTop, [], Fib(EXEC, Some(c)), 1);
    ReachCallbackPicked(c);
    assert t.workers == [Worker(Picked(ByCallback(c)), false, None), Worker(AtTop, false, None)];
    LeadsOn(s, t, Begin(0), u, true);
    LeadsOn(s, u, Wake(0, 0, None), u.(queue := WOKEN), true);
  }

  /** The fiber is settled, blank but still queued, and another callback is submitted. */
  lemma LeadsSettled(s: State, d: Callback)
    requires s == CachedPair(Returned(0, true), AtTop, WOKEN, Fib(TERM, None), 1)
    ensures Leads(s, CachedPair(AtTop, AtTop, WOKEN + [Entry(ByCallback(d), None)], Fib(INIT, None), 0), true)
  {
    var u := CachedPair(AtTop, AtTop, WOKEN, Fib(INIT, None), 0);
    LeadsBlank(s);
    LeadsOn(s, u, SubmitCallback(d, None), u.(queue := WOKEN + [Entry(ByCallback(d), None)]), true);
  }

  lemma LeadsBlank(s: State)
    requires s == CachedPair(Returned(0, true), AtTop, WOKEN, Fib(TERM, None), 1)
    ensures Leads(s, CachedPair(AtTop, AtTop, WOKEN, Fib(INIT, None), 0), true)
  {
    var t := CachedPair(Decremented(0, true), AtTop, WOKEN, Fib(TERM, None), 0);
    LeadsNowhere(s);
    LeadsOn(s, s, Decrement(0), t, true);
    LeadsOn(s, t, Settle(0), CachedPair(AtTop, AtTop, WOKEN, Fib(INIT, None), 0), true);
  }

  /** Worker 1 picks the blank fiber, and worker 0 the callback. */
  lemma LeadsBothPick(s: State, d: Callback)
    requires s == CachedPair(Returned(0, true), AtTop, WOKEN, Fib(TERM, None), 1)
    ensures Leads(s, CachedPair(Picked(ByCallback(d)), Picked(ByFiber(0)), [], Fib(INIT, None), 2), true)
  {
    var task := [Entry(ByCallback(d), None)];
    var one := CachedPair(AtTop, Picked(ByFiber(0)), task, Fib(INIT, None), 1);
    LeadsSettled(s, d);
    LeadsPick(s, CachedPair(AtTop, AtTop, WOKEN + task, Fib(INIT, None), 0), 1, one, true);
    LeadsPick(s, one, 0, CachedPair(Picked(ByCallback(d)), Picked(ByFiber(0)), [], Fib(INIT, None), 2), true);
  }

  /** Such a state breaks the safe reuse of the cached fiber, and the next step exclusion. */
  lemma BothPicksBreak(d: Callback, both: State)
    requires both == CachedPair(Picked(ByCallback(d)), Picked(ByFiber(0)), [], Fib(INIT, None), 2)
    ensures !CacheBlankOnLoad(both) && Enabled(both, Begin(0)) && Disciplined(both, Begin(0))
    ensures !Exclusive(Apply(both, Begin(0)))
    ensures Enabled(Apply(both, Begin(0)), Begin(1)) && !AssertsHold(Apply(both, Begin(0)), Begin(1))
  {
    var loaded := CachedPair(Running(0, true), Picked(ByFiber(0)), [], Fib(EXEC, Some(d)), 2);
    assert Apply(both, Begin(0)) == loaded;
    assert Held(both.workers[1].phase) == both.workers[0].cached;
    assert Held(loaded.workers[0].phase) == Some(0) == Held(loaded.workers[1].phase);
  }

  /** The discipline is needed for callbacks too, although nothing has two wake-ups here: a
      callback schedules its own fiber once and returns, its only undisciplined step. The
      fiber is reset with its entry still queued; it is then picked by one worker while the
      other loads the next callback into it, and exclusion and swapIn's assertion fail. */
  lemma SelfWokenCallbackBreaks(c: Callback, d: Callback)
    ensures
      var u := CachedPair(Running(0, true), AtTop, WOKEN, Fib(EXEC, Some(c)), 1);
      var both := CachedPair(Picked(ByCallback(d)), Picked(ByFiber(0)), [], Fib(INIT, None), 2);
      && Leads(Initial(2), u, true) && Enabled(u, Finish(0)) && !Disciplined(u, Finish(0))
      && Leads(Apply(u, Finish(0)), both, true) && !CacheBlankOnLoad(both)
      && Enabled(both, Begin(0)) && Disciplined(both, Begin(0)) && !Exclusive(Apply(both, Begin(0)))
      && Enabled(Apply(both, Begin(0)), Begin(1)) && !AssertsHold(Apply(both, Begin(0)), Begin(1))
  {
    ReachSelfWoken(c);
    FinishesWoken(c);
    LeadsBothPick(CachedPair(Returned(0, true), AtTop, WOKEN, Fib(TERM, None), 1), d);
    BothPicksBreak(d, CachedPair(Picked(ByCallback(d)), Picked(ByFiber(0)), [], Fib(INIT, None), 2));
  }

  lemma FinishesWoken(c: Callback)
    ensures
      var u := CachedPair(Running(0, true), AtTop, WOKEN, Fib(EXEC, Some(c)), 1);
      && Enabled(u, Finish(0)) && !Disciplined(u, Finish(0))
      && Apply(u, Finish(0)) == CachedPair(Returned(0, true), AtTop, WOKEN, Fib(TERM, None), 1)
  {
    assert CachedPair(Running(0, true), AtTop, WOKEN, Fib(EXEC, Some(c)), 1).queue[0].task == ByFiber(0);
  }

  // ---------- an entry that a scan has passed ----------

  /** Worker 1 in the first phase and worker 0 in the second, with the fiber and a callback
      queued. */
  function PassedPair(q: Phase, p: Phase, lock: Option<nat>, st: FiberState, c: Callback, active: int): State {
    State([Worker(p, false, None), Worker(q, false, None)], WOKEN + [Entry(ByCallback(c), None)], lock,
          [Fib(st, Some(c))], multiset{}, active, 0, false)
  }

  /** A fiber wakes itself and spawns a callback. */
  lemma ReachTwoQueued(c: Callback)
    ensures Leads(Initial(2), PassedPair(AtTop, Running(0, false), None, EXEC, c, 1), true)
  {
    var t := TwoWorkers(Running(0, false), AtTop, 1, EXEC, c, 1);
    ReachWoken(c, true);
    LeadsOn(Initial(2), t, SpawnCallback(0, c, None), PassedPair(AtTop, Running(0, false), None, EXEC, c, 1), true);
  }

  /** Worker 1's scan passes the fiber, which is then parked. */
  lemma LeadsPassed(s: State, c: Callback)
    requires Leads(s, PassedPair(AtTop, Running(0, false), None, EXEC, c, 1), true)
    ensures Leads(s, PassedPair(Scan(1), AtTop, Some(1), HOLD, c, 0), true)
  {
    var t := PassedPair(AtTop, Running(0, false), None, EXEC, c, 1);
    var u := PassedPair(Scan(1), Running(0, false), Some(1), EXEC, c, 1);
    LeadsOn(s, t, Acquire(1), Goto(t, 1, Scan(0)).(lock := Some(1)), true);
    LeadsOn(s, Goto(t, 1, Scan(0)).(lock := Some(1)), Inspect(1), u, true);
    LeadsOn(s, u, YieldHold(0), Goto(u, 0, Returned(0, false)), true);
    LeadsParked(s, c);
  }

  lemma LeadsParked(s: State, c: Callback)
    requires Leads(s, PassedPair(Scan(1), Returned(0, false), Some(1), EXEC, c, 1), true)
    ensures Leads(s, PassedPair(Scan(1), AtTop, Some(1), HOLD, c, 0), true)
  {
    var t := PassedPair(Scan(1), Decremented(0, false), Some(1), EXEC, c, 0);
    LeadsOn(s, PassedPair(Scan(1), Returned(0, false), Some(1), EXEC, c, 1), Decrement(0), t, true);
    LeadsOn(s, t, Settle(0), PassedPair(Scan(1), AtTop, Some(1), HOLD, c, 0), true);
  }

  lemma PassedPick(c: Callback, s: State)
    requires s == PassedPair(Scan(1), AtTop, Some(1), HOLD, c, 0)
    ensures Enabled(s, Inspect(1)) && IsPick(s, Inspect(1)) && Moved(s, Inspect(1), 0) == Some(0) && Ready(s, 0)
  {
  }

  /** p + 1 picks are not enough in general: the head of the queue, unpinned and not
      running, is left where it is by the next pick. */
  lemma PassedEntryWaits(c: Callback)
    ensures exists s, a :: Reachable(s) && Ready(s, 0) && RunsDisciplined(s, [a]) && Wait(s, [a], 0) == (1, Some(0))
  {
    var s := PassedPair(Scan(1), AtTop, Some(1), HOLD, c, 0);
    ReachTwoQueued(c);
    LeadsPassed(Initial(2), c);
    PassedPick(c, s);
    assert Reachable(s);
    var a := Inspect(1);
    assert [a][1..] == [];
    assert RunsDisciplined(s, [a]);
    assert Wait(s, [a], 0) == (1, Some(0));
  }

  // ---------- a stranded task ----------

  /** A worker that has just come back to the top, one whose idle fiber has ended, and
      one that has left. */
  const TOP := Worker(AtTop, false, None)
  const DONE := Worker(AtTop, true, None)
  const GONE := Worker(Exited, true, None)

  /** A worker that has given up its active count but not yet put its fiber back. */
  function Busy0(idleDone: bool): Worker {
    Worker(Decremented(0, false), idleDone, None)
  }

  /** A worker whose scan finds an empty queue, or entries pinned elsewhere. */
  lemma LeadsNoneFound(s: State, t: State, w: nat, idleDone: bool)
    requires Leads(s, t, true) && w < |t.workers| && t.workers[w] == Worker(AtTop, idleDone, None) && t.lock == None
    requires |t.queue| <= 1 && (t.queue != [] ==> PinnedElsewhere(t.queue[0].thread, w))
    ensures Leads(s, Goto(t, w, NoneFound), true)
  {
    var scan := Goto(t, w, Scan(0)).(lock := Some(w));
    LeadsOn(s, t, Acquire(w), scan, true);
    if t.queue == [] {
      LeadsOn(s, scan, ScanEnd(w), Goto(t, w, NoneFound), true);
    } else {
      var past := Goto(t, w, Scan(1)).(lock := Some(w));
      LeadsOn(s, scan, Inspect(w), past, true);
      LeadsOn(s, past, ScanEnd(w), Goto(t, w, NoneFound), true);
    }
  }

  /** A worker whose idle fiber sees stopping after a scan of the empty queue. */
  lemma LeadsIdleDone(s: State, t: State, w: nat)
    requires Leads(s, t, true) && w < |t.workers| && t.workers[w] == TOP
    requires t.queue == [] && t.lock == None && t.active == 0 && t.stop
    ensures Leads(s, t.(workers := t.workers[w := DONE]), true)
  {
    var none := Goto(t, w, NoneFound);
    var idle := Goto(t, w, Idle).(idle := t.idle + 1);
    LeadsNoneFound(s, t, w, false);
    LeadsOn(s, none, GoIdle(w), idle, true);
    LeadsOn(s, idle, IdleCheck(w, true), t.(workers := t.workers[w := DONE]), true);
  }

  /** A worker whose idle fiber has ended leaves when all entries are pinned elsewhere. */
  lemma LeadsExit(s: State, t: State, w: nat)
    requires Leads(s, t, true) && w < |t.workers| && t.workers[w] == DONE && t.lock == None
    requires |t.queue| <= 1 && (t.queue != [] ==> PinnedElsewhere(t.queue[0].thread, w))
    ensures Leads(s, Goto(t, w, Exited), true)
  {
    LeadsNoneFound(s, t, w, true);
    LeadsOn(s, Goto(t, w, NoneFound), GoIdle(w), Goto(t, w, Exited), true);
  }

  /** Two workers around one fiber of callback c, after stop. */
  function Pair(x: Worker, y: Worker, queue: seq<Entry>, f: Fib, active: int): State {
    State([x, y], queue, None, [f], multiset{}, active, 0, true)
  }

  /** A worker takes the fiber from the queue and runs it to its next YieldToReady; it has
      given up its active count but not yet put the fiber back. */
  lemma LeadsSlice(s: State, t: State, w: nat, c: Callback, u: State)
    requires Leads(s, t, true) && w < |t.workers| && t.lock == None && t.slots == multiset{}
    requires t.workers[w].phase == AtTop && t.workers[w].cached == None
    requires t.queue == [Entry(ByFiber(0), None)]
    requires t.fibers == [Fib(INIT, Some(c))] || t.fibers == [Fib(READY, Some(c))]
    requires u == Goto(t, w, Decremented(0, false)).(queue := [], fibers := [Fib(READY, Some(c))])
    ensures Leads(s, u, true)
  {
    var up := Goto(t, w, Running(0, false)).(queue := [], active := t.active + 1, fibers := [Fib(EXEC, Some(c))]);
    LeadsStart(s, t, w, c, up);
    LeadsYield(s, up, w, c, u);
  }

  /** A worker takes the fiber from the queue and begins it. */
  lemma LeadsStart(s: State, t: State, w: nat, c: Callback, u: State)
    requires Leads(s, t, true) && w < |t.workers| && t.lock == None
    requires t.workers[w].phase == AtTop && t.workers[w].cached == None
    requires t.queue == [Entry(ByFiber(0), None)]
    requires t.fibers == [Fib(INIT, Some(c))] || t.fibers == [Fib(READY, Some(c))]
    requires u == Goto(t, w, Running(0, false)).(queue := [], active := t.active + 1, fibers := [Fib(EXEC, Some(c))])
    ensures Leads(s, u, true)
  {
    var picked := Goto(t, w, Picked(ByFiber(0))).(queue := [], active := t.active + 1);
    LeadsPick(s, t, w, picked, true);
    LeadsOn(s, picked, Begin(w), u, true);
  }

  /** The running fiber yields READY. */
  lemma LeadsYield(s: State, t: State, w: nat, c: Callback, u: State)
    requires Leads(s, t, true) && w < |t.workers| && t.workers[w].phase == Running(0, false)
    requires t.fibers == [Fib(EXEC, Some(c))] && t.queue == [] && t.slots == multiset{}
    requires u == Goto(t, w, Decremented(0, false)).(active := t.active - 1, fibers := [Fib(READY, Some(c))])
    ensures Leads(s, u, true)
  {
    var off := Goto(t, w, Returned(0, false)).(fibers := [Fib(READY, Some(c))]);
    LeadsOn(s, t, YieldReady(w), off, true);
    LeadsOn(s, off, Decrement(w), u, true);
  }

  /** A fiber is submitted, and stop requested. */
  lemma ReachStopped(c: Callback)
    ensures Leads(Initial(2), Pair(TOP, TOP, [Entry(ByFiber(0), None)], Fib(INIT, Some(c)), 0), true)
  {
    var s := Initial(2);
    var t := s.(queue := [Entry(ByFiber(0), None)], fibers := [Fib(INIT, Some(c))]);
    LeadsNowhere(s);
    LeadsOn(s, s, SubmitFiber(c, None), t, true);
    assert s.workers == [TOP, TOP];
    LeadsOn(s, t, RequestStop, t.(stop := true), true);
  }

  /** Worker 0's idle fiber ends while worker 1 is about to put the fiber back. */
  lemma ReachOneDone(c: Callback)
    ensures Leads(Initial(2), Pair(DONE, TOP, [Entry(ByFiber(0), None)], Fib(READY, Some(c)), 0), true)
  {
    var s := Initial(2);
    var q := [Entry(ByFiber(0), None)];
    var blank, ready := Fib(INIT, Some(c)), Fib(READY, Some(c));
    ReachStopped(c);
    LeadsSlice(s, Pair(TOP, TOP, q, blank, 0), 1, c, Pair(TOP, Busy0(false), [], ready, 0));
    LeadsIdleDone(s, Pair(TOP, Busy0(false), [], ready, 0), 0);
    LeadsOn(s, Pair(DONE, Busy0(false), [], ready, 0), Settle(1), Pair(DONE, TOP, q, ready, 0), true);
  }

  /** Worker 1 has left; worker 0's idle fiber has ended too, but it still has the fiber. */
  lemma ReachOneLeft(c: Callback)
    ensures Leads(Initial(2), Pair(Busy0(true), GONE, [], Fib(READY, Some(c)), 0), true)
  {
    var s := Initial(2);
    var q := [Entry(ByFiber(0), None)];
    var ready := Fib(READY, Some(c));
    ReachOneDone(c);
    LeadsSlice(s, Pair(DONE, TOP, q, ready, 0), 0, c, Pair(Busy0(true), TOP, [], ready, 0));
    LeadsIdleDone(s, Pair(Busy0(true), TOP, [], ready, 0), 1);
    LeadsExit(s, Pair(Busy0(true), DONE, [], ready, 0), 1);
  }

  /** The worker that still has the fiber lets it spawn a callback pinned to the other. */
  lemma LeadsStranded(s: State, c: Callback)
    requires Leads(s, Pair(DONE, GONE, [Entry(ByFiber(0), None)], Fib(READY, Some(c)), 0), true)
    ensures Leads(s, Pair(DONE, GONE, [Entry(ByCallback(c), Some(1))], Fib(TERM, None), 0), true)
  {
    var lost := [Entry(ByCallback(c), Some(1))];
    var exec, ended := Fib(EXEC, Some(c)), Fib(TERM, None);
    var up := DONE.(phase := Running(0, false));
    var ready := Pair(DONE, GONE, [Entry(ByFiber(0), None)], Fib(READY, Some(c)), 0);
    LeadsStart(s, ready, 0, c, Pair(up, GONE, [], exec, 1));
    LeadsOn(s, Pair(up, GONE, [], exec, 1), SpawnCallback(0, c, Some(1)), Pair(up, GONE, lost, exec, 1), true);
    LeadsEnd(s, Pair(up, GONE, lost, exec, 1), 0, Pair(DONE, GONE, lost, ended, 0));
  }

  /** The only active fiber ends. */
  lemma LeadsEnd(s: State, t: State, w: nat, u: State)
    requires Leads(s, t, true) && w < |t.workers| && t.workers[w].phase == Running(0, false) && |t.fibers| == 1
    requires u == Goto(t, w, AtTop).(fibers := [Fib(TERM, None)], active := t.active - 1)
    ensures Leads(s, u, true)
  {
    var off := Goto(t, w, Returned(0, false)).(fibers := [Fib(TERM, None)]);
    var done := Goto(t, w, Decremented(0, false)).(fibers := [Fib(TERM, None)], active := t.active - 1);
    LeadsOn(s, t, Finish(w), off, true);
    LeadsOn(s, off, Decrement(w), done, true);
    LeadsOn(s, done, Settle(w), u, true);
  }

  /** Pinning in reach is needed for draining: in a disciplined run with stop requested, a
      task pinned to a worker that has left is still queued when every worker has left. */
  lemma PinnedTaskIsLost(c: Callback)
    ensures exists acts: seq<Action> ::
      && RunsDisciplined(Initial(2), acts)
      && AllExited(After(Initial(2), acts))
      && After(Initial(2), acts).queue == [Entry(ByCallback(c), Some(1))]
  {
    var s := Initial(2);
    var lost := [Entry(ByCallback(c), Some(1))];
    var ready, ended := Fib(READY, Some(c)), Fib(TERM, None);
    ReachOneLeft(c);
    LeadsOn(s, Pair(Busy0(true), GONE, [], ready, 0), Settle(0),
            Pair(DONE, GONE, [Entry(ByFiber(0), None)], ready, 0), true);
    LeadsStranded(s, c);
    LeadsExit(s, Pair(DONE, GONE, lost, ended, 0), 0);
    assert Leads(s, Pair(GONE, GONE, lost, ended, 0), true);
  }
}
