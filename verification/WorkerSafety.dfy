/** What every interleaving of disciplined steps keeps: the two counters of the
    scheduler are exact, and no fiber is ever in the hands of two workers. */
module WorkerSafety {
  import opened Basics
  import opened WorkerProtocol

  // ---------- exact counters ----------

  /** The number of workers whose phase satisfies `p`. */
  function CountPhases(ws: seq<Worker>, p: Phase -> bool): nat {
    if ws == [] then 0 else (if p(ws[0].phase) then 1 else 0) + CountPhases(ws[1..], p)
  }

  predicate InIdle(p: Phase) {
    p.Idle? || p.Waiting?
  }

  lemma {:induction false} CountUpdate(ws: seq<Worker>, w: nat, x: Worker, p: Phase -> bool)
    requires w < |ws|
    ensures CountPhases(ws[w := x], p)
         == CountPhases(ws, p) - (if p(ws[w].phase) then 1 else 0) + (if p(x.phase) then 1 else 0)
  {
    if w == 0 {
      assert ws[w := x][1..] == ws[1..];
    } else {
      assert ws[w := x][1..] == ws[1..][w - 1 := x];
      CountUpdate(ws[1..], w - 1, x, p);
    }
  }

  lemma {:induction false} CountZero(ws: seq<Worker>, p: Phase -> bool)
    ensures CountPhases(ws, p) == 0 <==> forall w | 0 <= w < |ws| :: !p(ws[w].phase)
  {
    if ws != [] {
      CountZero(ws[1..], p);
      assert forall w | 1 <= w < |ws| :: ws[w] == ws[1..][w - 1];
    }
  }

  predicate CountersExact(s: State) {
    && s.active == CountPhases(s.workers, Busy)
    && s.idle == CountPhases(s.workers, InIdle)
  }

  lemma OneWorker(s: State, t: State, w: nat)
    requires w < |s.workers| == |t.workers| && forall v | 0 <= v < |s.workers| && v != w :: t.workers[v] == s.workers[v]
    ensures t.workers == s.workers[w := t.workers[w]]
  {
  }

  /** Only the acting worker's record changes. */
  lemma ActorOnly(s: State, a: Action)
    requires Enabled(s, a)
    ensures Actor(a).None? ==> Apply(s, a).workers == s.workers
    ensures Actor(a).Some? ==>
      && |Apply(s, a).workers| == |s.workers|
      && Apply(s, a).workers == s.workers[Actor(a).value := Apply(s, a).workers[Actor(a).value]]
  {
    match a
    case Inspect(w) => OneWorker(s, ApplyInspect(s, w), w);
    case Begin(w) => OneWorker(s, ApplyBegin(s, w), w);
    case Settle(w) => OneWorker(s, ApplySettle(s, w), w);
    case _ =>
  }

  /** The counters moved with the worker's phase. */
  predicate CountersMoved(s: State, t: State, w: nat)
    requires w < |s.workers| == |t.workers|
  {
    var before := s.workers[w].phase;
    var after := t.workers[w].phase;
    && t.active - s.active == (if Busy(after) then 1 else 0) - (if Busy(before) then 1 else 0)
    && t.idle - s.idle == (if InIdle(after) then 1 else 0) - (if InIdle(before) then 1 else 0)
  }

  predicate LoopAction(a: Action) {
    || a.Acquire? || a.Inspect? || a.ScanEnd? || a.Begin? || a.Decrement? || a.Settle?
    || a.GoIdle? || a.IdleCheck? || a.LeaveIdle?
  }

  lemma LoopCounters(s: State, a: Action)
    requires Enabled(s, a) && LoopAction(a)
    ensures CountersMoved(s, Apply(s, a), a.w)
  {
  }

  lemma CodeCounters(s: State, a: Action)
    requires Enabled(s, a) && Actor(a).Some? && !LoopAction(a)
    ensures CountersMoved(s, Apply(s, a), a.w)
  {
  }

  lemma CountersKept(s: State, a: Action)
    requires CountersExact(s) && Enabled(s, a)
    ensures CountersExact(Apply(s, a))
  {
    ActorOnly(s, a);
    if Actor(a).Some? {
      var w := Actor(a).value;
      if LoopAction(a) { LoopCounters(s, a); } else { CodeCounters(s, a); }
      CountUpdate(s.workers, w, Apply(s, a).workers[w], Busy);
      CountUpdate(s.workers, w, Apply(s, a).workers[w], InIdle);
    }
  }

  /** In every state of every run the active count is the number of workers between
      pick and decrement, so it never goes negative, and a true stopping() means that
      nothing is queued and no worker is mid-task. */
  lemma {:induction false} CountersAlwaysExact(s: State, acts: seq<Action>)
    requires CountersExact(s) && Runs(s, acts)
    ensures CountersExact(After(s, acts))
    ensures After(s, acts).active >= 0 && After(s, acts).idle >= 0
    ensures Stopping(After(s, acts)) ==>
      && After(s, acts).queue == []
      && forall w | 0 <= w < |After(s, acts).workers| :: !Busy(After(s, acts).workers[w].phase)
    decreases |acts|
  {
    if acts == [] {
      CountZero(s.workers, Busy);
    } else {
      CountersKept(s, acts[0]);
      CountersAlwaysExact(Apply(s, acts[0]), acts[1..]);
    }
  }

  // ---------- one worker per fiber ----------

  /** Where a fiber's wake-up is. */
  datatype Token = NoTok | InQueue | InSlot

  /** The proof's bookkeeping for one fiber: the worker that holds it, the worker that
      caches it, and its wake-up. */
  datatype Claim = Claim(holder: Option<nat>, keeper: Option<nat>, token: Token)

  type Book = seq<Claim>

  predicate QueueOk(s: State, book: Book) {
    && (forall i | 0 <= i < |s.queue| && s.queue[i].task.ByFiber? ::
          s.queue[i].task.fiber < |book| && book[s.queue[i].task.fiber].token == InQueue)
    && (forall i, j | 0 <= i < j < |s.queue| && s.queue[i].task.ByFiber? :: s.queue[i].task != s.queue[j].task)
  }

  predicate SlotsOk(s: State, book: Book) {
    forall f | f in s.slots :: f < |book| && s.slots[f] == 1 && book[f].token == InSlot
  }

  /** The state of a held fiber agrees with the phase of its holder. */
  predicate PhaseAgrees(p: Phase, st: FiberState) {
    match p
    case Picked(_) => st != EXEC
    case Running(_, _) => st == EXEC
    case Returned(_, _) => st == EXEC || st == READY || Ended(st)
    case Decremented(_, _) => st == EXEC || st == READY || Ended(st)
    case _ => true
  }

  /** The fiber has ended and nobody will load it again: it is only to be dropped, and
      nobody claims it. */
  predicate Spent(x: Fib, c: Claim) {
    Ended(x.state) && c.keeper.None?
  }

  /** A held fiber is spent, or claimed by its holder; another worker does not cache it. */
  predicate WorkerOk(s: State, book: Book, w: nat, x: Worker) {
    var p := x.phase;
    var c := x.cached;
    && |book| == |s.fibers|
    && (Held(p).Some? ==>
          && Held(p).value < |book|
          && (book[Held(p).value].holder == Some(w) || Spent(s.fibers[Held(p).value], book[Held(p).value]))
          && (book[Held(p).value].keeper == None || book[Held(p).value].keeper == Some(w))
          && PhaseAgrees(p, s.fibers[Held(p).value].state)
          && (c == Held(p) <==> OnStack(p) && p.viaCb))
    && (c.Some? ==> c.value < |book| && book[c.value].keeper == Some(w))
    && (p.Scan? ==> s.lock == Some(w) && p.next <= |s.queue|)
  }

  /** A cached fiber that nobody holds is blank: nothing is loaded in it and nothing can
      wake it. A fiber in a worker's hands has a wake-up only while it is in EXEC. */
  predicate FiberOk(s: State, f: FiberId, x: Fib, c: Claim) {
    && (c.holder.Some? ==>
          && c.holder.value < |s.workers|
          && Held(s.workers[c.holder.value].phase) == Some(f)
          && (c.token != NoTok ==> x.state == EXEC))
    && (c.keeper.Some? ==>
          && c.keeper.value < |s.workers|
          && s.workers[c.keeper.value].cached == Some(f)
          && (c.holder == c.keeper || (c.holder == None && c.token == NoTok && x == Fib(INIT, None))))
    && (x.state == EXEC ==> c.holder.Some?)
    && (Spent(x, c) ==> c.holder.None?)
  }

  predicate WorkersOk(s: State, book: Book) {
    forall w | 0 <= w < |s.workers| :: WorkerOk(s, book, w, s.workers[w])
  }

  predicate FibersOk(s: State, book: Book)
    requires |book| == |s.fibers|
  {
    forall f | 0 <= f < |book| :: FiberOk(s, f, s.fibers[f], book[f])
  }

  predicate Safe(s: State, book: Book) {
    && |book| == |s.fibers|
    && QueueOk(s, book)
    && SlotsOk(s, book)
    && WorkersOk(s, book)
    && FibersOk(s, book)
    && (s.lock.Some? ==> s.lock.value < |s.workers| && s.workers[s.lock.value].phase.Scan?)
  }

  /** A worker that changes phase without a fiber in its hands, with what it does to
      the lock. */
  lemma SafeMove(s: State, book: Book, w: nat, p: Phase, done: bool, lock: Option<nat>)
    requires Safe(s, book) && w < |s.workers|
    requires Held(s.workers[w].phase) == None == Held(p)
    requires p.Scan? <==> lock == Some(w)
    requires p.Scan? ==> p.next <= |s.queue|
    requires lock == s.lock || s.lock == None || s.lock == Some(w)
    requires lock == s.lock || lock == None || lock == Some(w)
    ensures Safe(s.(workers := s.workers[w := s.workers[w].(phase := p, idleDone := done)], lock := lock), book)
  {
  }

  /** The state after worker w's record, fiber f and the lock are replaced. */
  function Replaced(s: State, w: nat, x: Worker, f: FiberId, y: Fib, lock: Option<nat>): State
    requires w < |s.workers| && f < |s.fibers|
  {
    s.(workers := s.workers[w := x], fibers := s.fibers[f := y], lock := lock)
  }

  /** Worker w may replace its record and fiber f's: both new records are in order and
      no other worker refers to the fiber. */
  predicate MayReplace(s: State, book: Book, w: nat, x: Worker, f: FiberId, y: Fib, c: Claim, lock: Option<nat>) {
    && Safe(s, book) && w < |s.workers| && f < |book|
    && !x.phase.Scan?
    && lock == (if s.lock == Some(w) then None else s.lock)
    && (Held(s.workers[w].phase) == None || Held(s.workers[w].phase) == Some(f))
    && (Held(x.phase) == None || Held(x.phase) == Some(f))
    && (x.cached == s.workers[w].cached || s.workers[w].cached == None || s.workers[w].cached == Some(f))
    && (c.token == book[f].token || NoToken(s, f))
    && (book[f].holder == None || book[f].holder == Some(w))
    && (c.keeper == book[f].keeper || book[f].keeper == None || book[f].keeper == Some(w))
    && (Spent(s.fibers[f], book[f]) ==> Spent(y, c))
    && WorkerOk(Replaced(s, w, x, f, y, lock), book[f := c], w, x)
    && FiberOk(Replaced(s, w, x, f, y, lock), f, y, c)
  }

  lemma ReplaceWorkers(s: State, book: Book, w: nat, x: Worker, f: FiberId, y: Fib, c: Claim, lock: Option<nat>)
    requires MayReplace(s, book, w, x, f, y, c, lock)
    ensures WorkersOk(Replaced(s, w, x, f, y, lock), book[f := c])
  {
  }

  lemma ReplaceFibers(s: State, book: Book, w: nat, x: Worker, f: FiberId, y: Fib, c: Claim, lock: Option<nat>)
    requires MayReplace(s, book, w, x, f, y, c, lock)
    ensures FibersOk(Replaced(s, w, x, f, y, lock), book[f := c])
  {
  }

  lemma SafeReplace(s: State, book: Book, w: nat, x: Worker, f: FiberId, y: Fib, c: Claim, lock: Option<nat>)
    requires MayReplace(s, book, w, x, f, y, c, lock)
    ensures Safe(Replaced(s, w, x, f, y, lock), book[f := c])
  {
    ReplaceWorkers(s, book, w, x, f, y, c, lock);
    ReplaceFibers(s, book, w, x, f, y, c, lock);
  }

  /** A wake-up is queued for a fiber that has none. */
  lemma SafePush(s: State, book: Book, f: FiberId, t: Option<nat>)
    requires Safe(s, book) && f < |book| && NoToken(s, f)
    requires book[f].holder.Some? ==> s.fibers[f].state == EXEC
    requires book[f].keeper.Some? ==> book[f].holder == book[f].keeper
    ensures Safe(Push(s, ByFiber(f), t), book[f := book[f].(token := InQueue)])
  {
  }

  lemma SafePushCallback(s: State, book: Book, c: Callback, t: Option<nat>)
    requires Safe(s, book)
    ensures Safe(Push(s, ByCallback(c), t), book)
  {
  }

  /** A wake-up is armed in a slot for a running fiber that has none. */
  lemma SafeArm(s: State, book: Book, f: FiberId)
    requires Safe(s, book) && f < |book| && NoToken(s, f)
    requires book[f].holder.Some? && s.fibers[f].state == EXEC
    requires book[f].keeper.Some? ==> book[f].holder == book[f].keeper
    ensures Safe(s.(slots := s.slots + multiset{f}), book[f := book[f].(token := InSlot)])
  {
  }

  /** A slot is emptied. */
  lemma SafeDrop(s: State, book: Book, f: FiberId)
    requires Safe(s, book) && f in s.slots
    ensures f < |book| && NoToken(s.(slots := s.slots - multiset{f}), f)
    ensures Safe(s.(slots := s.slots - multiset{f}), book[f := book[f].(token := NoTok)])
  {
  }

  /** An entry leaves the queue. */
  lemma SafeUnqueue(s: State, book: Book, i: nat)
    requires Safe(s, book) && i < |s.queue|
    requires s.lock.Some? ==> s.workers[s.lock.value].phase.next < |s.queue|
    ensures Safe(s.(queue := RemoveAt(s.queue, i)), book)
    ensures s.queue[i].task.ByFiber? ==> NoToken(s.(queue := RemoveAt(s.queue, i)), s.queue[i].task.fiber)
  {
  }

  /** A new fiber object that nothing refers to. */
  lemma SafeGrow(s: State, book: Book, work: Option<Callback>)
    requires Safe(s, book)
    ensures Safe(s.(fibers := s.fibers + [Fib(INIT, work)]), book + [Claim(None, None, NoTok)])
    ensures NoToken(s.(fibers := s.fibers + [Fib(INIT, work)]), |s.fibers|)
  {
  }

  // ---------- the steps ----------

  lemma StepLock(s: State, book: Book, a: Action)
    requires Safe(s, book) && Enabled(s, a) && (a.Acquire? || a.ScanEnd?)
    ensures Safe(Apply(s, a), book)
  {
    if a.Acquire? {
      SafeMove(s, book, a.w, Scan(0), s.workers[a.w].idleDone, Some(a.w));
    } else {
      SafeMove(s, book, a.w, NoneFound, s.workers[a.w].idleDone, None);
    }
  }

  lemma StepIdle(s: State, book: Book, w: nat, quiet: bool)
    requires Safe(s, book) && Enabled(s, IdleCheck(w, quiet))
    ensures Safe(Apply(s, IdleCheck(w, quiet)), book)
  {
    if quiet && Stopping(s) {
      SafeMove(s, book, w, AtTop, true, s.lock);
    } else {
      SafeMove(s, book, w, Waiting, s.workers[w].idleDone, s.lock);
    }
  }

  /** A worker enters its idle fiber, leaves the loop, or comes back to the top. */
  lemma StepAround(s: State, book: Book, a: Action)
    requires Safe(s, book) && Enabled(s, a) && (a.GoIdle? || a.LeaveIdle?)
    ensures Safe(Apply(s, a), book)
  {
    var x := s.workers[a.w];
    SafeMove(s, book, a.w, if a.LeaveIdle? then AtTop else if x.idleDone then Exited else Idle, x.idleDone, s.lock);
  }

  lemma StepPick(s: State, book: Book, w: nat) returns (next: Book)
    requires Safe(s, book) && Enabled(s, Inspect(w)) && Eligible(s, s.queue[s.workers[w].phase.next], w)
    ensures Safe(ApplyInspect(s, w), next)
  {
    var i := s.workers[w].phase.next;
    SafeUnqueue(s, book, i);
    var t := s.(queue := RemoveAt(s.queue, i));
    next := Take(t, book, w, s.queue[i].task);
  }

  /** The scanning worker w takes a task that is no longer queued. */
  lemma Take(s: State, book: Book, w: nat, task: Task) returns (next: Book)
    requires Safe(s, book) && w < |s.workers| && s.workers[w].phase.Scan? && s.lock == Some(w)
    requires task.ByFiber? ==>
      && task.fiber < |book| && NoToken(s, task.fiber) && s.fibers[task.fiber].state != EXEC
      && book[task.fiber].holder == None && book[task.fiber].keeper == None
    ensures Safe(Goto(s, w, Picked(task)).(lock := None), next)
  {
    next := book;
    match task
    case ByFiber(f) =>
      next := book[f := Claim(if Ended(s.fibers[f].state) then None else Some(w), None, NoTok)];
      SafeReplace(s, book, w, s.workers[w].(phase := Picked(task)), f, s.fibers[f], next[f], None);
      assert s.fibers[f := s.fibers[f]] == s.fibers;
    case ByCallback(_) => SafeMove(s, book, w, Picked(task), s.workers[w].idleDone, None);
  }

  lemma StepInspect(s: State, book: Book, w: nat) returns (next: Book)
    requires Safe(s, book) && Enabled(s, Inspect(w))
    ensures Safe(ApplyInspect(s, w), next)
  {
    if Eligible(s, s.queue[s.workers[w].phase.next], w) {
      next := StepPick(s, book, w);
    } else {
      next := book;
      SafeMove(s, book, w, Scan(s.workers[w].phase.next + 1), s.workers[w].idleDone, Some(w));
    }
  }

  lemma StepDiscard(s: State, book: Book, w: nat, f: FiberId) returns (next: Book)
    requires Safe(s, book) && Enabled(s, Begin(w)) && s.workers[w].phase == Picked(ByFiber(f))
    requires Ended(s.fibers[f].state)
    ensures Safe(ApplyBegin(s, w), next)
  {
    next := book[f := book[f].(holder := None)];
    SafeReplace(s, book, w, s.workers[w].(phase := AtTop), f, s.fibers[f], next[f], s.lock);
    assert s.fibers[f := s.fibers[f]] == s.fibers;
  }

  lemma StepBeginFiber(s: State, book: Book, w: nat, f: FiberId)
    requires Safe(s, book) && Enabled(s, Begin(w)) && s.workers[w].phase == Picked(ByFiber(f))
    requires !Ended(s.fibers[f].state)
    ensures Safe(ApplyBegin(s, w), book)
    ensures s.fibers[f].state != EXEC
  {
    SafeReplace(s, book, w, s.workers[w].(phase := Running(f, false)), f, s.fibers[f].(state := EXEC), book[f], s.lock);
    assert book[f := book[f]] == book;
  }

  lemma StepBeginCached(s: State, book: Book, w: nat, c: Callback, f: FiberId) returns (next: Book)
    requires Safe(s, book) && Enabled(s, Begin(w))
    requires s.workers[w].phase == Picked(ByCallback(c)) && s.workers[w].cached == Some(f)
    ensures Safe(ApplyBegin(s, w), next)
    ensures s.fibers[f] == Fib(INIT, None)
  {
    var claim := Claim(Some(w), Some(w), NoTok);
    next := book[f := claim];
    SafeReplace(s, book, w, s.workers[w].(phase := Running(f, true)), f, Fib(EXEC, Some(c)), claim, s.lock);
  }

  lemma StepBeginFresh(s: State, book: Book, w: nat, c: Callback) returns (next: Book)
    requires Safe(s, book) && Enabled(s, Begin(w))
    requires s.workers[w].phase == Picked(ByCallback(c)) && s.workers[w].cached == None
    ensures Safe(ApplyBegin(s, w), next)
  {
    var f := |s.fibers|;
    var t := s.(fibers := s.fibers + [Fib(INIT, None)]);
    SafeGrow(s, book, None);
    next := BeginOnNew(t, book + [Claim(None, None, NoTok)], w, c, f);
    assert t.fibers[f := Fib(EXEC, Some(c))] == s.fibers + [Fib(EXEC, Some(c))];
    assert ApplyBegin(s, w) ==
      Replaced(t, w, s.workers[w].(phase := Running(f, true), cached := Some(f)), f, Fib(EXEC, Some(c)), s.lock);
  }

  /** A worker without a cached fiber loads a callback into a blank one. */
  lemma BeginOnNew(s: State, book: Book, w: nat, c: Callback, f: FiberId) returns (next: Book)
    requires Safe(s, book) && w < |s.workers| && f < |book| && NoToken(s, f)
    requires s.workers[w].phase == Picked(ByCallback(c)) && s.workers[w].cached == None
    requires book[f] == Claim(None, None, NoTok) && s.fibers[f] == Fib(INIT, None)
    ensures
      var x := s.workers[w].(phase := Running(f, true), cached := Some(f));
      Safe(Replaced(s, w, x, f, Fib(EXEC, Some(c)), s.lock), next)
  {
    var claim := Claim(Some(w), Some(w), NoTok);
    next := book[f := claim];
    var x := s.workers[w].(phase := Running(f, true), cached := Some(f));
    SafeReplace(s, book, w, x, f, Fib(EXEC, Some(c)), claim, s.lock);
  }

  lemma StepBegin(s: State, book: Book, w: nat) returns (next: Book)
    requires Safe(s, book) && Enabled(s, Begin(w))
    ensures Safe(ApplyBegin(s, w), next)
    ensures AssertsHold(s, Begin(w))
  {
    match s.workers[w].phase.task
    case ByFiber(f) =>
      if Ended(s.fibers[f].state) {
        next := StepDiscard(s, book, w, f);
      } else {
        next := book;
        StepBeginFiber(s, book, w, f);
      }
    case ByCallback(c) =>
      if s.workers[w].cached.Some? {
        next := StepBeginCached(s, book, w, c, s.workers[w].cached.value);
      } else {
        next := StepBeginFresh(s, book, w, c);
      }
  }

  lemma StepSettleEnded(s: State, book: Book, w: nat, f: FiberId) returns (next: Book)
    requires Safe(s, book) && Enabled(s, Settle(w)) && s.workers[w].phase.fiber == f
    requires Ended(s.fibers[f].state)
    ensures Safe(ApplySettle(s, w), next)
  {
    var x := s.workers[w];
    next := book[f := book[f].(holder := None)];
    var y := if x.phase.viaCb then Fib(INIT, None) else s.fibers[f];
    SafeReplace(s, book, w, x.(phase := AtTop), f, y, next[f], s.lock);
    assert s.fibers[f := s.fibers[f]] == s.fibers;
  }

  lemma NoTokenKnown(s: State, book: Book, f: FiberId)
    requires Safe(s, book) && f < |book| && book[f].token == NoTok
    ensures NoToken(s, f)
  {
  }

  /** The worker lets go of a fiber that yielded, and of its cached fiber if that is it. */
  lemma StepLetGo(s: State, book: Book, w: nat, st: FiberState)
    requires Safe(s, book) && Enabled(s, Settle(w))
    requires !Ended(s.fibers[s.workers[w].phase.fiber].state)
    requires st == if s.fibers[s.workers[w].phase.fiber].state == READY then READY else HOLD
    ensures
      var f := s.workers[w].phase.fiber;
      Safe(LetGo(s, w, st), book[f := Claim(None, None, book[f].token)])
    ensures st == READY ==> book[s.workers[w].phase.fiber].token == NoTok
  {
    var x := s.workers[w];
    var f := x.phase.fiber;
    var y := x.(phase := AtTop, cached := if x.phase.viaCb then None else x.cached);
    SafeReplace(s, book, w, y, f, s.fibers[f].(state := st), Claim(None, None, book[f].token), s.lock);
  }

  function LetGo(s: State, w: nat, st: FiberState): State
    requires Enabled(s, Settle(w))
  {
    var x := s.workers[w];
    var f := x.phase.fiber;
    var y := x.(phase := AtTop, cached := if x.phase.viaCb then None else x.cached);
    Replaced(s, w, y, f, s.fibers[f].(state := st), s.lock)
  }

  /** Settling a fiber that yielded is letting go of it, and requeueing it if READY. */
  lemma SettleIsLetGo(s: State, w: nat)
    requires Enabled(s, Settle(w)) && !Ended(s.fibers[s.workers[w].phase.fiber].state)
    ensures
      var f := s.workers[w].phase.fiber;
      ApplySettle(s, w) ==
        if s.fibers[f].state == READY then Push(LetGo(s, w, READY), ByFiber(f), None) else LetGo(s, w, HOLD)
  {
    var f := s.workers[w].phase.fiber;
    assert s.fibers[f].state == READY ==> s.fibers[f := s.fibers[f].(state := READY)] == s.fibers;
  }

  lemma StepSettle(s: State, book: Book, w: nat) returns (next: Book)
    requires Safe(s, book) && Enabled(s, Settle(w))
    ensures Safe(ApplySettle(s, w), next)
  {
    var f := s.workers[w].phase.fiber;
    if Ended(s.fibers[f].state) {
      next := StepSettleEnded(s, book, w, f);
    } else {
      SettleIsLetGo(s, w);
      var st := if s.fibers[f].state == READY then READY else HOLD;
      StepLetGo(s, book, w, st);
      next := book[f := Claim(None, None, book[f].token)];
      if st == READY {
        NoTokenKnown(LetGo(s, w, READY), next, f);
        SafePush(LetGo(s, w, READY), next, f, None);
        next := next[f := next[f].(token := InQueue)];
      }
    }
  }

  lemma StepReturn(s: State, book: Book, w: nat, p: Phase)
    requires Safe(s, book) && w < |s.workers| && OnStack(s.workers[w].phase)
    requires p.Returned? || p.Decremented?
    requires p.fiber == s.workers[w].phase.fiber && p.viaCb == s.workers[w].phase.viaCb
    ensures Safe(Goto(s, w, p), book)
  {
    var f := p.fiber;
    SafeReplace(s, book, w, s.workers[w].(phase := p), f, s.fibers[f], book[f], s.lock);
    assert book[f := book[f]] == book && s.fibers[f := s.fibers[f]] == s.fibers;
  }

  /** The running fiber leaves its worker's stack in state READY, TERM or EXCEPT. */
  lemma StepLeave(s: State, book: Book, w: nat, y: Fib) returns (next: Book)
    requires Safe(s, book) && Enabled(s, YieldReady(w))
    requires y.state == READY || Ended(y.state)
    requires NoToken(s, s.workers[w].phase.fiber) || (Ended(y.state) && !s.workers[w].phase.viaCb)
    ensures
      var x := s.workers[w];
      Safe(Replaced(s, w, x.(phase := Returned(x.phase.fiber, x.phase.viaCb)), x.phase.fiber, y, s.lock), next)
  {
    var x := s.workers[w];
    var f := x.phase.fiber;
    if Ended(y.state) && !x.phase.viaCb {
      next := book[f := book[f].(holder := None)];
    } else {
      next := book[f := book[f].(token := NoTok)];
    }
    SafeReplace(s, book, w, x.(phase := Returned(f, x.phase.viaCb)), f, y, next[f], s.lock);
  }

  lemma StepNew(s: State, book: Book, c: Callback, t: Option<nat>) returns (next: Book)
    requires Safe(s, book)
    ensures Safe(PushNewFiber(s, c, t), next)
  {
    SafeGrow(s, book, Some(c));
    next := book + [Claim(None, None, NoTok)];
    SafePush(s.(fibers := s.fibers + [Fib(INIT, Some(c))]), next, |s.fibers|, t);
    next := next[|s.fibers| := Claim(None, None, InQueue)];
  }

  /** The step makes, moves or drops a wake-up. */
  predicate TokenAction(a: Action) {
    a.Wake? || a.Arm? || a.Fire? || a.Drop? || a.WakeOutside? || a.FireOutside? || a.DropOutside?
  }

  lemma StepFire(s: State, book: Book, f: FiberId) returns (next: Book)
    requires Safe(s, book) && f in s.slots
    ensures Safe(Push(s, ByFiber(f), None).(slots := s.slots - multiset{f}), next)
  {
    SafeDrop(s, book, f);
    next := book[f := book[f].(token := NoTok)];
    SafePush(s.(slots := s.slots - multiset{f}), next, f, None);
    next := next[f := next[f].(token := InQueue)];
  }

  lemma StepWake(s: State, book: Book, f: FiberId, t: Option<nat>) returns (next: Book)
    requires Safe(s, book) && MayWake(s, f)
    ensures Safe(Push(s, ByFiber(f), t), next)
  {
    SafePush(s, book, f, t);
    next := book[f := book[f].(token := InQueue)];
  }

  lemma StepToken(s: State, book: Book, a: Action) returns (next: Book)
    requires Safe(s, book) && Enabled(s, a) && Disciplined(s, a) && TokenAction(a)
    ensures Safe(Apply(s, a), next)
  {
    if a.Wake? || a.WakeOutside? {
      next := StepWake(s, book, a.fiber, a.thread);
    } else if a.Fire? || a.FireOutside? {
      next := StepFire(s, book, a.fiber);
    } else if a.Arm? {
      var f := s.workers[a.w].phase.fiber;
      SafeArm(s, book, f);
      next := book[f := book[f].(token := InSlot)];
    } else {
      SafeDrop(s, book, a.fiber);
      next := book[a.fiber := book[a.fiber].(token := NoTok)];
    }
  }

  lemma StepLoop(s: State, book: Book, a: Action) returns (next: Book)
    requires Safe(s, book) && Enabled(s, a) && LoopAction(a)
    ensures Safe(Apply(s, a), next)
    ensures AssertsHold(s, a)
  {
    next := book;
    match a
    case Inspect(w) => next := StepInspect(s, book, w);
    case Begin(w) => next := StepBegin(s, book, w);
    case Settle(w) => next := StepSettle(s, book, w);
    case Decrement(w) => StepReturn(s, book, w, Apply(s, a).workers[w].phase);
    case Acquire(_) => StepLock(s, book, a);
    case ScanEnd(_) => StepLock(s, book, a);
    case IdleCheck(w, quiet) => StepIdle(s, book, w, quiet);
    case _ => StepAround(s, book, a);
  }

  lemma StepSchedule(s: State, book: Book, a: Action) returns (next: Book)
    requires Safe(s, book) && Enabled(s, a)
    requires a.SpawnFiber? || a.SubmitFiber? || a.SpawnCallback? || a.SubmitCallback? || a.RequestStop?
    ensures Safe(Apply(s, a), next)
  {
    next := book;
    match a
    case SpawnFiber(_, c, t) => next := StepNew(s, book, c, t);
    case SubmitFiber(c, t) => next := StepNew(s, book, c, t);
    case SpawnCallback(_, c, t) => SafePushCallback(s, book, c, t);
    case SubmitCallback(c, t) => SafePushCallback(s, book, c, t);
    case RequestStop =>
  }

  lemma StepFiber(s: State, book: Book, a: Action) returns (next: Book)
    requires Safe(s, book) && Enabled(s, a) && Disciplined(s, a)
    requires a.YieldHold? || a.YieldReady? || a.Finish? || a.Throw?
    ensures Safe(Apply(s, a), next)
  {
    next := book;
    match a
    case YieldHold(w) => StepReturn(s, book, w, Apply(s, a).workers[w].phase);
    case YieldReady(w) => next := StepLeave(s, book, w, s.fibers[s.workers[w].phase.fiber].(state := READY));
    case Finish(w) => next := StepLeave(s, book, w, Fib(TERM, None));
    case Throw(w) => next := StepLeave(s, book, w, s.fibers[s.workers[w].phase.fiber].(state := EXCEPT));
  }

  lemma RunningIsExec(s: State, book: Book, a: Action)
    requires Safe(s, book) && Enabled(s, a) && !LoopAction(a)
    ensures AssertsHold(s, a)
  {
  }

  /** Every disciplined step keeps the invariant, and no assertion of the program fails on it. */
  lemma Step(s: State, book: Book, a: Action) returns (next: Book)
    requires Safe(s, book) && Enabled(s, a) && Disciplined(s, a)
    ensures Safe(Apply(s, a), next)
    ensures AssertsHold(s, a)
  {
    if LoopAction(a) {
      next := StepLoop(s, book, a);
    } else {
      RunningIsExec(s, book, a);
      if TokenAction(a) {
        next := StepToken(s, book, a);
      } else if a.YieldHold? || a.YieldReady? || a.Finish? || a.Throw? {
        next := StepFiber(s, book, a);
      } else {
        next := StepSchedule(s, book, a);
      }
    }
  }

  // ---------- the claims over whole runs ----------

  /** The worker does not have the fiber, or has it only to drop it: it has just picked it,
      or is back from its last slice, and will not reuse it for callbacks. */
  predicate NoUse(x: Worker, f: FiberId) {
    && x.cached != Some(f)
    && (Held(x.phase) == Some(f) ==> x.phase == Picked(ByFiber(f)) || (!x.phase.Running? && !x.phase.viaCb))
  }

  /** The fiber has ended, no worker will load it again, and those that have it drop it. */
  predicate OnlyDropped(s: State, f: FiberId) {
    && f < |s.fibers| && Ended(s.fibers[f].state)
    && forall w | 0 <= w < |s.workers| :: NoUse(s.workers[w], f)
  }

  /** Mutual exclusion: no fiber is picked by, or on the stack of, two workers, except that
      a fiber that has ended may be in the hands of several that are all about to drop it. */
  predicate Exclusive(s: State) {
    forall v, w | 0 <= v < w < |s.workers| && Held(s.workers[v].phase).Some? ::
      Held(s.workers[v].phase) == Held(s.workers[w].phase) ==>
        OnlyDropped(s, Held(s.workers[v].phase).value)
  }

  predicate HasRunner(s: State, f: FiberId) {
    exists w :: 0 <= w < |s.workers| && OnStack(s.workers[w].phase) && Held(s.workers[w].phase) == Some(f)
  }

  /** EXEC means that some worker has the fiber on its stack. */
  predicate ExecHasRunner(s: State) {
    forall f | 0 <= f < |s.fibers| && s.fibers[f].state == EXEC :: HasRunner(s, f)
  }

  /** Whenever a worker is about to load a new callback, its cached fiber is absent or
      blank: it carries no work, and nothing can resume it. */
  predicate CacheBlankOnLoad(s: State) {
    forall w | 0 <= w < |s.workers| && s.workers[w].phase.Picked? && s.workers[w].cached.Some? ::
      && s.workers[w].cached.value < |s.fibers|
      && s.fibers[s.workers[w].cached.value] == Fib(INIT, None)
      && NoToken(s, s.workers[w].cached.value)
      && forall v | 0 <= v < |s.workers| :: Held(s.workers[v].phase) != s.workers[w].cached
  }

  lemma SpentMeans(s: State, book: Book, f: FiberId)
    requires Safe(s, book) && f < |book| && Spent(s.fibers[f], book[f])
    ensures OnlyDropped(s, f)
  {
  }

  /** A fiber has one claimant, so two holders mean that it is spent. */
  lemma SharedIsSpent(s: State, book: Book, v: nat, w: nat)
    requires Safe(s, book) && v < w < |s.workers|
    requires Held(s.workers[v].phase).Some? && Held(s.workers[v].phase) == Held(s.workers[w].phase)
    ensures OnlyDropped(s, Held(s.workers[v].phase).value)
  {
    assert WorkerOk(s, book, v, s.workers[v]) && WorkerOk(s, book, w, s.workers[w]);
    SpentMeans(s, book, Held(s.workers[v].phase).value);
  }

  lemma SafeMeans(s: State, book: Book)
    requires Safe(s, book)
    ensures Exclusive(s) && ExecHasRunner(s) && CacheBlankOnLoad(s)
  {
    forall v, w | 0 <= v < w < |s.workers| && Held(s.workers[v].phase).Some?
                  && Held(s.workers[v].phase) == Held(s.workers[w].phase)
      ensures OnlyDropped(s, Held(s.workers[v].phase).value)
    {
      SharedIsSpent(s, book, v, w);
    }
  }

  /** A step leaves such a fiber as it is. */
  lemma LeftAlone(s: State, a: Action, f: FiberId)
    requires Enabled(s, a) && OnlyDropped(s, f)
    ensures f < |Apply(s, a).fibers| && Apply(s, a).fibers[f] == s.fibers[f]
  {
    match a
    case Begin(w) => assert ApplyBegin(s, w).fibers[f] == s.fibers[f];
    case Settle(w) => assert ApplySettle(s, w).fibers[f] == s.fibers[f];
    case _ =>
  }

  /** The worker that makes a step does not begin or cache it. */
  lemma BeginDrops(s: State, w: nat, f: FiberId)
    requires Enabled(s, Begin(w)) && OnlyDropped(s, f)
    ensures w < |ApplyBegin(s, w).workers| && NoUse(ApplyBegin(s, w).workers[w], f)
  {
    assert NoUse(s.workers[w], f);
  }

  lemma SettleDrops(s: State, w: nat, f: FiberId)
    requires Enabled(s, Settle(w)) && OnlyDropped(s, f)
    ensures w < |ApplySettle(s, w).workers| && NoUse(ApplySettle(s, w).workers[w], f)
  {
    assert NoUse(s.workers[w], f);
  }

  lemma LoopDrops(s: State, a: Action, f: FiberId)
    requires Enabled(s, a) && LoopAction(a) && OnlyDropped(s, f) && a.w < |Apply(s, a).workers|
    ensures NoUse(Apply(s, a).workers[a.w], f)
  {
    assert NoUse(s.workers[a.w], f);
    match a
    case Begin(w) => BeginDrops(s, w, f);
    case Settle(w) => SettleDrops(s, w, f);
    case _ =>
  }

  lemma CodeDrops(s: State, a: Action, f: FiberId)
    requires Enabled(s, a) && !LoopAction(a) && Actor(a).Some? && OnlyDropped(s, f) && a.w < |Apply(s, a).workers|
    ensures NoUse(Apply(s, a).workers[a.w], f)
  {
    assert NoUse(s.workers[a.w], f);
  }

  /** In every run, disciplined or not, a fiber that has ended and is not kept for
      callbacks is never run or changed again, however often it is still picked. */
  lemma {:induction false} EndedForGood(s: State, acts: seq<Action>, f: FiberId)
    requires Runs(s, acts) && OnlyDropped(s, f)
    ensures OnlyDropped(After(s, acts), f) && After(s, acts).fibers[f] == s.fibers[f]
    decreases |acts|
  {
    if acts != [] {
      ActorOnly(s, acts[0]);
      LeftAlone(s, acts[0], f);
      if Actor(acts[0]).Some? {
        if LoopAction(acts[0]) { LoopDrops(s, acts[0], f); } else { CodeDrops(s, acts[0], f); }
      }
      EndedForGood(Apply(s, acts[0]), acts[1..], f);
    }
  }

  lemma {:induction false} SafeRun(s: State, book: Book, acts: seq<Action>) returns (last: Book)
    requires Safe(s, book) && RunsDisciplined(s, acts)
    ensures Safe(After(s, acts), last)
    decreases |acts|
  {
    if acts == [] {
      last := book;
    } else {
      var next := Step(s, book, acts[0]);
      last := SafeRun(Apply(s, acts[0]), next, acts[1..]);
    }
  }

  /** The invariant with its bookkeeping hidden. */
  ghost predicate Reachable(s: State) {
    exists n: nat, acts: seq<Action> :: RunsDisciplined(Initial(n), acts) && s == After(Initial(n), acts)
  }

  lemma ReachableSafe(s: State) returns (book: Book)
    requires Reachable(s)
    ensures Safe(s, book)
  {
    var n: nat, acts: seq<Action> :| RunsDisciplined(Initial(n), acts) && s == After(Initial(n), acts);
    book := SafeRun(Initial(n), [], acts);
  }

  /** In every interleaving of any number of workers, no fiber is in the hands of two
      workers unless it has ended and both will drop it, EXEC marks exactly a fiber on some
      worker's stack, the fiber a worker reuses for a new callback is blank, and the next
      step cannot fail an assertion. */
  lemma MutualExclusion(s: State)
    requires Reachable(s)
    ensures Exclusive(s) && ExecHasRunner(s) && CacheBlankOnLoad(s)
    ensures forall a | Enabled(s, a) :: AssertsHold(s, a)
  {
    var book := ReachableSafe(s);
    SafeMeans(s, book);
    forall a | Enabled(s, a) ensures AssertsHold(s, a) {
      if LoopAction(a) {
        var _ := StepLoop(s, book, a);
      } else {
        RunningIsExec(s, book, a);
      }
    }
  }

  /** A fiber that ends outside the callback cache is from then on only dropped. */
  lemma EndsForGood(s: State, a: Action)
    requires Reachable(s) && Enabled(s, a) && (a.Finish? || a.Throw?) && !s.workers[a.w].phase.viaCb
    ensures OnlyDropped(Apply(s, a), s.workers[a.w].phase.fiber)
  {
    var book := ReachableSafe(s);
    var f := s.workers[a.w].phase.fiber;
    assert WorkerOk(s, book, a.w, s.workers[a.w]);
    forall w | 0 <= w < |s.workers| && w != a.w
      ensures s.workers[w].cached != Some(f) && Held(s.workers[w].phase) != Some(f) {
      assert WorkerOk(s, book, w, s.workers[w]);
    }
  }

  /** One more disciplined step leads to a reachable state. */
  lemma ReachableStep(s: State, a: Action)
    requires Reachable(s) && Enabled(s, a) && Disciplined(s, a)
    ensures Reachable(Apply(s, a))
  {
    var n: nat, acts: seq<Action> :| RunsDisciplined(Initial(n), acts) && s == After(Initial(n), acts);
    RunSnoc(Initial(n), acts, a);
  }

  lemma {:induction false} RunSnoc(s: State, acts: seq<Action>, a: Action)
    requires Runs(s, acts) && Enabled(After(s, acts), a)
    ensures Runs(s, acts + [a]) && After(s, acts + [a]) == Apply(After(s, acts), a)
    ensures RunsDisciplined(s, acts) && Disciplined(After(s, acts), a) ==> RunsDisciplined(s, acts + [a])
    decreases |acts|
  {
    if acts == [] {
      assert acts + [a] == [a];
      assert [a][1..] == [];
    } else {
      RunSnoc(Apply(s, acts[0]), acts[1..], a);
      assert (acts + [a])[1..] == acts[1..] + [a];
    }
  }
}
