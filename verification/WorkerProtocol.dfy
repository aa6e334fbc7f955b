/** The worker protocol of Scheduler::run as an interleaved transition system.

    Any number of workers share one task queue. Each Action is one step of one
    worker (or of a thread outside the scheduler); a run is a sequence of actions
    and all nondeterminism is in the choice of the next action. The queue lock is
    part of the state: a scan looks at one entry per step while it holds the lock,
    so fibers may change state in the middle of a scan. */
module WorkerProtocol {
  import opened Basics

  type FiberId = nat
  type Callback = nat

  datatype Task = ByFiber(fiber: FiberId) | ByCallback(cb: Callback)

  /** A queue entry: a task and the thread it is pinned to, if any. */
  datatype Entry = Entry(task: Task, thread: Option<nat>)

  /** A fiber object: its state and the function it still has to complete. */
  datatype Fib = Fib(state: FiberState, work: Option<Callback>)

  /** Where a worker is inside the loop of run. `viaCb` tells the callback branch
      (through the cached fiber) from the fiber branch. Idle is the idle fiber before
      its test of stopping, Waiting the same fiber after a negative test. */
  datatype Phase =
    | AtTop
    | Scan(next: nat)
    | Picked(task: Task)
    | Running(fiber: FiberId, viaCb: bool)
    | Returned(fiber: FiberId, viaCb: bool)
    | Decremented(fiber: FiberId, viaCb: bool)
    | NoneFound
    | Idle
    | Waiting
    | Exited

  /** `idleDone`: the worker's idle fiber has ended. `cached`: its cb_fiber. */
  datatype Worker = Worker(phase: Phase, idleDone: bool, cached: Option<FiberId>)

  /** `slots` holds the fibers armed in event slots; `stop` is m_autoStop && m_stopping. */
  datatype State = State(
    workers: seq<Worker>,
    queue: seq<Entry>,
    lock: Option<nat>,
    fibers: seq<Fib>,
    slots: multiset<FiberId>,
    active: int,
    idle: int,
    stop: bool)

  datatype Action =
    // the loop of run
    | Acquire(w: nat)
    | Inspect(w: nat)
    | ScanEnd(w: nat)
    | Begin(w: nat)
    | Decrement(w: nat)
    | Settle(w: nat)
    | GoIdle(w: nat)
    | IdleCheck(w: nat, quiet: bool)
    | LeaveIdle(w: nat)
    // what the code on a worker may do
    | SpawnFiber(w: nat, cb: Callback, thread: Option<nat>)
    | SpawnCallback(w: nat, cb: Callback, thread: Option<nat>)
    | Wake(w: nat, fiber: FiberId, thread: Option<nat>)
    | Arm(w: nat)
    | Fire(w: nat, fiber: FiberId)
    | Drop(w: nat, fiber: FiberId)
    | YieldReady(w: nat)
    | YieldHold(w: nat)
    | Finish(w: nat)
    | Throw(w: nat)
    // threads outside the scheduler, before and after stop
    | SubmitFiber(cb: Callback, thread: Option<nat>)
    | SubmitCallback(cb: Callback, thread: Option<nat>)
    | WakeOutside(fiber: FiberId, thread: Option<nat>)
    | FireOutside(fiber: FiberId)
    | DropOutside(fiber: FiberId)
    | RequestStop

  /** The fiber a worker has taken from the queue or has on its stack. */
  function Held(p: Phase): Option<FiberId> {
    match p
    case Picked(ByFiber(f)) => Some(f)
    case Running(f, _) => Some(f)
    case Returned(f, _) => Some(f)
    case Decremented(f, _) => Some(f)
    case _ => None
  }

  /** The phases after swapIn and before the worker is back at the top. */
  predicate OnStack(p: Phase) {
    p.Running? || p.Returned? || p.Decremented?
  }

  /** The phases between the increment and the decrement of m_activeThreadCount. */
  predicate Busy(p: Phase) {
    p.Picked? || p.Running? || p.Returned?
  }

  predicate InExec(s: State, t: Task) {
    t.ByFiber? && t.fiber < |s.fibers| && s.fibers[t.fiber].state == EXEC
  }

  predicate Eligible(s: State, e: Entry, w: nat) {
    !PinnedElsewhere(e.thread, w) && !InExec(s, e.task)
  }

  predicate Queued(s: State, f: FiberId) {
    exists i :: 0 <= i < |s.queue| && s.queue[i].task == ByFiber(f)
  }

  /** The fiber has no wake-up in the queue and none armed in an event slot. */
  predicate NoToken(s: State, f: FiberId) {
    !Queued(s, f) && f !in s.slots
  }

  function Goto(s: State, w: nat, p: Phase): State
    requires w < |s.workers|
  {
    s.(workers := s.workers[w := s.workers[w].(phase := p)])
  }

  function SetFiber(s: State, f: FiberId, x: Fib): State
    requires f < |s.fibers|
  {
    s.(fibers := s.fibers[f := x])
  }

  function SetState(s: State, f: FiberId, st: FiberState): State
    requires f < |s.fibers|
  {
    SetFiber(s, f, s.fibers[f].(state := st))
  }

  function SetCached(s: State, w: nat, c: Option<FiberId>): State
    requires w < |s.workers|
  {
    s.(workers := s.workers[w := s.workers[w].(cached := c)])
  }

  function Push(s: State, t: Task, thread: Option<nat>): State {
    s.(queue := s.queue + [Entry(t, thread)])
  }

  /** A new fiber object carrying `cb`, and an entry for it. */
  function PushNewFiber(s: State, cb: Callback, thread: Option<nat>): State {
    Push(s.(fibers := s.fibers + [Fib(INIT, Some(cb))]), ByFiber(|s.fibers|), thread)
  }

  /** The worker whose step an action is; None for threads outside. */
  function Actor(a: Action): Option<nat> {
    match a
    case SubmitFiber(_, _) => None
    case SubmitCallback(_, _) => None
    case WakeOutside(_, _) => None
    case FireOutside(_) => None
    case DropOutside(_) => None
    case RequestStop => None
    case _ => Some(a.w)
  }

  /** Code of the worker's current fiber, or of its idle fiber, can run. */
  predicate CodeRuns(p: Phase) {
    p.Running? || p.Waiting?
  }

  predicate Enabled(s: State, a: Action) {
    && (Actor(a).Some? ==> Actor(a).value < |s.workers|)
    && match a
       case Acquire(w) => s.workers[w].phase.AtTop? && s.lock.None?
       case Inspect(w) => s.workers[w].phase.Scan? && s.workers[w].phase.next < |s.queue|
       case ScanEnd(w) => s.workers[w].phase.Scan? && s.workers[w].phase.next >= |s.queue|
       case Begin(w) =>
         && s.workers[w].phase.Picked?
         && (s.workers[w].phase.task.ByFiber? ==> s.workers[w].phase.task.fiber < |s.fibers|)
         && (s.workers[w].cached.Some? ==> s.workers[w].cached.value < |s.fibers|)
       case Decrement(w) => s.workers[w].phase.Returned?
       case Settle(w) =>
         && s.workers[w].phase.Decremented?
         && s.workers[w].phase.fiber < |s.fibers|
         && (s.fibers[s.workers[w].phase.fiber].state == READY ==> s.lock.None?)
       case GoIdle(w) => s.workers[w].phase.NoneFound?
       case IdleCheck(w, _) => s.workers[w].phase.Idle? && s.lock.None?
       case LeaveIdle(w) => s.workers[w].phase.Waiting?
       case SpawnFiber(w, _, _) => CodeRuns(s.workers[w].phase) && s.lock.None?
       case SpawnCallback(w, _, _) => CodeRuns(s.workers[w].phase) && s.lock.None?
       case Wake(w, f, _) => CodeRuns(s.workers[w].phase) && s.lock.None? && f < |s.fibers|
       case Arm(w) => s.workers[w].phase.Running?
       case Fire(w, f) => CodeRuns(s.workers[w].phase) && s.lock.None? && f in s.slots
       case Drop(w, f) => CodeRuns(s.workers[w].phase) && f in s.slots
       case YieldReady(w) => s.workers[w].phase.Running? && s.workers[w].phase.fiber < |s.fibers|
       case YieldHold(w) => s.workers[w].phase.Running?
       case Finish(w) => s.workers[w].phase.Running? && s.workers[w].phase.fiber < |s.fibers|
       case Throw(w) => s.workers[w].phase.Running? && s.workers[w].phase.fiber < |s.fibers|
       case SubmitFiber(_, _) => s.lock.None?
       case SubmitCallback(_, _) => s.lock.None?
       case WakeOutside(f, _) => s.lock.None? && f < |s.fibers|
       case FireOutside(f) => s.lock.None? && f in s.slots
       case DropOutside(f) => f in s.slots
       case RequestStop => true
  }

  /** Scheduler::stopping. */
  predicate Stopping(s: State) {
    s.stop && s.queue == [] && s.active == 0
  }

  function ApplyInspect(s: State, w: nat): State
    requires Enabled(s, Inspect(w))
  {
    var i := s.workers[w].phase.next;
    if Eligible(s, s.queue[i], w) then
      Goto(s, w, Picked(s.queue[i].task)).(queue := RemoveAt(s.queue, i), active := s.active + 1, lock := None)
    else
      Goto(s, w, Scan(i + 1))
  }

  function ApplyBegin(s: State, w: nat): State
    requires Enabled(s, Begin(w))
  {
    match s.workers[w].phase.task
    case ByFiber(f) =>
      if Ended(s.fibers[f].state) then
        Goto(s, w, AtTop).(active := s.active - 1)
      else
        SetState(Goto(s, w, Running(f, false)), f, EXEC)
    case ByCallback(c) =>
      if s.workers[w].cached.Some? then
        var f := s.workers[w].cached.value;
        SetFiber(Goto(s, w, Running(f, true)), f, Fib(EXEC, Some(c)))
      else
        var f := |s.fibers|;
        SetCached(Goto(s, w, Running(f, true)), w, Some(f)).(fibers := s.fibers + [Fib(EXEC, Some(c))])
  }

  function ApplySettle(s: State, w: nat): State
    requires Enabled(s, Settle(w))
  {
    var f := s.workers[w].phase.fiber;
    var viaCb := s.workers[w].phase.viaCb;
    var top := Goto(s, w, AtTop);
    if s.fibers[f].state == READY then
      var t := Push(top, ByFiber(f), None);
      if viaCb then SetCached(t, w, None) else t
    else if Ended(s.fibers[f].state) then
      if viaCb then SetFiber(top, f, Fib(INIT, None)) else top
    else
      var t := SetState(top, f, HOLD);
      if viaCb then SetCached(t, w, None) else t
  }

  function Apply(s: State, a: Action): State
    requires Enabled(s, a)
  {
    match a
    case Acquire(w) => Goto(s, w, Scan(0)).(lock := Some(w))
    case Inspect(w) => ApplyInspect(s, w)
    case ScanEnd(w) => Goto(s, w, NoneFound).(lock := None)
    case Begin(w) => ApplyBegin(s, w)
    case Decrement(w) =>
      var p := s.workers[w].phase;
      Goto(s, w, Decremented(p.fiber, p.viaCb)).(active := s.active - 1)
    case Settle(w) => ApplySettle(s, w)
    case GoIdle(w) =>
      if s.workers[w].idleDone then Goto(s, w, Exited) else Goto(s, w, Idle).(idle := s.idle + 1)
    case IdleCheck(w, quiet) =>
      if quiet && Stopping(s) then
        s.(workers := s.workers[w := s.workers[w].(phase := AtTop, idleDone := true)], idle := s.idle - 1)
      else
        Goto(s, w, Waiting)
    case LeaveIdle(w) => Goto(s, w, AtTop).(idle := s.idle - 1)
    case SpawnFiber(w, c, t) => PushNewFiber(s, c, t)
    case SpawnCallback(w, c, t) => Push(s, ByCallback(c), t)
    case Wake(w, f, t) => Push(s, ByFiber(f), t)
    case Arm(w) => s.(slots := s.slots + multiset{s.workers[w].phase.fiber})
    case Fire(w, f) => Push(s, ByFiber(f), None).(slots := s.slots - multiset{f})
    case Drop(w, f) => s.(slots := s.slots - multiset{f})
    case YieldReady(w) =>
      var p := s.workers[w].phase;
      SetState(Goto(s, w, Returned(p.fiber, p.viaCb)), p.fiber, READY)
    case YieldHold(w) =>
      var p := s.workers[w].phase;
      Goto(s, w, Returned(p.fiber, p.viaCb))
    case Finish(w) =>
      var p := s.workers[w].phase;
      SetFiber(Goto(s, w, Returned(p.fiber, p.viaCb)), p.fiber, Fib(TERM, None))
    case Throw(w) =>
      var p := s.workers[w].phase;
      SetState(Goto(s, w, Returned(p.fiber, p.viaCb)), p.fiber, EXCEPT)
    case SubmitFiber(c, t) => PushNewFiber(s, c, t)
    case SubmitCallback(c, t) => Push(s, ByCallback(c), t)
    case WakeOutside(f, t) => Push(s, ByFiber(f), t)
    case FireOutside(f) => Push(s, ByFiber(f), None).(slots := s.slots - multiset{f})
    case DropOutside(f) => s.(slots := s.slots - multiset{f})
    case RequestStop => s.(stop := true)
  }

  /** A fiber may be scheduled again while it runs, or while it is parked and nobody keeps
      it, or after it has ended and nobody is to use it again; in each case only if it has
      no wake-up yet. */
  predicate MayWake(s: State, f: FiberId) {
    && f < |s.fibers|
    && NoToken(s, f)
    && (s.fibers[f].state == EXEC
        || (s.fibers[f].state != READY
            && forall v | 0 <= v < |s.workers| ::
                 s.workers[v].cached != Some(f)
                 && (Ended(s.fibers[f].state) || Held(s.workers[v].phase) != Some(f))))
  }

  /** One wake-up per fiber: a token is made only for a fiber that has none. A fiber that
      is to be requeued by run leaves no token behind, nor does one that ends and will be
      loaded with the next callback; any other may end with its wake-up still to come. */
  predicate Disciplined(s: State, a: Action)
    requires Enabled(s, a)
  {
    match a
    case Wake(w, f, t) => MayWake(s, f)
    case WakeOutside(f, t) => MayWake(s, f)
    case Arm(w) => NoToken(s, s.workers[w].phase.fiber)
    case YieldReady(w) => NoToken(s, s.workers[w].phase.fiber)
    case Finish(w) => s.workers[w].phase.viaCb ==> NoToken(s, s.workers[w].phase.fiber)
    case Throw(w) => s.workers[w].phase.viaCb ==> NoToken(s, s.workers[w].phase.fiber)
    case _ => true
  }

  /** The assertions of the program on the path of an action: swapIn wants a fiber that
      is not in EXEC, reset one that has ended or never started, and arming an event or
      yielding wants the current fiber in EXEC. */
  predicate AssertsHold(s: State, a: Action)
    requires Enabled(s, a)
  {
    match a
    case Begin(w) =>
      (match s.workers[w].phase.task
       case ByFiber(f) => s.fibers[f].state != EXEC
       case ByCallback(c) =>
         s.workers[w].cached.Some? ==>
           var x := s.fibers[s.workers[w].cached.value];
           Ended(x.state) || x.state == INIT)
    case Arm(w) => InExec(s, ByFiber(s.workers[w].phase.fiber))
    case YieldReady(w) => InExec(s, ByFiber(s.workers[w].phase.fiber))
    case YieldHold(w) => InExec(s, ByFiber(s.workers[w].phase.fiber))
    case _ => true
  }

  /** Every action of the run is enabled when its turn comes. */
  predicate Runs(s: State, acts: seq<Action>)
    decreases |acts|
  {
    acts == [] || (Enabled(s, acts[0]) && Runs(Apply(s, acts[0]), acts[1..]))
  }

  /** As Runs, with every action disciplined. */
  predicate RunsDisciplined(s: State, acts: seq<Action>)
    ensures RunsDisciplined(s, acts) ==> Runs(s, acts)
    decreases |acts|
  {
    acts == [] || (Enabled(s, acts[0]) && Disciplined(s, acts[0]) && RunsDisciplined(Apply(s, acts[0]), acts[1..]))
  }

  function After(s: State, acts: seq<Action>): State
    requires Runs(s, acts)
    decreases |acts|
  {
    if acts == [] then s else After(Apply(s, acts[0]), acts[1..])
  }

  /** `n` workers about to enter the loop, nothing submitted yet. */
  function Initial(n: nat): State {
    State(seq(n, _ => Worker(AtTop, false, None)), [], None, [], multiset{}, 0, 0, false)
  }
}
