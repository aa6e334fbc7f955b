/** One IOManager worker as a transition system: the loop of run, the event operations of
    the tasks, and the idle fiber with its test of stopping, its timers and its dispatch
    loop, with other threads that submit tasks, cancel events and set timers in between.
    When the worker leaves run, nothing is left anywhere, if nothing came too late. */
module IoShutdown {
  import opened Basics
  import opened EventTable
  import opened EventLaws
  import opened EventRuns
  import opened EventMeaning

  /** AtTop: before the scan. The test of stopping reads the timers (in Idle), the pending
      count (in NoTimer) and the queue (in NoEvent), one after the other; it is positive if
      all three are, and otherwise leads to Polling. */
  datatype Phase = AtTop | Running | Idle | NoTimer | NoEvent | Polling | Exited

  /** `timers` is the time to the next timer, None when there is none; `me` names this
      scheduler among those that waiters may belong to. */
  datatype State = State(
    io: Io, queue: seq<Waiter>, active: int, phase: Phase, idleDone: bool, timers: Option<nat>, stop: bool, me: nat)

  datatype Action =
    | Scan
    | EventOp(op: Op)
    | Schedule(task: Waiter)
    | SetTimers(timers: Option<nat>)
    | Return(requeued: Option<Waiter>)
    | ReadTimers
    | ReadCount
    | ReadQueue
    | IdlePoll(expired: seq<Waiter>, later: Option<nat>, batch: seq<Report>, oks: seq<bool>)
    // other threads
    | Submit(task: Waiter)
    | OutsideOp(op: Op)
    | OutsideTimers(timers: Option<nat>)
    | RequestStop

  /** The waiters among the wake-ups that go to scheduler `me`. */
  function Mine(wakes: seq<Wake>, me: nat): seq<Waiter> {
    if wakes == [] then [] else
      (if wakes[0].scheduler == me then [wakes[0].waiter] else []) + Mine(wakes[1..], me)
  }

  predicate Enabled(s: State, a: Action) {
    match a
    case Scan => s.phase.AtTop?
    case EventOp(op) => s.phase.Running? && !op.Poll? && Allowed(s.io, op)
    case Schedule(_) => s.phase.Running?
    case SetTimers(_) => s.phase.Running?
    case Return(_) => s.phase.Running?
    case ReadTimers => s.phase.Idle?
    case ReadCount => s.phase.NoTimer?
    case ReadQueue => s.phase.NoEvent?
    case IdlePoll(expired, _, batch, oks) =>
      s.phase.Polling? && Allowed(s.io, Poll(batch, oks)) && (s.timers.None? ==> expired == [])
    case Submit(_) => true
    case OutsideOp(op) => !op.Poll? && Allowed(s.io, op)
    case OutsideTimers(_) => true
    case RequestStop => true
  }

  /** What IOManager::stopping is to find. */
  predicate Stopping(s: State) {
    s.timers.None? && s.io.pending == 0 && s.stop && s.queue == [] && s.active == 0
  }

  /** An event operation, with what it wakes put into this scheduler's queue. */
  function WithOp(s: State, op: Op): State
    requires Inv(s.io) && Allowed(s.io, op)
  {
    var t := Next(s.io, op);
    s.(io := t, queue := s.queue + Mine(t.wakes[|s.io.wakes|..], s.me))
  }

  function Apply(s: State, a: Action): State
    requires Inv(s.io) && Enabled(s, a)
  {
    match a
    case Scan =>
      if s.queue != [] then s.(phase := Running, queue := s.queue[1..], active := s.active + 1)
      else if s.idleDone then s.(phase := Exited)
      else s.(phase := Idle)
    case EventOp(op) => WithOp(s, op)
    case Schedule(t) => s.(queue := s.queue + [t])
    case SetTimers(t) => s.(timers := t)
    case Return(r) => s.(phase := AtTop, active := s.active - 1, queue := s.queue + (if r.Some? then [r.value] else []))
    case ReadTimers => s.(phase := if s.timers.None? then NoTimer else Polling)
    case ReadCount => s.(phase := if s.io.pending == 0 then NoEvent else Polling)
    case ReadQueue =>
      if s.stop && s.queue == [] && s.active == 0 then s.(phase := AtTop, idleDone := true) else s.(phase := Polling)
    case IdlePoll(expired, later, batch, oks) =>
      WithOp(s.(phase := AtTop, queue := s.queue + expired, timers := later), Poll(batch, oks))
    case Submit(t) => s.(queue := s.queue + [t])
    case OutsideOp(op) => WithOp(s, op)
    case OutsideTimers(t) => s.(timers := t)
    case RequestStop => s.(stop := true)
  }

  /** No armed event means blank contexts and no interest but the tickle pipe's. */
  lemma NothingPending(io: Io)
    requires Inv(io) && io.pending == 0
    ensures forall fd | 0 <= fd < |io.table| :: io.table[fd] == BLANK_CTX
    ensures io.kernel == map[io.tickleFd := Only(READ)]
  {
    NoBitsNoEvents(io.table);
    assert forall fd | fd in io.kernel :: fd == io.tickleFd;
  }

  /** Where nothing is armed there is nothing to delete or to cancel. */
  lemma QuietOp(io: Io, op: Op)
    requires Inv(io) && io.pending == 0 && !op.Poll? && !op.Add?
    ensures Next(io, op) == io
  {
    NothingPending(io);
  }

  /** Another thread submits a task only before the idle fiber has ended, sets a timer only
      before the test that lets it end has read the timers, and arms an event only before
      that test has read the pending count. Cancelling and deleting are always in time. */
  predicate InTime(s: State, a: Action) {
    match a
    case Submit(_) => !s.idleDone
    case OutsideOp(op) => !op.Add? || !(s.phase.NoEvent? || s.idleDone)
    case OutsideTimers(t) => t.None? || !(s.phase.NoTimer? || s.phase.NoEvent? || s.idleDone)
    case _ => true
  }

  /** The active count is exact, what the test of stopping has read still holds, and after a
      positive test nothing moves. */
  predicate Orderly(s: State) {
    && Inv(s.io)
    && s.active == (if s.phase.Running? then 1 else 0)
    && (s.phase.Exited? ==> s.idleDone)
    && (s.phase.NoTimer? || s.phase.NoEvent? ==> s.timers.None?)
    && (s.phase.NoEvent? ==> s.io.pending == 0)
    && (s.idleDone ==> (s.phase.AtTop? || s.phase.Exited?) && Stopping(s))
  }

  lemma OrderlyStep(s: State, a: Action)
    requires Orderly(s) && Enabled(s, a) && InTime(s, a)
    ensures Orderly(Apply(s, a))
  {
    if a.OutsideOp? && s.io.pending == 0 && !a.op.Add? {
      QuietOp(s.io, a.op);
    }
  }

  predicate Runs(s: State, acts: seq<Action>)
    requires Inv(s.io)
    decreases |acts|
  {
    acts == [] || (Enabled(s, acts[0]) && Runs(Apply(s, acts[0]), acts[1..]))
  }

  function After(s: State, acts: seq<Action>): (t: State)
    requires Inv(s.io) && Runs(s, acts)
    ensures Inv(t.io)
    decreases |acts|
  {
    if acts == [] then s else After(Apply(s, acts[0]), acts[1..])
  }

  predicate RunsInTime(s: State, acts: seq<Action>)
    requires Inv(s.io) && Runs(s, acts)
    decreases |acts|
  {
    acts == [] || (InTime(s, acts[0]) && RunsInTime(Apply(s, acts[0]), acts[1..]))
  }

  lemma {:induction false} OrderlyRun(s: State, acts: seq<Action>)
    requires Orderly(s) && Runs(s, acts) && RunsInTime(s, acts)
    ensures Orderly(After(s, acts))
    decreases |acts|
  {
    if acts != [] {
      OrderlyStep(s, acts[0]);
      OrderlyRun(Apply(s, acts[0]), acts[1..]);
    }
  }

  function Initial(tickleFd: nat, me: nat): (s: State)
    ensures Orderly(s)
  {
    State(Start(tickleFd), [], 0, AtTop, false, None, false, me)
  }

  /** Nothing is left: not in the queue, not in the counts, the timers, the contexts with
      their slots, or the kernel, but for the tickle pipe. */
  predicate Clean(s: State) {
    && s.queue == [] && s.active == 0 && s.io.pending == 0 && s.timers == None
    && (forall fd | 0 <= fd < |s.io.table| :: s.io.table[fd] == BLANK_CTX)
    && s.io.kernel == map[s.io.tickleFd := Only(READ)]
  }

  /** Clean shutdown: when the worker has left run, stop was requested and nothing is left,
      if no task, timer or event of another thread came too late. */
  lemma CleanShutdown(tickleFd: nat, me: nat, acts: seq<Action>)
    requires Runs(Initial(tickleFd, me), acts) && RunsInTime(Initial(tickleFd, me), acts)
    requires After(Initial(tickleFd, me), acts).phase.Exited?
    ensures After(Initial(tickleFd, me), acts).stop && Clean(After(Initial(tickleFd, me), acts))
  {
    OrderlyRun(Initial(tickleFd, me), acts);
    NothingPending(After(Initial(tickleFd, me), acts).io);
  }

  // ---------- nothing is thrown away ----------

  /** The waiters that belong to this scheduler, in their order and as often as they occur. */
  lemma {:induction false} MineConcat(a: seq<Wake>, b: seq<Wake>, me: nat)
    ensures Mine(a + b, me) == Mine(a, me) + Mine(b, me)
  {
    if a == [] {
      assert a + b == b;
    } else {
      assert (a + b)[1..] == a[1..] + b;
      MineConcat(a[1..], b, me);
    }
  }

  lemma MineOne(x: Waiter, other: nat, me: nat)
    ensures Mine([Wake(me, x)], me) == [x]
    ensures other != me ==> Mine([Wake(other, x)], me) == []
  {
    assert [Wake(me, x)][1..] == [] && [Wake(other, x)][1..] == [];
  }

  /** What an action takes from the queue. */
  function TakenBy(s: State, a: Action): seq<Waiter> {
    if a.Scan? && s.queue != [] then [s.queue[0]] else []
  }

  /** What an event operation wakes for this scheduler. */
  function WokenHere(s: State, op: Op): seq<Waiter>
    requires Inv(s.io) && Allowed(s.io, op)
  {
    Mine(Woken(s.io, op), s.me)
  }

  /** What enters the queue with an action: new tasks, a fiber that run puts back, expired
      callbacks, and the waiters of this scheduler whose events are cancelled or reported. */
  function EnteredBy(s: State, a: Action): seq<Waiter>
    requires Inv(s.io) && Enabled(s, a)
  {
    match a
    case Schedule(task) => [task]
    case Submit(task) => [task]
    case Return(requeued) => if requeued.Some? then [requeued.value] else []
    case EventOp(op) => WokenHere(s, op)
    case OutsideOp(op) => WokenHere(s, op)
    case IdlePoll(expired, _, batch, oks) => expired + WokenHere(s, Poll(batch, oks))
    case _ => []
  }

  lemma WithOpMeans(s: State, op: Op)
    requires Inv(s.io) && Allowed(s.io, op)
    ensures WithOp(s, op).queue == s.queue + WokenHere(s, op) && WithOp(s, op).io == Next(s.io, op)
  {
    OpMeans(s.io, op, 0, READ);
    assert Next(s.io, op).wakes[|s.io.wakes|..] == Woken(s.io, op);
  }

  /** The table changes only by the event operations, the timers only when they are set or
      expire, the request only by stop, and the queue as stated. */
  lemma FlowStep(s: State, a: Action)
    requires Inv(s.io) && Enabled(s, a)
    ensures TakenBy(s, a) + Apply(s, a).queue == s.queue + EnteredBy(s, a)
    ensures Apply(s, a).io ==
      if a.EventOp? || a.OutsideOp? then Next(s.io, a.op)
      else if a.IdlePoll? then Next(s.io, Poll(a.batch, a.oks))
      else s.io
    ensures Apply(s, a).timers ==
      if a.SetTimers? || a.OutsideTimers? then a.timers else if a.IdlePoll? then a.later else s.timers
    ensures Apply(s, a).stop == (s.stop || a.RequestStop?) && Apply(s, a).me == s.me
  {
    match a
    case EventOp(op) => WithOpMeans(s, op);
    case OutsideOp(op) => WithOpMeans(s, op);
    case IdlePoll(_, _, _, _) => FlowPoll(s, a);
    case _ =>
  }

  lemma FlowPoll(s: State, a: Action)
    requires Inv(s.io) && Enabled(s, a) && a.IdlePoll?
    ensures Apply(s, a).queue == s.queue + EnteredBy(s, a) && Apply(s, a).io == Next(s.io, Poll(a.batch, a.oks))
  {
    WithOpMeans(s.(phase := AtTop, queue := s.queue + a.expired, timers := a.later), Poll(a.batch, a.oks));
    Regroup(s.queue, a.expired, WokenHere(s, Poll(a.batch, a.oks)));
  }

  function Taken(s: State, acts: seq<Action>): seq<Waiter>
    requires Inv(s.io) && Runs(s, acts)
    decreases |acts|
  {
    if acts == [] then [] else TakenBy(s, acts[0]) + Taken(Apply(s, acts[0]), acts[1..])
  }

  function Entered(s: State, acts: seq<Action>): seq<Waiter>
    requires Inv(s.io) && Runs(s, acts)
    decreases |acts|
  {
    if acts == [] then [] else EnteredBy(s, acts[0]) + Entered(Apply(s, acts[0]), acts[1..])
  }

  /** Over any run, what was taken followed by what is queued is the first queue followed by
      everything that entered, in order. */
  lemma {:induction false} Flow(s: State, acts: seq<Action>)
    requires Inv(s.io) && Runs(s, acts)
    ensures Taken(s, acts) + After(s, acts).queue == s.queue + Entered(s, acts)
    decreases |acts|
  {
    if acts != [] {
      var t := Apply(s, acts[0]);
      var rest := acts[1..];
      FlowStep(s, acts[0]);
      Flow(t, rest);
      Regroup(TakenBy(s, acts[0]), Taken(t, rest), After(t, rest).queue);
      Regroup(TakenBy(s, acts[0]), t.queue, Entered(t, rest));
      Regroup(s.queue, EnteredBy(s, acts[0]), Entered(t, rest));
    }
  }

  /** At a clean exit every task that ever entered the queue has been taken, in order. */
  lemma EverythingTaken(tickleFd: nat, me: nat, acts: seq<Action>)
    requires Runs(Initial(tickleFd, me), acts) && RunsInTime(Initial(tickleFd, me), acts)
    requires After(Initial(tickleFd, me), acts).phase.Exited?
    ensures Taken(Initial(tickleFd, me), acts) == Entered(Initial(tickleFd, me), acts)
  {
    var s := Initial(tickleFd, me);
    CleanShutdown(tickleFd, me, acts);
    Flow(s, acts);
    assert Taken(s, acts) + [] == Taken(s, acts) && [] + Entered(s, acts) == Entered(s, acts);
  }

  // ---------- too late ----------

  /** Some run leads from s to t. */
  ghost predicate Leads(s: State, t: State)
    requires Inv(s.io)
  {
    exists acts: seq<Action> :: Runs(s, acts) && After(s, acts) == t
  }

  lemma {:induction false} RunSnoc(s: State, acts: seq<Action>, a: Action)
    requires Inv(s.io) && Runs(s, acts) && Enabled(After(s, acts), a)
    ensures Runs(s, acts + [a]) && After(s, acts + [a]) == Apply(After(s, acts), a)
    decreases |acts|
  {
    if acts == [] {
      assert acts + [a] == [a];
      assert [a][1..] == [];
    } else {
      RunSnoc(Apply(s, acts[0]), acts[1..], a);
      assert (acts + [a])[1..] == acts[1..] + [a];
    }
  }

  lemma LeadsOn(s: State, t: State, a: Action, u: State)
    requires Inv(s.io) && Leads(s, t) && Inv(t.io) && Enabled(t, a) && Apply(t, a) == u
    ensures Leads(s, u)
  {
    var acts: seq<Action> :| Runs(s, acts) && After(s, acts) == t;
    RunSnoc(s, acts, a);
  }

  /** Stop is requested, a scan finds nothing, and there is no timer. */
  lemma ReachNoTimer(tickleFd: nat, me: nat)
    ensures Leads(Initial(tickleFd, me), Initial(tickleFd, me).(stop := true, phase := NoTimer))
  {
    var s := Initial(tickleFd, me);
    assert Runs(s, []) && After(s, []) == s;
    LeadsOn(s, s, RequestStop, s.(stop := true));
    LeadsOn(s, s.(stop := true), Scan, s.(stop := true, phase := Idle));
    LeadsOn(s, s.(stop := true, phase := Idle), ReadTimers, s.(stop := true, phase := NoTimer));
  }

  /** A timer that another thread sets after the timers were read does not keep the worker. */
  lemma LateTimerIsLost(tickleFd: nat, me: nat, next: nat)
    ensures exists t :: Leads(Initial(tickleFd, me), t) && t.phase.Exited? && t.timers == Some(next)
  {
    var s := Initial(tickleFd, me);
    var t := s.(stop := true, phase := NoTimer, timers := Some(next));
    ReachNoTimer(tickleFd, me);
    LeadsOn(s, s.(stop := true, phase := NoTimer), OutsideTimers(Some(next)), t);
    LeadsOn(s, t, ReadCount, t.(phase := NoEvent));
    LeadsOn(s, t.(phase := NoEvent), ReadQueue, t.(phase := AtTop, idleDone := true));
    LeadsOn(s, t.(phase := AtTop, idleDone := true), Scan, t.(phase := Exited, idleDone := true));
  }

  /** A task that another thread submits after the idle fiber has ended is still run; it
      may arm an event and park, and the worker leaves with the event pending. */
  lemma LateTaskLeavesEvent(tickleFd: nat, me: nat, task: Waiter, fd: nat, cb: nat)
    requires fd != tickleFd
    ensures exists t ::
      Leads(Initial(tickleFd, me), t) && t.phase.Exited? && t.io.pending == 1 && IsArmed(t.io, fd, READ)
  {
    var s := Initial(tickleFd, me);
    var t := s.(stop := true, idleDone := true);
    var who := Caller(Some(me), 0, true);
    ReachNoTimer(tickleFd, me);
    LeadsOn(s, s.(stop := true, phase := NoTimer), ReadCount, s.(stop := true, phase := NoEvent));
    LeadsOn(s, s.(stop := true, phase := NoEvent), ReadQueue, t);
    LeadsOn(s, t, Submit(task), t.(queue := [task]));
    LeadsOn(s, t.(queue := [task]), Scan, t.(phase := Running, active := 1));
    LateAdd(s, t.(phase := Running, active := 1), fd, cb, who);
  }

  /** The late task's part of the run. */
  lemma LateAdd(s: State, t: State, fd: nat, cb: nat, who: Caller)
    requires Inv(s.io) && Leads(s, t) && Inv(t.io) && t.phase.Running? && t.idleDone && t.queue == []
    requires t.io.pending == 0
    requires fd != t.io.tickleFd && !IsArmed(t.io, fd, READ) && who.sched.Some?
    ensures exists u :: Leads(s, u) && u.phase.Exited? && u.io.pending == 1 && IsArmed(u.io, fd, READ)
  {
    var op := Add(fd, READ, Some(cb), who, true);
    AddExact(t.io, fd, READ, Some(cb), who, true);
    var u := Apply(t, EventOp(op));
    assert t.io.wakes[|t.io.wakes|..] == [];
    LeadsOn(s, t, EventOp(op), u);
    LateExit(s, u, fd);
  }

  lemma LateExit(s: State, t: State, fd: nat)
    requires Inv(s.io) && Leads(s, t) && Inv(t.io) && t.phase.Running? && t.idleDone && t.queue == []
    requires t.io.pending == 1 && IsArmed(t.io, fd, READ)
    ensures exists u :: Leads(s, u) && u.phase.Exited? && u.io.pending == 1 && IsArmed(u.io, fd, READ)
  {
    var u := t.(phase := AtTop, active := t.active - 1);
    LeadsOn(s, t, Return(None), u);
    LeadsOn(s, u, Scan, u.(phase := Exited));
  }
}
