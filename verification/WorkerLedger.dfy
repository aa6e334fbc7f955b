/** Conservation in the worker protocol: entries, wake-ups and work are neither lost nor
    invented, step by step and over whole runs. */
module WorkerLedger {
  import opened Basics
  import opened WorkerProtocol
  import opened WorkerSafety
  import opened WorkerDrain

  // ---------- counting ----------

  /** How often a task is in the queue. */
  function Copies(q: seq<Entry>, t: Task): nat {
    if q == [] then 0 else (if q[0].task == t then 1 else 0) + Copies(q[1..], t)
  }

  lemma {:induction false} CopiesConcat(a: seq<Entry>, b: seq<Entry>, t: Task)
    ensures Copies(a + b, t) == Copies(a, t) + Copies(b, t)
  {
    if a == [] {
      assert a + b == b;
    } else {
      assert (a + b)[1..] == a[1..] + b;
      CopiesConcat(a[1..], b, t);
    }
  }

  lemma CopiesPush(q: seq<Entry>, e: Entry, t: Task)
    ensures Copies(q + [e], t) == Copies(q, t) + (if e.task == t then 1 else 0)
  {
    CopiesConcat(q, [e], t);
    assert [e][1..] == [];
  }

  lemma CopiesRemove(q: seq<Entry>, i: nat, t: Task)
    requires i < |q|
    ensures Copies(q, t) == Copies(RemoveAt(q, i), t) + (if q[i].task == t then 1 else 0)
  {
    assert q == q[..i] + ([q[i]] + q[i + 1..]);
    CopiesConcat(q[..i], [q[i]] + q[i + 1..], t);
    CopiesConcat(q[..i], q[i + 1..], t);
    assert ([q[i]] + q[i + 1..])[1..] == q[i + 1..];
  }

  lemma {:induction false} CopiesMeans(q: seq<Entry>, t: Task)
    ensures Copies(q, t) > 0 <==> exists i :: 0 <= i < |q| && q[i].task == t
  {
    if q != [] {
      CopiesMeans(q[1..], t);
      assert forall i | 1 <= i < |q| :: q[i] == q[1..][i - 1];
      if Copies(q[1..], t) > 0 {
        var i :| 0 <= i < |q[1..]| && q[1..][i].task == t;
        assert q[i + 1].task == t;
      }
    }
  }

  // ---------- what happens in a step ----------

  /** Entering and leaving the queue, the life of a wake-up in an event slot, the end of a
      turn of a fiber, and the life of a function to be run. */
  datatype Happening =
    | Enters(task: Task)
    | Taken(task: Task)
    | Arms(fiber: FiberId)
    | Fires(fiber: FiberId)
    | Drops(fiber: FiberId)
    | Parts(fiber: FiberId)
    | Submits(cb: Callback)
    | Finishes(cb: Callback)
    | Forgets(cb: Callback)

  /** The task that a step adds to the queue: what is spawned, submitted or woken, the waiter
      of an event that fires, and a fiber that run finds READY after its turn. */
  function EntersNow(s: State, a: Action): Option<Task>
    requires Enabled(s, a)
  {
    match a
    case SpawnFiber(_, _, _) => Some(ByFiber(|s.fibers|))
    case SubmitFiber(_, _) => Some(ByFiber(|s.fibers|))
    case SpawnCallback(_, c, _) => Some(ByCallback(c))
    case SubmitCallback(c, _) => Some(ByCallback(c))
    case Wake(_, f, _) => Some(ByFiber(f))
    case WakeOutside(f, _) => Some(ByFiber(f))
    case Fire(_, f) => Some(ByFiber(f))
    case FireOutside(f) => Some(ByFiber(f))
    case Settle(w) =>
      var f := s.workers[w].phase.fiber;
      if s.fibers[f].state == READY then Some(ByFiber(f)) else None
    case _ => None
  }

  predicate Happens(s: State, a: Action, x: Happening)
    requires Enabled(s, a)
  {
    match x
    case Enters(t) => EntersNow(s, a) == Some(t)
    case Taken(t) => IsPick(s, a) && s.queue[s.workers[a.w].phase.next].task == t
    case Arms(f) => a.Arm? && s.workers[a.w].phase.fiber == f
    case Fires(f) => (a.Fire? || a.FireOutside?) && a.fiber == f
    case Drops(f) => (a.Drop? || a.DropOutside?) && a.fiber == f
    case Parts(f) =>
      || (a.Settle? && s.workers[a.w].phase.fiber == f && !s.workers[a.w].phase.viaCb)
      || (a.Begin? && s.workers[a.w].phase == Picked(ByFiber(f)) && Ended(s.fibers[f].state))
    case Submits(c) => (a.SpawnFiber? || a.SubmitFiber? || a.SpawnCallback? || a.SubmitCallback?) && a.cb == c
    case Finishes(c) => a.Finish? && s.fibers[s.workers[a.w].phase.fiber].work == Some(c)
    case Forgets(c) =>
      && a.Settle? && s.workers[a.w].phase.viaCb
      && var x := s.fibers[s.workers[a.w].phase.fiber];
         Ended(x.state) && x.work == Some(c)
  }

  function Once(s: State, a: Action, x: Happening): nat
    requires Enabled(s, a)
  {
    if Happens(s, a, x) then 1 else 0
  }

  function Times(s: State, acts: seq<Action>, x: Happening): nat
    requires Runs(s, acts)
    decreases |acts|
  {
    if acts == [] then 0 else Once(s, acts[0], x) + Times(Apply(s, acts[0]), acts[1..], x)
  }

  // ---------- entries ----------

  /** The queue after a step: one entry more at the end, or one fewer by a pick, or as it
      was. */
  lemma QueueAfter(s: State, a: Action)
    requires Enabled(s, a)
    ensures EntersNow(s, a).Some? ==>
      !IsPick(s, a) && Apply(s, a).queue == s.queue + [Entry(EntersNow(s, a).value, PinOf(a))]
    ensures EntersNow(s, a).None? ==>
      Apply(s, a).queue == if IsPick(s, a) then RemoveAt(s.queue, s.workers[a.w].phase.next) else s.queue
  {
  }

  lemma QueueStep(s: State, a: Action, t: Task)
    requires Enabled(s, a)
    ensures Copies(Apply(s, a).queue, t) + Once(s, a, Taken(t)) == Copies(s.queue, t) + Once(s, a, Enters(t))
  {
    QueueAfter(s, a);
    if EntersNow(s, a).Some? {
      CopiesPush(s.queue, Entry(EntersNow(s, a).value, PinOf(a)), t);
    } else if IsPick(s, a) {
      CopiesRemove(s.queue, s.workers[a.w].phase.next, t);
    }
  }

  /** Over any run, for every task: the entries there were and the ones that entered are the
      ones taken and the ones still there. */
  lemma {:induction false} QueueLedger(s: State, acts: seq<Action>, t: Task)
    requires Runs(s, acts)
    ensures Copies(After(s, acts).queue, t) + Times(s, acts, Taken(t)) == Copies(s.queue, t) + Times(s, acts, Enters(t))
    decreases |acts|
  {
    if acts != [] {
      QueueStep(s, acts[0], t);
      QueueLedger(Apply(s, acts[0]), acts[1..], t);
    }
  }

  // ---------- wake-ups ----------

  lemma SlotsSame(s: State, a: Action)
    requires Enabled(s, a) && !a.Arm? && !a.Fire? && !a.FireOutside? && !a.Drop? && !a.DropOutside?
    ensures Apply(s, a).slots == s.slots
  {
  }

  lemma SlotStep(s: State, a: Action, f: FiberId)
    requires Enabled(s, a)
    ensures Apply(s, a).slots[f] + Once(s, a, Fires(f)) + Once(s, a, Drops(f)) == s.slots[f] + Once(s, a, Arms(f))
  {
    if !a.Arm? && !a.Fire? && !a.FireOutside? && !a.Drop? && !a.DropOutside? {
      SlotsSame(s, a);
    }
  }

  /** Over any run, for every fiber: the wake-ups armed are fired, dropped or still armed. */
  lemma {:induction false} SlotLedger(s: State, acts: seq<Action>, f: FiberId)
    requires Runs(s, acts)
    ensures After(s, acts).slots[f] + Times(s, acts, Fires(f)) + Times(s, acts, Drops(f))
         == s.slots[f] + Times(s, acts, Arms(f))
    decreases |acts|
  {
    if acts != [] {
      SlotStep(s, acts[0], f);
      SlotLedger(Apply(s, acts[0]), acts[1..], f);
    }
  }

  /** The wake-ups of a fiber: its entries and its slots. */
  function WakeUps(s: State, f: FiberId): nat {
    Copies(s.queue, ByFiber(f)) + s.slots[f]
  }

  /** Firing moves a wake-up from a slot to the queue. Wake-ups grow by one exactly on an
      arm and on an entry that was not fired, and shrink by one exactly on a drop and on a
      pick. */
  lemma WakeUpStep(s: State, a: Action, f: FiberId)
    requires Enabled(s, a)
    ensures WakeUps(Apply(s, a), f) + Once(s, a, Drops(f)) + Once(s, a, Taken(ByFiber(f)))
         == WakeUps(s, f) + Once(s, a, Arms(f)) + Once(s, a, Enters(ByFiber(f))) - Once(s, a, Fires(f))
    ensures Happens(s, a, Fires(f)) ==>
      && Happens(s, a, Enters(ByFiber(f)))
      && s.slots[f] == Apply(s, a).slots[f] + 1
      && Copies(Apply(s, a).queue, ByFiber(f)) == Copies(s.queue, ByFiber(f)) + 1
  {
    QueueStep(s, a, ByFiber(f));
    SlotStep(s, a, f);
  }

  lemma WakeUpsMean(s: State, f: FiberId)
    ensures WakeUps(s, f) > 0 <==> Queued(s, f) || f in s.slots
  {
    CopiesMeans(s.queue, ByFiber(f));
  }

  // ---------- turns ----------

  /** The worker has the fiber from the queue, for a turn that is not over. */
  function InHand(f: FiberId): Phase -> bool {
    p => p == Picked(ByFiber(f)) || (OnStack(p) && p.fiber == f && !p.viaCb)
  }

  function Hands(s: State, f: FiberId): nat {
    CountPhases(s.workers, InHand(f))
  }

  predicate HandMoved(s: State, a: Action, f: FiberId)
    requires Enabled(s, a) && Actor(a).Some? && Actor(a).value < |Apply(s, a).workers|
  {
    var w := Actor(a).value;
    (if InHand(f)(Apply(s, a).workers[w].phase) then 1 else 0) + Once(s, a, Parts(f))
      == (if InHand(f)(s.workers[w].phase) then 1 else 0) + Once(s, a, Taken(ByFiber(f)))
  }

  lemma TurnHand(s: State, a: Action, f: FiberId)
    requires Enabled(s, a) && (a.Begin? || a.Settle?) && a.w < |Apply(s, a).workers|
    ensures HandMoved(s, a, f)
  {
    match a
    case Begin(w) => assert HandMoved(s, a, f);
    case Settle(w) => assert HandMoved(s, a, f);
  }

  lemma LoopHand(s: State, a: Action, f: FiberId)
    requires Enabled(s, a) && LoopAction(a) && a.w < |Apply(s, a).workers|
    ensures HandMoved(s, a, f)
  {
    if a.Begin? || a.Settle? {
      TurnHand(s, a, f);
    }
  }

  lemma CodeHand(s: State, a: Action, f: FiberId)
    requires Enabled(s, a) && !LoopAction(a) && Actor(a).Some? && a.w < |Apply(s, a).workers|
    ensures HandMoved(s, a, f)
  {
  }

  lemma HandStep(s: State, a: Action, f: FiberId)
    requires Enabled(s, a)
    ensures Hands(Apply(s, a), f) + Once(s, a, Parts(f)) == Hands(s, f) + Once(s, a, Taken(ByFiber(f)))
  {
    ActorOnly(s, a);
    if Actor(a).Some? {
      var w := Actor(a).value;
      CountUpdate(s.workers, w, Apply(s, a).workers[w], InHand(f));
      if LoopAction(a) { LoopHand(s, a, f); } else { CodeHand(s, a, f); }
    }
  }

  /** Over any run, for every fiber: each time it was taken from the queue it has had its
      turn, or was dropped as ended, or is still in that worker's hands. */
  lemma {:induction false} HandLedger(s: State, acts: seq<Action>, f: FiberId)
    requires Runs(s, acts)
    ensures Hands(After(s, acts), f) + Times(s, acts, Parts(f)) == Hands(s, f) + Times(s, acts, Taken(ByFiber(f)))
    decreases |acts|
  {
    if acts != [] {
      HandStep(s, acts[0], f);
      HandLedger(Apply(s, acts[0]), acts[1..], f);
    }
  }

  /** Nothing at the start. */
  lemma InitialEmpty(n: nat, f: FiberId)
    ensures WakeUps(Initial(n), f) == 0 && Hands(Initial(n), f) == 0
  {
    CountZero(Initial(n).workers, InHand(f));
  }

  /** The wake-ups made for a fiber: armed in an event, or queued other than by an event. */
  function Made(s: State, acts: seq<Action>, f: FiberId): int
    requires Runs(s, acts)
  {
    Times(s, acts, Arms(f)) + Times(s, acts, Enters(ByFiber(f))) - Times(s, acts, Fires(f))
  }

  /** In every run, disciplined or not, each wake-up ever made for a fiber was dropped, has
      led to a turn that is over, is in a worker's hands, or waits in the queue or in an
      event slot. So a fiber, parked or not, with a wake-up that was neither dropped nor
      served is armed, queued or in a worker's hands. */
  lemma WakeUpLedger(n: nat, acts: seq<Action>, f: FiberId)
    requires Runs(Initial(n), acts)
    ensures
      var s := Initial(n);
      var t := After(s, acts);
      && Made(s, acts, f) == Times(s, acts, Drops(f)) + Times(s, acts, Parts(f)) + Hands(t, f) + WakeUps(t, f)
      && (Made(s, acts, f) > Times(s, acts, Drops(f)) + Times(s, acts, Parts(f)) ==>
            Queued(t, f) || f in t.slots || IsHeld(t, f))
  {
    var s := Initial(n);
    var t := After(s, acts);
    InitialEmpty(n, f);
    QueueLedger(s, acts, ByFiber(f));
    SlotLedger(s, acts, f);
    HandLedger(s, acts, f);
    WakeUpsMean(t, f);
    if Hands(t, f) > 0 {
      CountZero(t.workers, InHand(f));
      var w :| 0 <= w < |t.workers| && InHand(f)(t.workers[w].phase);
      assert HeldBy(t, f, w);
    }
  }

  // ---------- work ----------

  /** A worker that begins a task runs the very fiber it picked, with the work that has, or
      a fiber of its own with the callback it picked; an ended fiber is left alone. */
  lemma BeginRuns(s: State, w: nat)
    requires Enabled(s, Begin(w))
    ensures
      var t := ApplyBegin(s, w);
      w < |t.workers| &&
      match s.workers[w].phase.task
      case ByFiber(f) =>
        if Ended(s.fibers[f].state) then t.workers[w].phase.AtTop? && t.fibers == s.fibers
        else t.workers[w].phase == Running(f, false) && t.fibers == s.fibers[f := Fib(EXEC, s.fibers[f].work)]
      case ByCallback(c) =>
        && t.workers[w].phase.Running? && t.workers[w].phase.viaCb
        && t.workers[w].phase.fiber < |t.fibers|
        && t.workers[w].cached == Some(t.workers[w].phase.fiber)
        && t.fibers[t.workers[w].phase.fiber] == Fib(EXEC, Some(c))
        && (s.workers[w].cached.Some? ==> t.workers[w].cached == s.workers[w].cached)
  {
  }

  /** A fiber changes its state only so: to EXEC when it is begun, from there to READY, TERM
      or EXCEPT by its own code, to HOLD when run finds it still in EXEC after its turn, and
      from TERM or EXCEPT to INIT when it is kept for callbacks. */
  lemma LifeCycle(s: State, a: Action, f: FiberId)
    requires Enabled(s, a) && f < |s.fibers|
    ensures f < |Apply(s, a).fibers|
    ensures
      var x := s.fibers[f].state;
      var y := Apply(s, a).fibers[f].state;
      x != y ==>
        || (y == EXEC && a.Begin?)
        || (y == READY && a.YieldReady? && s.workers[a.w].phase.fiber == f)
        || (y == TERM && a.Finish? && s.workers[a.w].phase.fiber == f)
        || (y == EXCEPT && a.Throw? && s.workers[a.w].phase.fiber == f)
        || (y == HOLD && a.Settle? && s.workers[a.w].phase.fiber == f && !Ended(x) && x != READY)
        || (y == INIT && a.Settle? && s.workers[a.w].phase == Decremented(f, true) && Ended(x))
    ensures a.YieldReady? && s.workers[a.w].phase.fiber == f ==> Apply(s, a).fibers[f].state == READY
    ensures a.Finish? && s.workers[a.w].phase.fiber == f ==> Apply(s, a).fibers[f].state == TERM
    ensures a.Throw? && s.workers[a.w].phase.fiber == f ==> Apply(s, a).fibers[f].state == EXCEPT
    ensures a.Settle? && s.workers[a.w].phase.fiber == f && s.fibers[f].state == EXEC ==>
      Apply(s, a).fibers[f].state == HOLD
  {
    match a
    case Begin(w) => BeginRuns(s, w);
    case Settle(w) => SettleLife(s, w, f);
    case _ =>
  }

  lemma SettleLife(s: State, w: nat, f: FiberId)
    requires Enabled(s, Settle(w)) && f < |s.fibers|
    ensures |ApplySettle(s, w).fibers| == |s.fibers|
    ensures s.workers[w].phase.fiber != f || s.fibers[f].state == READY ==> ApplySettle(s, w).fibers[f] == s.fibers[f]
    ensures s.workers[w].phase.fiber == f && !Ended(s.fibers[f].state) && s.fibers[f].state != READY ==>
      ApplySettle(s, w).fibers[f].state == HOLD
    ensures s.workers[w].phase.fiber == f && Ended(s.fibers[f].state) ==>
      ApplySettle(s, w).fibers[f] == if s.workers[w].phase.viaCb then Fib(INIT, None) else s.fibers[f]
  {
  }

  lemma TurnIdle(s: State, a: Action)
    requires Enabled(s, a) && (a.Inspect? || a.Begin? || a.Settle?) && a.w < |Apply(s, a).workers|
    ensures Apply(s, a).workers[a.w].idleDone == s.workers[a.w].idleDone && !Apply(s, a).workers[a.w].phase.Exited?
  {
    match a
    case Inspect(w) => assert ApplyInspect(s, w).workers[w].idleDone == s.workers[w].idleDone;
    case Begin(w) => assert ApplyBegin(s, w).workers[w].idleDone == s.workers[w].idleDone;
    case Settle(w) => assert ApplySettle(s, w).workers[w].idleDone == s.workers[w].idleDone;
  }

  lemma ActorIdle(s: State, a: Action)
    requires Enabled(s, a) && Actor(a).Some? && Actor(a).value < |Apply(s, a).workers|
    ensures
      var x, y := s.workers[Actor(a).value], Apply(s, a).workers[Actor(a).value];
      && (y.idleDone <==> x.idleDone || (a.IdleCheck? && a.quiet && s.stop && s.queue == [] && s.active == 0))
      && (y.phase.Exited? <==> a.GoIdle? && x.idleDone)
  {
    if a.Inspect? || a.Begin? || a.Settle? {
      TurnIdle(s, a);
    }
  }

  /** A worker's idle fiber ends exactly on a test that finds the scheduler stopping and
      nothing else pending, and the worker leaves exactly when it comes back to an idle
      fiber that has ended. */
  lemma IdleEnds(s: State, a: Action, v: nat)
    requires Enabled(s, a) && v < |s.workers|
    ensures v < |Apply(s, a).workers|
    ensures Apply(s, a).workers[v].idleDone <==>
      s.workers[v].idleDone || (a == IdleCheck(v, true) && s.stop && s.queue == [] && s.active == 0)
    ensures Apply(s, a).workers[v].phase.Exited? <==>
      s.workers[v].phase.Exited? || (a == GoIdle(v) && s.workers[v].idleDone)
  {
    ActorOnly(s, a);
    if Actor(a) == Some(v) {
      ActorIdle(s, a);
    }
  }

  function CountWork(fs: seq<Fib>, c: Callback): nat {
    if fs == [] then 0 else (if fs[0].work == Some(c) then 1 else 0) + CountWork(fs[1..], c)
  }

  lemma {:induction false} WorkUpdate(fs: seq<Fib>, f: nat, x: Fib, c: Callback)
    requires f < |fs|
    ensures CountWork(fs[f := x], c) + (if fs[f].work == Some(c) then 1 else 0)
         == CountWork(fs, c) + (if x.work == Some(c) then 1 else 0)
  {
    if f == 0 {
      assert fs[f := x][1..] == fs[1..];
    } else {
      assert fs[f := x][1..] == fs[1..][f - 1 := x];
      WorkUpdate(fs[1..], f - 1, x, c);
    }
  }

  lemma {:induction false} WorkAppend(fs: seq<Fib>, x: Fib, c: Callback)
    ensures CountWork(fs + [x], c) == CountWork(fs, c) + (if x.work == Some(c) then 1 else 0)
  {
    if fs == [] {
      assert fs + [x] == [x] && [x][1..] == [];
    } else {
      assert (fs + [x])[1..] == fs[1..] + [x];
      WorkAppend(fs[1..], x, c);
    }
  }

  function HasPicked(c: Callback): Phase -> bool {
    p => p == Picked(ByCallback(c))
  }

  /** Where a function to be run is: in a queued callback, in one just picked, or loaded in
      a fiber that has not finished it. */
  function Carried(s: State, c: Callback): nat {
    Copies(s.queue, ByCallback(c)) + CountPhases(s.workers, HasPicked(c)) + CountWork(s.fibers, c)
  }

  predicate LoadsWork(s: State, a: Action, c: Callback)
    requires Enabled(s, a)
  {
    a.Begin? && s.workers[a.w].phase == Picked(ByCallback(c))
  }

  lemma FiberWork(s: State, a: Action, c: Callback)
    requires Enabled(s, a) && CacheBlankOnLoad(s)
    ensures CountWork(Apply(s, a).fibers, c) + Once(s, a, Finishes(c)) + Once(s, a, Forgets(c))
         == CountWork(s.fibers, c) + (if LoadsWork(s, a, c) then 1 else 0)
            + (if (a.SpawnFiber? || a.SubmitFiber?) && a.cb == c then 1 else 0)
  {
    match a
    case Begin(w) => BeginWork(s, w, c);
    case Settle(w) => SettleWork(s, w, c);
    case _ => CodeWork(s, a, c);
  }

  lemma CodeWork(s: State, a: Action, c: Callback)
    requires Enabled(s, a) && !a.Begin? && !a.Settle?
    ensures CountWork(Apply(s, a).fibers, c) + Once(s, a, Finishes(c))
         == CountWork(s.fibers, c) + (if (a.SpawnFiber? || a.SubmitFiber?) && a.cb == c then 1 else 0)
  {
    if a.SpawnFiber? || a.SubmitFiber? {
      WorkAppend(s.fibers, Fib(INIT, Some(a.cb)), c);
    } else if a.YieldReady? || a.Throw? || a.Finish? {
      var f := s.workers[a.w].phase.fiber;
      WorkUpdate(s.fibers, f, Apply(s, a).fibers[f], c);
    }
  }

  lemma BeginWork(s: State, w: nat, c: Callback)
    requires Enabled(s, Begin(w)) && CacheBlankOnLoad(s)
    ensures CountWork(ApplyBegin(s, w).fibers, c)
         == CountWork(s.fibers, c) + (if LoadsWork(s, Begin(w), c) then 1 else 0)
  {
    match s.workers[w].phase.task
    case ByFiber(f) => WorkUpdate(s.fibers, f, s.fibers[f].(state := EXEC), c);
    case ByCallback(d) =>
      if s.workers[w].cached.Some? {
        assert s.fibers[s.workers[w].cached.value] == Fib(INIT, None);
        WorkUpdate(s.fibers, s.workers[w].cached.value, Fib(EXEC, Some(d)), c);
      } else {
        WorkAppend(s.fibers, Fib(EXEC, Some(d)), c);
      }
  }

  lemma SettleWork(s: State, w: nat, c: Callback)
    requires Enabled(s, Settle(w))
    ensures CountWork(ApplySettle(s, w).fibers, c) + Once(s, Settle(w), Forgets(c)) == CountWork(s.fibers, c)
  {
    var f := s.workers[w].phase.fiber;
    WorkUpdate(s.fibers, f, Fib(INIT, None), c);
    WorkUpdate(s.fibers, f, s.fibers[f].(state := HOLD), c);
  }

  predicate PickMoved(s: State, a: Action, c: Callback)
    requires Enabled(s, a) && Actor(a).Some? && Actor(a).value < |Apply(s, a).workers|
  {
    var w := Actor(a).value;
    (if HasPicked(c)(Apply(s, a).workers[w].phase) then 1 else 0) + (if LoadsWork(s, a, c) then 1 else 0)
      == (if HasPicked(c)(s.workers[w].phase) then 1 else 0) + Once(s, a, Taken(ByCallback(c)))
  }

  lemma TurnPick(s: State, a: Action, c: Callback)
    requires Enabled(s, a) && (a.Begin? || a.Settle?) && a.w < |Apply(s, a).workers|
    ensures PickMoved(s, a, c)
  {
    match a
    case Begin(w) => assert PickMoved(s, a, c);
    case Settle(w) => assert PickMoved(s, a, c);
  }

  lemma LoopPick(s: State, a: Action, c: Callback)
    requires Enabled(s, a) && LoopAction(a) && a.w < |Apply(s, a).workers|
    ensures PickMoved(s, a, c)
  {
    if a.Begin? || a.Settle? {
      TurnPick(s, a, c);
    }
  }

  lemma CodePick(s: State, a: Action, c: Callback)
    requires Enabled(s, a) && !LoopAction(a) && Actor(a).Some? && a.w < |Apply(s, a).workers|
    ensures PickMoved(s, a, c)
  {
  }

  lemma PickedWork(s: State, a: Action, c: Callback)
    requires Enabled(s, a)
    ensures CountPhases(Apply(s, a).workers, HasPicked(c)) + (if LoadsWork(s, a, c) then 1 else 0)
         == CountPhases(s.workers, HasPicked(c)) + Once(s, a, Taken(ByCallback(c)))
  {
    ActorOnly(s, a);
    if Actor(a).Some? {
      var w := Actor(a).value;
      CountUpdate(s.workers, w, Apply(s, a).workers[w], HasPicked(c));
      if LoopAction(a) { LoopPick(s, a, c); } else { CodePick(s, a, c); }
    }
  }

  lemma WorkStep(s: State, a: Action, c: Callback)
    requires Enabled(s, a) && CacheBlankOnLoad(s)
    ensures Carried(Apply(s, a), c) + Once(s, a, Finishes(c)) + Once(s, a, Forgets(c))
         == Carried(s, c) + Once(s, a, Submits(c))
  {
    QueueStep(s, a, ByCallback(c));
    PickedWork(s, a, c);
    FiberWork(s, a, c);
    SubmitsOnce(s, a, c);
  }

  lemma SubmitsOnce(s: State, a: Action, c: Callback)
    requires Enabled(s, a)
    ensures Once(s, a, Submits(c))
         == Once(s, a, Enters(ByCallback(c))) + (if (a.SpawnFiber? || a.SubmitFiber?) && a.cb == c then 1 else 0)
  {
  }

  lemma {:induction false} WorkRun(s: State, book: Book, acts: seq<Action>, c: Callback)
    requires Safe(s, book) && RunsDisciplined(s, acts)
    ensures Carried(After(s, acts), c) + Times(s, acts, Finishes(c)) + Times(s, acts, Forgets(c))
         == Carried(s, c) + Times(s, acts, Submits(c))
    decreases |acts|
  {
    if acts != [] {
      SafeMeans(s, book);
      WorkStep(s, acts[0], c);
      var next := Step(s, book, acts[0]);
      WorkRun(Apply(s, acts[0]), next, acts[1..], c);
    }
  }

  /** In every disciplined run, each function submitted or spawned, as a callback or as a
      fiber's, is run to its end once, or threw and was forgotten with its callback fiber,
      or is still queued, picked or loaded in a fiber: none is lost, run twice or
      overwritten. */
  lemma WorkLedger(n: nat, acts: seq<Action>, c: Callback)
    requires RunsDisciplined(Initial(n), acts)
    ensures
      var s := Initial(n);
      Times(s, acts, Submits(c))
        == Times(s, acts, Finishes(c)) + Times(s, acts, Forgets(c)) + Carried(After(s, acts), c)
  {
    CountZero(Initial(n).workers, HasPicked(c));
    WorkRun(Initial(n), [], acts, c);
  }
}
