/** The signals that wake workers out of epoll_wait. Any number of workers of an IOManager
    share the queue and the tickle pipe; scheduleNoLock asks for a signal only on an empty
    queue, and tickle writes only if a worker is counted as idle. The entries here may be
    taken by any worker. */
module Signals {

  /** Working: at the top of run or in a task; `owes` is a signal it has still to send.
      Empty: its scan found nothing, and it is not counted as idle yet. Idle: counted, on
      its way to epoll_wait. Blocked: in epoll_wait. Woken: out of it, still counted. */
  datatype Phase = Working(owes: bool) | Empty | Idle | Blocked | Woken

  /** `idle`: m_idleThreadCount. `byte`: the pipe holds something unread. `asked`: threads outside the scheduler that
      have queued an entry and are about to call tickle for it. */
  datatype State = State(workers: seq<Phase>, queued: nat, idle: int, byte: bool, asked: nat)

  datatype Action =
    | Scan(w: nat)
    | Spawn(w: nat)
    | Tell(w: nat)
    | Count(w: nat)
    | Wait(w: nat)
    | Wake(w: nat)
    | Timeout(w: nat)
    | Back(w: nat)
    // threads outside the scheduler
    | Schedule
    | Tickle

  /** hasIdleThreads. */
  predicate HasIdle(s: State) {
    s.idle > 0
  }

  predicate Enabled(s: State, a: Action) {
    match a
    case Schedule => true
    case Tickle => s.asked > 0
    case _ =>
      && a.w < |s.workers|
      && var p := s.workers[a.w];
         match a
         case Scan(_) => p == Working(false)
         case Spawn(_) => p == Working(false)
         case Tell(_) => p == Working(true)
         case Count(_) => p.Empty?
         case Wait(_) => p.Idle?
         case Wake(_) => p.Blocked? && s.byte
         case Timeout(_) => p.Blocked?
         case _ => p.Woken?
  }

  function Goto(s: State, w: nat, p: Phase): State
    requires w < |s.workers|
  {
    s.(workers := s.workers[w := p])
  }

  /** A scan takes an entry, and owes a signal if it leaves others behind. */
  function Apply(s: State, a: Action): State
    requires Enabled(s, a)
  {
    match a
    case Scan(w) =>
      if s.queued > 0 then Goto(s, w, Working(s.queued > 1)).(queued := s.queued - 1) else Goto(s, w, Empty)
    case Spawn(w) => Goto(s, w, Working(s.queued == 0)).(queued := s.queued + 1)
    case Tell(w) => Goto(s, w, Working(false)).(byte := s.byte || HasIdle(s))
    case Count(w) => Goto(s, w, Idle).(idle := s.idle + 1)
    case Wait(w) => Goto(s, w, Blocked)
    case Wake(w) => Goto(s, w, Woken).(byte := false)
    case Timeout(w) => Goto(s, w, Woken)
    case Back(w) => Goto(s, w, Working(false)).(idle := s.idle - 1)
    case Schedule => s.(queued := s.queued + 1, asked := if s.queued == 0 then s.asked + 1 else s.asked)
    case Tickle => s.(asked := s.asked - 1, byte := s.byte || HasIdle(s))
  }

  // ---------- counting ----------

  /** The workers inside their idle fibers. */
  function InIdle(ps: seq<Phase>): nat {
    if ps == [] then 0 else (if ps[0].Idle? || ps[0].Blocked? || ps[0].Woken? then 1 else 0) + InIdle(ps[1..])
  }

  lemma {:induction false} InIdleUpdate(ps: seq<Phase>, w: nat, p: Phase)
    requires w < |ps|
    ensures InIdle(ps[w := p]) == InIdle(ps) - InIdle([ps[w]]) + InIdle([p])
  {
    assert [ps[w]][1..] == [] && [p][1..] == [];
    if w == 0 {
      assert ps[w := p][1..] == ps[1..];
    } else {
      assert ps[w := p][1..] == ps[1..][w - 1 := p];
      InIdleUpdate(ps[1..], w - 1, p);
    }
  }

  lemma {:induction false} InIdleZero(ps: seq<Phase>)
    ensures InIdle(ps) == 0 <==> forall w | 0 <= w < |ps| :: !ps[w].Idle? && !ps[w].Blocked? && !ps[w].Woken?
  {
    if ps != [] {
      InIdleZero(ps[1..]);
      assert forall w | 1 <= w < |ps| :: ps[w] == ps[1..][w - 1];
    }
  }

  /** The counter is the number of workers inside their idle fibers. */
  predicate IdleExact(s: State) {
    s.idle == InIdle(s.workers)
  }

  lemma IdleStep(s: State, a: Action)
    requires Enabled(s, a) && IdleExact(s)
    ensures IdleExact(Apply(s, a))
  {
    if !a.Schedule? && !a.Tickle? {
      var p := Apply(s, a).workers[a.w];
      InIdleUpdate(s.workers, a.w, p);
      assert [s.workers[a.w]][1..] == [] && [p][1..] == [];
    }
  }

  // ---------- when nobody will come ----------

  /** Some worker is going to scan without being woken. */
  predicate Coming(s: State) {
    exists w :: 0 <= w < |s.workers| && (s.workers[w].Working? || s.workers[w].Woken?)
  }

  /** A queued entry has a worker coming, or a signal sent or about to be. */
  predicate Covered(s: State) {
    s.queued > 0 ==> Coming(s) || s.byte || s.asked > 0
  }

  /** The last signal asked for is not sent, because every worker is past a scan of the
      empty queue and none is counted as idle yet. */
  predicate Misses(s: State, a: Action) {
    a.Tickle? && s.asked == 1 && s.queued > 0 && !s.byte && forall w | 0 <= w < |s.workers| :: s.workers[w].Empty?
  }

  lemma StaysComing(s: State, a: Action)
    requires Enabled(s, a) && Coming(s)
    ensures Coming(Apply(s, a)) || (a.Scan? && s.queued == 0)
  {
    var w :| 0 <= w < |s.workers| && (s.workers[w].Working? || s.workers[w].Woken?);
    assert (a.Scan? && s.queued == 0)
        || Apply(s, a).workers[w].Working? || Apply(s, a).workers[w].Woken?;
  }

  /** A step uncovers the queue exactly when it misses the last signal. */
  lemma CoveredStep(s: State, a: Action)
    requires |s.workers| > 0 && IdleExact(s) && Enabled(s, a) && Covered(s)
    ensures Covered(Apply(s, a)) <==> !Misses(s, a)
  {
    InIdleZero(s.workers);
    if Coming(s) {
      StaysComing(s, a);
    }
    if a.Tickle? && !HasIdle(s) && !Coming(s) {
      forall w | 0 <= w < |s.workers| ensures s.workers[w].Empty? {
      }
    }
    if a.Wake? {
      assert Apply(s, a).workers[a.w].Woken?;
    }
    if a.Spawn? {
      assert Apply(s, a).workers[a.w].Working?;
    }
  }

  /** Once it is uncovered, only a time-out (or an event of another descriptor) helps: no
      other step takes an entry or asks for a signal, further submissions included, since
      they find the queue not empty. */
  lemma UncoveredStays(s: State, a: Action)
    requires Enabled(s, a) && !Covered(s) && !a.Timeout?
    ensures !Covered(Apply(s, a)) && Apply(s, a).queued >= s.queued
  {
    var t := Apply(s, a);
    forall w | 0 <= w < |t.workers| ensures !t.workers[w].Working? && !t.workers[w].Woken? {
      assert !s.workers[w].Working? && !s.workers[w].Woken?;
    }
  }

  lemma TimeoutCovers(s: State, w: nat)
    requires Enabled(s, Timeout(w))
    ensures Covered(Apply(s, Timeout(w)))
  {
    assert Apply(s, Timeout(w)).workers[w].Woken?;
  }

  // ---------- over runs ----------

  predicate Runs(s: State, acts: seq<Action>)
    decreases |acts|
  {
    acts == [] || (Enabled(s, acts[0]) && Runs(Apply(s, acts[0]), acts[1..]))
  }

  function After(s: State, acts: seq<Action>): State
    requires Runs(s, acts)
    decreases |acts|
  {
    if acts == [] then s else After(Apply(s, acts[0]), acts[1..])
  }

  predicate NoTimeouts(acts: seq<Action>) {
    forall a | a in acts :: !a.Timeout?
  }

  predicate NoneMissed(s: State, acts: seq<Action>)
    requires Runs(s, acts)
    decreases |acts|
  {
    acts == [] || (!Misses(s, acts[0]) && NoneMissed(Apply(s, acts[0]), acts[1..]))
  }

  function Initial(n: nat): State {
    State(seq(n, _ => Working(false)), 0, 0, false, 0)
  }

  lemma {:induction false} UncoveredRun(s: State, acts: seq<Action>)
    requires Runs(s, acts) && !Covered(s) && NoTimeouts(acts)
    ensures !Covered(After(s, acts)) && After(s, acts).queued >= s.queued
    decreases |acts|
  {
    if acts != [] {
      UncoveredStays(s, acts[0]);
      UncoveredRun(Apply(s, acts[0]), acts[1..]);
    }
  }

  /** Up to the first time-out, a run ends with a queued entry that nobody comes for if and
      only if some step missed the last signal. */
  lemma {:induction false} UncoveredExactly(s: State, acts: seq<Action>)
    requires |s.workers| > 0 && IdleExact(s) && Runs(s, acts) && Covered(s) && NoTimeouts(acts)
    ensures Covered(After(s, acts)) <==> NoneMissed(s, acts)
    decreases |acts|
  {
    if acts != [] {
      CoveredStep(s, acts[0]);
      IdleStep(s, acts[0]);
      if Misses(s, acts[0]) {
        UncoveredRun(Apply(s, acts[0]), acts[1..]);
      } else {
        UncoveredExactly(Apply(s, acts[0]), acts[1..]);
      }
    }
  }

  /** Every worker waits in epoll_wait with an entry queued, and no signal is on its way. */
  predicate Stalled(s: State) {
    s.queued > 0 && !s.byte && s.asked == 0 && forall w | 0 <= w < |s.workers| :: s.workers[w].Blocked?
  }

  lemma StalledIsUncovered(s: State)
    requires Stalled(s)
    ensures !Covered(s)
  {
  }

  /** The workers' own steps lead from an uncovered queue to the stall. */
  function ToBlocked(ps: seq<Phase>, from: nat): (acts: seq<Action>)
    requires from <= |ps|
    decreases |ps| - from
  {
    if from == |ps| then [] else
      (match ps[from]
       case Empty => [Count(from), Wait(from)]
       case Idle => [Wait(from)]
       case _ => []) + ToBlocked(ps, from + 1)
  }

  lemma {:induction false} RunsConcat(s: State, a: seq<Action>, b: seq<Action>)
    requires Runs(s, a) && Runs(After(s, a), b)
    ensures Runs(s, a + b) && After(s, a + b) == After(After(s, a), b)
    decreases |a|
  {
    if a == [] {
      assert a + b == b;
    } else {
      assert (a + b)[1..] == a[1..] + b;
      RunsConcat(Apply(s, a[0]), a[1..], b);
    }
  }

  lemma OneStep(s: State, a: Action)
    requires Enabled(s, a)
    ensures Runs(s, [a]) && After(s, [a]) == Apply(s, a)
  {
    assert [a][1..] == [];
    assert Runs(Apply(s, a), []);
  }

  /** The state once a worker past its scan has gone to epoll_wait. */
  function InWait(s: State, w: nat): State
    requires w < |s.workers|
  {
    Goto(s, w, Blocked).(idle := s.idle + if s.workers[w].Empty? then 1 else 0)
  }

  lemma Blocks(s: State, w: nat)
    requires w < |s.workers| && (s.workers[w].Empty? || s.workers[w].Idle?)
    ensures
      var acts := if s.workers[w].Empty? then [Count(w), Wait(w)] else [Wait(w)];
      Runs(s, acts) && After(s, acts) == InWait(s, w)
  {
    if s.workers[w].Empty? {
      var t := Goto(s, w, Idle).(idle := s.idle + 1);
      OneStep(s, Count(w));
      OneStep(t, Wait(w));
      RunsConcat(s, [Count(w)], [Wait(w)]);
      assert [Count(w)] + [Wait(w)] == [Count(w), Wait(w)];
      assert Goto(t, w, Blocked).workers == s.workers[w := Blocked];
    } else {
      OneStep(s, Wait(w));
    }
  }

  lemma {:induction false} AllBlock(s: State, from: nat)
    requires from <= |s.workers| && !Covered(s)
    requires forall w | 0 <= w < from :: s.workers[w].Blocked?
    ensures Runs(s, ToBlocked(s.workers, from)) && NoTimeouts(ToBlocked(s.workers, from))
    ensures Stalled(After(s, ToBlocked(s.workers, from)))
    decreases |s.workers| - from
  {
    if from < |s.workers| {
      var p := s.workers[from];
      var first := if p.Empty? then [Count(from), Wait(from)] else if p.Idle? then [Wait(from)] else [];
      var t := if first == [] then s else InWait(s, from);
      if first != [] {
        Blocks(s, from);
      }
      UncoveredRun(s, first);
      SameRest(s.workers, t.workers, from + 1);
      AllBlock(t, from + 1);
      RunsConcat(s, first, ToBlocked(t.workers, from + 1));
    }
  }

  lemma {:induction false} SameRest(ps: seq<Phase>, qs: seq<Phase>, from: nat)
    requires from <= |ps| == |qs| && forall w | from <= w < |ps| :: ps[w] == qs[w]
    ensures ToBlocked(ps, from) == ToBlocked(qs, from)
    decreases |ps| - from
  {
    if from < |ps| {
      SameRest(ps, qs, from + 1);
    }
  }

  /** From an uncovered queue the workers' own steps lead to the stall, and up to a
      time-out nothing leads out of it. */
  lemma UncoveredStalls(s: State, acts: seq<Action>)
    requires !Covered(s) && Runs(s, acts) && NoTimeouts(acts)
    ensures
      var rest := ToBlocked(After(s, acts).workers, 0);
      && Runs(After(s, acts), rest) && NoTimeouts(rest) && Stalled(After(After(s, acts), rest))
      && After(After(s, acts), rest).queued >= s.queued
  {
    UncoveredRun(s, acts);
    AllBlock(After(s, acts), 0);
    UncoveredRun(After(s, acts), ToBlocked(After(s, acts).workers, 0));
  }

  /** The stall is reached: the only worker finds the queue empty, another thread queues an
      entry and sees no idle worker, and the worker goes to wait. */
  lemma StallHappens()
    ensures
      var acts := [Scan(0), Schedule, Tickle, Count(0), Wait(0)];
      Runs(Initial(1), acts) && Stalled(After(Initial(1), acts))
  {
    var s := Initial(1);
    var empty := State([Empty], 0, 0, false, 0);
    var t := State([Empty], 1, 0, false, 0);
    assert Goto(s, 0, Empty) == empty;
    OneStep(s, Scan(0));
    MissedSignal(empty, t);
    RunsConcat(s, [Scan(0)], [Schedule, Tickle]);
    assert [Scan(0)] + [Schedule, Tickle] == [Scan(0), Schedule, Tickle];
    Blocks(t, 0);
    RunsConcat(s, [Scan(0), Schedule, Tickle], [Count(0), Wait(0)]);
    assert [Scan(0), Schedule, Tickle] + [Count(0), Wait(0)] == [Scan(0), Schedule, Tickle, Count(0), Wait(0)];
  }

  lemma MissedSignal(s: State, t: State)
    requires s == State([Empty], 0, 0, false, 0) && t == State([Empty], 1, 0, false, 0)
    ensures Runs(s, [Schedule, Tickle]) && After(s, [Schedule, Tickle]) == t
  {
    OneStep(s, Schedule);
    OneStep(s.(queued := 1, asked := 1), Tickle);
    RunsConcat(s, [Schedule], [Tickle]);
    assert [Schedule] + [Tickle] == [Schedule, Tickle];
  }

  // ---------- entries ----------

  /** The entries that come into the queue in a run, and those that scans take. */
  function Came(acts: seq<Action>): nat {
    if acts == [] then 0 else (if acts[0].Schedule? || acts[0].Spawn? then 1 else 0) + Came(acts[1..])
  }

  function Taken(s: State, acts: seq<Action>): nat
    requires Runs(s, acts)
    decreases |acts|
  {
    if acts == [] then 0 else
      (if acts[0].Scan? && s.queued > 0 then 1 else 0) + Taken(Apply(s, acts[0]), acts[1..])
  }

  /** Over any run every entry that came was taken by a scan or is still queued, and the
      counter of idle workers stays exact. */
  lemma {:induction false} EntriesKept(s: State, acts: seq<Action>)
    requires Runs(s, acts) && IdleExact(s)
    ensures s.queued + Came(acts) == After(s, acts).queued + Taken(s, acts)
    ensures IdleExact(After(s, acts))
    decreases |acts|
  {
    if acts != [] {
      IdleStep(s, acts[0]);
      EntriesKept(Apply(s, acts[0]), acts[1..]);
    }
  }

  lemma InitialIdle(n: nat)
    ensures IdleExact(Initial(n)) && Covered(Initial(n))
  {
    InIdleZero(Initial(n).workers);
  }
}
