/** Scheduler on one thread, as an object: the queue scan in place, and the whole of run
    proved against the round-robin interpreter. */
module Scheduler {
  import opened Basics
  import opened RoundRobin
  import opened ScriptMeaning

  /** A fiber object. `body` is what it has left to do; None after reset(nullptr). */
  class Fiber {
    var state: FiberState
    var body: Option<Script>

    constructor (body: Script)
      ensures state == INIT && this.body == Some(body)
    {
      state, this.body := INIT, Some(body);
    }

    /** Fiber::reset; its assertion is the precondition. */
    method Reset(body: Option<Script>)
      requires Ended(state) || state == INIT
      modifies this
      ensures state == INIT && this.body == body
    {
      this.body := body;
      state := INIT;
    }
  }

  /** FiberAndThread: a fiber or a callback, and the thread it is pinned to, if any. */
  datatype Entry = FiberEntry(fiber: Fiber, thread: Option<nat>) | CbEntry(cb: Script, thread: Option<nat>)

  predicate InExec(e: Entry)
    reads if e.FiberEntry? then {e.fiber} else {}
  {
    e.FiberEntry? && e.fiber.state == EXEC
  }

  predicate Eligible(e: Entry, tid: nat)
    reads if e.FiberEntry? then {e.fiber} else {}
  {
    !PinnedElsewhere(e.thread, tid) && !InExec(e)
  }

  ghost function FibersOf(q: seq<Entry>): set<Fiber> {
    set e | e in q && e.FiberEntry? :: e.fiber
  }

  /** The scripts that the queue stands for; a dead fiber has nothing left to do. */
  ghost function ScriptOf(e: Entry): Script
    reads if e.FiberEntry? then {e.fiber} else {}
  {
    match e
    case CbEntry(c, _) => c
    case FiberEntry(f, _) => if Ended(f.state) || f.body.None? then End else f.body.value
  }

  ghost function Scripts(q: seq<Entry>): (r: seq<Script>)
    reads FibersOf(q)
    ensures |r| == |q|
    ensures forall i | 0 <= i < |q| :: r[i] == ScriptOf(q[i])
  {
    seq(|q|, i requires 0 <= i < |q| reads FibersOf(q) => ScriptOf(q[i]))
  }

  /** What the listed fibers have left to do. */
  ghost function BodiesOf(fs: seq<Fiber>): (r: seq<Script>)
    reads fs
    ensures |r| == |fs|
    ensures forall i | 0 <= i < |fs| :: r[i] == fs[i].body.GetOr(End)
  {
    seq(|fs|, i requires 0 <= i < |fs| reads fs => fs[i].body.GetOr(End))
  }

  class Scheduler {
    var fibers: seq<Entry>
    var active: nat
    var idle: nat
    var autoStop: bool
    var stopping: bool
    /** The state of m_rootFiber, the fiber that runs `run` on the calling thread. */
    var rootState: FiberState
    var tickles: nat
    /** What the tasks have done, and the fibers that were parked, oldest first. */
    var trace: seq<int>
    ghost var parked: seq<Fiber>

    constructor ()
      ensures fibers == [] && active == 0 && idle == 0 && !autoStop && stopping
      ensures rootState == INIT && tickles == 0 && trace == [] && parked == []
    {
      fibers, active, idle, tickles, trace, parked := [], 0, 0, 0, [], [];
      autoStop, stopping, rootState := false, true, INIT;
    }

    /** The base class only logs; a counter stands for the signal. */
    method Tickle()
      modifies this`tickles
      ensures tickles == old(tickles) + 1
    {
      tickles := tickles + 1;
    }

    /** schedule: appends, and signals when the queue was empty. */
    method Schedule(e: Entry)
      modifies this`fibers, this`tickles
      ensures fibers == old(fibers) + [e]
      ensures tickles == old(tickles) + (if old(fibers) == [] then 1 else 0)
    {
      var needTickle := fibers == [];
      fibers := fibers + [e];
      if needTickle {
        Tickle();
      }
    }

    /** The scan of run: removes exactly the first eligible entry, keeps the order of the
        rest, and asks for a signal exactly when an entry pinned to another thread was
        passed or something is left behind the pick. */
    method ScanQueue(tid: nat) returns (ft: Option<Entry>, tickleMe: bool)
      modifies this`fibers, this`active
      ensures ft.None? ==>
        && fibers == old(fibers) && active == old(active)
        && (forall i | 0 <= i < |fibers| :: !Eligible(fibers[i], tid))
        && (tickleMe <==> exists i :: 0 <= i < |fibers| && PinnedElsewhere(fibers[i].thread, tid))
      ensures ft.Some? ==>
        && active == old(active) + 1
        && exists k ::
          && 0 <= k < |old(fibers)|
          && Eligible(old(fibers)[k], tid)
          && (forall i | 0 <= i < k :: !Eligible(old(fibers)[i], tid))
          && ft.value == old(fibers)[k]
          && fibers == RemoveAt(old(fibers), k)
          && (tickleMe <==>
                (exists i :: 0 <= i < k && PinnedElsewhere(old(fibers)[i].thread, tid)) || k + 1 < |old(fibers)|)
      ensures (exists i :: 0 <= i < |fibers| && fibers[i].thread.Some? && fibers[i].thread.value != tid) ==> tickleMe
      ensures ft.Some? ==>
        && (ft.value.thread.None? || ft.value.thread.value == tid)
        && (ft.value.FiberEntry? ==> ft.value.fiber.state != EXEC)
      ensures ft.None? ==> forall i | 0 <= i < |fibers| ::
        || (fibers[i].thread.Some? && fibers[i].thread.value != tid)
        || (fibers[i].FiberEntry? && fibers[i].fiber.state == EXEC)
    {
      ft, tickleMe := None, false;
      var it := 0;
      while it < |fibers|
        invariant 0 <= it <= |fibers| && fibers == old(fibers) && active == old(active) && ft.None?
        invariant forall i | 0 <= i < it :: !Eligible(fibers[i], tid)
        invariant tickleMe <==> exists i :: 0 <= i < it && PinnedElsewhere(fibers[i].thread, tid)
      {
        var e := fibers[it];
        if PinnedElsewhere(e.thread, tid) {
          tickleMe := true;
          it := it + 1;
          continue;
        }
        if e.FiberEntry? && e.fiber.state == EXEC {
          it := it + 1;
          continue;
        }
        ft := Some(e);
        fibers := RemoveAt(fibers, it);
        active := active + 1;
        break;
      }
      tickleMe := tickleMe || it != |fibers|;
    }

    /** Scheduler::stopping. */
    predicate IsStopping()
      reads this
    {
      autoStop && stopping && fibers == [] && active == 0
    }

    /** The argument of schedule for a new task: a new fiber object, or the callback itself. */
    method MakeEntry(child: Script, asFiber: bool, thread: Option<nat>) returns (e: Entry)
      ensures e.thread == thread && ScriptOf(e) == child && (e.FiberEntry? <==> asFiber)
      ensures e.FiberEntry? ==> fresh(e.fiber) && e.fiber.state == INIT && e.fiber.body.Some?
    {
      e := CbEntry(child, thread);
      if asFiber {
        var g := new Fiber(child);
        e := FiberEntry(g, thread);
      }
    }

    /** swapIn: runs the fiber until it yields or ends. Spawned tasks are new objects; a
        fiber that requeues itself is still in EXEC when it comes back. */
    method SwapIn(f: Fiber, tid: nat) returns (ghost added: seq<Entry>)
      requires f.state != EXEC && f.body.Some? && StaysOn(f.body.value, tid)
      modifies this`fibers, this`tickles, this`trace, f
      ensures SliceDone(f, RunSlice(old(f.body.value)), added, old(trace), trace, old(fibers), fibers, tid)
      ensures RunSlice(old(f.body.value)).stop.Ends? ==> f.state == TERM && f.body == None
      ensures RunSlice(old(f.body.value)).stop.Throws? ==> f.state == EXCEPT
      ensures RunSlice(old(f.body.value)).stop.Ready? ==>
        f.state == READY && f.body == Some(RunSlice(old(f.body.value)).stop.rest)
      ensures RunSlice(old(f.body.value)).stop.Parks? || RunSlice(old(f.body.value)).stop.Requeues? ==>
        f.state == EXEC && f.body == Some(RunSlice(old(f.body.value)).stop.rest)
      ensures forall g | g in FibersOf(added) :: fresh(g) && g != f
    {
      f.state := EXEC;
      added := Execute(f, f.body.value, tid);
    }

    /** The code `s` of the running fiber f, up to its next yield or its end. */
    method Execute(f: Fiber, s: Script, tid: nat) returns (ghost added: seq<Entry>)
      requires f.state == EXEC && StaysOn(s, tid)
      modifies this`fibers, this`tickles, this`trace, f
      ensures SliceDone(f, RunSlice(s), added, old(trace), trace, old(fibers), fibers, tid)
      ensures RunSlice(s).stop.Ends? ==> f.state == TERM && f.body == None
      ensures RunSlice(s).stop.Throws? ==> f.state == EXCEPT
      ensures RunSlice(s).stop.Ready? ==> f.state == READY && f.body == Some(RunSlice(s).stop.rest)
      ensures RunSlice(s).stop.Parks? || RunSlice(s).stop.Requeues? ==>
        f.state == EXEC && f.body == Some(RunSlice(s).stop.rest)
      ensures forall g | g in FibersOf(added) :: fresh(g) && g != f
      decreases s, 0
    {
      added := [];
      match s {
        case End =>
          f.body, f.state := None, TERM;
        case Throw =>
          f.state := EXCEPT;
        case Do(e, rest) =>
          trace := trace + [e];
          added := Execute(f, rest, tid);
          Regroup(old(trace), [e], RunSlice(rest).effects);
        case Spawn(child, asFiber, thread, rest) =>
          added := ExecuteSpawn(f, child, asFiber, thread, rest, tid);
        case SwitchTo(_, rest) =>
          added := Execute(f, rest, tid);
        case YieldReady(rest) =>
          f.body, f.state := Some(rest), READY;
        case YieldHold(rest) =>
          f.body := Some(rest);
        case Requeue(rest) =>
          Schedule(FiberEntry(f, None));
          f.body := Some(rest);
      }
    }

    method ExecuteSpawn(f: Fiber, child: Script, asFiber: bool, thread: Option<nat>, rest: Script, tid: nat)
      returns (ghost added: seq<Entry>)
      requires f.state == EXEC && StaysOn(Spawn(child, asFiber, thread, rest), tid)
      modifies this`fibers, this`tickles, this`trace, f
      ensures SliceDone(f, RunSlice(Spawn(child, asFiber, thread, rest)), added,
                        old(trace), trace, old(fibers), fibers, tid)
      ensures RunSlice(rest).stop.Ends? ==> f.state == TERM && f.body == None
      ensures RunSlice(rest).stop.Throws? ==> f.state == EXCEPT
      ensures RunSlice(rest).stop.Ready? ==> f.state == READY && f.body == Some(RunSlice(rest).stop.rest)
      ensures RunSlice(rest).stop.Parks? || RunSlice(rest).stop.Requeues? ==>
        f.state == EXEC && f.body == Some(RunSlice(rest).stop.rest)
      ensures forall g | g in FibersOf(added) :: fresh(g) && g != f
      decreases rest, 1
    {
      var e := MakeEntry(child, asFiber, thread);
      Schedule(e);
      ghost var more := Execute(f, rest, tid);
      added := [e] + more;
      SpawnOneLess(e, child, more, RunSlice(rest).spawned, tid);
      Regroup(old(fibers), [e], more);
    }

    /** Lines common to the fiber and the callback branch of run: the fiber runs to its
        next yield, the active count goes down, and the fiber is requeued if it is READY,
        or marked HOLD if it only yielded. */
    method Resume(f: Fiber, tid: nat) returns (ghost app: seq<Entry>)
      requires active > 0 && LiveOrDead(f, tid) && !Ended(f.state)
      modifies this`fibers, this`tickles, this`trace, this`active, this`parked, f
      ensures active == old(active) - 1 && fibers == old(fibers) + app
      ensures TaskDone(old(ScriptOf(FiberEntry(f, None))), app, f, old(trace), trace, old(parked), parked, tid)
      ensures forall g | g in FibersOf(app) :: fresh(g) || g == f
      ensures f.state != EXEC && f.state != INIT
      ensures RunSlice(old(f.body.value)).stop.Ends? ==> f.state == TERM && f.body == None
      ensures RunSlice(old(f.body.value)).stop.Throws? ==> f.state == EXCEPT
      ensures RunSlice(old(f.body.value)).stop.Ready? ==>
        f.state == READY && f.body == Some(RunSlice(old(f.body.value)).stop.rest)
      ensures RunSlice(old(f.body.value)).stop.Parks? || RunSlice(old(f.body.value)).stop.Requeues? ==>
        f.state == HOLD && f.body == Some(RunSlice(old(f.body.value)).stop.rest)
      ensures Ended(f.state) ==> f !in FibersOf(app)
    {
      ghost var r := RunSlice(f.body.value);
      ghost var added := SwapIn(f, tid);
      active := active - 1;
      if f.state == READY {
        Schedule(FiberEntry(f, None));
      } else if !Ended(f.state) {
        f.state := HOLD;
        if r.stop.Parks? {
          parked := parked + [f];
        }
      }
      app := added;
      if r.stop.Ready? || r.stop.Requeues? {
        app := added + [FiberEntry(f, None)];
        SpawnOneMore(added, r.spawned, FiberEntry(f, None), r.stop.rest, tid);
        Regroup(old(fibers), added, [FiberEntry(f, None)]);
      }
    }

    /** run's fiber branch: a dead fiber is dropped, a live one is resumed. */
    method RunFiber(f: Fiber, tid: nat) returns (ghost app: seq<Entry>)
      requires active > 0 && LiveOrDead(f, tid)
      modifies this`fibers, this`tickles, this`trace, this`active, this`parked, f
      ensures active == old(active) - 1 && fibers == old(fibers) + app
      ensures TaskDone(old(ScriptOf(FiberEntry(f, None))), app, f, old(trace), trace, old(parked), parked, tid)
      ensures forall g | g in FibersOf(app) :: fresh(g) || g == f
    {
      app := [];
      if Ended(f.state) {
        active := active - 1;
      } else {
        app := Resume(f, tid);
      }
    }

    /** run's callback branch. The worker keeps one fiber object for callbacks: it is loaded
        again after its callback has ended, and given away when the callback yields. */
    method RunCallback(c: Script, cached: Fiber?, tid: nat)
      returns (next: Fiber?, ghost f: Fiber, ghost app: seq<Entry>)
      requires active > 0 && StaysOn(c, tid)
      requires cached != null ==> Ended(cached.state) || cached.state == INIT
      modifies this`fibers, this`tickles, this`trace, this`active, this`parked, cached
      ensures active == old(active) - 1 && fibers == old(fibers) + app
      ensures if cached != null then f == cached else fresh(f)
      ensures next == null
              || (next == f && f.state == INIT && f.body == None && f !in FibersOf(app) && parked == old(parked))
      ensures TaskDone(c, app, f, old(trace), trace, old(parked), parked, tid)
      ensures forall g | g in FibersOf(app) :: fresh(g) || g == f
    {
      var fiber: Fiber;
      if cached != null {
        fiber := cached;
        fiber.Reset(Some(c));
      } else {
        fiber := new Fiber(c);
      }
      f := fiber;
      app := Resume(fiber, tid);
      next := null;
      if Ended(fiber.state) {
        fiber.Reset(None);
        next := fiber;
      }
    }

    ghost predicate QueueOk(tid: nat)
      reads this`fibers, FibersOf(fibers)
    {
      AllOk(fibers, tid)
    }

    /** Parked fibers are in HOLD with work left, and nothing in the queue resumes them. */
    ghost predicate ParkedOk()
      reads this`parked, this`fibers, parked
    {
      && (forall i | 0 <= i < |parked| :: parked[i].state == HOLD && parked[i].body.Some?)
      && (forall i, j | 0 <= i < j < |parked| :: parked[i] != parked[j])
      && (forall p | p in parked :: p !in FibersOf(fibers))
    }

    ghost function ParkedScripts(): seq<Script>
      reads this`parked, parked
    {
      BodiesOf(parked)
    }

    /** The cached callback fiber is absent, or blank and known to nobody else. */
    ghost predicate CacheOk(cached: Fiber?)
      reads this`parked, this`fibers, cached
    {
      cached != null ==> cached.state == INIT && cached.body == None && cached !in FibersOf(fibers) && cached !in parked
    }

    /** The scan and the signal, when all entries can run here: the head is taken. */
    method Pick(tid: nat) returns (ft: Option<Entry>)
      requires QueueOk(tid)
      modifies this`fibers, this`tickles, this`active
      ensures ft.None? <==> old(fibers) == []
      ensures ft.None? ==> fibers == [] && active == old(active)
      ensures ft.Some? ==> ft.value == old(fibers)[0] && fibers == old(fibers)[1..] && active == old(active) + 1
      ensures tickles == old(tickles) + (if |old(fibers)| > 1 then 1 else 0)
    {
      var tickleMe;
      ft, tickleMe := ScanQueue(tid);
      assert old(fibers) != [] ==> Eligible(old(fibers)[0], tid);
      if tickleMe {
        Tickle();
      }
    }

    /** The fiber that a step works on is neither queued nor parked. */
    ghost predicate Loose(f: Fiber)
      reads this
    {
      f !in FibersOf(fibers) && f !in parked
    }

    /** The task branches of run. */
    method RunTask(e: Entry, cached: Fiber?, tid: nat) returns (next: Fiber?, ghost f: Fiber, ghost app: seq<Entry>)
      requires active > 0 && EntryOk(e, tid) && CacheOk(cached)
      requires e.FiberEntry? ==> Loose(e.fiber) && e.fiber != cached
      modifies this`fibers, this`tickles, this`trace, this`active, this`parked, Worked(e, cached)
      ensures active == old(active) - 1 && fibers == old(fibers) + app
      ensures TaskDone(old(ScriptOf(e)), app, f, old(trace), trace, old(parked), parked, tid)
      ensures OnlyTouched(f, app)
      ensures forall g | g in FibersOf(app) :: fresh(g) || g == f
      ensures fresh(f) || f == cached || (e.FiberEntry? && f == e.fiber)
      ensures next == null || fresh(next) || next == cached
      ensures if next == f then f.state == INIT && f.body == None && f !in FibersOf(app) && parked == old(parked)
              else next == null || (next == cached && f != cached && unchanged(cached))
    {
      match e {
        case FiberEntry(g, _) =>
          app := RunFiber(g, tid);
          f := g;
          next := cached;
        case CbEntry(c, _) =>
          next, f, app := RunCallback(c, cached, tid);
      }
    }

    /** What a task step leaves alone: the other queued fibers and the parked ones. The
        fibers it queues are new or the one it ran. */
    twostate predicate OnlyTouched(new f: Fiber, new app: seq<Entry>)
      reads *
    {
      && fibers == old(fibers) + app
      && (forall g | g in FibersOf(old(fibers)) :: g != f && g !in FibersOf(app) && unchanged(g))
      && (forall g | g in old(parked) :: g != f && g !in FibersOf(app) && unchanged(g))
    }

    twostate lemma ScriptsAfter(new f: Fiber, new app: seq<Entry>, more: seq<Script>)
      requires OnlyTouched(f, app) && Scripts(app) == more
      ensures Scripts(fibers) == old(Scripts(fibers)) + more
    {
      var n := |old(fibers)|;
      forall i | 0 <= i < |fibers|
        ensures ScriptOf(fibers[i]) == (old(Scripts(fibers)) + more)[i]
      {
        if i < n {
          assert fibers[i] == old(fibers)[i] && fibers[i] in old(fibers);
          assert fibers[i].FiberEntry? ==> fibers[i].fiber in FibersOf(old(fibers));
        } else {
          assert fibers[i] == app[i - n];
        }
      }
    }

    twostate lemma QueueOkAfter(new f: Fiber, new app: seq<Entry>, tid: nat)
      requires old(QueueOk(tid)) && OnlyTouched(f, app)
      requires forall i | 0 <= i < |app| :: EntryOk(app[i], tid)
      requires DistinctFibers(app)
      ensures QueueOk(tid)
    {
      var n := |old(fibers)|;
      forall i | 0 <= i < |fibers| ensures EntryOk(fibers[i], tid) {
        if i < n {
          assert fibers[i] == old(fibers)[i] && fibers[i] in old(fibers);
          assert old(EntryOk(fibers[i], tid));
          assert fibers[i].FiberEntry? ==> fibers[i].fiber in FibersOf(old(fibers));
        } else {
          assert fibers[i] == app[i - n];
        }
      }
      forall i, j | 0 <= i < j < |fibers| && fibers[i].FiberEntry? && fibers[j].FiberEntry?
        ensures fibers[i].fiber != fibers[j].fiber
      {
        if j >= n {
          assert fibers[j] == app[j - n] && fibers[j].fiber in FibersOf(app);
          if i >= n {
            assert fibers[i] == app[i - n];
          } else {
            assert fibers[i] in old(fibers) && fibers[i].fiber in FibersOf(old(fibers));
          }
        }
      }
    }

    twostate lemma ParkedAfter(new f: Fiber, new app: seq<Entry>, s: Script)
      requires old(ParkedOk()) && OnlyTouched(f, app)
      requires parked == old(parked) + (if RunSlice(s).stop.Parks? then [f] else [])
      requires RunSlice(s).stop.Parks? ==> Parked(f, RunSlice(s).stop.rest) && f !in FibersOf(app)
      requires f !in FibersOf(old(fibers))
      ensures ParkedOk()
      ensures ParkedScripts() == old(ParkedScripts()) + Leaves(RunSlice(s))
    {
      var n := |old(parked)|;
      forall i | 0 <= i < |parked| ensures parked[i].state == HOLD && parked[i].body.Some? {
        if i < n {
          assert old(parked[i]) in old(parked);
        }
      }
      forall p | p in parked ensures p !in FibersOf(fibers) {
        if p in old(parked) {
          assert old(p !in FibersOf(fibers));
        }
      }
      forall i | 0 <= i < n ensures parked[i].body == old(parked)[i].body == old(parked[i].body) {
        assert parked[i] == old(parked)[i] && parked[i] in old(parked);
      }
    }

    /** A picked task is performed, and everything stays in order. */
    method Perform(e: Entry, cached: Fiber?, tid: nat) returns (next: Fiber?)
      requires active > 0 && EntryOk(e, tid) && QueueOk(tid) && ParkedOk() && CacheOk(cached)
      requires e.FiberEntry? ==> Loose(e.fiber) && e.fiber != cached
      modifies this`fibers, this`tickles, this`trace, this`active, this`parked, Worked(e, cached)
      ensures QueueOk(tid) && ParkedOk() && CacheOk(next)
      ensures active == old(active) - 1
      ensures trace == old(trace) + RunSlice(old(ScriptOf(e))).effects
      ensures Scripts(fibers) == old(Scripts(fibers)) + Appends(RunSlice(old(ScriptOf(e))))
      ensures ParkedScripts() == old(ParkedScripts()) + Leaves(RunSlice(old(ScriptOf(e))))
      ensures forall g | g in FibersOf(fibers) ::
                fresh(g) || g in old(FibersOf(fibers)) || g == cached || (e.FiberEntry? && g == e.fiber)
      ensures next == null || fresh(next) || next == cached
    {
      ghost var s := ScriptOf(e);
      ghost var f, app;
      next, f, app := RunTask(e, cached, tid);
      assert Scripts(app) == Appends(RunSlice(s));
      ScriptsAfter(f, app, Appends(RunSlice(s)));
      QueueOkAfter(f, app, tid);
      ParkedAfter(f, app, s);
      assert FibersOf(fibers) == FibersOf(old(fibers)) + FibersOf(app);
    }

    /** One round of the loop up to the idle branch: the scan, and the task if there is one. */
    method RunOne(cached: Fiber?, tid: nat) returns (found: bool, next: Fiber?)
      requires QueueOk(tid) && ParkedOk() && CacheOk(cached)
      modifies this`fibers, this`tickles, this`trace, this`active, this`parked, FibersOf(fibers), cached
      ensures QueueOk(tid) && ParkedOk() && CacheOk(next)
      ensures active == old(active)
      ensures found <==> old(fibers) != []
      ensures found ==>
        var r := RunSlice(old(Scripts(fibers))[0]);
        && trace == old(trace) + r.effects
        && Scripts(fibers) == old(Scripts(fibers))[1..] + Appends(r)
        && ParkedScripts() == old(ParkedScripts()) + Leaves(r)
      ensures !found ==>
        && fibers == [] && trace == old(trace) && parked == old(parked)
        && ParkedScripts() == old(ParkedScripts()) && next == cached
      ensures forall g | g in FibersOf(fibers) :: fresh(g) || g in old(FibersOf(fibers)) || g == cached
      ensures next == null || fresh(next) || next == cached
    {
      if fibers != [] {
        TailOk(fibers, tid);
      }
      var ft := Pick(tid);
      found, next := ft.Some?, cached;
      if ft.Some? {
        next := Perform(ft.value, cached, tid);
      }
    }

    /** The idle branch: the idle fiber tests stopping() once and yields or ends. */
    method RunIdle(idleFiber: FiberState) returns (after: FiberState)
      modifies this`idle
      ensures idle == old(idle)
      ensures after == if autoStop && stopping && fibers == [] && active == 0 then TERM else HOLD
    {
      idle := idle + 1;
      after := EXEC;
      if IsStopping() {
        after := TERM;
      }
      idle := idle - 1;
      if !Ended(after) {
        after := HOLD;
      }
    }

    /** The loop of run is in order, and on its way to the outcome `goal`. */
    ghost predicate Going(tid: nat, cached: Fiber?, idleFiber: FiberState, goal: Outcome)
      reads this`fibers, this`active, this`trace, this`parked, this`autoStop, this`stopping
      reads FibersOf(fibers), parked, cached
    {
      && QueueOk(tid) && ParkedOk() && CacheOk(cached)
      && active == 0 && autoStop && stopping
      && (idleFiber == INIT || (idleFiber == TERM && fibers == []))
      && OnTheWay(Scripts(fibers), trace, ParkedScripts(), goal)
    }

    /** One round of the loop: a task is performed, or the idle fiber runs, or run is left. */
    method Round(tid: nat, cached: Fiber?, idleFiber: FiberState, ghost goal: Outcome)
      returns (next: Fiber?, idleAfter: FiberState, leave: bool)
      requires Going(tid, cached, idleFiber, goal)
      modifies this`fibers, this`tickles, this`trace, this`active, this`idle, this`parked, FibersOf(fibers), cached
      ensures Going(tid, next, idleAfter, goal) && idle == old(idle)
      ensures leave ==> fibers == []
      ensures !leave ==> Sizes(Scripts(fibers)) < old(Sizes(Scripts(fibers)))
                         || (fibers == old(fibers) == [] && idleFiber == INIT && idleAfter == TERM)
      ensures forall g | g in FibersOf(fibers) :: fresh(g) || g in old(FibersOf(fibers)) || g == cached
      ensures next == null || fresh(next) || next == cached
    {
      if fibers != [] {
        Advance(Scripts(fibers), trace, ParkedScripts(), goal);
      }
      var found;
      found, next := RunOne(cached, tid);
      assert OnTheWay(Scripts(fibers), trace, ParkedScripts(), goal);
      idleAfter, leave := idleFiber, false;
      if !found {
        leave := idleFiber == TERM;
        if !leave {
          idleAfter := RunIdle(idleFiber);
        }
      }
    }

    /** Scheduler::run on thread tid after stop: it ends, and what it does is what the
        round-robin interpreter says, and the machine that takes one construct at a time.
        The idle fiber is the local state `idleFiber`. */
    method Run(tid: nat)
      requires QueueOk(tid) && ParkedOk() && active == 0 && autoStop && stopping
      modifies this`fibers, this`tickles, this`trace, this`active, this`idle, this`parked, FibersOf(fibers)
      ensures fibers == [] && active == 0 && idle == old(idle) && ParkedOk()
      ensures trace == old(trace) + Interpret(old(Scripts(fibers))).trace
      ensures ParkedScripts() == old(ParkedScripts()) + Interpret(old(Scripts(fibers))).parked
      ensures RunMachine(Machine(None, old(Scripts(fibers)), old(trace), old(ParkedScripts())))
           == Machine(None, [], trace, ParkedScripts())
    {
      var idleFiber, leave := INIT, false;
      var cached: Fiber? := null;
      ghost var o := Interpret(Scripts(fibers));
      ghost var goal := Outcome(trace + o.trace, ParkedScripts() + o.parked);
      while !leave
        invariant Going(tid, cached, idleFiber, goal) && idle == old(idle)
        invariant forall g | g in FibersOf(fibers) :: fresh(g) || g in old(FibersOf(fibers))
        invariant cached == null || fresh(cached)
        invariant leave ==> fibers == []
        decreases !leave, Sizes(Scripts(fibers)), idleFiber == INIT
      {
        cached, idleFiber, leave := Round(tid, cached, idleFiber, goal);
      }
      InterpretIsMachine(old(Scripts(fibers)), old(trace), old(ParkedScripts()));
    }

    /** start, when no thread but the caller's is used. */
    method Start()
      modifies this`stopping
      ensures !stopping
    {
      if !stopping {
        return;
      }
      stopping := false;
    }

    /** The root fiber is entered and runs to its end. */
    method CallRoot(tid: nat)
      requires QueueOk(tid) && ParkedOk() && active == 0 && autoStop && stopping
      modifies this`rootState, this`fibers, this`tickles, this`trace, this`active, this`idle, this`parked
      modifies FibersOf(fibers)
      ensures fibers == [] && active == 0 && ParkedOk() && rootState == TERM
      ensures trace == old(trace) + Interpret(old(Scripts(fibers))).trace
      ensures ParkedScripts() == old(ParkedScripts()) + Interpret(old(Scripts(fibers))).parked
    {
      rootState := EXEC;
      Run(tid);
      rootState := TERM;
    }

    /** stop, when no thread but the caller's is used: everything queued is run to its end
        on this thread. The root fiber can be entered once: a second stop with work queued
        resumes a finished fiber, which aborts (ok is false). */
    method Stop(tid: nat) returns (ok: bool)
      requires QueueOk(tid) && ParkedOk() && active == 0 && (rootState == INIT || rootState == TERM)
      modifies this, FibersOf(fibers)
      ensures ok <==> old(rootState) == INIT || old(fibers) == []
      ensures autoStop && stopping && active == 0
      ensures ok ==>
        && fibers == [] && ParkedOk()
        && trace == old(trace) + Interpret(old(Scripts(fibers))).trace
        && ParkedScripts() == old(ParkedScripts()) + Interpret(old(Scripts(fibers))).parked
        && rootState == if old(fibers) == [] then old(rootState) else TERM
    {
      autoStop := true;
      stopping := true;
      assert fibers == [] ==> Interpret(Scripts(fibers)) == Outcome([], []);
      if IsStopping() {
        return true;
      }
      Tickle();
      ok := rootState == INIT;
      if ok {
        CallRoot(tid);
      }
    }
  }

  /** The fiber object that performing an entry may change, if it exists already. */
  ghost function Worked(e: Entry, cached: Fiber?): set<Fiber?> {
    if e.FiberEntry? then {e.fiber} else {cached}
  }

  /** Every task of the list is free to run on thread tid, and is listed once. */
  ghost predicate AllOk(q: seq<Entry>, tid: nat)
    reads FibersOf(q)
  {
    && (forall i | 0 <= i < |q| :: EntryOk(q[i], tid))
    && DistinctFibers(q)
  }

  lemma TailOk(q: seq<Entry>, tid: nat)
    requires q != [] && AllOk(q, tid)
    ensures AllOk(q[1..], tid) && FibersOf(q[1..]) <= FibersOf(q)
    ensures Scripts(q[1..]) == Scripts(q)[1..] && Scripts(q)[0] == ScriptOf(q[0])
    ensures q[0].FiberEntry? ==> q[0].fiber in FibersOf(q) && q[0].fiber !in FibersOf(q[1..])
  {
    assert q[0] in q;
    assert forall i | 0 <= i < |q[1..]| :: q[1..][i] == q[i + 1];
  }

  /** A fiber is queued at most once. */
  ghost predicate DistinctFibers(q: seq<Entry>) {
    forall i, j | 0 <= i < j < |q| && q[i].FiberEntry? && q[j].FiberEntry? :: q[i].fiber != q[j].fiber
  }

  /** A queued fiber on this thread: dead, or with work that stays on the thread. */
  ghost predicate LiveOrDead(f: Fiber, tid: nat)
    reads f
  {
    f.state != EXEC && (Ended(f.state) || (f.body.Some? && StaysOn(f.body.value, tid)))
  }

  ghost predicate EntryOk(e: Entry, tid: nat)
    reads if e.FiberEntry? then {e.fiber} else {}
  {
    !PinnedElsewhere(e.thread, tid) && (if e.FiberEntry? then LiveOrDead(e.fiber, tid) else StaysOn(e.cb, tid))
  }

  ghost predicate Parked(f: Fiber, rest: Script)
    reads f
  {
    f.state == HOLD && f.body == Some(rest)
  }

  /** What running the script s on fiber f did: the entries `app` it appended, the visible
      effects, and f among the parked fibers if it was parked. */
  ghost predicate TaskDone(s: Script, app: seq<Entry>, f: Fiber, trace0: seq<int>, trace1: seq<int>,
                           parked0: seq<Fiber>, parked1: seq<Fiber>, tid: nat)
    reads f, FibersOf(app)
  {
    var r := RunSlice(s);
    && trace1 == trace0 + r.effects
    && SpawnedAs(app, Appends(r), tid)
    && parked1 == parked0 + (if r.stop.Parks? then [f] else [])
    && (r.stop.Parks? ==> Parked(f, r.stop.rest) && f !in FibersOf(app))
  }

  /** New entries for the spawned scripts, one for each and in their order. */
  ghost predicate SpawnedAs(added: seq<Entry>, spawned: seq<Script>, tid: nat)
    reads FibersOf(added)
  {
    && |added| == |spawned|
    && (forall i | 0 <= i < |added| :: EntryOk(added[i], tid) && ScriptOf(added[i]) == spawned[i])
    && DistinctFibers(added)
  }

  lemma SpawnOneLess(e: Entry, child: Script, added: seq<Entry>, spawned: seq<Script>, tid: nat)
    requires SpawnedAs(added, spawned, tid)
    requires EntryOk(e, tid) && ScriptOf(e) == child
    requires e.FiberEntry? ==> e.fiber !in FibersOf(added)
    ensures SpawnedAs([e] + added, [child] + spawned, tid)
    ensures FibersOf([e] + added) == FibersOf([e]) + FibersOf(added)
  {
    assert forall i | 0 <= i < |added| && added[i].FiberEntry? :: added[i].fiber in FibersOf(added);
  }

  /** What a stretch of execution did, with the entries it added. */
  ghost predicate SliceDone(f: Fiber, r: Slice, added: seq<Entry>, trace0: seq<int>, trace1: seq<int>,
                            queue0: seq<Entry>, queue1: seq<Entry>, tid: nat)
    reads f, FibersOf(added)
  {
    && trace1 == trace0 + r.effects
    && SpawnedAs(added, r.spawned, tid)
    && queue1 == queue0 + added + (if r.stop.Requeues? then [FiberEntry(f, None)] else [])
    && FiberAt(f, r.stop, tid)
  }

  lemma SpawnOneMore(added: seq<Entry>, spawned: seq<Script>, e: Entry, child: Script, tid: nat)
    requires SpawnedAs(added, spawned, tid)
    requires EntryOk(e, tid) && ScriptOf(e) == child
    requires e.FiberEntry? ==> e.fiber !in FibersOf(added)
    ensures SpawnedAs(added + [e], spawned + [child], tid)
    ensures FibersOf(added + [e]) == FibersOf(added) + FibersOf([e])
  {
    assert forall i | 0 <= i < |added| && added[i].FiberEntry? :: added[i].fiber in FibersOf(added);
  }

  /** The fiber as swapIn leaves it; a fiber that yielded to hold is still in EXEC. */
  ghost predicate FiberAt(f: Fiber, stop: Stop, tid: nat)
    reads f
  {
    match stop
    case Ends => f.state == TERM
    case Throws => f.state == EXCEPT
    case Ready(rest) => f.state == READY && f.body == Some(rest) && StaysOn(rest, tid)
    case Parks(rest) => f.state == EXEC && f.body == Some(rest) && StaysOn(rest, tid)
    case Requeues(rest) => f.state == EXEC && f.body == Some(rest) && StaysOn(rest, tid)
  }
}
