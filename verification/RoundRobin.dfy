/** A plain round-robin interpreter of coroutine scripts: the meaning that the
    single-worker scheduler loop is proved to implement. */
module RoundRobin {
  import opened Basics

  /** What is left to do of a function run on a fiber. `Do` is any visible effect;
      `Requeue` is schedule(GetThis()) followed by YieldToHold. */
  datatype Script =
    | End
    | Throw
    | Do(effect: int, rest: Script)
    | Spawn(child: Script, asFiber: bool, thread: Option<nat>, rest: Script)
    | SwitchTo(thread: Option<nat>, rest: Script)
    | YieldReady(rest: Script)
    | YieldHold(rest: Script)
    | Requeue(rest: Script)

  /** How a stretch of execution ends. */
  datatype Stop = Ends | Throws | Ready(rest: Script) | Parks(rest: Script) | Requeues(rest: Script)

  /** A stretch of execution from a resume to the next yield or the end. */
  datatype Slice = Slice(effects: seq<int>, spawned: seq<Script>, stop: Stop)

  function RunSlice(s: Script): Slice {
    match s
    case End => Slice([], [], Ends)
    case Throw => Slice([], [], Throws)
    case Do(e, rest) => var r := RunSlice(rest); r.(effects := [e] + r.effects)
    case Spawn(child, _, _, rest) => var r := RunSlice(rest); r.(spawned := [child] + r.spawned)
    case SwitchTo(_, rest) => RunSlice(rest)
    case YieldReady(rest) => Slice([], [], Ready(rest))
    case YieldHold(rest) => Slice([], [], Parks(rest))
    case Requeue(rest) => Slice([], [], Requeues(rest))
  }

  /** What a stretch appends to the queue: the spawned tasks, then itself if it goes on. */
  function Appends(r: Slice): seq<Script> {
    r.spawned + (if r.stop.Ready? || r.stop.Requeues? then [r.stop.rest] else [])
  }

  function Leaves(r: Slice): seq<Script> {
    if r.stop.Parks? then [r.stop.rest] else []
  }

  function Size(s: Script): nat {
    match s
    case End => 1
    case Throw => 1
    case Spawn(child, _, _, rest) => 1 + Size(child) + Size(rest)
    case _ => 1 + Size(s.rest)
  }

  function Sizes(q: seq<Script>): nat {
    if q == [] then 0 else Size(q[0]) + Sizes(q[1..])
  }

  lemma {:induction false} SizesConcat(a: seq<Script>, b: seq<Script>)
    ensures Sizes(a + b) == Sizes(a) + Sizes(b)
  {
    if a == [] {
      assert a + b == b;
    } else {
      assert (a + b)[1..] == a[1..] + b;
      SizesConcat(a[1..], b);
    }
  }

  /** Every stretch makes progress: what it appends is smaller than what it started from. */
  lemma {:induction false} SliceShrinks(s: Script)
    ensures Sizes(Appends(RunSlice(s))) < Size(s)
  {
    var r := RunSlice(s);
    SizesConcat(r.spawned, Appends(r)[|r.spawned|..]);
    match s
    case Do(_, rest) => SliceShrinks(rest);
    case Spawn(child, _, _, rest) =>
      SliceShrinks(rest);
      assert Appends(r) == [child] + Appends(RunSlice(rest));
      SizesConcat([child], Appends(RunSlice(rest)));
    case SwitchTo(_, rest) => SliceShrinks(rest);
    case _ =>
  }

  /** The effects of a whole run, and the scripts it leaves parked, in order. */
  datatype Outcome = Outcome(trace: seq<int>, parked: seq<Script>)

  /** Pop the head, run it to its next yield, append what it spawned, then itself. */
  function Interpret(q: seq<Script>): Outcome
    decreases Sizes(q)
  {
    if q == [] then Outcome([], []) else
      var r := RunSlice(q[0]);
      SliceShrinks(q[0]);
      SizesConcat(q[1..], Appends(r));
      var o := Interpret(q[1..] + Appends(r));
      Outcome(r.effects + o.trace, Leaves(r) + o.parked)
  }

  /** One step of the interpreter, and its progress. */
  lemma InterpretStep(q: seq<Script>)
    requires q != []
    ensures
      var r := RunSlice(q[0]);
      var rest := q[1..] + Appends(r);
      && Interpret(q) == Outcome(r.effects + Interpret(rest).trace, Leaves(r) + Interpret(rest).parked)
      && Sizes(rest) < Sizes(q)
  {
    SliceShrinks(q[0]);
    SizesConcat(q[1..], Appends(RunSlice(q[0])));
  }

  /** A queue q with t done and h parked so far is on its way to the given outcome. */
  predicate OnTheWay(q: seq<Script>, t: seq<int>, h: seq<Script>, outcome: Outcome) {
    t + Interpret(q).trace == outcome.trace && h + Interpret(q).parked == outcome.parked
  }

  lemma Advance(q: seq<Script>, t: seq<int>, h: seq<Script>, outcome: Outcome)
    requires q != [] && OnTheWay(q, t, h, outcome)
    ensures OnTheWay(q[1..] + Appends(RunSlice(q[0])), t + RunSlice(q[0]).effects, h + Leaves(RunSlice(q[0])), outcome)
    ensures Sizes(q[1..] + Appends(RunSlice(q[0]))) < Sizes(q)
  {
    var r := RunSlice(q[0]);
    var rest := q[1..] + Appends(r);
    InterpretStep(q);
    Regroup(t, r.effects, Interpret(rest).trace);
    Regroup(h, Leaves(r), Interpret(rest).parked);
  }

  /** Every task that the script can create is free to run on thread tid, and the script
      never moves to another thread. */
  predicate StaysOn(s: Script, tid: nat) {
    match s
    case End => true
    case Throw => true
    case Spawn(child, _, t, rest) => (t.None? || t.value == tid) && StaysOn(child, tid) && StaysOn(rest, tid)
    case SwitchTo(t, rest) => (t.None? || t.value == tid) && StaysOn(rest, tid)
    case _ => StaysOn(s.rest, tid)
  }
}
