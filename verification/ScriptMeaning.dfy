/** What a script means, apart from slices: a machine that takes one construct at a time,
    and laws about what stands before and behind a yield. The round-robin interpreter is
    proved to compute the machine's final state. */
module ScriptMeaning {
  import opened Basics
  import opened RoundRobin

  // ---------- one construct at a time ----------

  /** One worker: the script it runs, if any, the queue, the visible effects so far, and
      the scripts left parked. */
  datatype Machine = Machine(current: Option<Script>, queue: seq<Script>, trace: seq<int>, parked: seq<Script>)

  predicate Halted(m: Machine) {
    m.current.None? && m.queue == []
  }

  function StepOnce(m: Machine): Machine
    requires !Halted(m)
  {
    if m.current.None? then m.(current := Some(m.queue[0]), queue := m.queue[1..]) else
    match m.current.value
    case End => m.(current := None)
    case Throw => m.(current := None)
    case Do(e, rest) => m.(current := Some(rest), trace := m.trace + [e])
    case Spawn(child, _, _, rest) => m.(current := Some(rest), queue := m.queue + [child])
    case SwitchTo(_, rest) => m.(current := Some(rest))
    case YieldReady(rest) => m.(current := None, queue := m.queue + [rest])
    case Requeue(rest) => m.(current := None, queue := m.queue + [rest])
    case YieldHold(rest) => m.(current := None, parked := m.parked + [rest])
  }

  function Left(m: Machine): nat {
    (if m.current.Some? then Size(m.current.value) else 0) + Sizes(m.queue)
  }

  /** Every step but taking from the queue uses up a construct. */
  lemma StepShrinks(m: Machine)
    requires !Halted(m)
    ensures m.current.Some? ==> Left(StepOnce(m)) < Left(m)
    ensures m.current.None? ==> Left(StepOnce(m)) == Left(m) && StepOnce(m).current.Some?
  {
    if m.current.Some? {
      var s := m.current.value;
      var added := if s.Spawn? then [s.child] else if s.YieldReady? || s.Requeue? then [s.rest] else [];
      SizesConcat(m.queue, added);
      assert StepOnce(m).queue == m.queue + added;
      assert added != [] ==> added[1..] == [];
    }
  }

  function RunMachine(m: Machine): Machine
    decreases Left(m), if m.current.None? then 1 else 0
  {
    if Halted(m) then m else
      StepShrinks(m);
      RunMachine(StepOnce(m))
  }

  // ---------- slices ----------

  /** A slice is what the machine does up to the next time it takes from the queue. */
  lemma {:induction false} SliceIsSteps(s: Script, q: seq<Script>, t: seq<int>, h: seq<Script>)
    ensures
      var r := RunSlice(s);
      RunMachine(Machine(Some(s), q, t, h)) == RunMachine(Machine(None, q + Appends(r), t + r.effects, h + Leaves(r)))
    decreases s
  {
    var r := RunSlice(s);
    match s
    case Do(e, rest) =>
      SliceIsSteps(rest, q, t + [e], h);
      Regroup(t, [e], RunSlice(rest).effects);
    case Spawn(child, _, _, rest) =>
      SliceIsSteps(rest, q + [child], t, h);
      Regroup(q, [child], Appends(RunSlice(rest)));
      assert [child] + Appends(RunSlice(rest)) == Appends(r);
    case SwitchTo(_, rest) => SliceIsSteps(rest, q, t, h);
    case YieldReady(rest) => assert Appends(r) == [rest] && t + [] == t && h + [] == h;
    case Requeue(rest) => assert Appends(r) == [rest] && t + [] == t && h + [] == h;
    case YieldHold(rest) => assert Appends(r) == [] && q + [] == q && t + [] == t;
    case End => assert Appends(r) == [] && q + [] == q && t + [] == t && h + [] == h;
    case Throw => assert Appends(r) == [] && q + [] == q && t + [] == t && h + [] == h;
  }

  /** The interpreter computes what the machine does, one construct at a time. */
  lemma {:induction false} InterpretIsMachine(q: seq<Script>, t: seq<int>, h: seq<Script>)
    ensures RunMachine(Machine(None, q, t, h)) == Machine(None, [], t + Interpret(q).trace, h + Interpret(q).parked)
    decreases Sizes(q)
  {
    if q != [] {
      var r := RunSlice(q[0]);
      var rest := q[1..] + Appends(r);
      InterpretStep(q);
      SliceIsSteps(q[0], q[1..], t, h);
      InterpretIsMachine(rest, t + r.effects, h + Leaves(r));
      Regroup(t, r.effects, Interpret(rest).trace);
      Regroup(h, Leaves(r), Interpret(rest).parked);
    }
  }

  // ---------- before and behind a yield ----------

  /** A construct after which the script goes on at once. */
  datatype Plain =
    | Doing(effect: int)
    | Spawning(child: Script, asFiber: bool, thread: Option<nat>)
    | Switching(thread: Option<nat>)

  function Then(p: seq<Plain>, s: Script): Script {
    if p == [] then s else
    match p[0]
    case Doing(e) => Do(e, Then(p[1..], s))
    case Spawning(c, f, t) => Spawn(c, f, t, Then(p[1..], s))
    case Switching(t) => SwitchTo(t, Then(p[1..], s))
  }

  function EffectsOf(p: seq<Plain>): seq<int> {
    if p == [] then [] else (if p[0].Doing? then [p[0].effect] else []) + EffectsOf(p[1..])
  }

  function SpawnsOf(p: seq<Plain>): seq<Script> {
    if p == [] then [] else (if p[0].Spawning? then [p[0].child] else []) + SpawnsOf(p[1..])
  }

  lemma {:induction false} PrefixSlice(p: seq<Plain>, s: Script)
    ensures
      var r := RunSlice(s);
      RunSlice(Then(p, s)) == Slice(EffectsOf(p) + r.effects, SpawnsOf(p) + r.spawned, r.stop)
  {
    if p != [] {
      PrefixSlice(p[1..], s);
    }
  }

  /** Every script is a run of such constructs before an end or a yield. */
  lemma {:induction false} Splits(s: Script) returns (p: seq<Plain>, last: Script)
    ensures s == Then(p, last) && !last.Do? && !last.Spawn? && !last.SwitchTo?
  {
    match s
    case Do(e, rest) =>
      var p1;
      p1, last := Splits(rest);
      p := [Doing(e)] + p1;
      assert p[1..] == p1;
    case Spawn(c, f, t, rest) =>
      var p1;
      p1, last := Splits(rest);
      p := [Spawning(c, f, t)] + p1;
      assert p[1..] == p1;
    case SwitchTo(t, rest) =>
      var p1;
      p1, last := Splits(rest);
      p := [Switching(t)] + p1;
      assert p[1..] == p1;
    case _ => p, last := [], s;
  }

  /** A slice does exactly what stands before the first end or yield, and ends as that says:
      READY and a requeue keep the rest to be run, a hold parks exactly the rest. */
  lemma SliceUpTo(p: seq<Plain>, rest: Script)
    ensures RunSlice(Then(p, End)) == Slice(EffectsOf(p), SpawnsOf(p), Ends)
    ensures RunSlice(Then(p, Throw)) == Slice(EffectsOf(p), SpawnsOf(p), Throws)
    ensures RunSlice(Then(p, YieldReady(rest))) == Slice(EffectsOf(p), SpawnsOf(p), Ready(rest))
    ensures RunSlice(Then(p, YieldHold(rest))) == Slice(EffectsOf(p), SpawnsOf(p), Parks(rest))
    ensures RunSlice(Then(p, Requeue(rest))) == Slice(EffectsOf(p), SpawnsOf(p), Requeues(rest))
  {
    PrefixSlice(p, End);
    PrefixSlice(p, Throw);
    PrefixSlice(p, YieldReady(rest));
    PrefixSlice(p, YieldHold(rest));
    PrefixSlice(p, Requeue(rest));
  }

  /** A hold parks what stands behind it and performs none of it. */
  lemma HoldInQueue(p: seq<Plain>, rest: Script, q: seq<Script>)
    ensures
      var o := Interpret(q + SpawnsOf(p));
      Interpret([Then(p, YieldHold(rest))] + q) == Outcome(EffectsOf(p) + o.trace, [rest] + o.parked)
  {
    SliceUpTo(p, rest);
    HeadStep(Then(p, YieldHold(rest)), q);
    assert SpawnsOf(p) + [] == SpawnsOf(p);
  }

  /** A yield to READY puts the rest behind the queue and the tasks just spawned. */
  lemma ReadyInQueue(p: seq<Plain>, rest: Script, q: seq<Script>, requeue: bool)
    ensures
      var o := Interpret(q + SpawnsOf(p) + [rest]);
      Interpret([Then(p, if requeue then Requeue(rest) else YieldReady(rest))] + q)
        == Outcome(EffectsOf(p) + o.trace, o.parked)
  {
    SliceUpTo(p, rest);
    HeadStep(Then(p, if requeue then Requeue(rest) else YieldReady(rest)), q);
    Regroup(q, SpawnsOf(p), [rest]);
  }

  lemma HeadStep(s: Script, q: seq<Script>)
    ensures
      var r := RunSlice(s);
      var o := Interpret(q + Appends(r));
      Interpret([s] + q) == Outcome(r.effects + o.trace, Leaves(r) + o.parked)
  {
    assert ([s] + q)[1..] == q && ([s] + q)[0] == s;
    InterpretStep([s] + q);
  }

  // ---------- exactly the holds reached ----------

  /** What stands behind the holds that the machine reaches, in the order it reaches them. */
  function HoldsReached(m: Machine): seq<Script>
    decreases Left(m), if m.current.None? then 1 else 0
  {
    if Halted(m) then [] else
      StepShrinks(m);
      (if m.current.Some? && m.current.value.YieldHold? then [m.current.value.rest] else []) + HoldsReached(StepOnce(m))
  }

  lemma {:induction false} ParkedAreHolds(m: Machine)
    ensures RunMachine(m).parked == m.parked + HoldsReached(m)
    decreases Left(m), if m.current.None? then 1 else 0
  {
    if !Halted(m) {
      StepShrinks(m);
      ParkedAreHolds(StepOnce(m));
      if m.current.Some? && m.current.value.YieldHold? {
        Regroup(m.parked, [m.current.value.rest], HoldsReached(StepOnce(m)));
      }
    }
  }

  /** The scripts that a run leaves parked are exactly those behind the holds it reaches. */
  lemma ParkedBehindHolds(q: seq<Script>)
    ensures Interpret(q).parked == HoldsReached(Machine(None, q, [], []))
  {
    ghost var m := Machine(None, q, [], []);
    ghost var final := RunMachine(m).parked;
    assert final == Interpret(q).parked by {
      InterpretIsMachine(q, [], []);
    }
    assert final == HoldsReached(m) by {
      ParkedAreHolds(m);
    }
  }
}
