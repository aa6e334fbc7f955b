/** The ordered timer set: timers are objects whose ordering key, the deadline, changes in
    place, so they leave the set before it changes and come back after. */
module Timers {
  import opened Basics

  /** Unsigned 64-bit arithmetic. */
  const W := 0x1_0000_0000_0000_0000

  function Add64(a: nat, b: nat): (r: nat)
    requires a < W && b < W
    ensures r < W && r == (a + b) % W
  {
    if a + b < W then a + b else a + b - W
  }

  function Sub64(a: nat, b: nat): (r: nat)
    requires a < W && b < W
    ensures r < W && r == (a - b) % W
  {
    if a >= b then a - b else a - b + W
  }

  /** The start time can be recovered from a deadline, wrapped or not; the deadline wrapped
      exactly when it is below the period. */
  lemma StartRecovered(start: nat, ms: nat)
    requires start < W && ms < W
    ensures Sub64(Add64(start, ms), ms) == start
    ensures start + ms < W <==> Add64(start, ms) >= ms
  {
  }

  // ---------- the comparator ----------

  /** What the comparator looks at: a deadline and an address. */
  datatype Key = Key(next: nat, addr: nat)

  predicate Less(a: Key, b: Key) {
    if a.next < b.next then true
    else if b.next < a.next then false
    else a.addr < b.addr
  }

  /** The comparator on shared pointers, branch by branch: None where the program follows a
      null pointer. Both null tests in the middle are on the right-hand side. */
  function Compare(lhs: Option<Key>, rhs: Option<Key>): Option<bool> {
    if lhs.None? && rhs.None? then Some(false)
    else if rhs.None? then Some(false)
    else if lhs.None? then None
    else Some(Less(lhs.value, rhs.value))
  }

  /** On timers the comparator is a strict total order; with pointers it goes wrong exactly
      on a null left-hand side against a timer. */
  lemma ComparatorOrder(a: Key, b: Key, c: Key, l: Option<Key>, r: Option<Key>)
    ensures Less(a, b) <==> a.next < b.next || (a.next == b.next && a.addr < b.addr)
    ensures !Less(a, a)
    ensures Less(a, b) ==> !Less(b, a)
    ensures Less(a, b) && Less(b, c) ==> Less(a, c)
    ensures a != b ==> Less(a, b) || Less(b, a)
    ensures Compare(l, r) == None <==> l.None? && r.Some?
    ensures r.None? ==> Compare(l, r) == Some(false)
    ensures Compare(Some(a), Some(b)) == Some(Less(a, b))
  {
  }

  // ---------- the set ----------

  /** Timer. */
  class Timer {
    const addr: nat
    const recurring: bool
    const manager: TimerManager
    var ms: nat
    var next: nat
    var cb: Option<nat>

    constructor (addr: nat, ms: nat, cb: Option<nat>, recurring: bool, manager: TimerManager, now: nat)
      requires ms < W && now < W
      ensures this.addr == addr && this.recurring == recurring && this.manager == manager && this.cb == cb
      ensures View() == Setting(ms, Add64(now, ms), cb.Some?)
    {
      this.addr, this.recurring, this.manager := addr, recurring, manager;
      this.ms, this.cb := ms, cb;
      next := Add64(now, ms);
    }

    function GetKey(): Key
      reads this`next
    {
      Key(next, addr)
    }

    ghost function View(): Setting
      reads this
    {
      Setting(ms, next, cb.Some?)
    }

    /** cancel. The callback goes first and the result of find is not tested; the timer is
        found nevertheless. */
    method Cancel() returns (done: bool)
      requires manager.Valid() && this in manager.known
      modifies this`cb, manager`timers
      ensures manager.Valid() && manager.known == old(manager.known)
      ensures done <==> old(cb).Some?
      ensures View() == Changed(old(View()), Cancelled) && cb == None && ms == old(ms) && next == old(next)
      ensures done ==> forall t :: t in manager.timers <==> t in old(manager.timers) && t != this
      ensures !done ==> manager.timers == old(manager.timers)
    {
      if cb.Some? {
        cb := None;
        var it := manager.Find(this);
        assert it < |manager.timers|;
        manager.Erase(it);
        return true;
      }
      return false;
    }

    /** The timer is found and taken out of the set. The test for a failed find cannot
        succeed for a timer with a callback. */
    method TakeOut()
      requires manager.Valid() && this in manager.known && cb.Some?
      modifies manager`timers
      ensures manager.KnownOk() && manager.known == old(manager.known) && Sorted(manager.timers)
      ensures forall t :: t in manager.timers <==> t in old(manager.timers) && t != this
    {
      var it := manager.Find(this);
      if it == |manager.timers| {
        assert false;
      }
      manager.Erase(it);
    }

    /** What refresh and reset share: the timer leaves the set, gets its new deadline, and
        comes back. */
    method Move(start: nat, ms: nat)
      requires manager.Valid() && this in manager.known && cb.Some? && ms < W && start < W
      modifies this`ms, this`next, manager`timers
      ensures manager.Valid() && manager.known == old(manager.known)
      ensures View() == Setting(ms, Add64(start, ms), true)
      ensures forall t :: t in manager.timers <==> t in old(manager.timers)
    {
      TakeOut();
      assert forall t | t in manager.timers :: t in manager.known && t != this;
      this.ms, next := ms, Add64(start, ms);
      PutBack();
    }

    /** The timer comes back into the set, where its new deadline belongs. */
    method PutBack()
      requires manager.KnownOk() && Sorted(manager.timers)
      requires this in manager.known && cb.Some? && this !in manager.timers
      requires forall t | t in manager.known && t != this :: t in manager.timers <==> t.cb.Some? || t in manager.silent
      modifies manager`timers
      ensures manager.Valid()
      ensures forall t :: t in manager.timers <==> t in old(manager.timers) || t == this
    {
      manager.Insert(this);
    }

    /** refresh: the deadline counts from now. */
    method Refresh(now: nat) returns (done: bool)
      requires manager.Valid() && this in manager.known && now < W
      modifies this`ms, this`next, manager`timers
      ensures manager.Valid() && manager.known == old(manager.known)
      ensures done <==> cb.Some?
      ensures View() == Changed(old(View()), Refreshed(now))
      ensures ms == old(ms) && next == if cb.Some? then Add64(now, old(ms)) else old(next)
      ensures forall t :: t in manager.timers <==> t in old(manager.timers)
    {
      if cb.None? {
        return false;
      }
      Move(now, ms);
      return true;
    }

    /** The part of reset behind its first test. */
    method Rearm(ms: nat, fromNow: bool, now: nat) returns (done: bool)
      requires manager.Valid() && this in manager.known && ms < W && now < W
      modifies this`ms, this`next, manager`timers
      ensures manager.Valid() && manager.known == old(manager.known)
      ensures (View(), done) == RearmSpec(old(View()), ms, fromNow, now)
      ensures done <==> cb.Some?
      ensures !done ==> this.ms == old(this.ms) && next == old(next)
      ensures done ==> this.ms == ms && next == Add64(if fromNow then now else Sub64(old(next), old(this.ms)), ms)
      ensures forall t :: t in manager.timers <==> t in old(manager.timers)
    {
      if cb.None? {
        return false;
      }
      Move(if fromNow then now else Sub64(next, this.ms), ms);
      return true;
    }

    /** reset, with the comparison that its first test is meant to make. */
    method Reset(ms: nat, fromNow: bool, now: nat) returns (done: bool)
      requires manager.Valid() && this in manager.known && ms < W && now < W
      modifies this`ms, this`next, manager`timers
      ensures manager.Valid() && manager.known == old(manager.known)
      ensures (View(), done) == ResetSpec(old(View()), ms, fromNow, now)
      ensures done <==> cb.Some? || (ms == old(this.ms) && !fromNow)
      ensures cb.None? || (ms == old(this.ms) && !fromNow) ==> this.ms == old(this.ms) && next == old(next)
      ensures cb.Some? && fromNow ==> this.ms == ms && next == Add64(now, ms)
      ensures cb.Some? && !fromNow ==> this.ms == ms && next == Add64(Sub64(old(next), old(this.ms)), ms)
      ensures forall t :: t in manager.timers <==> t in old(manager.timers)
    {
      if ms == this.ms && !fromNow {
        return true;
      }
      done := Rearm(ms, fromNow, now);
    }

    /** reset as it is written: the first test assigns the truth value of
        `m_ms && !from_now` to the parameter before it tests it. */
    method ResetAsWritten(ms: nat, fromNow: bool, now: nat) returns (done: bool)
      requires manager.Valid() && this in manager.known && ms < W && now < W
      modifies this`ms, this`next, manager`timers
      ensures manager.Valid() && manager.known == old(manager.known)
      ensures (View(), done) == ResetAsWrittenSpec(old(View()), ms, fromNow, now)
      ensures done <==> cb.Some? || (old(this.ms) != 0 && !fromNow)
      ensures cb.None? || !fromNow ==> this.ms == old(this.ms) && next == old(next)
      ensures cb.Some? && fromNow ==> this.ms == 0 && next == now
      ensures forall t :: t in manager.timers <==> t in old(manager.timers)
    {
      var newMs := if this.ms != 0 && !fromNow then 1 else 0;
      if newMs != 0 {
        return true;
      }
      done := Rearm(newMs, fromNow, now);
    }
  }

  // ---------- reset on values ----------

  /** A timer's period and deadline, and whether it has a callback. */
  datatype Setting = Setting(ms: nat, next: nat, live: bool)

  predicate InRange(s: Setting) {
    s.ms < W && s.next < W
  }

  /** The start time as reset computes it. */
  function StartOf(s: Setting): nat
    requires InRange(s)
  {
    Sub64(s.next, s.ms)
  }

  function RearmSpec(s: Setting, ms: nat, fromNow: bool, now: nat): (Setting, bool)
    requires InRange(s) && ms < W && now < W
  {
    if !s.live then (s, false) else (Setting(ms, Add64(if fromNow then now else StartOf(s), ms), true), true)
  }

  function ResetSpec(s: Setting, ms: nat, fromNow: bool, now: nat): (Setting, bool)
    requires InRange(s) && ms < W && now < W
  {
    if ms == s.ms && !fromNow then (s, true) else RearmSpec(s, ms, fromNow, now)
  }

  function ResetAsWrittenSpec(s: Setting, ms: nat, fromNow: bool, now: nat): (Setting, bool)
    requires InRange(s) && ms < W && now < W
  {
    var newMs := if s.ms != 0 && !fromNow then 1 else 0;
    if newMs != 0 then (s, true) else RearmSpec(s, newMs, fromNow, now)
  }

  /** The assignment in place of a comparison does what is meant exactly in these cases:
      the period stays and the start stays; or the timer has no callback and the test was
      going to fail anyway; or the new period happens to be zero. */
  lemma ResetTypoHarmless(s: Setting, ms: nat, fromNow: bool, now: nat)
    requires InRange(s) && ms < W && now < W
    ensures ResetAsWrittenSpec(s, ms, fromNow, now) == ResetSpec(s, ms, fromNow, now) <==>
      if !fromNow && s.ms != 0 then ms == s.ms
      else if !s.live then fromNow || ms != 0
      else ms == 0
  {
  }

  /** For a live timer, a call that asks for another period and keeps the start is ignored. */
  lemma ResetTypoIgnoresPeriod(s: Setting, ms: nat, now: nat)
    requires InRange(s) && ms < W && now < W && s.live && s.ms != 0 && ms != s.ms
    ensures ResetAsWrittenSpec(s, ms, false, now) == (s, true)
    ensures ResetSpec(s, ms, false, now) == (Setting(ms, Add64(StartOf(s), ms), true), true)
  {
  }

  /** An operation on one timer; reset as it is meant, or as written. */
  datatype Change =
    | Cancelled
    | Refreshed(now: nat)
    | ResetTo(ms: nat, fromNow: bool, now: nat)
    | ResetWritten(ms: nat, fromNow: bool, now: nat)

  /** The arguments and the clock readings are 64-bit values. */
  predicate Sound(c: Change) {
    match c
    case Cancelled => true
    case Refreshed(now) => now < W
    case ResetTo(ms, _, now) => ms < W && now < W
    case ResetWritten(ms, _, now) => ms < W && now < W
  }

  function Changed(s: Setting, c: Change): (t: Setting)
    requires InRange(s) && Sound(c)
    ensures InRange(t)
  {
    match c
    case Cancelled => s.(live := false)
    case Refreshed(now) => if s.live then s.(next := Add64(now, s.ms)) else s
    case ResetTo(ms, fromNow, now) => ResetSpec(s, ms, fromNow, now).0
    case ResetWritten(ms, fromNow, now) => ResetAsWrittenSpec(s, ms, fromNow, now).0
  }

  /** What each change leaves: nothing happens to a timer without callback; cancel touches
      the callback only; refresh keeps the period and counts it from now; reset, as meant,
      gives the new period from now or from the old start, and, as written, the period 0
      from now or nothing. */
  lemma ChangedFields(s: Setting, c: Change)
    requires InRange(s) && Sound(c)
    ensures !s.live ==> Changed(s, c) == s
    ensures c.Cancelled? ==> Changed(s, c) == Setting(s.ms, s.next, false)
    ensures s.live && c.Refreshed? ==> Changed(s, c) == Setting(s.ms, (c.now + s.ms) % W, true)
    ensures s.live && c.ResetTo? ==>
      Changed(s, c) == Setting(c.ms, (if c.fromNow then c.now + c.ms else s.next - s.ms + c.ms) % W, true)
    ensures s.live && c.ResetWritten? ==>
      Changed(s, c) == if c.fromNow then Setting(0, c.now, true) else s
  {
  }

  function ChangedBy(s: Setting, cs: seq<Change>): (t: Setting)
    requires InRange(s) && forall c | c in cs :: Sound(c)
    ensures InRange(t)
    decreases |cs|
  {
    if cs == [] then s else ChangedBy(Changed(s, cs[0]), cs[1..])
  }

  /** The clock reading of the last change that counts from now, before the timer is
      cancelled; `first` if there is none. */
  function LastReading(cs: seq<Change>, first: nat): nat {
    if cs == [] || cs[0].Cancelled? then first else
      LastReading(cs[1..], if cs[0].Refreshed? || cs[0].fromNow then cs[0].now else first)
  }

  lemma {:induction false} CancelledStays(s: Setting, cs: seq<Change>)
    requires InRange(s) && !s.live && forall c | c in cs :: Sound(c)
    ensures ChangedBy(s, cs) == s
    decreases |cs|
  {
    if cs != [] {
      CancelledStays(s, cs[1..]);
    }
  }

  /** One change moves the start to its clock reading if it counts from now, and otherwise
      keeps it, whatever it does to the period and the deadline. */
  lemma StartMoves(s: Setting, c: Change)
    requires InRange(s) && s.live && Sound(c) && !c.Cancelled?
    ensures Changed(s, c).live
    ensures StartOf(Changed(s, c)) == if c.Refreshed? || c.fromNow then c.now else StartOf(s)
  {
    StartRecovered(StartOf(s), s.ms);
    if !c.Refreshed? {
      StartRecovered(StartOf(s), c.ms);
      StartRecovered(c.now, c.ms);
      StartRecovered(c.now, 0);
    }
  }

  /** Over any sequence of cancels, refreshes and resets of a live timer, what reset would
      recover as the start, the deadline less the period in 64 bits, is the clock reading of
      the last add, refresh or reset from now, whatever resets that keep the start come in
      between; and that subtraction underflows exactly when the deadline has wrapped. */
  lemma {:induction false} StartIsLastReading(s: Setting, cs: seq<Change>)
    requires InRange(s) && s.live && forall c | c in cs :: Sound(c)
    ensures
      var t := ChangedBy(s, cs);
      && StartOf(t) == LastReading(cs, StartOf(s)) < W
      && (t.next >= t.ms <==> StartOf(t) + t.ms < W)
      && (t.live <==> Cancelled !in cs)
    decreases |cs|
  {
    if cs == [] {
      StartRecovered(StartOf(s), s.ms);
      assert s.next == Add64(StartOf(s), s.ms);
    } else if cs[0].Cancelled? {
      CancelledStays(Changed(s, cs[0]), cs[1..]);
      assert Cancelled in cs;
    } else {
      StartMoves(s, cs[0]);
      StartIsLastReading(Changed(s, cs[0]), cs[1..]);
    }
  }

  /** From addTimer on, at a clock reading of `now`. */
  lemma StartSinceAdded(ms: nat, now: nat, cs: seq<Change>)
    requires ms < W && now < W && forall c | c in cs :: Sound(c)
    ensures StartOf(ChangedBy(Setting(ms, Add64(now, ms), true), cs)) == LastReading(cs, now)
  {
    StartRecovered(now, ms);
    StartIsLastReading(Setting(ms, Add64(now, ms), true), cs);
  }

  ghost predicate Sorted(ts: seq<Timer>)
    reads ts
  {
    forall i, j | 0 <= i < j < |ts| :: Less(ts[i].GetKey(), ts[j].GetKey())
  }

  /** In a set in the order of the comparator the first timer has the earliest deadline, and
      deadlines never decrease. */
  lemma EarliestFirst(ts: seq<Timer>, i: nat, j: nat)
    requires Sorted(ts) && i <= j < |ts|
    ensures ts[i].next <= ts[j].next && (i < j && ts[i].next == ts[j].next ==> ts[i].addr < ts[j].addr)
  {
    assert i < j ==> Less(ts[i].GetKey(), ts[j].GetKey());
  }

  class TimerManager {
    /** The set, in the order of the comparator. */
    var timers: seq<Timer>
    /** The timers of this manager that are in use, in the set or not, and those added
        without callback. */
    ghost var known: set<Timer>
    ghost var silent: set<Timer>

    constructor ()
      ensures Valid() && timers == [] && known == {} && silent == {}
    {
      timers, known, silent := [], {}, {};
    }

    ghost predicate KnownOk()
      reads this, known
    {
      && (forall t | t in timers :: t in known)
      && silent <= known && (forall t | t in silent :: t.cb.None?)
      && (forall t | t in known :: t.manager == this && InRange(t.View()))
      && (forall t, u | t in known && u in known && t != u :: t.addr != u.addr)
    }

    /** The set is sorted, and a timer is in it exactly while it has a callback, or if it
        was added without one. */
    ghost predicate Valid()
      reads this, known
    {
      && KnownOk()
      && Sorted(timers)
      && (forall t | t in known :: t in timers <==> t.cb.Some? || t in silent)
    }

    /** The first position whose key is not below the given one, by bisection. */
    method LowerBound(key: Key) returns (p: nat)
      requires Sorted(timers)
      ensures p <= |timers|
      ensures forall i | 0 <= i < p :: Less(timers[i].GetKey(), key)
      ensures forall i | p <= i < |timers| :: !Less(timers[i].GetKey(), key)
    {
      p := 0;
      var hi := |timers|;
      while p < hi
        invariant 0 <= p <= hi <= |timers|
        invariant forall i | 0 <= i < p :: Less(timers[i].GetKey(), key)
        invariant forall i | hi <= i < |timers| :: !Less(timers[i].GetKey(), key)
      {
        var mid := (p + hi) / 2;
        if Less(timers[mid].GetKey(), key) {
          p := mid + 1;
        } else {
          hi := mid;
        }
      }
    }

    /** set::find: only the comparator is asked. It finds a timer of this manager exactly
        when the timer is a member, and then finds that very timer. */
    method Find(t: Timer) returns (p: nat)
      requires KnownOk() && Sorted(timers) && t in known
      ensures p <= |timers|
      ensures p < |timers| <==> t in timers
      ensures p < |timers| ==> timers[p] == t
    {
      var q := LowerBound(t.GetKey());
      if q < |timers| && !Less(t.GetKey(), timers[q].GetKey()) {
        assert timers[q] in timers && timers[q].addr == t.addr;
        p := q;
      } else {
        p := |timers|;
      }
    }

    /** set::erase at a position. */
    method Erase(p: nat)
      requires Sorted(timers) && p < |timers|
      modifies this`timers
      ensures timers == RemoveAt(old(timers), p) && Sorted(timers)
      ensures forall t :: t in timers <==> t in old(timers) && t != old(timers)[p]
    {
      var was := timers;
      timers := RemoveAt(timers, p);
      forall t ensures t in timers <==> t in was && t != was[p] {
        if t in timers {
          var i :| 0 <= i < |timers| && timers[i] == t;
          assert t == was[if i < p then i else i + 1];
        }
        if t in was && t != was[p] {
          var i :| 0 <= i < |was| && was[i] == t;
          assert t == timers[if i < p then i else i - 1];
        }
      }
    }

    /** set::insert of a timer that is not a member. */
    method Insert(t: Timer)
      requires Sorted(timers) && forall u | u in timers :: u.addr != t.addr
      modifies this`timers
      ensures Sorted(timers)
      ensures exists p :: 0 <= p <= |old(timers)| && timers == old(timers)[..p] + [t] + old(timers)[p..]
      ensures forall u :: u in timers <==> u in old(timers) || u == t
    {
      var p := LowerBound(t.GetKey());
      assert forall i | p <= i < |timers| :: timers[i] in timers;
      timers := timers[..p] + [t] + timers[p..];
    }

    /** A timer that is out of the set may be freed; its address may then be used again. */
    ghost method Forget(t: Timer)
      requires Valid() && t in known && t !in timers
      modifies this`known, this`silent
      ensures Valid() && known == old(known) - {t}
    {
      known, silent := known - {t}, silent - {t};
    }

    /** addTimer. The allocator gives the new timer an address that no timer in use has. A
        timer added without a callback becomes a member that cancel will not remove. */
    method AddTimer(addr: nat, ms: nat, cb: Option<nat>, recurring: bool, now: nat) returns (timer: Timer)
      requires Valid() && ms < W && now < W
      requires forall t | t in known :: t.addr != addr
      modifies this
      ensures Valid() && fresh(timer) && known == old(known) + {timer}
      ensures timer.addr == addr && timer.recurring == recurring && timer.cb == cb
      ensures timer.View() == Setting(ms, Add64(now, ms), cb.Some?)
      ensures silent == old(silent) + (if cb.None? then {timer} else {})
      ensures forall t :: t in timers <==> t in old(timers) || t == timer
    {
      timer := new Timer(addr, ms, cb, recurring, this, now);
      assert Sorted(timers) && timer !in known;
      Insert(timer);
      known := known + {timer};
      if cb.None? {
        silent := silent + {timer};
      }
    }
  }
}
