/** What the event table keeps over every sequence of operations: the slots agree with
    the bits, the kernel's interest with the contexts, the pending counter with the
    number of armed events, and no waiter is lost, invented or woken twice. */
module EventLaws {
  import opened Basics
  import opened EventTable

  // ---------- the invariant ----------

  predicate SlotArmed(x: Slot) {
    x.scheduler.Some? && (x.fiber.Some? <==> x.cb.None?)
  }

  predicate SlotOk(bit: bool, x: Slot) {
    if bit then SlotArmed(x) else x == EMPTY_SLOT
  }

  /** A bit is set exactly when its slot is armed, and clear exactly when it is empty. */
  predicate CtxOk(c: FdCtx) {
    SlotOk(c.events.read, c.read) && SlotOk(c.events.write, c.write)
  }

  predicate TableOk(t: seq<FdCtx>) {
    forall i | 0 <= i < |t| :: CtxOk(t[i])
  }

  function Count(evs: Events): nat {
    (if evs.read then 1 else 0) + (if evs.write then 1 else 0)
  }

  /** The number of armed events in the whole table. */
  function ArmedBits(t: seq<FdCtx>): nat {
    if t == [] then 0 else Count(t[0].events) + ArmedBits(t[1..])
  }

  /** The kernel's interest in a descriptor is its context's event set, absent when that
      is empty; the tickle pipe is registered for reading and never in the table. */
  predicate KernelAgrees(s: Io) {
    && s.tickleFd in s.kernel && s.kernel[s.tickleFd] == Only(READ)
    && (s.tickleFd < |s.table| ==> s.table[s.tickleFd].events == NONE)
    && (forall fd | fd in s.kernel && fd != s.tickleFd ::
          fd < |s.table| && s.kernel[fd] == s.table[fd].events && s.table[fd].events != NONE)
    && (forall fd | 0 <= fd < |s.table| && fd !in s.kernel :: s.table[fd].events == NONE)
  }

  predicate Inv(s: Io) {
    && |s.table| >= MIN_FDS
    && TableOk(s.table)
    && KernelAgrees(s)
    && s.pending == ArmedBits(s.table)
  }

  // ---------- waiters ----------

  /** The queue entry that waking an armed slot makes. */
  function WakeOf(x: Slot): Wake
    requires SlotArmed(x)
  {
    Wake(x.scheduler.value, if x.cb.Some? then CallbackWaiter(x.cb.value) else FiberWaiter(x.fiber.value))
  }

  /** The queue entries for the events `evs` of a context, READ first. */
  function WakesOf(c: FdCtx, evs: Events): (r: seq<Wake>)
    requires CtxOk(c) && evs.Within(c.events)
    ensures |r| == Count(evs)
  {
    (if evs.read then [WakeOf(c.read)] else []) + (if evs.write then [WakeOf(c.write)] else [])
  }

  /** The context with the events `evs` disarmed. */
  function DisarmCtx(c: FdCtx, evs: Events): FdCtx {
    FdCtx(c.events.Minus(evs), if evs.read then EMPTY_SLOT else c.read, if evs.write then EMPTY_SLOT else c.write)
  }

  /** How many slots of a context hold the waiter x. */
  function Holds(c: FdCtx, x: Wake): nat
    requires CtxOk(c)
  {
    (if c.events.read && WakeOf(c.read) == x then 1 else 0) + (if c.events.write && WakeOf(c.write) == x then 1 else 0)
  }

  /** How many slots of the table hold the waiter x. */
  function Waiting(t: seq<FdCtx>, x: Wake): nat
    requires TableOk(t)
  {
    if t == [] then 0 else Holds(t[0], x) + Waiting(t[1..], x)
  }

  /** How often x occurs in a list of queue entries. */
  function Occurs(wakes: seq<Wake>, x: Wake): nat {
    if wakes == [] then 0 else (if wakes[0] == x then 1 else 0) + Occurs(wakes[1..], x)
  }

  lemma {:induction false} BitsUpdate(t: seq<FdCtx>, i: nat, c: FdCtx)
    requires i < |t|
    ensures ArmedBits(t[i := c]) == ArmedBits(t) - Count(t[i].events) + Count(c.events)
  {
    if i == 0 {
      assert t[i := c][1..] == t[1..];
    } else {
      assert t[i := c][1..] == t[1..][i - 1 := c];
      BitsUpdate(t[1..], i - 1, c);
    }
  }

  lemma {:induction false} WaitingUpdate(t: seq<FdCtx>, i: nat, c: FdCtx, x: Wake)
    requires i < |t| && TableOk(t) && CtxOk(c)
    ensures TableOk(t[i := c])
    ensures Waiting(t[i := c], x) == Waiting(t, x) - Holds(t[i], x) + Holds(c, x)
  {
    if i == 0 {
      assert t[i := c][1..] == t[1..];
    } else {
      assert t[i := c][1..] == t[1..][i - 1 := c];
      WaitingUpdate(t[1..], i - 1, c, x);
    }
  }

  lemma {:induction false} BlankTail(t: seq<FdCtx>, u: seq<FdCtx>)
    requires |t| <= |u|
    requires forall i | 0 <= i < |u| :: u[i] == if i < |t| then t[i] else BLANK_CTX
    ensures ArmedBits(u) == ArmedBits(t)
    ensures TableOk(t) ==> TableOk(u) && forall x :: Waiting(u, x) == Waiting(t, x)
    decreases |u|
  {
    if t != [] {
      BlankTail(t[1..], u[1..]);
    } else if u != [] {
      BlankTail(t, u[1..]);
    }
  }

  lemma {:induction false} OccursConcat(a: seq<Wake>, b: seq<Wake>, x: Wake)
    ensures Occurs(a + b, x) == Occurs(a, x) + Occurs(b, x)
  {
    if a == [] {
      assert a + b == b;
    } else {
      assert (a + b)[1..] == a[1..] + b;
      OccursConcat(a[1..], b, x);
    }
  }

  lemma {:induction false} NoBitsNoEvents(t: seq<FdCtx>)
    ensures ArmedBits(t) == 0 <==> forall i | 0 <= i < |t| :: t[i].events == NONE
  {
    if t != [] {
      NoBitsNoEvents(t[1..]);
      assert forall i | 1 <= i < |t| :: t[i] == t[1..][i - 1];
    }
  }

  // ---------- disarming ----------

  /** One trigger either disarms an armed event and wakes its waiter, or goes through an
      empty slot. */
  lemma TriggerAtExact(s: Io, fd: nat, ev: Event)
    requires fd < |s.table| && CtxOk(s.table[fd])
    ensures TriggerAt(s, fd, ev).Some? <==> s.table[fd].events.Has(ev)
    ensures s.table[fd].events.Has(ev) ==>
      TriggerAt(s, fd, ev).value ==
        s.(table := s.table[fd := DisarmCtx(s.table[fd], Only(ev))],
           wakes := s.wakes + WakesOf(s.table[fd], Only(ev)),
           pending := s.pending - 1)
    ensures CtxOk(DisarmCtx(s.table[fd], Only(ev)))
  {
  }

  /** Triggering a set of events: it succeeds exactly when all of them are armed. */
  lemma TriggerSetExact(s: Io, fd: nat, evs: Events)
    requires fd < |s.table| && CtxOk(s.table[fd])
    ensures TriggerSet(s, fd, evs).Some? <==> evs.Within(s.table[fd].events)
    ensures CtxOk(DisarmCtx(s.table[fd], evs))
    ensures evs.Within(s.table[fd].events) ==>
      TriggerSet(s, fd, evs).value ==
        s.(table := s.table[fd := DisarmCtx(s.table[fd], evs)],
           wakes := s.wakes + WakesOf(s.table[fd], evs),
           pending := s.pending - Count(evs))
  {
    var c := s.table[fd];
    TriggerAtExact(s, fd, READ);
    TriggerAtExact(s, fd, WRITE);
    if evs.read && c.events.read {
      TriggerAtExact(TriggerAt(s, fd, READ).value, fd, WRITE);
      if evs.write && c.events.write {
        var d := DisarmCtx(c, Only(READ));
        assert DisarmCtx(d, Only(WRITE)) == DisarmCtx(c, evs);
        assert s.table[fd := d][fd := DisarmCtx(c, evs)] == s.table[fd := DisarmCtx(c, evs)];
        assert (s.wakes + WakesOf(c, Only(READ))) + WakesOf(d, Only(WRITE)) == s.wakes + WakesOf(c, evs);
      }
    }
  }

  /** The state after the events `evs` of a descriptor are disarmed and woken, with the
      kernel's interest reduced to what is left. */
  function Disarmed(s: Io, fd: nat, evs: Events): Io
    requires fd < |s.table| && CtxOk(s.table[fd]) && evs.Within(s.table[fd].events)
  {
    var c := s.table[fd];
    s.(table := s.table[fd := DisarmCtx(c, evs)],
       kernel := CtlEffect(s.kernel, ShrinkOp(c.events.Minus(evs)), fd, c.events.Minus(evs)),
       wakes := s.wakes + WakesOf(c, evs),
       pending := s.pending - Count(evs))
  }

  lemma DisarmedInv(s: Io, fd: nat, evs: Events)
    requires Inv(s) && fd < |s.table| && evs.Within(s.table[fd].events) && evs != NONE
    ensures Inv(Disarmed(s, fd, evs))
  {
    BitsUpdate(s.table, fd, DisarmCtx(s.table[fd], evs));
  }

  /** Every shrinking call the operations make is legal. */
  lemma ShrinkLegal(s: Io, fd: nat, left: Events)
    requires Inv(s) && fd < |s.table| && s.table[fd].events != NONE
    ensures CtlLegal(s.kernel, ShrinkOp(left), fd) && fd != s.tickleFd
  {
  }

  // ---------- one operation at a time ----------

  /** The state after a waiter is put into an empty slot, and the kernel told. */
  function Armed(s: Io, fd: nat, ev: Event, x: Slot): Io
    requires fd < |s.table|
  {
    var c := s.table[fd];
    s.(table := s.table[fd := SetContext(c.(events := c.events.Plus(Only(ev))), ev, x)],
       kernel := s.kernel[fd := c.events.Plus(Only(ev))],
       pending := s.pending + 1)
  }

  /** The slot addEvent fills: the callback if there is one, else the calling fiber. */
  function NewSlot(cb: Option<nat>, who: Caller): (x: Slot)
    ensures SlotArmed(x) <==> who.sched.Some?
    ensures who.sched.Some? ==>
      WakeOf(x) == Wake(who.sched.value, if cb.Some? then CallbackWaiter(cb.value) else FiberWaiter(who.fiber))
  {
    Slot(who.sched, if cb.Some? then None else Some(who.fiber), cb)
  }

  lemma GrowInv(s: Io, fd: nat)
    requires Inv(s)
    ensures fd < |Grow(s.table, fd)| && |Grow(s.table, fd)| >= |s.table|
    ensures Grow(s.table, fd)[fd] == if fd < |s.table| then s.table[fd] else BLANK_CTX
    ensures Inv(s.(table := Grow(s.table, fd)))
    ensures forall x :: Waiting(Grow(s.table, fd), x) == Waiting(s.table, x)
  {
    BlankTail(s.table, Grow(s.table, fd));
  }

  lemma ArmedInv(s: Io, fd: nat, ev: Event, x: Slot)
    requires Inv(s) && fd < |s.table| && !IsArmed(s, fd, ev) && SlotArmed(x) && fd != s.tickleFd
    ensures Inv(Armed(s, fd, ev, x))
  {
    var c := s.table[fd];
    BitsUpdate(s.table, fd, SetContext(c.(events := c.events.Plus(Only(ev))), ev, x));
  }

  /** addEvent's choice of ADD or MOD is legal except on the tickle pipe. */
  lemma GrowLegal(s: Io, fd: nat)
    requires Inv(s) && fd < |s.table|
    ensures CtlLegal(s.kernel, if s.table[fd].events != NONE then CtlMod else CtlAdd, fd) <==> fd != s.tickleFd
  {
  }

  /** addEvent aborts exactly on an armed event, and when a fiber that is not in EXEC would
      be armed: its choice of ADD or MOD is legal except on the tickle pipe, and the
      assertion that the slot is empty cannot fail. Otherwise the table has grown to hold
      the descriptor and, if the kernel accepts, the event is armed with the given waiter. */
  lemma AddExact(s: Io, fd: nat, ev: Event, cb: Option<nat>, who: Caller, ok: bool)
    requires Inv(s)
    ensures AddEvent(s, fd, ev, cb, who, ok).None? <==>
      IsArmed(s, fd, ev) || (ok && fd != s.tickleFd && cb.None? && !who.exec)
    ensures fd < |Grow(s.table, fd)|
    ensures AddEvent(s, fd, ev, cb, who, ok).Some? ==>
      var g := s.(table := Grow(s.table, fd));
      AddEvent(s, fd, ev, cb, who, ok) ==
        Some(if ok && fd != s.tickleFd then (Armed(g, fd, ev, NewSlot(cb, who)), true) else (g, false))
  {
    GrowInv(s, fd);
  }

  /** A successful addEvent keeps the invariant exactly when the calling thread has a
      scheduler. When it has none, the slot is armed without one, and cancelling the event
      goes through a null pointer. */
  lemma CallerNeedsScheduler(s: Io, fd: nat, ev: Event, cb: Option<nat>, who: Caller)
    requires Inv(s) && AddEvent(s, fd, ev, cb, who, true).Some? && fd != s.tickleFd
    ensures
      var t := AddEvent(s, fd, ev, cb, who, true).value.0;
      && (Inv(t) <==> who.sched.Some?)
      && (CancelEvent(t, fd, ev, true).None? <==> who.sched.None?)
  {
    AddExact(s, fd, ev, cb, who, true);
    GrowInv(s, fd);
    var g := s.(table := Grow(s.table, fd));
    var t := Armed(g, fd, ev, NewSlot(cb, who));
    if who.sched.Some? {
      ArmedInv(g, fd, ev, NewSlot(cb, who));
      CancelExact(t, fd, ev, true);
    } else {
      assert !CtxOk(t.table[fd]);
    }
  }

  lemma DelExact(s: Io, fd: nat, ev: Event, ok: bool)
    requires Inv(s)
    ensures DelEvent(s, fd, ev, ok).1 == (ok && IsArmed(s, fd, ev))
    ensures DelEvent(s, fd, ev, ok).1 ==> DelEvent(s, fd, ev, ok).0 == Disarmed(s, fd, Only(ev)).(wakes := s.wakes)
    ensures !DelEvent(s, fd, ev, ok).1 ==> DelEvent(s, fd, ev, ok).0 == s
    ensures Inv(DelEvent(s, fd, ev, ok).0)
  {
    if IsArmed(s, fd, ev) {
      ShrinkLegal(s, fd, s.table[fd].events.Minus(Only(ev)));
      DisarmedInv(s, fd, Only(ev));
    }
  }

  lemma CancelExact(s: Io, fd: nat, ev: Event, ok: bool)
    requires Inv(s)
    ensures CancelEvent(s, fd, ev, ok) ==
      Some(if ok && IsArmed(s, fd, ev) then (Disarmed(s, fd, Only(ev)), true) else (s, false))
    ensures Inv(CancelEvent(s, fd, ev, ok).value.0)
  {
    if IsArmed(s, fd, ev) {
      var left := s.table[fd].events.Minus(Only(ev));
      ShrinkLegal(s, fd, left);
      DisarmedInv(s, fd, Only(ev));
      TriggerAtExact(s.(kernel := CtlEffect(s.kernel, ShrinkOp(left), fd, left)), fd, ev);
    }
  }

  lemma CancelAllExact(s: Io, fd: nat, ok: bool)
    requires Inv(s)
    ensures CancelAll(s, fd, ok) ==
      Some(if ok && fd < |s.table| && s.table[fd].events != NONE
           then (Disarmed(s, fd, s.table[fd].events), true) else (s, false))
    ensures Inv(CancelAll(s, fd, ok).value.0)
  {
    if fd < |s.table| && s.table[fd].events != NONE {
      ShrinkLegal(s, fd, NONE);
      DisarmedInv(s, fd, s.table[fd].events);
      TriggerSetExact(s.(kernel := CtlEffect(s.kernel, CtlDel, fd, NONE)), fd, s.table[fd].events);
    }
  }

  /** One dispatched record: it goes through an empty slot exactly when the kernel accepts
      the call and the record reports an armed event together with one that is not armed;
      otherwise it disarms and wakes exactly the reported events. */
  lemma DispatchOneExact(s: Io, r: Report, ok: bool)
    requires Inv(s) && r.fd < |s.table| && r.fd != s.tickleFd
    ensures
      var c := s.table[r.fd];
      var hit := RealEvents(c, r);
      && (DispatchOne(s, r, ok).None? <==> ok && c.events.Meet(hit) != NONE && !hit.Within(c.events))
      && (hit.Within(c.events) ==>
            DispatchOne(s, r, ok) == Some(if ok && hit != NONE then Disarmed(s, r.fd, hit) else s)
            && Inv(DispatchOne(s, r, ok).value))
  {
    var c := s.table[r.fd];
    var hit := RealEvents(c, r);
    if c.events.Meet(hit) != NONE {
      var left := c.events.Minus(hit);
      ShrinkLegal(s, r.fd, left);
      TriggerSetExact(s.(kernel := CtlEffect(s.kernel, ShrinkOp(left), r.fd, left)), r.fd, hit);
      if hit.Within(c.events) {
        DisarmedInv(s, r.fd, hit);
      }
    }
  }
}
