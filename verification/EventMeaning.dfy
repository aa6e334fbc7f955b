/** What the event operations do as seen from outside: who waits for which event before and
    after, and what is queued. Nothing here speaks of slots, of the order of kernel calls or
    of the masks the operations compute. */
module EventMeaning {
  import opened Basics
  import opened EventTable
  import opened EventLaws
  import opened EventRuns

  /** Who waits for an event of a descriptor. */
  function WaiterAt(s: Io, fd: nat, ev: Event): Option<Wake>
    requires Inv(s)
  {
    if fd < |s.table| && s.table[fd].events.Has(ev) then Some(WakeOf(GetContext(s.table[fd], ev))) else None
  }

  /** Both on an error or hang-up, else those whose bit is set. */
  predicate Reported(r: Report, ev: Event) {
    r.bits.Has(ev) || r.errHup
  }

  function IfTaken(x: Option<Wake>, take: bool): seq<Wake> {
    if take && x.Some? then [x.value] else []
  }

  /** The waiters of those of a descriptor's two events that are taken, READ first. */
  function TakenFrom(s: Io, fd: nat, read: bool, write: bool): seq<Wake>
    requires Inv(s)
  {
    IfTaken(WaiterAt(s, fd, READ), read) + IfTaken(WaiterAt(s, fd, WRITE), write)
  }

  // ---------- one record ----------

  /** What a record queues, read off the state before it. */
  function RecordWoken(s: Io, r: Report, ok: bool): seq<Wake>
    requires Inv(s)
  {
    TakenFrom(s, r.fd, ok && Reported(r, READ), ok && Reported(r, WRITE))
  }

  /** The kernel accepts, an armed event is reported, and so is, by its bit, one that is
      not armed. */
  predicate GoesThroughEmpty(s: Io, r: Report, ok: bool)
    requires Inv(s)
  {
    && ok
    && (exists ev: Event :: WaiterAt(s, r.fd, ev).Some? && Reported(r, ev))
    && (exists ev: Event :: WaiterAt(s, r.fd, ev).None? && r.bits.Has(ev))
  }

  /** The state t comes from s by taking the chosen events of one descriptor, and no more. */
  ghost predicate TookFrom(s: Io, t: Io, fd: nat, read: bool, write: bool) {
    && Inv(s) && Inv(t) && |t.table| == |s.table| && t.tickleFd == s.tickleFd
    && WaiterAt(t, fd, READ) == (if read then None else WaiterAt(s, fd, READ))
    && WaiterAt(t, fd, WRITE) == (if write then None else WaiterAt(s, fd, WRITE))
    && forall f, e | f != fd :: WaiterAt(t, f, e) == WaiterAt(s, f, e)
  }

  lemma DisarmedMeans(s: Io, fd: nat, evs: Events)
    requires Inv(s) && fd < |s.table| && evs.Within(s.table[fd].events) && evs != NONE
    ensures TookFrom(s, Disarmed(s, fd, evs), fd, evs.read, evs.write)
    ensures Disarmed(s, fd, evs).wakes == s.wakes + TakenFrom(s, fd, evs.read, evs.write)
  {
    DisarmedInv(s, fd, evs);
  }

  lemma NothingTaken(s: Io, fd: nat, read: bool, write: bool)
    requires Inv(s)
    requires read ==> WaiterAt(s, fd, READ).None?
    requires write ==> WaiterAt(s, fd, WRITE).None?
    ensures TookFrom(s, s, fd, read, write) && s.wakes + TakenFrom(s, fd, read, write) == s.wakes
  {
  }

  /** The tickle pipe is in no slot. */
  lemma NobodyAtTickle(s: Io, ev: Event)
    requires Inv(s)
    ensures WaiterAt(s, s.tickleFd, ev).None?
  {
  }

  /** A dispatched record, stale or not: it goes through an empty slot exactly when stated;
      otherwise, if the kernel accepts, exactly the reported events are disarmed, and
      exactly the waiters of those that were armed are queued. */
  lemma RecordMeans(s: Io, r: Report, ok: bool)
    requires Inv(s) && (r.fd == s.tickleFd || r.fd < |s.table|)
    ensures DispatchOne(s, r, ok).None? <==> GoesThroughEmpty(s, r, ok)
    ensures DispatchOne(s, r, ok).Some? ==>
      && TookFrom(s, DispatchOne(s, r, ok).value, r.fd, ok && Reported(r, READ), ok && Reported(r, WRITE))
      && DispatchOne(s, r, ok).value.wakes == s.wakes + RecordWoken(s, r, ok)
  {
    if r.fd == s.tickleFd {
      NobodyAtTickle(s, READ);
      NobodyAtTickle(s, WRITE);
      NothingTaken(s, r.fd, ok && Reported(r, READ), ok && Reported(r, WRITE));
    } else {
      DispatchOneExact(s, r, ok);
      CrashMeans(s, r, ok);
      if !GoesThroughEmpty(s, r, ok) {
        TakesReported(s, r, ok);
      }
    }
  }

  /** A record drawn from the kernel's interest: an event stays armed exactly if it was and
      the record, if accepted, does not report it. */
  lemma RecordFields(s: Io, r: Report, ok: bool)
    requires Inv(s) && r.fd in s.kernel && r.bits.Within(s.kernel[r.fd])
    ensures DispatchOne(s, r, ok).Some?
    ensures DispatchOne(s, r, ok).value.wakes == s.wakes + RecordWoken(s, r, ok)
    ensures r.fd != s.tickleFd ==>
      && r.fd < |s.table| == |DispatchOne(s, r, ok).value.table|
      && forall ev: Event ::
           DispatchOne(s, r, ok).value.table[r.fd].events.Has(ev) <==>
             s.table[r.fd].events.Has(ev) && !(ok && (r.bits.Has(ev) || r.errHup))
  {
    RecordExact(s, r, ok);
    RecordMeans(s, r, ok);
    var t := DispatchOne(s, r, ok).value;
    forall ev: Event | r.fd != s.tickleFd
      ensures t.table[r.fd].events.Has(ev) <==> s.table[r.fd].events.Has(ev) && !(ok && (r.bits.Has(ev) || r.errHup))
    {
      assert WaiterAt(t, r.fd, ev).Some? == t.table[r.fd].events.Has(ev);
      assert WaiterAt(s, r.fd, ev).Some? == s.table[r.fd].events.Has(ev);
      match ev { case READ => case WRITE => }
    }
  }

  lemma CrashMeans(s: Io, r: Report, ok: bool)
    requires Inv(s) && r.fd < |s.table| && r.fd != s.tickleFd
    ensures GoesThroughEmpty(s, r, ok) <==>
      var c := s.table[r.fd];
      ok && c.events.Meet(RealEvents(c, r)) != NONE && !RealEvents(c, r).Within(c.events)
  {
    var c := s.table[r.fd];
    assert c.events.Has(READ) == c.events.read && c.events.Has(WRITE) == c.events.write;
    assert r.bits.Has(READ) == r.bits.read && r.bits.Has(WRITE) == r.bits.write;
    assert WaiterAt(s, r.fd, READ).Some? == c.events.read && WaiterAt(s, r.fd, WRITE).Some? == c.events.write;
  }

  lemma TakesReported(s: Io, r: Report, ok: bool)
    requires Inv(s) && r.fd < |s.table| && r.fd != s.tickleFd && DispatchOne(s, r, ok).Some?
    ensures
      && TookFrom(s, DispatchOne(s, r, ok).value, r.fd, ok && Reported(r, READ), ok && Reported(r, WRITE))
      && DispatchOne(s, r, ok).value.wakes == s.wakes + RecordWoken(s, r, ok)
  {
    var c := s.table[r.fd];
    var hit := RealEvents(c, r);
    DispatchOneExact(s, r, ok);
    if ok && c.events.Meet(hit) != NONE {
      DisarmedMeans(s, r.fd, hit);
    } else {
      assert DispatchOne(s, r, ok) == Some(s);
      NothingTaken(s, r.fd, ok && Reported(r, READ), ok && Reported(r, WRITE));
    }
  }

  /** The dispatch loop, over any batch of records for different descriptors, goes through
      an empty slot exactly when one of them does so in the state before the loop. */
  lemma BatchCrashMeans(s: Io, batch: seq<Report>, oks: seq<bool>)
    requires Inv(s) && |batch| == |oks| && Addressed(s, batch)
    ensures Dispatch(s, batch, oks).None? <==> exists i :: 0 <= i < |batch| && GoesThroughEmpty(s, batch[i], oks[i])
  {
    CrashExact(s, batch, oks);
    forall i | 0 <= i < |batch| ensures Crashes(s, batch[i], oks[i]) <==> GoesThroughEmpty(s, batch[i], oks[i]) {
      HarmlessRecord(s, batch[i], oks[i]);
      RecordMeans(s, batch[i], oks[i]);
    }
  }

  // ---------- any operation ----------

  /** The operation arms the event; x is then its waiter. */
  predicate Sets(s: Io, op: Op, fd: nat, ev: Event) {
    op.Add? && op.ok && op.fd == fd && op.ev == ev && fd != s.tickleFd
  }

  /** The operation, accepted by the kernel, takes the event's waiter if there is one. */
  predicate Clears(op: Op, fd: nat, ev: Event) {
    match op
    case Add(_, _, _, _, _) => false
    case Del(f, e, ok) => ok && f == fd && e == ev
    case Cancel(f, e, ok) => ok && f == fd && e == ev
    case CancelBoth(f, ok) => ok && f == fd
    case Poll(batch, oks) =>
      exists i :: 0 <= i < |batch| && i < |oks| && batch[i].fd == fd && oks[i] && Reported(batch[i], ev)
  }

  /** What a batch queues, read off the state before it: record by record. */
  function BatchWoken(s: Io, batch: seq<Report>, oks: seq<bool>): seq<Wake>
    requires Inv(s) && |batch| == |oks|
    decreases |batch|
  {
    if batch == [] then [] else RecordWoken(s, batch[0], oks[0]) + BatchWoken(s, batch[1..], oks[1..])
  }

  /** What an operation queues, read off the state before it. Deleting queues nothing. */
  function Woken(s: Io, op: Op): seq<Wake>
    requires Inv(s) && Allowed(s, op)
  {
    match op
    case Add(_, _, _, _, _) => []
    case Del(_, _, _) => []
    case Cancel(fd, ev, ok) => IfTaken(WaiterAt(s, fd, ev), ok)
    case CancelBoth(fd, ok) => TakenFrom(s, fd, ok, ok)
    case Poll(batch, oks) => BatchWoken(s, batch, oks)
  }

  lemma {:induction false} BatchWokenIs(s: Io, batch: seq<Report>, oks: seq<bool>)
    requires Inv(s) && Consistent(s, batch) && |batch| == |oks|
    ensures BatchWakes(s, batch, oks) == BatchWoken(s, batch, oks)
    decreases |batch|
  {
    if batch != [] {
      RecordWokenIs(s, batch[0], oks[0]);
      BatchWokenIs(s, batch[1..], oks[1..]);
    }
  }

  lemma RecordWokenIs(s: Io, r: Report, ok: bool)
    requires Inv(s) && r.fd in s.kernel && r.bits.Within(s.kernel[r.fd])
    ensures RecordWakes(s, r, ok) == RecordWoken(s, r, ok)
  {
    RecordExact(s, r, ok);
    RecordMeans(s, r, ok);
    var t := DispatchOne(s, r, ok).value;
    assert t.wakes[|s.wakes|..] == RecordWakes(s, r, ok);
    assert t.wakes[|s.wakes|..] == RecordWoken(s, r, ok);
  }

  lemma ArmedMeans(s: Io, op: Op, fd: nat, ev: Event)
    requires Inv(s) && op.Add? && Allowed(s, op)
    ensures WaiterAt(Next(s, op), fd, ev) ==
      if Sets(s, op, fd, ev)
      then
        Some(Wake(op.who.sched.value,
                  if op.cb.Some? then CallbackWaiter(op.cb.value) else FiberWaiter(op.who.fiber)))
      else WaiterAt(s, fd, ev)
    ensures Next(s, op).wakes == s.wakes
  {
    AddExact(s, op.fd, op.ev, op.cb, op.who, op.ok);
    GrowInv(s, op.fd);
  }

  lemma DeletedMeans(s: Io, op: Op, fd: nat, ev: Event)
    requires Inv(s) && op.Del?
    ensures WaiterAt(Next(s, op), fd, ev) == if Clears(op, fd, ev) then None else WaiterAt(s, fd, ev)
    ensures Next(s, op).wakes == s.wakes
  {
    DelExact(s, op.fd, op.ev, op.ok);
    if op.ok && IsArmed(s, op.fd, op.ev) {
      DisarmedMeans(s, op.fd, Only(op.ev));
    }
  }

  lemma CancelledMeans(s: Io, op: Op, fd: nat, ev: Event)
    requires Inv(s) && op.Cancel?
    ensures WaiterAt(Next(s, op), fd, ev) == if Clears(op, fd, ev) then None else WaiterAt(s, fd, ev)
    ensures Next(s, op).wakes == s.wakes + Woken(s, op)
  {
    CancelExact(s, op.fd, op.ev, op.ok);
    if op.ok && IsArmed(s, op.fd, op.ev) {
      DisarmedMeans(s, op.fd, Only(op.ev));
    }
  }

  lemma BothMeans(s: Io, op: Op, fd: nat, ev: Event)
    requires Inv(s) && op.CancelBoth?
    ensures WaiterAt(Next(s, op), fd, ev) == if Clears(op, fd, ev) then None else WaiterAt(s, fd, ev)
    ensures Next(s, op).wakes == s.wakes + Woken(s, op)
  {
    CancelAllExact(s, op.fd, op.ok);
    if op.ok && op.fd < |s.table| && s.table[op.fd].events != NONE {
      DisarmedMeans(s, op.fd, s.table[op.fd].events);
    }
  }

  lemma {:induction false} BatchMeans(s: Io, batch: seq<Report>, oks: seq<bool>, fd: nat, ev: Event)
    requires Inv(s) && Consistent(s, batch) && |batch| == |oks|
    ensures Dispatch(s, batch, oks).Some? && Inv(Dispatch(s, batch, oks).value)
    ensures WaiterAt(Dispatch(s, batch, oks).value, fd, ev) ==
      if Clears(Poll(batch, oks), fd, ev) then None else WaiterAt(s, fd, ev)
    decreases |batch|
  {
    if batch != [] {
      RestOfBatch(s, batch, oks[0]);
      RecordMeans(s, batch[0], oks[0]);
      var u := DispatchOne(s, batch[0], oks[0]).value;
      BatchMeans(u, batch[1..], oks[1..], fd, ev);
      ClearsCons(batch, oks, fd, ev);
    }
  }

  lemma ClearsCons(batch: seq<Report>, oks: seq<bool>, fd: nat, ev: Event)
    requires 0 < |batch| == |oks|
    ensures Clears(Poll(batch, oks), fd, ev) <==>
      (batch[0].fd == fd && oks[0] && Reported(batch[0], ev)) || Clears(Poll(batch[1..], oks[1..]), fd, ev)
  {
    if i :| 0 <= i < |batch[1..]| && batch[1..][i].fd == fd && oks[1..][i] && Reported(batch[1..][i], ev) {
      assert batch[i + 1].fd == fd && oks[i + 1] && Reported(batch[i + 1], ev);
    }
    if i :| 0 <= i < |batch| && batch[i].fd == fd && oks[i] && Reported(batch[i], ev) {
      if i > 0 {
        assert batch[1..][i - 1].fd == fd && oks[1..][i - 1] && Reported(batch[1..][i - 1], ev);
      }
    }
  }

  /** The event table is a board of waiters. After any operation an event has the waiter
      just armed, or nobody if the operation took it, or whom it had before; and what the
      operation queues is exactly whom cancelling or dispatching took, in order. */
  lemma OpMeans(s: Io, op: Op, fd: nat, ev: Event)
    requires Inv(s) && Allowed(s, op)
    ensures WaiterAt(Next(s, op), fd, ev) ==
      if Sets(s, op, fd, ev)
      then
        Some(Wake(op.who.sched.value,
                  if op.cb.Some? then CallbackWaiter(op.cb.value) else FiberWaiter(op.who.fiber)))
      else if Clears(op, fd, ev) then None
      else WaiterAt(s, fd, ev)
    ensures Next(s, op).wakes == s.wakes + Woken(s, op)
  {
    match op
    case Add(_, _, _, _, _) => ArmedMeans(s, op, fd, ev);
    case Del(_, _, _) => DeletedMeans(s, op, fd, ev);
    case Cancel(_, _, _) => CancelledMeans(s, op, fd, ev);
    case CancelBoth(_, _) => BothMeans(s, op, fd, ev);
    case Poll(batch, oks) =>
      BatchExact(s, batch, oks);
      BatchWokenIs(s, batch, oks);
      BatchMeans(s, batch, oks, fd, ev);
  }
}
