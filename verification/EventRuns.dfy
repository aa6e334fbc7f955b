/** The event table over whole runs: conservation, the ledger of wake-ups, dispatching a
    batch, and cancelAll as the composition of two cancellations. */
module EventRuns {
  import opened Basics
  import opened EventTable
  import opened EventLaws

  // ---------- dispatching a batch ----------

  /** What epoll_wait may return in state s: at most one record per registered
      descriptor, with bits drawn from its interest. */
  predicate Consistent(s: Io, batch: seq<Report>) {
    && (forall i, j | 0 <= i < j < |batch| :: batch[i].fd != batch[j].fd)
    && (forall i | 0 <= i < |batch| :: batch[i].fd in s.kernel && batch[i].bits.Within(s.kernel[batch[i].fd]))
  }

  /** The armed events that a record reports, all armed ones on an error or hang-up, if
      the kernel accepts the call that deregisters them. */
  function Hits(s: Io, r: Report, ok: bool): Events
    requires Inv(s) && r.fd in s.kernel
  {
    if r.fd == s.tickleFd || !ok then NONE else RealEvents(s.table[r.fd], r)
  }

  /** The entries that a record queues. */
  function RecordWakes(s: Io, r: Report, ok: bool): seq<Wake>
    requires Inv(s) && r.fd in s.kernel && r.bits.Within(s.kernel[r.fd])
  {
    if Hits(s, r, ok) == NONE then [] else WakesOf(s.table[r.fd], Hits(s, r, ok))
  }

  /** The entries that a batch queues, read off the state before the batch: record by
      record, READ before WRITE. */
  function BatchWakes(s: Io, batch: seq<Report>, oks: seq<bool>): seq<Wake>
    requires Inv(s) && Consistent(s, batch) && |batch| == |oks|
    decreases |batch|
  {
    if batch == [] then [] else RecordWakes(s, batch[0], oks[0]) + BatchWakes(s, batch[1..], oks[1..])
  }

  /** Record i of the batch decides what becomes of its descriptor. */
  predicate CtxFromRecord(s: Io, t: Io, r: Report, ok: bool)
    requires Inv(s) && r.fd in s.kernel
  {
    && r.fd != s.tickleFd ==>
      r.fd < |t.table| && t.table[r.fd] == DisarmCtx(s.table[r.fd], Hits(s, r, ok))
  }

  predicate Mentions(batch: seq<Report>, fd: nat) {
    exists i :: 0 <= i < |batch| && batch[i].fd == fd
  }

  /** One record of a consistent batch. */
  lemma RecordExact(s: Io, r: Report, ok: bool)
    requires Inv(s) && r.fd in s.kernel && r.bits.Within(s.kernel[r.fd])
    ensures DispatchOne(s, r, ok).Some? && Inv(DispatchOne(s, r, ok).value)
    ensures CtxFromRecord(s, DispatchOne(s, r, ok).value, r, ok)
    ensures
      var t := DispatchOne(s, r, ok).value;
      && t.wakes == s.wakes + RecordWakes(s, r, ok)
      && |t.table| == |s.table| && t.tickleFd == s.tickleFd
      && (forall fd | 0 <= fd < |s.table| && fd != r.fd :: t.table[fd] == s.table[fd])
      && (forall fd | fd != r.fd :: fd in s.kernel <==> fd in t.kernel)
      && (forall fd | fd != r.fd && fd in s.kernel :: t.kernel[fd] == s.kernel[fd])
  {
    if r.fd != s.tickleFd {
      DispatchOneExact(s, r, ok);
    }
  }

  /** The two states have the same contexts where the batch looks. */
  predicate SameWhereReported(s: Io, t: Io, batch: seq<Report>)
    requires Inv(s) && Inv(t)
  {
    && s.tickleFd == t.tickleFd
    && forall i | 0 <= i < |batch| && batch[i].fd != s.tickleFd ::
         batch[i].fd < |s.table| && batch[i].fd < |t.table| && s.table[batch[i].fd] == t.table[batch[i].fd]
  }

  lemma {:induction false} BatchWakesSame(s: Io, t: Io, batch: seq<Report>, oks: seq<bool>)
    requires Inv(s) && Inv(t) && Consistent(s, batch) && Consistent(t, batch) && |batch| == |oks|
    requires SameWhereReported(s, t, batch)
    ensures BatchWakes(s, batch, oks) == BatchWakes(t, batch, oks)
    decreases |batch|
  {
    if batch != [] {
      BatchWakesSame(s, t, batch[1..], oks[1..]);
    }
  }

  /** A record leaves the rest of a consistent batch consistent, and looking the same. */
  lemma RestOfBatch(s: Io, batch: seq<Report>, ok: bool)
    requires Inv(s) && Consistent(s, batch) && batch != []
    ensures DispatchOne(s, batch[0], ok).Some? && Inv(DispatchOne(s, batch[0], ok).value)
    ensures Consistent(s, batch[1..]) && Consistent(DispatchOne(s, batch[0], ok).value, batch[1..])
    ensures SameWhereReported(s, DispatchOne(s, batch[0], ok).value, batch[1..])
  {
    RecordExact(s, batch[0], ok);
  }

  lemma MentionsTail(batch: seq<Report>, fd: nat)
    requires batch != [] && Mentions(batch[1..], fd)
    ensures Mentions(batch, fd)
  {
    var i :| 0 <= i < |batch[1..]| && batch[1..][i].fd == fd;
    assert batch[i + 1].fd == fd;
  }

  /** t is the state after a batch in state s: every record decided its own descriptor,
      and nothing else changed. */
  predicate BatchDone(s: Io, t: Io, batch: seq<Report>, oks: seq<bool>)
    requires Inv(s) && Consistent(s, batch) && |batch| == |oks|
  {
    && Inv(t)
    && |t.table| == |s.table| && t.tickleFd == s.tickleFd
    && t.wakes == s.wakes + BatchWakes(s, batch, oks)
    && (forall i | 0 <= i < |batch| :: CtxFromRecord(s, t, batch[i], oks[i]))
    && (forall fd | 0 <= fd < |s.table| && !Mentions(batch, fd) :: t.table[fd] == s.table[fd])
  }

  /** The contexts after the first record and then the others. */
  lemma BatchContexts(s: Io, u: Io, t: Io, batch: seq<Report>, oks: seq<bool>)
    requires Inv(s) && Consistent(s, batch) && 0 < |batch| == |oks|
    requires Inv(u) && Consistent(u, batch[1..]) && |u.table| == |s.table| && u.tickleFd == s.tickleFd
    requires CtxFromRecord(s, u, batch[0], oks[0])
    requires forall fd | 0 <= fd < |s.table| && fd != batch[0].fd :: u.table[fd] == s.table[fd]
    requires BatchDone(u, t, batch[1..], oks[1..])
    ensures forall i | 0 <= i < |batch| :: CtxFromRecord(s, t, batch[i], oks[i])
    ensures forall fd | 0 <= fd < |s.table| && !Mentions(batch, fd) :: t.table[fd] == s.table[fd]
  {
    assert !Mentions(batch[1..], batch[0].fd);
    forall i | 0 <= i < |batch| ensures CtxFromRecord(s, t, batch[i], oks[i]) {
      if i > 0 {
        assert CtxFromRecord(u, t, batch[1..][i - 1], oks[1..][i - 1]);
      }
    }
    forall fd | 0 <= fd < |s.table| && !Mentions(batch, fd) ensures t.table[fd] == s.table[fd] {
      assert batch[0].fd != fd;
      assert !Mentions(batch[1..], fd) by {
        if Mentions(batch[1..], fd) { MentionsTail(batch, fd); }
      }
    }
  }

  lemma BatchCons(s: Io, u: Io, t: Io, batch: seq<Report>, oks: seq<bool>)
    requires Inv(s) && Consistent(s, batch) && 0 < |batch| == |oks|
    requires DispatchOne(s, batch[0], oks[0]) == Some(u) && Inv(u) && Consistent(u, batch[1..])
    requires BatchDone(u, t, batch[1..], oks[1..])
    ensures BatchDone(s, t, batch, oks)
  {
    RecordExact(s, batch[0], oks[0]);
    BatchContexts(s, u, t, batch, oks);
    RestOfBatch(s, batch, oks[0]);
    BatchQueue(s, u, batch, oks);
    Regroup(s.wakes, RecordWakes(s, batch[0], oks[0]), BatchWakes(u, batch[1..], oks[1..]));
  }

  lemma BatchQueue(s: Io, u: Io, batch: seq<Report>, oks: seq<bool>)
    requires Inv(s) && Consistent(s, batch) && 0 < |batch| == |oks|
    requires Inv(u) && Consistent(u, batch[1..]) && SameWhereReported(s, u, batch[1..])
    ensures RecordWakes(s, batch[0], oks[0]) + BatchWakes(u, batch[1..], oks[1..]) == BatchWakes(s, batch, oks)
  {
    BatchWakesSame(s, u, batch[1..], oks[1..]);
  }

  /** Dispatching a batch taken from the kernel's interest never goes through an empty
      slot. It disarms exactly the armed events that the batch reports, record by record
      whatever the other records do, and queues their waiters in the batch's order. */
  lemma {:induction false} BatchExact(s: Io, batch: seq<Report>, oks: seq<bool>)
    requires Inv(s) && Consistent(s, batch) && |batch| == |oks|
    ensures Dispatch(s, batch, oks).Some?
    ensures BatchDone(s, Dispatch(s, batch, oks).value, batch, oks)
    decreases |batch|
  {
    if batch != [] {
      RestOfBatch(s, batch, oks[0]);
      var u := DispatchOne(s, batch[0], oks[0]).value;
      BatchExact(u, batch[1..], oks[1..]);
      BatchCons(s, u, Dispatch(u, batch[1..], oks[1..]).value, batch, oks);
    }
  }

  /** Records for different descriptors that are in the table, or the tickle pipe's. They
      need not agree with the state any more. */
  predicate Addressed(s: Io, batch: seq<Report>) {
    && (forall i, j | 0 <= i < j < |batch| :: batch[i].fd != batch[j].fd)
    && (forall i | 0 <= i < |batch| :: batch[i].fd == s.tickleFd || batch[i].fd < |s.table|)
  }

  /** The kernel accepts the record's call, and the record reports an armed event together
      with one that is not. */
  predicate Crashes(s: Io, r: Report, ok: bool) {
    && r.fd != s.tickleFd && r.fd < |s.table| && ok
    && s.table[r.fd].events.Meet(RealEvents(s.table[r.fd], r)) != NONE
    && !RealEvents(s.table[r.fd], r).Within(s.table[r.fd].events)
  }

  /** A record of any kind that does not crash the loop changes its own context only. */
  lemma HarmlessRecord(s: Io, r: Report, ok: bool)
    requires Inv(s) && (r.fd == s.tickleFd || r.fd < |s.table|)
    ensures DispatchOne(s, r, ok).None? <==> Crashes(s, r, ok)
    ensures !Crashes(s, r, ok) ==>
      var t := DispatchOne(s, r, ok).value;
      && Inv(t) && |t.table| == |s.table| && t.tickleFd == s.tickleFd
      && forall fd | 0 <= fd < |s.table| && fd != r.fd :: t.table[fd] == s.table[fd]
  {
    if r.fd != s.tickleFd {
      DispatchOneExact(s, r, ok);
    }
  }

  /** The dispatch loop goes through an empty slot exactly when some record of the batch,
      judged in the state before the loop, does so: no record makes another one crash, and
      none prevents it. */
  lemma {:induction false} CrashExact(s: Io, batch: seq<Report>, oks: seq<bool>)
    requires Inv(s) && |batch| == |oks| && Addressed(s, batch)
    ensures Dispatch(s, batch, oks).None? <==> exists i :: 0 <= i < |batch| && Crashes(s, batch[i], oks[i])
    decreases |batch|
  {
    if batch != [] {
      HarmlessRecord(s, batch[0], oks[0]);
      if !Crashes(s, batch[0], oks[0]) {
        var u := DispatchOne(s, batch[0], oks[0]).value;
        CrashExact(u, batch[1..], oks[1..]);
        CrashesLater(s, u, batch, oks);
      }
    }
  }

  lemma CrashesLater(s: Io, u: Io, batch: seq<Report>, oks: seq<bool>)
    requires 0 < |batch| == |oks| && Addressed(s, batch) && !Crashes(s, batch[0], oks[0])
    requires |u.table| == |s.table| && u.tickleFd == s.tickleFd
    requires forall fd | 0 <= fd < |s.table| && fd != batch[0].fd :: u.table[fd] == s.table[fd]
    ensures (exists i :: 0 <= i < |batch| && Crashes(s, batch[i], oks[i]))
       <==> (exists i :: 0 <= i < |batch[1..]| && Crashes(u, batch[1..][i], oks[1..][i]))
  {
    forall i | 1 <= i < |batch|
      ensures Crashes(s, batch[i], oks[i]) == Crashes(u, batch[1..][i - 1], oks[1..][i - 1])
    {
    }
    if i :| 0 <= i < |batch| && Crashes(s, batch[i], oks[i]) {
      assert Crashes(u, batch[1..][i - 1], oks[1..][i - 1]);
    }
    if i :| 0 <= i < |batch[1..]| && Crashes(u, batch[1..][i], oks[1..][i]) {
      assert Crashes(s, batch[i + 1], oks[i + 1]);
    }
  }

  /** Without the single-worker hypothesis the missing mask matters: two armed events are
      reported, one is deleted before the loop reaches the record, and the loop calls
      through the empty slot. */
  lemma StaleReportCrashes(who: Caller, fd: nat)
    requires who.sched.Some? && who.exec && fd < MIN_FDS
    ensures
      var tickle := MIN_FDS;
      var s0 := InitialIo(tickle);
      exists s1: Io, s2: Io, s3: Io ::
        && AddEvent(s0, fd, READ, None, who, true) == Some((s1, true))
        && |s1.table| >= MIN_FDS
        && AddEvent(s1, fd, WRITE, None, who, true) == Some((s2, true))
        && Inv(s2)
        && Consistent(s2, [Report(fd, Events(true, true), false)])
        && DelEvent(s2, fd, WRITE, true) == (s3, true)
        && Dispatch(s3, [Report(fd, Events(true, true), false)], [true]) == None
  {
    var s0 := InitialIo(MIN_FDS);
    InitialInv(MIN_FDS);
    AddExact(s0, fd, READ, None, who, true);
    GrowInv(s0, fd);
    var s1 := AddEvent(s0, fd, READ, None, who, true).value.0;
    ArmedInv(s0, fd, READ, NewSlot(None, who));
    assert s0.(table := Grow(s0.table, fd)) == s0;
    AddExact(s1, fd, WRITE, None, who, true);
    ArmedInv(s1, fd, WRITE, NewSlot(None, who));
    var s2 := AddEvent(s1, fd, WRITE, None, who, true).value.0;
    DelExact(s2, fd, WRITE, true);
    var s3 := DelEvent(s2, fd, WRITE, true).0;
    var r := Report(fd, Events(true, true), false);
    DispatchOneExact(s3, r, true);
    assert Consistent(s2, [r]);
    assert Dispatch(s3, [r], [true]) == None;
  }

  lemma {:induction false} BitsConcat(a: seq<FdCtx>, b: seq<FdCtx>)
    ensures ArmedBits(a + b) == ArmedBits(a) + ArmedBits(b)
  {
    if a == [] {
      assert a + b == b;
    } else {
      assert (a + b)[1..] == a[1..] + b;
      BitsConcat(a[1..], b);
    }
  }

  /** addEvent grows the table without looking at its size again. If another thread has
      grown it further in between, the resize cuts contexts off; the invariant survives
      exactly when none of those had an event armed. */
  lemma StaleGrowth(s: Io, fd: nat)
    requires Inv(s) && MIN_FDS <= fd
    ensures Inv(s.(table := Resize(s.table, fd * 3 / 2))) <==>
      forall i | fd * 3 / 2 <= i < |s.table| :: s.table[i].events == NONE
  {
    var n := fd * 3 / 2;
    if n <= |s.table| {
      CutOff(s.table, n);
      assert Resize(s.table, n) == s.table[..n];
    } else {
      BlankTail(s.table, Resize(s.table, n));
    }
  }

  /** Contexts that are cut off take their armed events with them. */
  lemma CutOff(t: seq<FdCtx>, n: nat)
    requires n <= |t|
    ensures ArmedBits(t[..n]) == ArmedBits(t) <==> forall i | n <= i < |t| :: t[i].events == NONE
  {
    assert t == t[..n] + t[n..];
    BitsConcat(t[..n], t[n..]);
    NoBitsNoEvents(t[n..]);
    assert forall i | n <= i < |t| :: t[i] == t[n..][i - n];
  }

  /** The failing side is reached: with 32 contexts, a thread that finds no context for 40
      waits for the write lock while another grows the table to 150 and arms 100; the late
      resize to 60 contexts then loses an armed event. */
  lemma StaleGrowthHappens(who: Caller)
    requires who.sched.Some? && who.exec
    ensures
      var tickle := 0;
      var late, fd := 40, 100;
      exists s: Io ::
        && late >= |InitialIo(tickle).table|
        && AddEvent(InitialIo(tickle), fd, READ, None, who, true) == Some((s, true))
        && Inv(s) && |s.table| == 150
        && !Inv(s.(table := Resize(s.table, late * 3 / 2)))
  {
    var s0 := InitialIo(0);
    InitialInv(0);
    AddExact(s0, 100, READ, None, who, true);
    GrowInv(s0, 100);
    var g := s0.(table := Grow(s0.table, 100));
    ArmedInv(g, 100, READ, NewSlot(None, who));
    var s := Armed(g, 100, READ, NewSlot(None, who));
    StaleGrowth(s, 40);
    assert s.table[100].events == Only(READ);
  }

  lemma {:induction false} BlankTable(t: seq<FdCtx>)
    requires forall i | 0 <= i < |t| :: t[i] == BLANK_CTX
    ensures TableOk(t) && ArmedBits(t) == 0
    ensures forall x :: Waiting(t, x) == 0
  {
    BlankTail([], t);
  }

  lemma InitialInv(tickleFd: nat)
    ensures Inv(InitialIo(tickleFd))
    ensures forall x :: Waiting(InitialIo(tickleFd).table, x) == 0
  {
    BlankTable(InitialIo(tickleFd).table);
  }

  // ---------- cancelAll ----------

  /** Disarming READ and then WRITE, each if armed, is disarming everything. */
  lemma DisarmTwice(s: Io, fd: nat)
    requires Inv(s) && fd < |s.table| && s.table[fd].events == Events(true, true)
    ensures
      var t := Disarmed(s, fd, Only(READ));
      && Inv(t) && t.table[fd].events == Only(WRITE)
      && Disarmed(t, fd, Only(WRITE)) == Disarmed(s, fd, s.table[fd].events)
  {
    DisarmedInv(s, fd, Only(READ));
    var c := s.table[fd];
    var t := Disarmed(s, fd, Only(READ));
    assert s.table[fd := t.table[fd]][fd := DisarmCtx(c, c.events)] == s.table[fd := DisarmCtx(c, c.events)];
    assert s.kernel[fd := Only(WRITE)] - {fd} == s.kernel - {fd};
    Regroup(s.wakes, WakesOf(c, Only(READ)), WakesOf(t.table[fd], Only(WRITE)));
    assert WakesOf(c, Only(READ)) + WakesOf(t.table[fd], Only(WRITE)) == WakesOf(c, c.events);
  }

  /** When the kernel accepts the calls, cancelAll is cancelEvent for READ followed by
      cancelEvent for WRITE: same table, interest, count and queue order, and it reports
      success exactly when one of the two does. A hang-up record for the descriptor, when
      something is armed, has the same effect whatever bits come with it. */
  lemma CancelAllRefines(s: Io, fd: nat, bits: Events)
    requires Inv(s)
    ensures
      var first := CancelEvent(s, fd, READ, true).value;
      var second := CancelEvent(first.0, fd, WRITE, true);
      && second.Some?
      && CancelAll(s, fd, true) == Some((second.value.0, first.1 || second.value.1))
    ensures fd < |s.table| && s.table[fd].events != NONE && bits.Within(s.table[fd].events) ==>
      DispatchOne(s, Report(fd, bits, true), true) == Some(CancelAll(s, fd, true).value.0)
  {
    CancelAllExact(s, fd, true);
    CancelExact(s, fd, READ, true);
    CancelExact(CancelEvent(s, fd, READ, true).value.0, fd, WRITE, true);
    if fd < |s.table| && s.table[fd].events != NONE {
      ShrinkLegal(s, fd, NONE);
      DispatchOneExact(s, Report(fd, bits, true), true);
      if s.table[fd].events == Events(true, true) {
        DisarmTwice(s, fd);
      }
    }
  }

  // ---------- runs ----------

  /** The constructor's state. */
  function Start(tickleFd: nat): (s: Io)
    ensures Inv(s)
  {
    InitialInv(tickleFd);
    InitialIo(tickleFd)
  }

  datatype Op =
    | Add(fd: nat, ev: Event, cb: Option<nat>, who: Caller, ok: bool)
    | Del(fd: nat, ev: Event, ok: bool)
    | Cancel(fd: nat, ev: Event, ok: bool)
    | CancelBoth(fd: nat, ok: bool)
    | Poll(batch: seq<Report>, oks: seq<bool>)

  /** The state after an operation; None when the program aborts or crashes in it. */
  function Apply(s: Io, op: Op): Option<Io>
    requires |s.table| >= MIN_FDS
    requires op.Poll? ==> |op.batch| == |op.oks|
  {
    match op
    case Add(fd, ev, cb, who, ok) =>
      (match AddEvent(s, fd, ev, cb, who, ok)
       case None => None
       case Some(r) => Some(r.0))
    case Del(fd, ev, ok) => Some(DelEvent(s, fd, ev, ok).0)
    case Cancel(fd, ev, ok) =>
      (match CancelEvent(s, fd, ev, ok)
       case None => None
       case Some(r) => Some(r.0))
    case CancelBoth(fd, ok) =>
      (match CancelAll(s, fd, ok)
       case None => None
       case Some(r) => Some(r.0))
    case Poll(batch, oks) => Dispatch(s, batch, oks)
  }

  /** The caller is on a scheduler's thread and, unless it gives a callback, on a fiber in
      EXEC, it does not arm an armed event, and epoll_wait reports registered interest. */
  predicate Allowed(s: Io, op: Op) {
    match op
    case Add(fd, ev, cb, who, _) => !IsArmed(s, fd, ev) && who.sched.Some? && (cb.None? ==> who.exec)
    case Poll(batch, oks) => |batch| == |oks| && Consistent(s, batch)
    case _ => true
  }

  /** Nothing aborts, the invariant is kept, and no wake-up is taken back. */
  lemma StepKeeps(s: Io, op: Op)
    requires Inv(s) && Allowed(s, op)
    ensures Apply(s, op).Some? && Inv(Apply(s, op).value)
    ensures s.wakes <= Apply(s, op).value.wakes
  {
    match op
    case Add(fd, ev, cb, who, ok) =>
      AddExact(s, fd, ev, cb, who, ok);
      GrowInv(s, fd);
      if ok && fd != s.tickleFd {
        ArmedInv(s.(table := Grow(s.table, fd)), fd, ev, NewSlot(cb, who));
      }
    case Del(fd, ev, ok) => DelExact(s, fd, ev, ok);
    case Cancel(fd, ev, ok) => CancelExact(s, fd, ev, ok);
    case CancelBoth(fd, ok) => CancelAllExact(s, fd, ok);
    case Poll(batch, oks) => BatchExact(s, batch, oks);
  }

  function Next(s: Io, op: Op): (t: Io)
    requires Inv(s) && Allowed(s, op)
    ensures Inv(t) && s.wakes <= t.wakes
  {
    StepKeeps(s, op);
    Apply(s, op).value
  }

  predicate AllowedRun(s: Io, ops: seq<Op>)
    requires Inv(s)
    decreases |ops|
  {
    ops == [] || (Allowed(s, ops[0]) && AllowedRun(Next(s, ops[0]), ops[1..]))
  }

  function Final(s: Io, ops: seq<Op>): Io
    requires Inv(s) && AllowedRun(s, ops)
    decreases |ops|
  {
    if ops == [] then s else Final(Next(s, ops[0]), ops[1..])
  }

  // ---------- the ledger ----------

  /** The waiter that a successful add arms, or a successful delete drops. */
  predicate Arms(s: Io, op: Op, x: Wake)
    requires Inv(s) && Allowed(s, op)
  {
    op.Add? && op.ok && op.fd != s.tickleFd && x == WakeOf(NewSlot(op.cb, op.who))
  }

  predicate Drops(s: Io, op: Op, x: Wake)
    requires Inv(s)
  {
    op.Del? && op.ok && IsArmed(s, op.fd, op.ev) && x == WakeOf(GetContext(s.table[op.fd], op.ev))
  }

  /** How often the waiter x is armed, and dropped, in a run. */
  function Arming(s: Io, ops: seq<Op>, x: Wake): nat
    requires Inv(s) && AllowedRun(s, ops)
    decreases |ops|
  {
    if ops == [] then 0 else (if Arms(s, ops[0], x) then 1 else 0) + Arming(Next(s, ops[0]), ops[1..], x)
  }

  function Dropping(s: Io, ops: seq<Op>, x: Wake): nat
    requires Inv(s) && AllowedRun(s, ops)
    decreases |ops|
  {
    if ops == [] then 0 else (if Drops(s, ops[0], x) then 1 else 0) + Dropping(Next(s, ops[0]), ops[1..], x)
  }

  /** Every wake-up of x is accounted for across a step that arms `plus` and drops `minus`. */
  predicate Balanced(s: Io, t: Io, x: Wake, plus: nat, minus: nat)
    requires TableOk(s.table) && TableOk(t.table)
  {
    plus + Waiting(s.table, x) + Occurs(s.wakes, x) == Waiting(t.table, x) + Occurs(t.wakes, x) + minus
  }

  lemma WakesMatch(c: FdCtx, evs: Events, x: Wake)
    requires CtxOk(c) && evs.Within(c.events)
    ensures CtxOk(DisarmCtx(c, evs)) && Occurs(WakesOf(c, evs), x) == Holds(c, x) - Holds(DisarmCtx(c, evs), x)
  {
    var a := if evs.read then [WakeOf(c.read)] else [];
    var b := if evs.write then [WakeOf(c.write)] else [];
    OccursConcat(a, b, x);
    assert evs.read ==> a[1..] == [];
    assert evs.write ==> b[1..] == [];
  }

  lemma DisarmBalanced(s: Io, fd: nat, evs: Events, x: Wake)
    requires Inv(s) && fd < |s.table| && evs.Within(s.table[fd].events)
    ensures TableOk(Disarmed(s, fd, evs).table) && Balanced(s, Disarmed(s, fd, evs), x, 0, 0)
  {
    WakesMatch(s.table[fd], evs, x);
    WaitingUpdate(s.table, fd, DisarmCtx(s.table[fd], evs), x);
    OccursConcat(s.wakes, WakesOf(s.table[fd], evs), x);
  }

  lemma DelBalanced(s: Io, fd: nat, ev: Event, ok: bool, x: Wake)
    requires Inv(s)
    ensures Inv(DelEvent(s, fd, ev, ok).0)
    ensures Balanced(s, DelEvent(s, fd, ev, ok).0, x, 0, if Drops(s, Del(fd, ev, ok), x) then 1 else 0)
  {
    DelExact(s, fd, ev, ok);
    if ok && IsArmed(s, fd, ev) {
      WaitingUpdate(s.table, fd, DisarmCtx(s.table[fd], Only(ev)), x);
    }
  }

  lemma AddBalanced(s: Io, op: Op, x: Wake)
    requires Inv(s) && op.Add? && Allowed(s, op)
    ensures Balanced(s, Next(s, op), x, if Arms(s, op, x) then 1 else 0, 0)
  {
    AddExact(s, op.fd, op.ev, op.cb, op.who, op.ok);
    GrowInv(s, op.fd);
    if op.ok && op.fd != s.tickleFd {
      var g := Grow(s.table, op.fd);
      var c := g[op.fd];
      WaitingUpdate(g, op.fd, SetContext(c.(events := c.events.Plus(Only(op.ev))), op.ev, NewSlot(op.cb, op.who)), x);
    }
  }

  lemma {:induction false} PollBalanced(s: Io, batch: seq<Report>, oks: seq<bool>, x: Wake)
    requires Inv(s) && |batch| == |oks| && Consistent(s, batch)
    ensures Dispatch(s, batch, oks).Some? && Inv(Dispatch(s, batch, oks).value)
    ensures Balanced(s, Dispatch(s, batch, oks).value, x, 0, 0)
    decreases |batch|
  {
    if batch != [] {
      RestOfBatch(s, batch, oks[0]);
      var r := batch[0];
      if r.fd != s.tickleFd {
        DispatchOneExact(s, r, oks[0]);
        DisarmBalanced(s, r.fd, RealEvents(s.table[r.fd], r), x);
      }
      PollBalanced(DispatchOne(s, r, oks[0]).value, batch[1..], oks[1..], x);
    }
  }

  lemma StepBalanced(s: Io, op: Op, x: Wake)
    requires Inv(s) && Allowed(s, op)
    ensures Balanced(s, Next(s, op), x, if Arms(s, op, x) then 1 else 0, if Drops(s, op, x) then 1 else 0)
  {
    match op
    case Add(_, _, _, _, _) => AddBalanced(s, op, x);
    case Del(fd, ev, ok) => DelBalanced(s, fd, ev, ok, x);
    case Cancel(fd, ev, ok) =>
      CancelExact(s, fd, ev, ok);
      if IsArmed(s, fd, ev) { DisarmBalanced(s, fd, Only(ev), x); }
    case CancelBoth(fd, ok) =>
      CancelAllExact(s, fd, ok);
      if fd < |s.table| { DisarmBalanced(s, fd, s.table[fd].events, x); }
    case Poll(batch, oks) => PollBalanced(s, batch, oks, x);
  }

  /** Over any run, and for every waiter: the times it was armed are the times it was
      queued, dropped by delEvent, or is still armed. */
  lemma {:induction false} Ledger(s: Io, ops: seq<Op>, x: Wake)
    requires Inv(s) && AllowedRun(s, ops)
    ensures Inv(Final(s, ops))
    ensures Balanced(s, Final(s, ops), x, Arming(s, ops, x), Dropping(s, ops, x))
    decreases |ops|
  {
    if ops != [] {
      StepBalanced(s, ops[0], x);
      Ledger(Next(s, ops[0]), ops[1..], x);
    }
  }

  /** From the constructor on, in every reachable state: the bits agree with the slots,
      the kernel with the contexts, the counter with the number of armed events, nothing
      aborts, and a waiter is queued at most as often as it was armed. */
  lemma EveryRun(tickleFd: nat, ops: seq<Op>, x: Wake)
    requires AllowedRun(Start(tickleFd), ops)
    ensures
      var s := Start(tickleFd);
      var t := Final(s, ops);
      && Inv(t)
      && t.pending == ArmedBits(t.table)
      && Arming(s, ops, x) == Occurs(t.wakes, x) + Dropping(s, ops, x) + Waiting(t.table, x)
      && Occurs(t.wakes, x) <= Arming(s, ops, x)
  {
    InitialInv(tickleFd);
    Ledger(Start(tickleFd), ops, x);
  }
}
