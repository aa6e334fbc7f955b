/** IOManager as an object: contexts on the heap, updated in place, with every method
    proved against the functions of EventTable. */
module IoManager {
  import opened Basics
  import opened EventTable
  import opened EventLaws
  import opened EventRuns
  import opened EventMeaning

  /** FdContext. The locks are not modelled: every method here runs under them. */
  class FdContext {
    const fd: nat
    var events: Events
    var read: Slot
    var write: Slot

    constructor (fd: nat)
      ensures this.fd == fd && View() == BLANK_CTX
    {
      this.fd := fd;
      events, read, write := NONE, EMPTY_SLOT, EMPTY_SLOT;
    }

    function View(): FdCtx
      reads this
    {
      FdCtx(events, read, write)
    }

    method PutContext(ev: Event, x: Slot)
      modifies this`read, this`write
      ensures View() == SetContext(old(View()), ev, x)
    {
      match ev
      case READ => read := x;
      case WRITE => write := x;
    }

    /** resetContext. */
    method ResetContext(ev: Event)
      modifies this`read, this`write
      ensures View() == SetContext(old(View()), ev, EMPTY_SLOT)
    {
      PutContext(ev, EMPTY_SLOT);
    }

    /** triggerEvent: the entry to queue is handed back. The caller must know that the
        slot has a scheduler to call. */
    method TriggerEvent(ev: Event, ghost wakes: seq<Wake>) returns (out: seq<Wake>)
      requires GetContext(View(), ev).scheduler.Some?
      modifies this
      ensures Trigger(old(View()), wakes, ev) == Some((View(), wakes + out))
    {
      events := events.Minus(Only(ev));
      var x := GetContext(View(), ev);
      out := [];
      if x.cb.Some? {
        out := [Wake(x.scheduler.value, CallbackWaiter(x.cb.value))];
        PutContext(ev, x.(cb := None));
      } else {
        if x.fiber.Some? {
          out := [Wake(x.scheduler.value, FiberWaiter(x.fiber.value))];
        }
        PutContext(ev, x.(fiber := None));
      }
      var y := GetContext(View(), ev);
      PutContext(ev, y.(scheduler := None));
      assert x.fiber.None? ==> wakes + [] == wakes;
    }
  }

  /** The bounds of epoll_wait's timeout argument in idle. */
  const MAX_TIMEOUT := 3000
  const NO_TIMER := 0xFFFF_FFFF_FFFF_FFFF

  /** A 64-bit value converted to a 32-bit int, keeping the low bits. */
  function ToInt(x: nat): int {
    var low := x % 0x1_0000_0000;
    if low < 0x8000_0000 then low else low - 0x1_0000_0000
  }

  /** One pass through the timeout computation of idle. */
  function NextTimeout(next: nat): nat {
    if next != NO_TIMER then (if ToInt(next) > MAX_TIMEOUT then MAX_TIMEOUT else next) else MAX_TIMEOUT
  }

  /** The wait is bounded by MAX_TIMEOUT exactly when there is no timer or the time to the
      next timer, cut to 32 bits, is not negative; otherwise epoll_wait gets a negative
      timeout and waits without bound. Within the bounds it waits for the timer, or for
      MAX_TIMEOUT if that is less or there is none. Repeating the pass after EINTR changes nothing. */
  lemma TimeoutBounded(next: nat)
    requires next <= NO_TIMER
    ensures 0 <= ToInt(NextTimeout(next)) <= MAX_TIMEOUT <==> next == NO_TIMER || next % 0x1_0000_0000 < 0x8000_0000
    ensures next == NO_TIMER || next % 0x1_0000_0000 < 0x8000_0000 ==>
      var left := next % 0x1_0000_0000;
      ToInt(NextTimeout(next)) == if next == NO_TIMER || left > 3000 then 3000 else left
    ensures -0x8000_0000 <= ToInt(next) < 0x8000_0000 && (ToInt(next) - next) % 0x1_0000_0000 == 0
    ensures NextTimeout(NextTimeout(next)) == NextTimeout(next)
    ensures next <= MAX_TIMEOUT ==> NextTimeout(next) == next
  {
  }

  class Manager {
    var contexts: seq<FdContext>
    var pending: nat
    var wakes: seq<Wake>
    var kernel: Kernel
    const tickleFd: nat

    /** Each context is at its own index. */
    ghost predicate Wired()
      reads this, contexts
    {
      forall i | 0 <= i < |contexts| :: contexts[i].fd == i
    }

    ghost function Table(): seq<FdCtx>
      reads this, contexts
    {
      seq(|contexts|, i requires 0 <= i < |contexts| reads this, contexts => contexts[i].View())
    }

    ghost function State(): Io
      reads this, contexts
    {
      Io(Table(), kernel, pending, wakes, tickleFd)
    }

    ghost predicate Valid()
      reads this, contexts
    {
      Wired() && Inv(State())
    }

    constructor (tickleFd: nat)
      ensures Valid() && State() == InitialIo(tickleFd)
      ensures |contexts| == 32 && (forall i | 0 <= i < 32 :: Table()[i] == FdCtx(NONE, EMPTY_SLOT, EMPTY_SLOT))
      ensures this.tickleFd == tickleFd && kernel == map[tickleFd := Only(READ)] && pending == 0 && wakes == []
      ensures forall c | c in contexts :: fresh(c)
    {
      this.tickleFd := tickleFd;
      contexts, pending, wakes, kernel := [], 0, [], map[tickleFd := Only(READ)];
      new;
      ContextResize(MIN_FDS);
      assert Table() == InitialIo(tickleFd).table;
      InitialInv(tickleFd);
    }

    /** contextResize: drops or adds contexts at the end, and creates the missing ones. */
    method ContextResize(size: nat)
      requires Wired()
      modifies this`contexts
      ensures Wired() && Table() == Resize(old(Table()), size)
      ensures forall c | c in contexts :: c in old(contexts) || fresh(c)
      ensures forall i | 0 <= i < size && i < |old(contexts)| :: contexts[i] == old(contexts[i])
    {
      if size <= |contexts| {
        contexts := contexts[..size];
      } else {
        ghost var was := contexts;
        while |contexts| < size
          invariant |was| <= |contexts| <= size
          invariant was <= contexts
          invariant Wired()
          invariant forall i | |was| <= i < |contexts| :: fresh(contexts[i]) && contexts[i].View() == BLANK_CTX
        {
          var c := new FdContext(|contexts|);
          contexts := contexts + [c];
        }
      }
      assert Table() == Resize(old(Table()), size);
    }

    /** epoll_ctl: 0 when the call is legal and the kernel accepts it, else -1. */
    method EpollCtl(op: CtlOp, fd: nat, interest: Events, ok: bool) returns (rt: int)
      modifies this`kernel
      ensures rt == 0 || rt == -1
      ensures rt == 0 <==> CtlDone(old(kernel), op, fd, ok)
      ensures kernel == if rt == 0 then CtlEffect(old(kernel), op, fd, interest) else old(kernel)
    {
      if ok && (op.CtlAdd? <==> fd !in kernel) {
        kernel := if op.CtlDel? then kernel - {fd} else kernel[fd := interest];
        rt := 0;
      } else {
        rt := -1;
      }
    }

    /** The table after one context has changed. */
    twostate lemma TableAt(fd: nat)
      requires old(Wired()) && Wired() && contexts == old(contexts) && fd < |contexts|
      requires forall c | c in contexts && c != contexts[fd] :: unchanged(c)
      ensures Table() == old(Table())[fd := contexts[fd].View()]
    {
      forall i | 0 <= i < |contexts| && i != fd
        ensures contexts[i].View() == old(contexts[i].View())
      {
        assert contexts[i] in contexts && contexts[i].fd == i && contexts[fd].fd == fd;
      }
    }

    /** The context of a descriptor, after growing the table if it is too small. */
    method Lookup(fd: nat) returns (ctx: FdContext)
      requires Valid()
      modifies this`contexts
      ensures Valid() && State() == old(State()).(table := Grow(old(Table()), fd))
      ensures fd < |contexts| && ctx == contexts[fd] && ctx.View() == Table()[fd]
      ensures forall c | c in contexts :: c in old(contexts) || fresh(c)
    {
      GrowInv(State(), fd);
      if |contexts| <= fd {
        ContextResize(fd * 3 / 2);
      }
      ctx := contexts[fd];
    }

    method AddEvent(fd: nat, ev: Event, cb: Option<nat>, who: Caller, ok: bool) returns (rt: int)
      requires Valid() && !IsArmed(State(), fd, ev) && who.sched.Some? && (cb.None? ==> who.exec)
      modifies this, contexts
      ensures Valid()
      ensures rt == 0 || rt == -1
      ensures EventTable.AddEvent(old(State()), fd, ev, cb, who, ok) == Some((State(), rt == 0))
      ensures forall c | c in contexts :: c in old(contexts) || fresh(c)
    {
      AddExact(State(), fd, ev, cb, who, ok);
      var ctx := Lookup(fd);
      assert ctx in contexts;
      rt := Register(ctx, fd, ev, cb, who, ok);
    }

    /** The part of addEvent behind the lookup. */
    method Register(ctx: FdContext, fd: nat, ev: Event, cb: Option<nat>, who: Caller, ok: bool) returns (rt: int)
      requires Valid() && fd < |contexts| && contexts[fd] == ctx && !ctx.events.Has(ev) && who.sched.Some?
      modifies this`kernel, this`pending, ctx
      ensures Valid()
      ensures rt == 0 || rt == -1
      ensures rt == 0 <==> ok && fd != tickleFd
      ensures State() == if rt == 0 then Armed(old(State()), fd, ev, NewSlot(cb, who)) else old(State())
    {
      ghost var g := State();
      assert ctx.View() == g.table[fd];
      GrowLegal(g, fd);
      rt := EpollCtl(if ctx.events != NONE then CtlMod else CtlAdd, fd, ctx.events.Plus(Only(ev)), ok);
      assert State() == g.(kernel := kernel) by { assert Table() == g.table; }
      if rt == 0 {
        ArmContext(ctx, ev, cb, who);
        TableAt(fd);
        assert State() == Armed(g, fd, ev, NewSlot(cb, who));
        ArmedInv(g, fd, ev, NewSlot(cb, who));
      }
    }

    /** The part of addEvent behind a successful epoll_ctl. */
    method ArmContext(ctx: FdContext, ev: Event, cb: Option<nat>, who: Caller)
      requires CtxOk(ctx.View()) && !ctx.events.Has(ev)
      modifies this`pending, ctx
      ensures pending == old(pending) + 1
      ensures ctx.View() == SetContext(old(ctx.View()).(events := old(ctx.events).Plus(Only(ev))), ev, NewSlot(cb, who))
    {
      pending := pending + 1;
      ctx.events := ctx.events.Plus(Only(ev));
      assert GetContext(ctx.View(), ev) == EMPTY_SLOT;
      ctx.PutContext(ev, Slot(who.sched, if cb.Some? then None else Some(who.fiber), cb));
    }

    method DelEvent(fd: nat, ev: Event, ok: bool) returns (done: bool)
      requires Valid()
      modifies this, contexts
      ensures Valid() && contexts == old(contexts)
      ensures EventTable.DelEvent(old(State()), fd, ev, ok) == (State(), done)
    {
      ghost var s := State();
      DelExact(s, fd, ev, ok);
      if |contexts| <= fd {
        return false;
      }
      var ctx := contexts[fd];
      assert ctx.View() == s.table[fd];
      if !ctx.events.Has(ev) {
        return false;
      }
      assert pending > 0 by { BitsUpdate(s.table, fd, BLANK_CTX); }
      var left := ctx.events.Minus(Only(ev));
      var rt := EpollCtl(if left != NONE then CtlMod else CtlDel, fd, left, ok);
      if rt != 0 {
        return false;
      }
      assert ok && State() == s.(kernel := kernel) by { assert Table() == s.table; }
      DropAt(fd, ev);
      assert State() == Disarmed(s, fd, Only(ev)).(wakes := s.wakes);
      done := true;
    }

    /** The part of delEvent behind a successful epoll_ctl. */
    method DropAt(fd: nat, ev: Event)
      requires Wired() && fd < |contexts| && contexts[fd].events.Has(ev) && pending > 0
      modifies this`pending, contexts[fd]
      ensures Wired()
      ensures State() == old(State()).(
        pending := old(pending) - 1,
        table := old(Table())[fd := DisarmCtx(old(contexts[fd].View()), Only(ev))])
    {
      pending := pending - 1;
      contexts[fd].events := contexts[fd].events.Minus(Only(ev));
      contexts[fd].ResetContext(ev);
      TableAt(fd);
    }

    /** triggerEvent on a context of the table, its entry queued, and the count lowered. */
    method TriggerAt(fd: nat, ev: Event)
      requires Wired() && fd < |contexts| && contexts[fd].events.Has(ev) && CtxOk(contexts[fd].View()) && pending > 0
      modifies this`pending, this`wakes, contexts[fd]
      ensures Wired() && EventTable.TriggerAt(old(State()), fd, ev) == Some(State())
      ensures pending == old(pending) - 1
      ensures contexts[fd].View() == DisarmCtx(old(contexts[fd].View()), Only(ev))
    {
      TriggerAtExact(State(), fd, ev);
      var out := contexts[fd].TriggerEvent(ev, wakes);
      wakes := wakes + out;
      pending := pending - 1;
      TableAt(fd);
    }

    method CancelEvent(fd: nat, ev: Event, ok: bool) returns (done: bool)
      requires Valid()
      modifies this, contexts
      ensures Valid() && contexts == old(contexts)
      ensures EventTable.CancelEvent(old(State()), fd, ev, ok) == Some((State(), done))
    {
      ghost var s := State();
      CancelExact(s, fd, ev, ok);
      if |contexts| <= fd {
        return false;
      }
      var ctx := contexts[fd];
      assert ctx.View() == s.table[fd];
      if !ctx.events.Has(ev) {
        return false;
      }
      BitsUpdate(s.table, fd, BLANK_CTX);
      var left := ctx.events.Minus(Only(ev));
      var rt := EpollCtl(if left != NONE then CtlMod else CtlDel, fd, left, ok);
      if rt != 0 {
        return false;
      }
      assert Table() == s.table;
      TriggerAt(fd, ev);
      done := true;
    }

    /** The events `evs` of a context, READ before WRITE. */
    method TriggerSet(fd: nat, evs: Events)
      requires Wired() && fd < |contexts| && CtxOk(contexts[fd].View()) && evs.Within(contexts[fd].events)
      requires pending >= Count(evs)
      modifies this`pending, this`wakes, contexts[fd]
      ensures Wired() && EventTable.TriggerSet(old(State()), fd, evs) == Some(State())
    {
      if evs.read {
        TriggerAt(fd, READ);
      }
      if evs.write {
        TriggerAt(fd, WRITE);
      }
    }

    method CancelAll(fd: nat, ok: bool) returns (done: bool)
      requires Valid()
      modifies this, contexts
      ensures Valid() && contexts == old(contexts)
      ensures EventTable.CancelAll(old(State()), fd, ok) == Some((State(), done))
    {
      ghost var s := State();
      CancelAllExact(s, fd, ok);
      if |contexts| <= fd {
        return false;
      }
      var ctx := contexts[fd];
      assert ctx.View() == s.table[fd];
      if ctx.events == NONE {
        return false;
      }
      BitsUpdate(s.table, fd, BLANK_CTX);
      var rt := EpollCtl(CtlDel, fd, NONE, ok);
      if rt != 0 {
        return false;
      }
      assert Table() == s.table;
      TriggerSet(fd, ctx.events);
      done := true;
    }

    /** One iteration of the dispatch loop on the record at index i, edited in place: an
        event of its descriptor stays armed exactly if it was and is not reported, and the
        waiters of the others are queued. */
    method DispatchOne(buffer: array<Report>, i: nat, ok: bool)
      requires Valid() && i < buffer.Length
      requires buffer[i].fd in kernel && buffer[i].bits.Within(kernel[buffer[i].fd])
      modifies this, contexts, buffer
      ensures Valid() && contexts == old(contexts)
      ensures EventTable.DispatchOne(old(State()), old(buffer[i]), ok) == Some(State())
      ensures old(buffer[i]).fd != tickleFd ==>
        && old(buffer[i]).fd < |contexts|
        && forall ev: Event ::
             Table()[old(buffer[i]).fd].events.Has(ev) <==>
               old(Table())[old(buffer[i]).fd].events.Has(ev)
               && !(ok && (old(buffer[i]).bits.Has(ev) || old(buffer[i]).errHup))
      ensures wakes == old(wakes) + RecordWoken(old(State()), old(buffer[i]), ok)
      ensures forall j | 0 <= j < buffer.Length && j != i :: buffer[j] == old(buffer[j])
    {
      RecordFields(State(), buffer[i], ok);
      HandleRecord(buffer, i, ok);
    }

    method HandleRecord(buffer: array<Report>, i: nat, ok: bool)
      requires Valid() && i < buffer.Length
      requires buffer[i].fd in kernel && buffer[i].bits.Within(kernel[buffer[i].fd])
      modifies this, contexts, buffer
      ensures Valid() && contexts == old(contexts)
      ensures EventTable.DispatchOne(old(State()), old(buffer[i]), ok) == Some(State())
      ensures forall j | 0 <= j < buffer.Length && j != i :: buffer[j] == old(buffer[j])
    {
      ghost var s := State();
      ghost var r := buffer[i];
      var fd := buffer[i].fd;
      if fd == tickleFd {
        return;
      }
      var ctx := contexts[fd];
      assert ctx.View() == s.table[fd];
      DispatchOneExact(s, r, ok);
      if buffer[i].errHup {
        buffer[i] := buffer[i].(bits := buffer[i].bits.Plus(ctx.events));
      }
      var hit := buffer[i].bits;
      if ctx.events.Meet(hit) == NONE {
        return;
      }
      buffer[i] := Report(fd, ctx.events.Minus(hit), false);
      assert State() == s;
      Deregister(fd, hit, ok);
    }

    /** The part of an iteration behind the test that something armed is reported. */
    method Deregister(fd: nat, hit: Events, ok: bool)
      requires Valid() && fd < |contexts| && hit.Within(contexts[fd].events) && hit != NONE
      modifies this`kernel, this`pending, this`wakes, contexts[fd]
      ensures Valid()
      ensures State() == if ok then Disarmed(old(State()), fd, hit) else old(State())
    {
      ghost var s := State();
      var ctx := contexts[fd];
      assert ctx.View() == s.table[fd];
      var left := ctx.events.Minus(hit);
      ShrinkLegal(s, fd, left);
      BitsUpdate(s.table, fd, BLANK_CTX);
      var rt := EpollCtl(if left != NONE then CtlMod else CtlDel, fd, left, ok);
      assert State() == s.(kernel := kernel) by { assert Table() == s.table; }
      if rt == 0 {
        TriggerSetExact(s.(kernel := kernel), fd, hit);
        TriggerSet(fd, hit);
        assert State() == Disarmed(s, fd, hit);
        DisarmedInv(s, fd, hit);
      }
    }

    /** The dispatch loop of idle over what epoll_wait returned. */
    method Dispatch(buffer: array<Report>, rt: nat, oks: seq<bool>)
      requires Valid() && rt <= buffer.Length && |oks| == rt
      requires Consistent(State(), buffer[..rt])
      modifies this, contexts, buffer
      ensures Valid() && contexts == old(contexts)
      ensures EventTable.Dispatch(old(State()), old(buffer[..rt]), oks) == Some(State())
      ensures wakes == old(wakes) + BatchWoken(old(State()), old(buffer[..rt]), oks)
    {
      ghost var s := State();
      ghost var batch := buffer[..rt];
      BatchExact(s, batch, oks);
      BatchWokenIs(s, batch, oks);
      for i := 0 to rt
        invariant Valid() && contexts == old(contexts)
        invariant forall j | i <= j < rt :: buffer[j] == batch[j]
        invariant Consistent(State(), batch[i..])
        invariant EventTable.Dispatch(State(), batch[i..], oks[i..]) == EventTable.Dispatch(s, batch, oks)
      {
        ghost var t := State();
        assert batch[i..][0] == buffer[i] && oks[i..][0] == oks[i];
        RestOfBatch(t, batch[i..], oks[i]);
        DispatchOne(buffer, i, oks[i]);
        assert batch[i..][1..] == batch[i + 1..] && oks[i..][1..] == oks[i + 1..];
      }
    }
  }
}
