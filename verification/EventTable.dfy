/** The event table of IOManager on values: what addEvent, delEvent, cancelEvent,
    cancelAll and the dispatch loop of idle do to the per-descriptor contexts, to the
    kernel's interest set, to the pending counter and to the schedulers' queues.

    The kernel is modelled by the map from descriptors to registered interest. Every
    epoll_ctl call gets a flag from the environment: even a legal call may be refused,
    and an illegal one always is. A refused call changes nothing. */
module EventTable {
  import opened Basics

  datatype Event = READ | WRITE

  /** The event bit mask: one flag per event, with the mask operations of the source. */
  datatype Events = Events(read: bool, write: bool) {
    predicate Has(ev: Event) {
      match ev
      case READ => read
      case WRITE => write
    }

    /** this | other */
    function Plus(other: Events): Events {
      Events(read || other.read, write || other.write)
    }

    /** this & ~other */
    function Minus(other: Events): Events {
      Events(read && !other.read, write && !other.write)
    }

    /** this & other */
    function Meet(other: Events): Events {
      Events(read && other.read, write && other.write)
    }

    predicate Within(other: Events) {
      (read ==> other.read) && (write ==> other.write)
    }
  }

  const NONE := Events(false, false)

  function Only(ev: Event): Events {
    Events(ev == READ, ev == WRITE)
  }

  /** What waits for an event: a suspended fiber or a callback. */
  datatype Waiter = FiberWaiter(fiber: nat) | CallbackWaiter(cb: nat)

  /** EventContext: the three fields of a wait slot. */
  datatype Slot = Slot(scheduler: Option<nat>, fiber: Option<nat>, cb: Option<nat>)

  const EMPTY_SLOT := Slot(None, None, None)

  /** FdContext without its mutex; its descriptor is its index in the table. */
  datatype FdCtx = FdCtx(events: Events, read: Slot, write: Slot)

  const BLANK_CTX := FdCtx(NONE, EMPTY_SLOT, EMPTY_SLOT)

  /** An entry that triggerEvent put into a scheduler's queue. */
  datatype Wake = Wake(scheduler: nat, waiter: Waiter)

  type Kernel = map<nat, Events>

  datatype CtlOp = CtlAdd | CtlMod | CtlDel

  /** `wakes` lists everything scheduled by triggerEvent so far, oldest first. */
  datatype Io = Io(table: seq<FdCtx>, kernel: Kernel, pending: int, wakes: seq<Wake>, tickleFd: nat)

  /** The table's size after the constructor. */
  const MIN_FDS := 32

  // ---------- the kernel ----------

  predicate CtlLegal(k: Kernel, op: CtlOp, fd: nat) {
    op.CtlAdd? <==> fd !in k
  }

  /** The kernel accepts the call. */
  predicate CtlDone(k: Kernel, op: CtlOp, fd: nat, ok: bool) {
    ok && CtlLegal(k, op, fd)
  }

  function CtlEffect(k: Kernel, op: CtlOp, fd: nat, interest: Events): Kernel {
    match op
    case CtlDel => k - {fd}
    case _ => k[fd := interest]
  }

  // ---------- contexts ----------

  function GetContext(c: FdCtx, ev: Event): Slot {
    match ev
    case READ => c.read
    case WRITE => c.write
  }

  function SetContext(c: FdCtx, ev: Event, x: Slot): FdCtx {
    match ev
    case READ => c.(read := x)
    case WRITE => c.(write := x)
  }

  /** m_fdContexts.resize followed by the creation of the missing contexts. */
  function Resize(t: seq<FdCtx>, size: nat): (r: seq<FdCtx>)
    ensures |r| == size
    ensures forall i | 0 <= i < size :: r[i] == if i < |t| then t[i] else BLANK_CTX
  {
    if size <= |t| then t[..size] else t + seq(size - |t|, _ => BLANK_CTX)
  }

  /** The growth step of addEvent, with lookup and growth as one step. */
  function Grow(t: seq<FdCtx>, fd: nat): (r: seq<FdCtx>)
    ensures |r| == if fd < |t| then |t| else fd * 3 / 2
    ensures forall i | 0 <= i < |r| :: r[i] == if i < |t| then t[i] else BLANK_CTX
  {
    if fd < |t| then t else Resize(t, fd * 3 / 2)
  }

  /** triggerEvent: None when the slot has no scheduler to call. An entry with neither
      callback nor fiber is not queued. */
  function Trigger(c: FdCtx, wakes: seq<Wake>, ev: Event): Option<(FdCtx, seq<Wake>)> {
    var x := GetContext(c, ev);
    if x.scheduler.None? then None else
      var d := c.(events := c.events.Minus(Only(ev)));
      if x.cb.Some? then
        Some((SetContext(d, ev, Slot(None, x.fiber, None)),
              wakes + [Wake(x.scheduler.value, CallbackWaiter(x.cb.value))]))
      else if x.fiber.Some? then
        Some((SetContext(d, ev, EMPTY_SLOT), wakes + [Wake(x.scheduler.value, FiberWaiter(x.fiber.value))]))
      else
        Some((SetContext(d, ev, EMPTY_SLOT), wakes))
  }

  /** triggerEvent on the context of `fd`, with the decrement of the counter. */
  function TriggerAt(s: Io, fd: nat, ev: Event): Option<Io>
    requires fd < |s.table|
  {
    match Trigger(s.table[fd], s.wakes, ev)
    case None => None
    case Some(r) => Some(s.(table := s.table[fd := r.0], wakes := r.1, pending := s.pending - 1))
  }

  /** The events in `evs`, READ before WRITE. */
  function TriggerSet(s: Io, fd: nat, evs: Events): Option<Io>
    requires fd < |s.table|
  {
    var first := if evs.read then TriggerAt(s, fd, READ) else Some(s);
    if first.None? || !evs.write then first else
    if fd < |first.value.table| then TriggerAt(first.value, fd, WRITE) else None
  }

  // ---------- the operations ----------

  /** Who calls addEvent: the scheduler of the thread, if it has one, and the current fiber,
      with whether that is in EXEC. */
  datatype Caller = Caller(sched: Option<nat>, fiber: nat, exec: bool)

  /** addEvent: None when one of its assertions fails. */
  function AddEvent(s: Io, fd: nat, ev: Event, cb: Option<nat>, who: Caller, ok: bool): Option<(Io, bool)>
    requires |s.table| >= MIN_FDS
  {
    var g := s.(table := Grow(s.table, fd));
    var c := g.table[fd];
    if c.events.Has(ev) then None else
    var op := if c.events != NONE then CtlMod else CtlAdd;
    if !CtlDone(s.kernel, op, fd, ok) then Some((g, false)) else
    if GetContext(c, ev) != EMPTY_SLOT then None else
    if cb.None? && !who.exec then None else
    var x := Slot(who.sched, if cb.Some? then None else Some(who.fiber), cb);
    var d := SetContext(c.(events := c.events.Plus(Only(ev))), ev, x);
    Some((g.(table := g.table[fd := d],
             kernel := CtlEffect(s.kernel, op, fd, c.events.Plus(Only(ev))),
             pending := s.pending + 1), true))
  }

  /** The epoll operation that leaves the interest `left` of a registered descriptor. */
  function ShrinkOp(left: Events): CtlOp {
    if left != NONE then CtlMod else CtlDel
  }

  predicate IsArmed(s: Io, fd: nat, ev: Event) {
    fd < |s.table| && s.table[fd].events.Has(ev)
  }

  function DelEvent(s: Io, fd: nat, ev: Event, ok: bool): (Io, bool) {
    if !IsArmed(s, fd, ev) then (s, false) else
    var left := s.table[fd].events.Minus(Only(ev));
    if !CtlDone(s.kernel, ShrinkOp(left), fd, ok) then (s, false) else
    var d := SetContext(s.table[fd].(events := left), ev, EMPTY_SLOT);
    (s.(table := s.table[fd := d],
        kernel := CtlEffect(s.kernel, ShrinkOp(left), fd, left),
        pending := s.pending - 1), true)
  }

  /** cancelEvent: None when the armed slot has no scheduler. */
  function CancelEvent(s: Io, fd: nat, ev: Event, ok: bool): Option<(Io, bool)> {
    if !IsArmed(s, fd, ev) then Some((s, false)) else
    var left := s.table[fd].events.Minus(Only(ev));
    if !CtlDone(s.kernel, ShrinkOp(left), fd, ok) then Some((s, false)) else
    match TriggerAt(s.(kernel := CtlEffect(s.kernel, ShrinkOp(left), fd, left)), fd, ev)
    case None => None
    case Some(t) => Some((t, true))
  }

  function CancelAll(s: Io, fd: nat, ok: bool): Option<(Io, bool)> {
    if fd >= |s.table| || s.table[fd].events == NONE then Some((s, false)) else
    if !CtlDone(s.kernel, CtlDel, fd, ok) then Some((s, false)) else
    match TriggerSet(s.(kernel := CtlEffect(s.kernel, CtlDel, fd, NONE)), fd, s.table[fd].events)
    case None => None
    case Some(t) => if fd < |t.table| && t.table[fd].events == NONE then Some((t, true)) else None
  }

  /** A record of epoll_wait: a descriptor with its reported bits. */
  datatype Report = Report(fd: nat, bits: Events, errHup: bool)

  /** The events the dispatch loop works with: reported bits, and on an error or
      hang-up also everything armed. They are not masked by what is armed. */
  function RealEvents(c: FdCtx, r: Report): Events {
    if r.errHup then r.bits.Plus(c.events) else r.bits
  }

  /** One iteration of the dispatch loop: None when it calls through an empty slot. */
  function DispatchOne(s: Io, r: Report, ok: bool): Option<Io> {
    if r.fd == s.tickleFd then Some(s) else
    if r.fd >= |s.table| then None else
    var c := s.table[r.fd];
    var hit := RealEvents(c, r);
    if c.events.Meet(hit) == NONE then Some(s) else
    var left := c.events.Minus(hit);
    if !CtlDone(s.kernel, ShrinkOp(left), r.fd, ok) then Some(s) else
    TriggerSet(s.(kernel := CtlEffect(s.kernel, ShrinkOp(left), r.fd, left)), r.fd, hit)
  }

  /** The dispatch loop; the i-th flag answers the i-th record's epoll_ctl call. */
  function Dispatch(s: Io, batch: seq<Report>, oks: seq<bool>): Option<Io>
    requires |batch| == |oks|
    decreases |batch|
  {
    if batch == [] then Some(s) else
    match DispatchOne(s, batch[0], oks[0])
    case None => None
    case Some(t) => Dispatch(t, batch[1..], oks[1..])
  }

  /** The state the constructor leaves: 32 blank contexts and the tickle pipe registered. */
  function InitialIo(tickleFd: nat): Io {
    Io(Resize([], MIN_FDS), map[tickleFd := Only(READ)], 0, [], tickleFd)
  }
}
