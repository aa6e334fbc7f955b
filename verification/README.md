# Verified model of the scheduler, the IO manager and the timers

This Dafny project models the three stateful components of the coroutine server
framework and proves what they keep over every run:

* **Worker protocol** (`WorkerProtocol`, `WorkerSafety`, `WorkerDrain`, `WorkerLedger`,
  `WorkerNeeds`). `Scheduler::run` on any number of workers, as an interleaved transition system. One
  action is one step of one worker or of an outside thread: taking the lock, looking at
  one queue entry, beginning, decrementing, settling, the idle steps, and what the code on
  a fiber may do (spawn, wake, arm an event, yield, end, throw). Threads outside the
  scheduler may at any time, before and after stop, submit tasks, wake fibers, and fire or
  drop events. The queue lock is part of the state. Proved: exact counters, mutual
  exclusion per fiber, safe reuse of the cached callback fiber, no assertion failure, no
  lost fiber, exactly when the queue drains at shutdown, and bounded waiting.
  `WorkerLedger` has the conservation laws: every entry, every wake-up and every submitted
  function is accounted for. `WorkerNeeds` holds runs that show hypotheses to be needed
  and bounds to be sharp.
* **Signals** (`Signals`). Who wakes a worker out of `epoll_wait`: the test of idle workers
  in `tickle` against a worker that goes to wait. Proved: exactly which runs leave an entry
  queued with nobody coming for it, and that they then stall until a time-out.
* **The loop on one thread** (`RoundRobin`, `ScriptMeaning`, `Scheduler`). The same loop as
  imperative code over fiber objects, proved totally correct against a recursive round-robin interpreter of
  coroutine scripts, which in turn is proved to compute what a machine does that takes one
  construct at a time; together with the queue scan, `start` and `stop`.
* **Event table** (`EventTable`, `EventLaws`, `EventRuns`, `EventMeaning`, `IoManager`,
  `IoShutdown`). The descriptor contexts with the kernel's interest, the pending counter and the wake-ups
  they queue. `EventTable` follows the code branch by branch on values, `EventLaws` says
  exactly what each operation comes to, `EventRuns` proves the claims over whole runs,
  `EventMeaning` says who waits for what after any operation and whom it wakes, without
  slots and masks, `IoManager` has the classes with fields updated in place and the event buffer edited in
  place, each method proved equal to its value form, and `IoShutdown` puts one IOManager
  worker around the table and proves that it leaves nothing behind.
* **Timers** (`Timers`). Timer objects in a set ordered by (deadline, address), found only
  by asking the comparator, with the ordering key changed in place; 64-bit arithmetic
  wraps as in the program.

## How to read the model

* Kernel: a map from descriptors to registered interest. ADD needs an absent descriptor,
  MOD and DEL a present one; besides, every call takes a flag `ok` from the environment,
  so that a legal call may be refused. A refused call changes nothing. A batch from
  `epoll_wait` has at most one record for each registered descriptor, with bits drawn from
  its interest and possibly an error or hang-up.
* In time (`WorkerDrain.InTime`, `IoShutdown.InTime`): nothing in the program keeps another
  thread from submitting after stop. The claims about draining say what is in time: an
  entry while some worker has a scan to come; with events and timers, a task before the
  idle fiber has ended, a timer or an event before the test that ends it has read the
  timers or the pending count. All other claims hold of every run, late entries included.
* Wake-up discipline (`WorkerProtocol.Disciplined`): a wake-up (queue entry or event slot)
  is made only for a fiber that has none; a fiber that run will requeue itself leaves none
  behind, nor does a callback's fiber that ends and will be loaded again. Any other fiber
  may end with its wake-up still to come; it is then picked once more and dropped. The
  program does not enforce this; `WorkerNeeds.TwoWakeUpsBreakExclusion` and
  `WorkerNeeds.SelfWokenCallbackBreaks` are runs that break one clause each and with it
  exclusion. The counters (`CountersAlwaysExact`), `NoFiberLost`,
  `EndedForGood` and `NeverTaken` do not depend on it.
* What the loop of `run` calls is modelled from fiber.cpp and scheduler.h: `schedule` and
  `scheduleNoLock` (scheduler.h:37-48, 87-95; the pointer form of an entry empties the
  slot it is given, scheduler.h:112-125), `Fiber::reset` (fiber.cpp:93-108), `swapIn`
  (fiber.cpp:128-137), the two yields (fiber.cpp:155-167) and the end of a fiber
  (fiber.cpp:173-200).
* Fibers are scripts or callbacks without inner structure; a fiber that yields to hold stays
  in EXEC until `run` marks it HOLD, as in scheduler.cpp:191-194.
* `fiber.cpp:178` names the function of a fiber without calling it, and `fiber.cpp:196` and
  `fiber.cpp:224` compare where a member call is meant; the model takes the calls as made,
  as `fiber.cpp:207` does.

## Where the code does not do what is meant

* timer.cpp:74 assigns to the parameter where a comparison is meant. `Reset` is the
  comparison, `ResetAsWritten` the line as written; `ResetTypoHarmless` says exactly when
  the two agree and `ResetTypoIgnoresPeriod` names a family of calls that are ignored.
* timer.cpp:10-18 tests the right-hand side twice: `ComparatorOrder` says that the comparator
  goes wrong exactly on a null left-hand side against a timer.
* timer.cpp:104-111 lets a timer without callback into the set; cancel never takes it out
  again. The set invariant names these timers (`silent`).
* iomanager.cpp:382-413 does not mask the reported events by the armed ones.
  `DispatchOneExact` and, for a whole batch, `CrashExact` say exactly when the loop goes
  through an empty slot; with one worker that cannot happen (`BatchExact`), and
  `StaleReportCrashes` is a run where it does.
* iomanager.cpp:144-151 grows the table without looking at its size again under the write
  lock. `StaleGrowth` says exactly when a late resize breaks the table's invariant, and
  `StaleGrowthHappens` is a run where it does.
* iomanager.cpp:345-352 cuts the timeout to 32 bits: `TimeoutBounded` says exactly when the
  wait is bounded.
* scheduler.cpp:116-118 enters the root fiber whenever work is left; after a first stop that
  ran it, that is a resume of a finished fiber. `Scheduler.Stop` returns exactly when that
  does not happen.
* Tasks pinned to a thread that is not a worker, or to a worker after its last scan, are
  never taken: `NeverTaken`, for every run from any state. `DrainsExactly` says exactly
  which runs drain, `QueueDrained` gives a condition that can be looked up when a task is
  pinned, and `PinnedTaskIsLost` is a run that meets everything else and does not drain.
* scheduler.cpp:197-214 reuses a callback's fiber as soon as the callback has ended, without
  a look at the queue. A callback that schedules its own fiber once and returns leaves an
  entry behind; the next callback is then loaded into a fiber that another worker has
  picked: `SelfWokenCallbackBreaks`. `MutualExclusion` says under which discipline reuse
  and exclusion hold.
* scheduler.cpp:165-168 passes an entry whose fiber is still running. If the fiber parks
  during that scan, the scan may still take an entry behind it: `PassedEntryWaits`.
  `BoundedWaiting` has the bound that holds in general, `WaitUnpassed` the sharper one.
* A task that another thread submits after the idle fiber has ended is run, but what it
  leaves pending is not waited for, nor is a timer set after the timers were read:
  `LateTaskLeavesEvent`, `LateTimerIsLost`.
* scheduler.h:88-95 asks for a signal only on an empty queue, and iomanager.cpp:305-311
  sends it only if a worker is counted as idle. Between a scan of the empty queue and the
  increment of scheduler.cpp:230 a worker is not, so the only signal may be missed and every
  later submission stays silent: `UncoveredExactly` says exactly when,
  `UncoveredStalls` that only a time-out helps, and `StallHappens` is a run.
* iomanager.cpp:184 stores the scheduler of the calling thread without a test:
  `CallerNeedsScheduler` says that addEvent keeps the table in order exactly when there is
  one, and that waking the event goes through a null pointer otherwise.

## Model

| member | source | states |
|---|---|---|
| WorkerSafety.CountersAlwaysExact | scheduler.cpp:170-249 | In every state of every run, disciplined or not, the active count is the number of workers between pick and decrement and the idle count the number in the idle fiber; neither goes negative, and a true stopping means nothing is queued and nobody is mid-task |
| WorkerSafety.Step | scheduler.cpp:150-237 | Every disciplined step of any worker keeps the ownership invariant, and the assertions on its path (swapIn, reset, yield, arming) hold |
| WorkerSafety.MutualExclusion | scheduler.cpp:154-218 | In every reachable state no fiber is in the hands of two workers, unless it has ended and all of them only drop it; EXEC marks only fibers on some worker's stack, a cached callback fiber is blank and unreachable when a callback is about to be loaded, and no enabled step fails an assertion |
| WorkerSafety.EndsForGood | scheduler.cpp:183-223 | A fiber that ends outside the callback cache, with or without a wake-up still to come, is from then on cached by nobody and run by nobody |
| WorkerSafety.EndedForGood | scheduler.cpp:183-223 | In every run a fiber that has ended outside the callback cache is never run or changed again, however often a late wake-up has it picked |
| WorkerSafety.ReachableStep | scheduler.cpp:150-237 | Reachability is closed under disciplined steps, so that the claim above is about every prefix of every run |
| WorkerSafety.StepBegin | scheduler.cpp:183-205 | Beginning a picked task, through the fiber, the cached fiber or a new one, keeps the invariant, and swapIn and reset find the states that they assert |
| WorkerSafety.StepSettle | scheduler.cpp:186-218 | Requeueing, parking or retiring after a slice keeps the invariant, even when a wake-up was queued before the fiber had finished yielding |
| WorkerNeeds.TwoWakeUpsBreakExclusion | scheduler.cpp:161-185 | Without the wake-up discipline a run on two workers picks one fiber twice, and the second swapIn fails its assertion |
| WorkerNeeds.SelfWokenCallbackBreaks | scheduler.cpp:197-214 | A run whose only undisciplined step is the return of a callback that scheduled its own fiber once: the fiber is reset while queued, picked by one worker and loaded by another, so reuse, exclusion and swapIn's assertion fail |
| WorkerNeeds.PassedEntryWaits | scheduler.cpp:157-175 | A reachable state in which the head of the queue, unpinned and not running, is left where it is by the next pick |
| WorkerNeeds.PinnedTaskIsLost | scheduler.cpp:158-162 | Pinning in reach is needed: a disciplined run after which all workers have left and a pinned task is still queued |
| WorkerDrain.DrainStep | scheduler.cpp:150-237 | Whatever is pinned, and with entries from outside in time, while an unpinned entry is queued some worker has its last scan still to come, and a scanner that passed one is not the last to stay |
| WorkerDrain.ServedStep | scheduler.cpp:157-176 | A pinned entry that was in reach when it was made stays in reach: its worker's idle fiber goes on, or no scan of that worker has missed it |
| WorkerDrain.ExitedAtRest | scheduler.cpp:220-256 | Once all workers have left run both counters are zero, and every fiber not queued has ended, is parked, or is a blank one kept for callbacks |
| WorkerDrain.RestIsPinned | scheduler.cpp:220-256 | With pins allowed, and every entry from outside made while some worker had a scan to come, whatever is then left in the queue is pinned |
| WorkerDrain.QueueDrained | scheduler.cpp:157-256 | If moreover every pin named a worker whose idle fiber had not ended, or that still had a scan to come for a task not running, the queue is empty |
| WorkerDrain.DrainsExactly | scheduler.cpp:157-256 | The queue is empty at the end if and only if every entry from outside came while some worker had a scan to come, no entry was pinned to a missing worker or after a worker's last scan, and no worker ended its last scan with an entry of its own still queued |
| WorkerDrain.NeverTaken | scheduler.cpp:157-162 | In every run from any state an entry pinned to a missing worker, or to one that has made its last scan, is still in the queue at the end |
| WorkerDrain.NoFiberLost | scheduler.cpp:183-218 | In every run a fiber that is READY or has never run is in the queue or in a worker's hands |
| WorkerDrain.EntryKept | scheduler.cpp:155-175 | A step keeps every queue entry, in order, except that a pick hands its entry to the scanning worker |
| WorkerDrain.BoundedWaiting | scheduler.cpp:155-189 | In every reachable state an unpinned entry whose fiber is not running, with p entries ahead, is taken within p + 2 picks by any mix of workers; all picks but at most one bring it one place forward |
| WorkerDrain.WaitUnpassed | scheduler.cpp:155-189 | If no scan under way has passed the entry, it is taken within p + 1 picks, and every pick brings it one place forward |
| WorkerLedger.QueueLedger | scheduler.cpp:155-219 | Over any run and for every task: entries there were plus entries that entered are entries taken plus entries still there |
| WorkerLedger.WakeUpStep | iomanager.cpp:79-91 | Firing moves a wake-up from its slot to the queue; a fiber's wake-ups grow by one exactly on an arm or an entry not fired, and shrink by one exactly on a drop or a pick |
| WorkerLedger.WakeUpLedger | scheduler.cpp:154-218 | In every run each wake-up ever made for a fiber was dropped, has led to a turn that is over, is in a worker's hands, or waits in the queue or a slot; so a parked fiber with a wake-up neither dropped nor served is armed, queued or held |
| WorkerLedger.WorkLedger | scheduler.cpp:154-218 | In every disciplined run each function submitted was run to its end once, or threw and was forgotten with its callback fiber, or is still queued, picked or loaded: none is lost, run twice or overwritten |
| WorkerLedger.BeginRuns | scheduler.cpp:183-205 | A worker that begins runs the fiber it picked with the work that fiber has, or the callback it picked on its own fiber, and leaves an ended fiber alone |
| WorkerLedger.LifeCycle | scheduler.cpp:183-218 | The only changes of a fiber's state, and the steps that make them |
| WorkerLedger.IdleEnds | scheduler.cpp:220-256 | An idle fiber ends exactly on a test that finds the scheduler stopping and nothing else pending, and a worker leaves exactly when it comes back to an ended one |
| RoundRobin.SliceShrinks | scheduler.cpp:183-218 | What a slice appends to the queue is smaller than what it started from, so finite scripts terminate |
| RoundRobin.Advance | scheduler.cpp:150-219 | Performing the head of the queue keeps the run on its way to the interpreter's outcome and makes the queue smaller |
| ScriptMeaning.SliceUpTo | scheduler.cpp:185-218 | A slice performs exactly the effects and spawns before the first end or yield and ends as that says: READY and a requeue keep the rest to be run, a hold parks exactly the rest |
| ScriptMeaning.HoldInQueue | scheduler.cpp:191-194 | A hold parks what stands behind it, performs none of it, and the others go on as without it |
| ScriptMeaning.ReadyInQueue | scheduler.cpp:188-190 | A yield to READY puts the rest behind the queue and the tasks just spawned |
| ScriptMeaning.InterpretIsMachine | scheduler.cpp:150-219 | The interpreter computes the final state of the machine that takes one construct at a time |
| ScriptMeaning.ParkedBehindHolds | scheduler.cpp:191-217 | What a run leaves parked is exactly what stands behind the holds it reaches, in order |
| Scheduler.Scheduler.Schedule | scheduler.cpp:188-208 | Entries go to the end of the queue and a signal is sent exactly when it was empty |
| Scheduler.Scheduler.ScanQueue | scheduler.cpp:154-177 | The scan removes exactly the first eligible entry and keeps the order of the rest; it asks for a signal exactly when it passed an entry pinned elsewhere or left entries behind the pick, hence always when an entry pinned elsewhere remains |
| Scheduler.Scheduler.Execute | scheduler.cpp:185-196 | The code of a fiber up to its next yield has the effects and spawned tasks of the script's slice, and leaves the fiber in TERM, EXCEPT, READY or still in EXEC, with exactly the rest to do, as the slice ended |
| Scheduler.Scheduler.Resume | scheduler.cpp:185-194 | A resumed fiber runs one slice, the active count goes down, and the fiber ends in TERM or EXCEPT, is requeued in READY, or is in HOLD with exactly the rest to do |
| Scheduler.Scheduler.RunCallback | scheduler.cpp:197-218 | A callback does the same through the cached fiber, which stays cached only if blank and unknown to the queue and the parked fibers |
| Scheduler.Scheduler.Perform | scheduler.cpp:183-219 | A picked task appends what its slice says and touches no other queued or parked fiber |
| Scheduler.Scheduler.RunIdle | scheduler.cpp:230-256 | The idle fiber ends exactly on a true stopping, and the idle count is restored |
| Scheduler.Scheduler.Run | scheduler.cpp:138-239 | After stop, run terminates with an empty queue, no active task and the idle count as before; its trace and the fibers it leaves parked are those of the round-robin interpreter on the initial queue, and of the machine that takes one construct at a time |
| Scheduler.Scheduler.Stop | scheduler.cpp:75-119 | stop on the calling thread runs everything queued to its end as the interpreter says, and completes exactly when the root fiber has not run yet or nothing is queued |
| EventLaws.TriggerAtExact | iomanager.cpp:79-91 | A trigger succeeds exactly on an armed event, empties its slot and queues the very waiter it was armed with |
| EventLaws.GrowLegal | iomanager.cpp:163-168 | The choice of ADD or MOD is legal for the kernel's state exactly off the tickle pipe |
| EventLaws.ShrinkLegal | iomanager.cpp:209-215 | The choice of MOD or DEL is legal for the kernel's state on every context with something armed |
| EventLaws.AddExact | iomanager.cpp:141-194 | addEvent aborts exactly on an armed event, or when it would arm a calling fiber that is not in EXEC; its empty-slot assertion never fails, and it arms the waiter exactly when the kernel accepts; otherwise only the table has grown |
| EventLaws.CallerNeedsScheduler | iomanager.cpp:184-193 | A successful addEvent keeps the invariant if and only if the calling thread has a scheduler; without one, cancelling the event goes through a null pointer |
| EventLaws.DelExact | iomanager.cpp:196-228 | delEvent succeeds exactly on an armed event with the kernel's consent, drops the waiter without waking it, and otherwise changes nothing |
| EventLaws.CancelExact | iomanager.cpp:230-260 | cancelEvent never goes through an empty slot; it disarms and wakes exactly the one event, or changes nothing |
| EventLaws.CancelAllExact | iomanager.cpp:262-299 | cancelAll disarms and wakes everything armed for the descriptor, READ first, or changes nothing; its final assertion never fails |
| EventLaws.DispatchOneExact | iomanager.cpp:370-413 | A dispatched record goes through an empty slot if and only if the kernel accepts and it reports an armed event together with an unarmed one; with all reported events armed it wakes exactly these |
| EventRuns.BatchExact | iomanager.cpp:369-414 | A batch drawn from the kernel's interest, of any length, triggers exactly the armed events it reports (all armed ones on error or hang-up), queues their waiters in the batch's order, leaves all other contexts alone, keeps the invariant and never goes through an empty slot |
| EventRuns.CrashExact | iomanager.cpp:369-414 | For any batch of records for different descriptors, stale or not, the loop goes through an empty slot if and only if some record, judged before the loop, is accepted by the kernel and reports an armed event with an unarmed one |
| EventRuns.StaleReportCrashes | iomanager.cpp:382-413 | A delete between the wait and the loop makes the unmasked dispatch go through an empty slot |
| EventRuns.StaleGrowth | iomanager.cpp:144-151 | A growth step that comes late keeps the invariant if and only if no context it cuts off has an event armed |
| EventRuns.StaleGrowthHappens | iomanager.cpp:144-151 | From the constructor on, another thread's growth to 150 contexts and an armed event followed by the late resize to 60 lose that event |
| EventRuns.CancelAllRefines | iomanager.cpp:230-299 | cancelAll gives the state of cancelling READ and then WRITE, and its result is their disjunction; a hang-up record for an armed descriptor gives the same state |
| EventRuns.StepKeeps | iomanager.cpp:141-414 | No operation aborts, each keeps slots, kernel interest and pending count in agreement, and none takes back a queued wake-up |
| EventRuns.StepBalanced | iomanager.cpp:141-414 | Each operation balances, for every waiter, what it arms against what it wakes, drops and leaves armed |
| EventRuns.Ledger | iomanager.cpp:141-414 | Over any run and for every waiter: times armed equal times queued plus times dropped by delEvent plus times still armed |
| EventRuns.EveryRun | iomanager.cpp:93-414 | From the constructor on, in every reachable state the invariant holds, the pending count equals the number of armed bits in the table, and no waiter is queued more often than armed |
| EventMeaning.RecordMeans | iomanager.cpp:370-413 | A record, stale or not, crashes exactly if it is accepted, reports an armed event, and has the bit of an unarmed one; otherwise an accepted record leaves nobody waiting for a reported event, everybody else as before, and queues exactly those it took, READ first |
| EventMeaning.BatchCrashMeans | iomanager.cpp:369-414 | A batch crashes exactly if one of its records does so in the state before the loop |
| EventMeaning.OpMeans | iomanager.cpp:141-414 | After any operation each event has the waiter just armed, or nobody if the operation took it, or whom it had; what is queued is exactly whom cancelling or dispatching took, in order, and deleting queues nothing |
| IoManager.FdContext.TriggerEvent | iomanager.cpp:79-91 | The context and the queued entry are those of the value form, so the waiter has left its slot |
| IoManager.TimeoutBounded | iomanager.cpp:342-358 | The timeout given to epoll_wait is within 0 and 3000 if and only if there is no timer or its distance cut to 32 bits is not negative; it is then that distance, or 3000 if that is less or there is no timer; repeating the computation after EINTR changes nothing |
| IoManager.Manager.constructor | iomanager.cpp:93-115 | The table starts valid, with 32 blank contexts and only the tickle pipe registered |
| IoManager.Manager.ContextResize | iomanager.cpp:130-139 | The table has the new size, keeps the contexts that fit, as the same objects, and holds blank ones after them |
| IoManager.Manager.AddEvent | iomanager.cpp:141-194 | The method keeps the invariant and is the value form, for which AddExact, the ledger and the kernel agreement are proved |
| IoManager.Manager.DelEvent | iomanager.cpp:196-228 | The method keeps the invariant and is the value form (DelExact) |
| IoManager.Manager.CancelEvent | iomanager.cpp:230-260 | The method keeps the invariant and is the value form (CancelExact) |
| IoManager.Manager.CancelAll | iomanager.cpp:262-299 | The method keeps the invariant and is the value form (CancelAllExact) |
| IoManager.Manager.DispatchOne | iomanager.cpp:369-414 | One iteration on the buffer edited in place keeps the invariant and edits no other record; an event of the descriptor stays armed exactly if it was and is not reported, by its bit or by an error or hang-up, in an accepted record, and exactly the waiters of the others are queued |
| IoManager.Manager.Dispatch | iomanager.cpp:369-414 | The loop over a buffer that starts with a consistent batch keeps the invariant, is the value form (BatchExact), and queues exactly the reported waiters, record by record |
| IoShutdown.OrderlyStep | iomanager.cpp:313-422 | Every step of the single worker, and every step of another thread that is in time, keeps the active count exact and what the test of stopping has read true; after a positive test nothing is left that could move |
| IoShutdown.NothingPending | iomanager.cpp:313-319 | A zero pending count means blank contexts, bits and both slots, and no interest but the tickle pipe's |
| IoShutdown.CleanShutdown | iomanager.cpp:313-340 | When the single worker has left run, and no task, timer or event of another thread came too late, the queue is empty, active and pending counts are zero, there is no timer, every context is blank, and only the tickle pipe is registered |
| IoShutdown.FlowStep | iomanager.cpp:326-422 | Each step queues exactly the new tasks, requeued fibers, expired callbacks and this scheduler's waiters that were cancelled or reported, in order, and takes only by a scan |
| IoShutdown.Flow | iomanager.cpp:326-422 | Over any run, what was taken followed by what is queued is the first queue followed by everything that entered, in order |
| IoShutdown.EverythingTaken | scheduler.cpp:220-228 | At a clean exit every task that ever entered the queue has been taken, in order |
| IoShutdown.LateTaskLeavesEvent | scheduler.cpp:220-228 | A task submitted after the idle fiber has ended arms an event, and the worker leaves run with that event pending |
| IoShutdown.LateTimerIsLost | iomanager.cpp:313-317 | A timer set after the test of stopping has read the timers does not keep the worker from leaving |
| Signals.CoveredStep | iomanager.cpp:305-311 | A step leaves a queued entry without a worker coming or a signal on its way if and only if it is the last signal asked for and every worker is between a scan of the empty queue and being counted as idle |
| Signals.UncoveredExactly | iomanager.cpp:305-311 | The same over runs of any number of workers and submissions up to the first time-out |
| Signals.UncoveredStalls | scheduler.cpp:230-231 | From then on no step but a time-out takes an entry or sends a signal, and the workers' own steps lead to all of them waiting in epoll_wait with entries queued |
| Signals.StallHappens | scheduler.cpp:176-231 | From the start, a run of one worker and one submission that stalls |
| Signals.EntriesKept | scheduler.cpp:154-177 | Over any run every entry that came was taken by a scan or is still queued, and the idle count stays the number of workers in their idle fibers |
| Timers.StartRecovered | timer.cpp:97 | The start time is recovered from a deadline, wrapped or not; the subtraction underflows exactly when the deadline had wrapped |
| Timers.ComparatorOrder | timer.cpp:3-28 | The comparator is the strict total order by deadline and then address on timers, says no to a null right-hand side, and goes wrong on pointers exactly for a null left-hand side against a timer |
| Timers.Timer.Cancel | timer.cpp:43-54 | cancel succeeds exactly once, takes exactly this timer out, always finds it, and keeps the set sorted with membership as before |
| Timers.Timer.TakeOut | timer.cpp:62-67 | A timer with a callback is always found and exactly it leaves the set; the not-found branch is unreachable |
| Timers.Timer.Refresh | timer.cpp:55-71 | refresh succeeds exactly on a live timer, keeps its period and makes the deadline now plus that period in 64 bits, keeps the members and the order; a dead timer is left as it is |
| Timers.Timer.Reset | timer.cpp:72-103 | reset as meant succeeds exactly on a live timer or where nothing is to change, sets the new period and the deadline from now or from the old start in 64 bits, keeps the members and the order |
| Timers.Timer.ResetAsWritten | timer.cpp:72-103 | The same for the line as written: a live timer reset from now gets period 0 and the deadline now, and every other call changes nothing |
| Timers.ChangedFields | timer.cpp:43-103 | What cancel, refresh and both forms of reset leave of period, deadline and callback, for live and dead timers |
| Timers.ResetTypoHarmless | timer.cpp:74-77 | The assignment does what the comparison would if and only if one of three conditions on the arguments holds |
| Timers.ResetTypoIgnoresPeriod | timer.cpp:74-77 | For a live timer a request for another period with the start kept is reported done and ignored |
| Timers.StartIsLastReading | timer.cpp:43-100 | Over any sequence of cancels, refreshes and resets, meant or as written, of a live timer, the deadline less the period in 64 bits is the clock reading of the last add, refresh or reset from now; the subtraction underflows exactly when the deadline has wrapped, and the timer is live exactly if no cancel came |
| Timers.StartSinceAdded | timer.cpp:29-100 | The same counted from the clock reading of addTimer |
| Timers.TimerManager.Find | timer.cpp:49 | A search that only asks the comparator finds a timer exactly when it is a member, and then that very timer |
| Timers.TimerManager.Erase | timer.cpp:67 | Exactly the timer at the position leaves, and the order is kept |
| Timers.TimerManager.Insert | timer.cpp:69 | Exactly the timer is added, at the place that keeps the set sorted |
| Timers.EarliestFirst | timer.cpp:19-27 | In the set deadlines never decrease, so the first timer is the next one due, and timers with one deadline are in the order of their addresses |
| Timers.TimerManager.AddTimer | timer.cpp:104-111 | The set gains exactly the new timer, stays sorted, and membership still means a callback, except for timers added without one |

## Left out

- Real epoll, pipes, errno, the tickle bytes and the `data.fd`/`data.ptr` union: the kernel is a map and a flag for each call.
- Mutexes other than the queue lock, and memory ordering: the event operations are single steps; lookup and growth in addEvent are one step, with `StaleGrowth` for what that hides.
- Thread creation, join, thread-local variables, and `start`/`stop` with more than the calling thread: workers are indices, and stop is a request.
- Context switching and stacks (`getcontext`, `swapcontext`, `makecontext`): a slice runs to its next yield; setting READY and leaving the stack are one step.
- The bodies of `getNextTimer`, `listExpiredCb`, `addTimer(timer, lock)` and `onTimerInsertedAtFront`'s caller are not in the repository: the time to the next timer and the expired callbacks are inputs, and adding a timer only inserts it.
- IoShutdown.CleanShutdown: one worker only, because with several a READY fiber is briefly in no place while the test of stopping reads its three values.
- IoShutdown.CleanShutdown: the wait, the expired callbacks and the dispatch of one poll are one step (`CrashExact` says what a cancel by another thread in between can do), and a waiter of another scheduler leaves this queue alone.
- Signals.UncoveredExactly: pinned entries and fibers still running, which a scan passes; time-outs stand also for events of other descriptors.
- Scheduler.Scheduler.Run: needs every queued task free to run on this thread, a fiber queued at most once, and no wake-up of a parked fiber; other threads and events are the subject of the transition systems.
- Scheduler.Scheduler.Stop: the case of the caller's thread being the only worker.
- EventTable.AddEvent: one of READ or WRITE at a time, and a non-negative descriptor.
- EventRuns.EveryRun: runs in which addEvent is called on a scheduler's thread, and without a callback only on a fiber in EXEC (a running fiber is, by `MutualExclusion`); `AddExact` and `CallerNeedsScheduler` say what happens otherwise.
- WorkerDrain.QueueDrained: a fiber pinned while it still runs, to a worker whose idle fiber has ended, may or may not be taken, depending on the order of steps; `DrainsExactly` decides it for each run.
- WorkerDrain.BoundedWaiting: counts picks, not time; nothing forces a worker to scan.
- Timers.TimerManager.AddTimer: the address of a timer may be used again once the timer is out of the set and freed (`Forget`); a freed timer that is still a member is not part of this model.
- Timers.Timer.Cancel: timers without callback from the start stay members; locks, the second constructor (timer.cpp:38-42) and OnTimer are not part of this model.
- Descriptors closed while armed, an exception in the idle fiber, and empty callbacks in `schedule`.
- `SchedulerSwitcher` and `switchTo` to another thread or scheduler beyond the wake-up and yield they amount to; `Scheduler::dump`, the ostream printers and all logging.
- hook.h, GateServer.h, macro.h, config, log, mutex, thread and the tests: declarations, wrappers and plumbing without protocol state.
