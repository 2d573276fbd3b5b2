# awcotn: a verified model of the fiber reactor

awcotn schedules cooperative fibers on N worker threads. Workers share one run queue
(`Scheduler`); a fiber that would block arms an epoll event or a timer and yields
(`do_io`, `connect`, `sleep`), and is put back into the queue by whoever wakes it: the epoll
loop of the idle fiber, an expired timer, a timeout's `cancelEvent`, or `close`. The
questions that matter cross these modules: who may resume a suspended fiber, whether it is
resumed exactly once, whether counters and kernel masks agree with the event table, whether
a timeout can be lost, and when a worker may leave.

The project has three layers over one set of specification functions.

* **Values.** `EventTable`, `TimerSet` and `RunQueue` say what each operation does, as
  functions that take the branches of the C++ code in order. `Reactor` is a state machine
  over them: a step is one mutex-protected section, or what a thread does between two of
  them, and the hooked calls are program counters of the fibers that execute them. User
  code and outside threads may do anything their callers' contracts allow. `ReactorInv`
  holds the inductive invariant; `LoopKeeps`, `CodeKeeps` and `UserKeeps` prove every step
  keeps it; `ReactorRuns` lifts it to every run; `ReactorSafety`, `ReactorLedger`,
  `ReactorConserved`, `ReactorTimeout`, `ReactorMissed`, `ReactorWakes`, `ReactorExit`,
  `ReactorOrder` and `ReactorProgress` draw the consequences; `ReactorSteps` says what the steps
  do to each part of the state. Lemmas that end in `Exactly` or `Means` give the result of an
  operation in the fields, flags and literal numbers of its input. `EventRuns`, `TimerRuns` and `QueueRuns` do the same
  for histories of one component.
* **The kernel around it.** `ReactorWorld` puts the reactor into a world in which reports are
  made when `epoll_wait` returns and gone through later, connection attempts go on for a
  while, and a closed descriptor drops out of epoll unannounced. A run of the world is a run
  of the reactor, so all of the above holds in it. `ConnectRuns` and `ReactorStranded` say
  what can go wrong there. These two, `ReactorMissed` and `ReactorAbandoned` also hold
  runs of two workers that end in the state in question (`Scenes` has their common ground).
* **Objects.** `EventCode`, `TimerCode`, `SchedulerCode`, `FdOverlay`, `HookedCalls` and
  `LogPattern` hold the classes and loops in the form of the source, proved against the
  functions of the first layer (or, for the pattern language, `do_io` and `fcntl`, against
  their own specification functions).

## What the proofs found

* **Overdue timers stall the set.** `listExpiredCb` returns early when the earliest
  deadline is `< now` (`awcotn/timer.cc:149`); `getNextTimer` shows that `>` is meant. As
  written, an expiry hands out something only in the very millisecond of the earliest
  deadline, or when the clock went back by an hour (`TimerRuns.HandsOutExactly`). One missed
  millisecond therefore stops every later expiry (`TimerRuns.OverdueStalls`) until the clock
  reads that deadline again or rolls back, or the overdue timer is cancelled or gets a later
  deadline. The two readings agree exactly when nothing is overdue or the clock rolled back
  (`TimerRuns.WrittenMeetsIntended`). In runs of the timer set and of the reactor an expiry
  carries the reading to use, so what is proved of all runs holds of the code as written and
  of the repaired test alike.
* **A hang-up can end the process.** The dispatch loop widens `EPOLLERR`/`EPOLLHUP` to both
  directions without masking by what is armed (`awcotn/iomanager.cc:473-474`), so
  `triggerEvent`'s assertion fails exactly when both directions are reported while one is armed,
  and `epoll_ctl` succeeds (`EventTable.DispatchAborts`, `EventTable.HangUpOnReader`;
  for a whole wake-up `EventRuns.DispatchAbortsExactly`).
* **A timeout can be missed.** When the timeout closure runs while its fiber is on its way
  to `addEvent` (also on a retry, when an earlier round's callback was still queued), or its
  `epoll_ctl` fails, it sets `cancelled` and releases nobody; a callback of the call that
  comes to its test later is then a no-op (`ReactorTimeout.MissedExactly`,
  `ReactorTimeout.OneShot`). No lock covers the test, so two callbacks can both pass it; the
  timeout is missed only if no other one is still going to cancel.
  `ReactorMissed.TimeoutCanBeMissed` is a run of two workers that ends in a fiber waiting
  like this. Otherwise the timeout stays under way: a waiting fiber has it somewhere on its
  path exactly if it was not missed (`ReactorMissed.UnderWayExactly`). Under way is not
  fired: as long as the timer is in the set, an expiry takes it along exactly when it is due
  and the early return lets it, which with the test as written a stalled set does not
  (`ReactorMissed.DueIsHandedOut`).
* **Leaving is a race, and work can be abandoned.** A quiescent state stays quiescent exactly
  if no worker carries expired callbacks, or a READY fiber that it has counted off, which it
  has still to schedule (`ReactorExit.StaysQuiescentExactly`,
  `ReactorAbandoned.QuiescenceIsNotStable`). And `stopping()` makes its three reads one after
  another: an idle fiber can end while a timer is pending
  (`ReactorAbandoned.EndsWithTimerPending`), though each read by itself had found nothing
  (`ReactorExit.ExitNeedsCheck`). No work is lost (`ReactorExit.NoWorkAbandoned`,
  `ReactorConserved.AllCallbacksStarted`) unless outside threads bring it when no worker is
  going to look for it any more, or a worker takes work after its own idle fiber has ended:
  then all workers can leave while a fiber sleeps (`ReactorAbandoned.WorkCanBeAbandoned`, a
  run of two workers with nothing from outside after the stop).
* **Two ways to strand a waiting fiber.** `delEvent` throws its continuation away. And `close`
  runs `cancelAll` before the real close (`awcotn/hook.cc:384-390`): a fiber that is resumed
  in between, gets EAGAIN and arms its event again is armed in the table when the kernel
  drops the descriptor. Closing a descriptor freezes its context exactly if something is
  armed there at that moment (`ReactorStranded.ClosingFreezesExactly`,
  `ReactorStranded.CloseCanStrand`); the fiber is then never released, also not by its timeout,
  the pending count never returns to zero, and no worker that is not past the read of that
  count ever ends its idle fiber (`ReactorStranded.StrandedForever`,
  `ReactorStranded.PoolNeverStops`).
* **`connect` can report success for a connection in progress**, because `SO_ERROR` is no
  error while the attempt goes on (`HookedCalls.ConnectFalseSuccess`). In the world with the
  kernel it does so exactly when the attempt goes on, `getsockopt` works, and `addEvent` had
  failed or the wait was ended by something else than a report made after `addEvent`
  (`ConnectRuns.FalseSuccessExactly`): by anybody's cancel or an earlier call's late timeout
  (`ReactorWakes.WokenExactly` lists what ends a wait), or by a report that a worker had
  collected before (`ConnectRuns.OldReportFools`, a run in which no cancel is involved).
* **`O_NONBLOCK` has no effect on a socket's reads and writes**: `awcotn/hook.cc:113` asks
  for a descriptor that is no socket and non-blocking, where either should do
  (`HookedCalls.NonblockingExactly`).
* **Recurring timers can come back unnoticed**: an expiry puts them back without the front
  check, which loses a wake-up exactly when one lands before the deadline that was last seen
  (`TimerRuns.ExpireWatchedExactly`): after a rollover (`TimerRuns.RolloverLosesWakeup`), or
  when the sum wraps (`TimerRuns.WrapLosesWakeup`).
* **A pin lasts for one turn.** An entry that `schedule` pins to a thread is taken by that worker
  and no other, in every run (`ReactorOrder.PinnedToItsWorker`), but whoever brings the fiber
  back after a yield or a wait puts it there for any thread (`ReactorSteps.LoopQueue`,
  `ReactorSteps.OpQueue`).
* **Nobody gets stuck** between two steps, but at an `addEvent` whose event is armed already, where
  the process ends by assertion (`ReactorProgress.NeverStuck`).
* **`%%` is no escape**: it consumes one character, so the second `%` starts an item
  (`LogPattern.PercentRun`, `LogPattern.PercentStartsItem`).
* **fcntl**: a failing `F_SETFL` changes the user's bit all the same, a failing `F_GETFL` is
  masked into another number than -1, and a socket created non-blocking shows as blocking
  until the first `F_SETFL` (`FdOverlay.FailedSetAgreesExactly`, `FdOverlay.FailedGetExactly`,
  `FdOverlay.OverlayExactly`). `FdOverlay.Overlay` has the exact condition for histories.
* **`sleep`** multiplies in 32 bits: it sleeps its full time exactly up to 4294967 seconds
  (`HookedCalls.SleepFullTimeExactly`).

## Reading the reactor model

The state has the fibers (state and program counter), the hooked calls in progress or over,
the run queue, the event table with the kernel's masks, the timer set, the workers (scanning,
popped, running, about to schedule a READY fiber, in the parts of the idle fiber, exited) and
the counters. A *resume token* of fiber f is an outstanding task that will bring it back: a
queue entry, an armed slot, an entry in a worker's hands, a sleep timer, or the sleep timer's
callback on its way (in the set, a worker's vector, the queue, a fiber's body). The core of the invariant counts tokens and
holders per fiber: one token and no holder while suspended, one holder and no token while
running user code, none of either once ended. Counts are pointwise facts about multisets
collected from every place a task can be, and each step is shown to move at most one place.

Granularity: pop and `swapIn` are separate steps; so are a READY fiber's swap-out, with which
the worker is counted off, and its return to the queue; so are the three reads of
`stopping()`, and a timeout closure's test, its setting of `cancelled` and its `cancelEvent`.
A fiber's swap-out and the worker's fix-up of its state are one step (no lock protects the
gap); `addEvent`'s lookup and resize are one step, and so are the two locked parts of
`listExpiredCb`; the clock is past the epoch. Timer addresses are not used again while the
model runs. What callers owe is a condition on their steps: `addEvent` only on an event that
is not armed (the code asserts it), `schedule(fiber)` only for a fiber that was never
scheduled or run, timer handles only of one's own timers, and suspension only through the
hooked calls and `YieldToReady`. A dispatch step whose assertion fails has no next state.

## Model

| member | source | states |
|---|---|---|
| EventTable.AddEventEffect | awcotn/iomanager.cc:137-218 | On an event that is not armed, addEvent fails exactly when epoll_ctl does and then arms nothing; else the continuation alone is added, its slot was empty (the assertion at 202 holds), and the table invariant survives, also when the vector grows |
| EventTable.AddEventExactly | awcotn/iomanager.cc:137-218 | Field by field: the vector is grown to fd + fd/2 when the fd is out of range, also if epoll_ctl then fails; on success the one bit, its slot, the kernel's mask and the counter change, nothing else |
| EventTable.GrowKeeps | awcotn/iomanager.cc:119-127 | Growing the vector brings the fd into range, arms nothing and keeps the invariant |
| EventTable.DelEventEffect | awcotn/iomanager.cc:227-263 | delEvent succeeds iff the event is armed and epoll_ctl succeeds; exactly that continuation leaves the table, unscheduled; else nothing changes |
| EventTable.CancelEventEffect | awcotn/iomanager.cc:272-307 | cancelEvent does to the table what delEvent does, and hands out exactly the slot's continuation iff it succeeded |
| EventTable.RemovedExactly | awcotn/iomanager.cc:227-307 | Field by field for both: success iff the bit is set and epoll_ctl succeeds; then the bit, its slot, the kernel's mask (dropped with the last bit) and the counter change, nothing else; cancelEvent hands out what the slot held |
| EventTable.CancelAllEffect | awcotn/iomanager.cc:315-354 | On success cancelAll hands out exactly this fd's armed continuations, READ before WRITE, and leaves its context as new (the assertion at 352 holds); on a failed epoll_ctl or an unknown fd nothing changes; other contexts always stay |
| EventTable.TriggerEachEffect | awcotn/iomanager.cc:45-56 | Triggering clears exactly the wanted bits and moves exactly their continuations out of the row |
| EventTable.DispatchAborts | awcotn/iomanager.cc:470-518 | One dispatch entry trips triggerEvent's assertion iff it reports both directions (input and output, or an error or a hang-up), exactly one of READ and WRITE is armed, and its epoll_ctl succeeds |
| EventTable.HangUpOnReader | awcotn/iomanager.cc:473-474 | Concrete table: a hang-up on a fd armed for READ only aborts |
| EventTable.DispatchOneExactly | awcotn/iomanager.cc:455-519 | Otherwise READ leaves the row, and its continuation is released, iff it is armed, epoll_ctl succeeds and input, an error or a hang-up is reported; WRITE likewise with output; READ before WRITE; no other row changes |
| EventTable.DispatchOneEffect | awcotn/iomanager.cc:455-519 | Kernel masks, counter and slots stay in agreement over it, and armed = still armed + released as multisets |
| EventRuns.RunBalances | awcotn/iomanager.cc:137-354 | After any history with any epoll_ctl failures: pending counter = armed bits, kernel masks = events, slots occupied iff armed, and accepted = armed + queued + dropped as multisets; what was queued stays queued in order |
| EventRuns.StartBalanced | awcotn/iomanager.cc:65-94 | What the constructor leaves behind satisfies all of that |
| EventRuns.StartsEmpty | awcotn/iomanager.cc:65-94 | It is 32 contexts with nothing armed, registered or pending |
| EventRuns.AcceptedOnceQueuedAtMostOnce | awcotn/iomanager.cc:45-56 | A continuation accepted once is in exactly one of armed slot, queue history, dropped: competing wakers queue it once in total |
| EventRuns.DispatchAbortsExactly | awcotn/iomanager.cc:455-519 | For any reports, one per fd: the whole loop aborts iff some entry, looked at before the loop, reports both directions on a fd with exactly one armed, and its epoll_ctl succeeds |
| EventRuns.DispatchReleases | awcotn/iomanager.cc:455-519 | In all other batches the loop keeps the invariant and releases, entry by entry, what the table held before it for READ if input, an error or a hang-up is reported, then for WRITE if output, an error or a hang-up is, and epoll_ctl succeeds |
| EventRuns.DispatchSpares | awcotn/iomanager.cc:455-519 | A fd that no successful entry is about keeps its row |
| EventRuns.DispatchTakes | awcotn/iomanager.cc:492-518 | Over the whole loop an event leaves its fd iff it was armed, the fd's entry reports it, or an error or a hang-up, and its epoll_ctl succeeds |
| EventCode.FdContext.TriggerEvent | awcotn/iomanager.cc:45-56 | In place: the bit is cleared, the slot emptied, its continuation handed out |
| EventCode.IOManager.ContextResize | awcotn/iomanager.cc:119-127 | The resize loop keeps old contexts and makes an empty one with its own fd for every new position |
| EventCode.IOManager.AddEvent | awcotn/iomanager.cc:137-218 | The method on the objects refines the table function, keeps the invariant and schedules nothing |
| EventCode.IOManager.DelEvent | awcotn/iomanager.cc:227-263 | Refinement as above; nothing is scheduled |
| EventCode.IOManager.CancelEvent | awcotn/iomanager.cc:272-307 | Refinement; exactly the released continuation is appended to what was scheduled, and the result says whether there was one |
| EventCode.IOManager.CancelAll | awcotn/iomanager.cc:315-354 | Refinement; the released continuations are appended in order; true iff something is armed on the fd and epoll_ctl succeeds |
| EventCode.IOManager.DispatchOne | awcotn/iomanager.cc:456-518 | One turn refines the table function; on the objects: it aborts iff both directions are reported with one armed, and takes off and schedules READ iff armed and input, error or hang-up is reported, WRITE likewise with output |
| EventCode.IOManager.DispatchLoop | awcotn/iomanager.cc:455-519 | The loop over the event buffer equals the fold of its turns, abort included |
| EventCode.IOManager.Dispatch | awcotn/iomanager.cc:455-519 | For one entry per fd it releases what the contexts held before it and takes off each fd what its entry reports, in the terms of input, output and error or hang-up |
| TimerRuns.ComparatorTotal | awcotn/timer.cc:7-21 | The comparator with its null cases is a strict total order on (deadline, address) |
| TimerRuns.ComparatorMeans | awcotn/timer.cc:7-21 | Null first, then the earlier deadline, then the lower address; the set is ordered by it |
| TimerRuns.AddTimerExactly | awcotn/timer.cc:173-186 | The timer alone is added; the idle worker is notified iff it comes before all others and m_tickled was clear, and then m_tickled is set |
| TimerRuns.CancelExactly | awcotn/timer.cc:37-46 | Succeeds iff the timer is in the set, and takes it alone out |
| TimerRuns.RefreshExactly | awcotn/timer.cc:48-61 | On every timer in the set it succeeds; its deadline is now + m_ms modulo 2^64, the others stay; notified as by adding it anew |
| TimerRuns.ResetExactly | awcotn/timer.cc:65-91 | It does nothing and fails iff the period is the same and it is not to count from now; else the deadline is now + ms, or m_next - m_ms + ms, modulo 2^64 |
| TimerRuns.SpentIsLeftAlone | awcotn/timer.cc:48-74 | Both fail on a timer that is not in the set |
| TimerRuns.NextTimerExactly | awcotn/timer.cc:121-133 | Clears m_tickled; ~0 on an empty set, 0 iff some timer is due, else exactly the time to the earliest deadline |
| TimerRuns.NotYetDue | awcotn/timer.cc:188-196 | A timer that is not due is handed out iff the clock went back: by more than 3600000 ms from a reading of at least that, by any amount from an earlier one, where the bound wraps |
| TimerRuns.MeasuredAgainstLast | awcotn/timer.cc:135-148 | An expiry of a non-empty set remembers its reading for the next one; of an empty set it returns before |
| TimerRuns.HandedOutInOrder | awcotn/timer.cc:158-169 | The callbacks come out by deadline, those of one deadline by address |
| TimerRuns.ExpiryExact | awcotn/timer.cc:135-171 | With the test turned round: exactly the timers with deadline <= now (all if the clock was set back as in NotYetDue) are handed out, a sorted front part; exactly the others and the recurring ones at now+period remain, ordered |
| TimerRuns.ExpiryIffDue | awcotn/timer.cc:121-133 | Something is then handed out iff getNextTimer at that time is 0 |
| TimerRuns.ExpiryAsWritten | awcotn/timer.cc:146-157 | As written: the timers with deadline = now if none is overdue, else none |
| TimerRuns.WrittenMeetsIntended | awcotn/timer.cc:149-151 | Both agree iff the set is empty, the clock rolled back, or nothing is overdue |
| TimerRuns.OverdueStalls | awcotn/timer.cc:149-151 | With an overdue earliest timer and a clock that does not go back, no number of expiries hands out anything or changes the set |
| TimerRuns.HandsOutExactly | awcotn/timer.cc:146-157 | As written, an expiry hands out something iff the set is not empty and the clock was set back (NotYetDue) or reads exactly the earliest deadline |
| TimerRuns.ProbeAddressIrrelevant | awcotn/timer.cc:153-157 | lower_bound of the probe and the skip of equal deadlines end behind exactly the due timers, whatever the probe's address |
| TimerRuns.DeadlineFromStart | awcotn/timer.cc:23-91 | Over every run of all operations, the deadline of every timer in the set is its last start (add, refresh, reset from now, rearm) plus its last period modulo 2^64, so any number of resets counts from the same start; m_next >= m_ms iff that sum did not wrap |
| TimerRuns.HandedOutOnce | awcotn/timer.cc:37-61 | Over every run: a one-shot timer is in the set, handed out once or cancelled once, exactly one of them; a recurring one is in the set iff not cancelled; the set stays ordered |
| TimerRuns.NothingAfterCancel | awcotn/timer.cc:37-46 | After a successful cancel no later step hands that timer out |
| TimerRuns.ExpireWatchedExactly | awcotn/timer.cc:158-169 | An expiry leaves every deadline noticed iff m_tickled is set or no recurring timer that it takes comes back earlier than the last getNextTimer saw, rollovers and wraps included |
| TimerRuns.NoLostWakeup | awcotn/timer.cc:173-186 | In every run of all operations no wake-up is lost at any point iff all expiries are of that kind |
| TimerRuns.WatchedMeans | awcotn/timer.cc:173-186 | Then m_tickled is set or no deadline is earlier than the last getNextTimer saw; onTimerInsertedAtFront ran since exactly once if m_tickled is set, else not at all |
| TimerRuns.PlainIsUnhurried | awcotn/timer.cc:158-169 | An expiry without a rollover and without a wrap of a deadline it rearms is of that kind |
| TimerRuns.RolloverLosesWakeup | awcotn/timer.cc:158-169 | Concrete set where an expiry after a rollover brings a recurring timer back unnoticed |
| TimerRuns.WrapLosesWakeup | awcotn/timer.cc:166-168 | Concrete set where the rearmed deadline wraps and comes back unnoticed, with no rollover |
| TimerSet.ListExpiredEffect | awcotn/timer.cc:135-171 | The set stays ordered with distinct timers, and no timer appears that was not there |
| TimerCode.Timer.Cancel | awcotn/timer.cc:37-46 | Succeeds iff the callback is still there, drops it, and takes exactly this timer out of the set; the find never misses |
| TimerCode.Timer.Refresh | awcotn/timer.cc:48-61 | In-place refinement: out of the set, new key, back in, with its notification |
| TimerCode.Timer.Reset | awcotn/timer.cc:65-91 | The same for reset, the unchanged period and the spent timer included |
| TimerCode.TimerManager.AddTimer | awcotn/timer.cc:100-108 | A new timer at now+ms enters the set at its place; notified iff it is first and m_tickled was clear |
| TimerCode.TimerManager.Put | awcotn/timer.cc:173-186 | The locked addTimer, for a timer that is out of the set |
| TimerCode.TimerManager.GetNextTimer | awcotn/timer.cc:121-133 | Clears m_tickled and returns the wait, 0 or ~0 |
| TimerCode.TimerManager.ExpiredEnd | awcotn/timer.cc:153-157 | The two iterator loops stop behind exactly the due timers |
| TimerCode.TimerManager.HandOutFront | awcotn/timer.cc:158-169 | The loop over the expired timers collects their callbacks in order, puts recurring ones back and clears the others' callbacks |
| TimerCode.TimerManager.ListExpiredCb | awcotn/timer.cc:135-171 | The whole method refines the set function as written |
| QueueRuns.StartInSubmissionOrder | awcotn/scheduler.cc:158-179 | Whatever workers scan in whatever order, the unpinned callbacks taken so far are a front part of those submitted |
| QueueRuns.NothingUnpinnedBefore | awcotn/scheduler.cc:160-170 | A scan passes over no unpinned callback |
| ReactorOrder.StartedInOrder | awcotn/scheduler.cc:158-179 | In every run of the reactor the unpinned callbacks that workers took are a front part of those that anybody put into the queue, and the rest are in the queue in that order |
| RunQueue.StopsExactly | awcotn/scheduler.cc:158-172 | The scan of worker w stops at i iff i is unpinned or pinned to w and no executing fiber, and all before i are pinned to others or executing fibers |
| ReactorOrder.TakesExactly | awcotn/scheduler.cc:155-180 | A scanning worker takes an entry iff there is one for it, and goes idle iff there is none: the first that is unpinned or pinned to it and whose fiber is not EXEC; the others keep their order |
| ReactorOrder.PinnedToItsWorker | awcotn/scheduler.cc:162-166 | In every run of the reactor an entry pinned to worker k is taken by k and nobody else: brought into the queue = taken by k + still there |
| SchedulerCode.Scheduler.Scan | awcotn/scheduler.cc:155-180 | On the objects: it takes the first entry with thread -1 or its own whose fiber is not EXEC, all before it have another thread or an EXEC fiber; the rest stay in order, the taken one is counted; others are to be woken iff entries remain |
| SchedulerCode.Scheduler.FindEligible | awcotn/scheduler.cc:158-172 | Its loop stops at exactly that entry, and tells whether it passed one of another thread |
| SchedulerCode.Scheduler.ScheduleNoLock | awcotn/scheduler.h:64-72 | Appends a filled entry only; tickle iff the queue was empty |
| SchedulerCode.Scheduler.ScheduleBatch | awcotn/scheduler.h:38-51 | Every non-empty callback is appended in order and all sources are swapped out; tickle iff the queue was empty and the batch is not |
| SchedulerCode.Fiber.Reset | awcotn/fiber.cc:99-113 | Only with a stack of its own, and from TERM, INIT or EXCEPT; then INIT with the new callback |
| SchedulerCode.Fiber.SwapIn | awcotn/fiber.cc:133-208 | From any state but EXEC; comes back READY, HOLD, EXEC, TERM without callback, or EXCEPT with it |
| SchedulerCode.Scheduler.RunFiber | awcotn/scheduler.cc:185-197 | A popped fiber is run and counted off; READY is queued again, what is neither READY nor over becomes HOLD |
| SchedulerCode.Scheduler.RunCallback | awcotn/scheduler.cc:198-217 | The callback runs in cb_fiber or a new fiber; cb_fiber is kept, reset to INIT, iff it ended |
| SchedulerCode.Scheduler.IdleBranch | awcotn/scheduler.cc:218-230 | Leaves iff the idle fiber has ended, else runs it and gives the idle count back |
| SchedulerCode.Scheduler.Run | awcotn/scheduler.cc:143-232 | For any sequence of outcomes and of other threads' doings all assertions of reset, swapIn and (on leaving) the destructors hold; idle count exact; active count off by exactly one per popped fiber that had ended |
| ReactorRuns.StepKeeps | awcotn/scheduler.cc:143-232 | Every enabled step of any worker, fiber or outside thread keeps the whole invariant |
| ReactorRuns.ReachableInv | awcotn/scheduler.cc:143-232 | So it holds in every reachable state, for any number of workers |
| ReactorProgress.LoopPossible | awcotn/scheduler.cc:143-232 | In every reachable state the worker's phase alone decides which step of run and of the idle fiber is possible: swapIn's and reset's assertions never fail, no ended fiber is popped |
| ReactorProgress.CodePossible | awcotn/hook.cc:122-177 | And the fiber's program counter which step of a hooked call or a library callback is, but for addEvent on an armed event |
| ReactorProgress.NeverStuck | awcotn/scheduler.cc:143-232 | A worker has a step iff it has not left and is not at an addEvent whose event is armed already, the assertion |
| ReactorSteps.LoopPhases | awcotn/scheduler.cc:143-232 | The control flow of run and idle: from each phase exactly the stated next one, by the conditions of the code (no timer, nothing pending, stop requested with nothing queued or active, idle fiber ended); nobody else moves |
| ReactorSteps.LoopQueue | awcotn/iomanager.cc:447-518 | What each step of a worker appends to the queue, in order and for any thread |
| ReactorSteps.OpQueue | awcotn/scheduler.h:28-72 | Only schedule with a thread pins what it appends |
| ReactorSteps.CodeFollows | awcotn/hook.cc:122-177 | The running fiber goes through a call in this order: try, timer, event, wait, woken, timer cancelled, and again unless cancelled is set; a timeout callback ends at once iff its call is over or cancelled is set |
| ReactorSteps.GoesOnAt | awcotn/fiber.cc:133-148 | A fiber swapped in goes on behind its wait, behind its sleep, or where it was |
| ReactorSteps.CodeTimers | awcotn/hook.cc:136-166 | A wait with a timeout and a sleep add one one-shot timer due ms from now, at a new address; the return from the wait cancels just that one |
| ReactorSteps.LateExactly | awcotn/scheduler.cc:218-222 | Work counts as late iff it comes from outside while every worker has ended its idle fiber or is past the look at the timers |
| ReactorSafety.MutualExclusion | awcotn/scheduler.cc:167-217 | No fiber is popped, run, about to be scheduled again or kept as cb_fiber by two workers at once |
| ReactorSafety.OneToken | awcotn/scheduler.cc:185-217 | A fiber has at most one resume token; exactly one when READY or HOLD (none if delEvent dropped it), none in user code or once TERM/EXCEPT |
| ReactorSafety.PoppedIsAtRest | awcotn/scheduler.cc:185-187 | A popped fiber is INIT, READY or HOLD: swapIn's assertion holds and the branch that would leak an active count is never taken |
| ReactorSafety.CbFiberIsFresh | awcotn/scheduler.cc:198-204 | Outside of a run, cb_fiber is INIT and nobody else can resume it |
| ReactorSafety.CountersExact | awcotn/scheduler.cc:174-230 | m_activeThreadCount = number of workers holding a popped task, m_idleThreadCount = number inside their idle fiber |
| ReactorSafety.ReturnLeavesNothing | awcotn/hook.cc:138-177 | Back in user code, a fiber is in no armed slot, and no timeout of its calls or sleep timer for it is in the timer set |
| ReactorSafety.ArmedFiberWaits | awcotn/hook.cc:151-161 | An armed fiber is inside a hooked call for exactly that fd and event |
| ReactorSafety.DeadStaysDead | awcotn/timer.cc:110-115 | A call that returned is never entered again: its weak condition stays expired |
| ReactorSafety.LateTimeoutIsNoOp | awcotn/timer.cc:110-119 | A timeout callback that runs after its call returned, however late, changes nothing but its own fiber |
| ReactorLedger.StepTokens | awcotn/scheduler.h:28-37 | Each step moves exactly the tokens of a fiber that it says: issued by a yield, an event, a sleep or a submission; used by a resume; discarded by delEvent |
| ReactorLedger.ResumedOncePerToken | awcotn/iomanager.cc:45-56 | In every run resumes + discarded + outstanding = issued, outstanding <= 1: no wake-up is lost or doubled; ReactorStranded has the tokens that stay outstanding for ever |
| ReactorConserved.RunFlow | awcotn/scheduler.h:28-72 | In every run, for every task: what was outstanding and what came in is outstanding or was used up by a step that says so |
| ReactorConserved.CallbacksConserved | awcotn/scheduler.cc:198-217 | For every user callback: times brought in (schedule, watched event, timer, recurring expiry) = times started + times thrown away (delEvent, cancel) + times outstanding |
| ReactorConserved.AllCallbacksStarted | awcotn/scheduler.cc:218-242 | When all idle fibers have ended, without late or revived work, nothing of it is outstanding |
| ReactorMissed.UnderWayExactly | awcotn/hook.cc:136-170 | In every reachable state a fiber that waits with a finite timeout and is not yet released has its timeout under way (timer, vector, queue, callback, or about to cancel) iff it was not missed |
| ReactorMissed.StepShots | awcotn/hook.cc:140-147 | Every step keeps: once a call's timeout is missed, cancelled is set and no callback of the call is past its test; two callbacks may pass the unlocked test |
| ReactorMissed.MissedForGood | awcotn/hook.cc:140-147 | A missed timeout is under way in no later state of any run |
| ReactorMissed.TimeoutCanBeMissed | awcotn/hook.cc:139-161 | A reachable state of two workers: the callback ran between addConditionTimer and addEvent, the fiber waits, and nothing of its timeout is left |
| ReactorMissed.DueIsHandedOut | awcotn/timer.cc:135-171 | In every reachable state, while a call's timer is in the set an expiry hands its timeout out iff the clock rolled back or the timer is due and, with the test as written, no timer is overdue |
| ReactorMissed.ForeignWake | awcotn/iomanager.cc:272-307 | In every reachable state anybody's cancelEvent wakes an armed call iff it names the call's event and epoll_ctl succeeds, and leaves the call's cancelled unset |
| ReactorMissed.StaleWake | awcotn/hook.cc:139-147 | So does the timeout of another call on that event |
| ReactorWakes.WokenExactly | awcotn/iomanager.cc:227-519 | In every reachable state a step of anyone ends the wait of an armed call iff it is a report on its fd of input for READ, output for WRITE, an error or a hang-up, a cancelEvent, cancelAll or delEvent on it, or a timeout firing on it, and its epoll_ctl succeeds |
| ReactorWakes.CancelledByOwnTimeout | awcotn/hook.cc:142-145 | No step but the call's own timeout sets its cancelled |
| ReactorWorld.ReachableOk | awcotn/iomanager.cc:420-519 | In every world: the reactor is in a reachable state; a report of writability is older than every attempt on its descriptor that goes on; where a fiber stands in a call tells whether it was armed and what ended its wait; what the kernel forgot is armed |
| ConnectRuns.FalseSuccessExactly | awcotn/hook.cc:258-312 | In every world connect returns 0 on an attempt that is not made iff it goes on, getsockopt works, and addEvent had failed or something else than a report made after addEvent ended the wait |
| ConnectRuns.OldReportFools | awcotn/iomanager.cc:465-518 | A reachable world in which connect does so after a report that was collected before the raw connect |
| ReactorStranded.ClosingFreezesExactly | awcotn/hook.cc:379-391 | In every world closing a descriptor freezes its context against every move of anybody iff something is armed there at that moment |
| ReactorStranded.StrandedForever | awcotn/hook.cc:379-391 | What is armed there stays armed, and pending, in every later world |
| ReactorStranded.PoolNeverStops | awcotn/iomanager.cc:391-396 | No worker that is not past the read of the pending count ever ends its idle fiber then |
| ReactorStranded.CloseCanStrand | awcotn/hook.cc:384-390 | A reachable world between the two halves of close, after a cancelAll that succeeded, in which the real close strands a fiber |
| ReactorTimeout.MissedExactly | awcotn/hook.cc:139-147 | A firing timeout releases its armed waiting fiber iff epoll_ctl succeeds; it is missed iff epoll_ctl fails then or the fiber is still on its way to addEvent, and no other callback of the call is going to cancel |
| ReactorTimeout.OneShot | awcotn/hook.cc:141-145 | Once cancelled is set, every timeout callback of the call that comes to its test later does nothing, for the rest of the run |
| ReactorTimeout.StepCovered | awcotn/hook.cc:136-170 | Every step of every fiber, worker and thread keeps the coverage of all calls: waiting with a timeout, it is missed or under way |
| ReactorExit.ExitNeedsCheck | awcotn/scheduler.cc:218-222 | A worker that left run did so after one check whose three reads, in order, found no timer, no pending event, and a stop requested with nothing queued or active |
| ReactorExit.StoppingIsQuiescent | awcotn/iomanager.cc:380-396 | Undisturbed, the three reads of stopping() end the idle fiber iff all of that holds at once (clock past the epoch) |
| ReactorExit.StaysQuiescentExactly | awcotn/iomanager.cc:411-418 | A quiescent state stays quiescent in all runs of the pool iff no worker carries expired callbacks or a READY fiber that it has still to schedule |
| ReactorExit.SettledStays | awcotn/iomanager.cc:411-418 | Such a state is kept by every step of every worker |
| ReactorExit.SettledLeaves | awcotn/iomanager.cc:415-418 | In it every read of every worker that looks finds nothing, and it may leave |
| ReactorExit.CheckedStays | awcotn/iomanager.cc:391-396 | Every step keeps, unless work comes late or is revived: when all workers are past a read, what that read looked for is still absent |
| ReactorExit.NoWorkAbandoned | awcotn/scheduler.cc:218-242 | When all idle fibers have ended, nothing came from outside while no worker was going to look again, and no worker took work after its idle fiber had ended, no task is outstanding anywhere and no fiber is suspended that delEvent did not cut off |
| ReactorAbandoned.QuiescenceIsNotStable | awcotn/iomanager.cc:447-452 | A reachable state of two workers in which one has ended its idle fiber and the other still schedules expired callbacks |
| ReactorAbandoned.EndsWithTimerPending | awcotn/iomanager.cc:391-396 | A reachable state in which the last read ends the idle fiber while a timer is pending |
| ReactorAbandoned.WorkCanBeAbandoned | awcotn/scheduler.cc:218-222 | A reachable state, with no late work from outside, in which all workers have left run, a fiber sleeps with its timer in the set, and no step of the pool is left |
| HookedCalls.DoIoLoop | awcotn/hook.cc:122-177 | The retry loop with its EINTR loop, each act appended on the branch that performs it, computes the specified outcome and trace for every oracle |
| HookedCalls.OneEffect | awcotn/hook.cc:124-131 | A returned count comes from the last raw call, and all before it were EINTR or EAGAIN; on ETIMEDOUT or a failed addEvent every raw call was |
| HookedCalls.EndsExactly | awcotn/hook.cc:122-177 | After g waits that end in a wake the next raw result but EINTR decides: count or errno as it is; on EAGAIN a failed addEvent gives -1, else cancelled gives ETIMEDOUT |
| HookedCalls.TraceTallied | awcotn/hook.cc:134-173 | Every EAGAIN begins one round: one addEvent, one timer armed and cancelled iff the timeout is finite, one yield iff addEvent worked |
| HookedCalls.CallExactly | awcotn/hook.cc:95-115 | Unhooked, unknown to FdMgr, or a file made non-blocking: the raw call's own result; closed: EBADF and no raw call; else the loop |
| HookedCalls.ResourceNeutral | awcotn/hook.cc:138-166 | For every oracle the trace follows the protocol at every point (no raw call while a timer or event is held, at most one of each, no cancel before the wake) and ends with nothing held |
| HookedCalls.ConnectWithTimeout | awcotn/hook.cc:240-313 | Branch by branch, with exactly the acts of one wait iff the raw connect is in progress; then ETIMEDOUT iff addEvent worked and cancelled is set, else SO_ERROR or getsockopt's own errno, else 0; any other raw result is returned as it is |
| HookedCalls.ConnectAfterWait | awcotn/hook.cc:287-312 | A refusal is reported with its own errno, for every errno; ETIMEDOUT is for the call's own timeout only |
| HookedCalls.ConnectAtOnce | awcotn/hook.cc:258-263 | Any raw result but EINPROGRESS (115) comes out unchanged, EINTR as 4 and EAGAIN as 11, with no wait |
| HookedCalls.ConnectNeutral | awcotn/hook.cc:258-299 | connect too follows the protocol and ends with nothing held |
| HookedCalls.ConnectFalseSuccess | awcotn/hook.cc:258-312 | connect returns 0 on a connection that is not made iff the raw call said EINPROGRESS, the attempt still goes on, getsockopt works, and the call's own timeout did not end its wait |
| HookedCalls.ConnectFalseFailure | awcotn/hook.cc:258-312 | On a connection that is made it fails iff the raw call failed otherwise than with EINPROGRESS (EISCONN, EINTR), or the timeout fired, be it after the wake, or getsockopt failed |
| HookedCalls.NonblockingExactly | awcotn/hook.cc:96-115 | A descriptor that the user made non-blocking gives EAGAIN at once iff it is not a socket; on a socket the fiber waits all the same |
| FdOverlay.Overlay | awcotn/hook.cc:397-427 | Every history of F_SETFL and F_GETFL, failures included, gives a plain descriptor's results iff each F_GETFL that works finds the bit last asked for equal to the bit last set, and each that fails finds it asked for; the kernel's own flag stays set |
| FdOverlay.OverlayExactly | awcotn/fd_manager.cc:38-48 | With succeeding calls: iff the socket was created blocking or the user sets before asking |
| FdOverlay.FailedSetAgreesExactly | awcotn/hook.cc:405-411 | A failing F_SETFL keeps the overlay right iff it does not ask for a change of the bit |
| FdOverlay.FailedGetExactly | awcotn/hook.cc:417-426 | A failing F_GETFL is reported as -1 iff the user's bit is set |
| FdOverlay.HookedSetExactly | awcotn/hook.cc:397-412 | The user's bit is noted first; the kernel takes the settable bits of the argument and keeps the others, with O_NONBLOCK as the system wants it; a failure changes nothing of the kernel's |
| FdOverlay.HookedGetExactly | awcotn/hook.cc:415-427 | The kernel's word, or -1, with the user's bit in it |
| FdOverlay.FdCtx.constructor | awcotn/fd_manager.cc:8-51 | init: a socket is made non-blocking in the kernel, its other flags unchanged; everything else is left alone |
| FdOverlay.FdManager.Get | awcotn/fd_manager.cc:73-92 | Returns the context that is there, or null, or makes one at this fd only; the table grows to fd + fd/2 when the fd is out of range |
| FdOverlay.FdManager.Del | awcotn/fd_manager.cc:94-99 | Forgets exactly this fd |
| FdOverlay.FdManager.Fcntl | awcotn/hook.cc:393-427 | On a managed socket the hooked call is the overlay's step, on any other fd, open or not, the kernel's; no other fd's flags change |
| LogPattern.RoundTrip | awcotn/log.cc:489-563 | Printing and parsing gives back every canonical token list, without an error |
| LogPattern.PatternRoundTrip | awcotn/log.cc:489-563 | A pattern is accepted and read as a canonical list that prints as this very pattern iff it has no "%%" outside of braces, no item with empty braces and no unclosed brace |
| LogPattern.PercentRun | awcotn/log.cc:502-509 | k percent signs are k-1 of text, and the last starts an item |
| LogPattern.PercentStartsItem | awcotn/log.cc:502-509 | A pattern with a percent sign always yields an item or an error |
| LogPattern.DoublePercentIsError | awcotn/log.cc:502-509 | "%%" parses to a percent sign and an item with the empty, unknown name |
| LogPattern.ScanFrom | awcotn/log.cc:511-548 | The inner loop terminates and finds name, format and end, or the unclosed brace |
| LogPattern.ReadTokens | awcotn/log.cc:494-568 | The outer loop terminates and computes the token list and the parse-error flag |
| LogPattern.LogFormatter.Init | awcotn/log.cc:489-619 | The items are those of the parsed tokens, one each; isError iff a parse error or a name outside of the table |
| LogPattern.KnownName | awcotn/log.cc:579-616 | For each of m p r c t n d f l T F N, bare or with any format in braces, the formatter is that one item, with no error |
| LogPattern.OtherName | awcotn/log.cc:606-610 | For any other name of letters it is the text "<<error_format %name>>", and isError |
| LogPattern.NameThenText | awcotn/log.cc:511-517 | A name ends before the first character that is no letter and no brace; what follows is text |
| LogPattern.UnclosedBrace | awcotn/log.cc:549-561 | An unclosed brace gives isError and "<<pattern_error>>", before the text that precedes the item and then the item's own characters |
| LogPattern.TextItself | awcotn/log.cc:496-500 | A pattern without a percent sign is its own text |

## Left out

- Real epoll, pipes, `ucontext`, threads and `dlsym`: a kernel map, a state switch, atomic steps and oracle results (`ok`, raw call results, reports) stand for them.
- `IOManager::tickle` and the length of `epoll_wait`: delivery of wake-ups to sleeping workers is not modelled; as written the idle loop polls (the timeout goes by value, `awcotn/iomanager.cc:391`), and `tickle` writes to the pipe only when nobody is idle (`awcotn/iomanager.cc:369`).
- Liveness under a thread schedule: no claim that a worker is ever run.
- The window between a fiber's state write and its context switch: the source has no lock there, and the model takes it as one moment.
- The race of two resizes in `addEvent`, and of the unlocked gap in `listExpiredCb` (which would read an empty set): each operation is one step.
- Negative descriptors, which the event table would use as an index.
- Calls against the contracts listed above: adding an armed event (the process ends by assertion), scheduling one fiber twice, entries pinned to threads that do not exist, fibers that yield to HOLD on their own.
- `use_caller`, the root fiber and `stop()`'s join: stop is its two flag writes.
- A timeout that comes too early is lost for its call; ReactorTimeout.MissedExactly says exactly which those are, and arming in one step would not remove them all, because a retry can meet a callback of an earlier round.
- Duplicates of a descriptor, which keep its registration when it is closed, and two connects of one fiber on one call: closing forgets a descriptor at once, and a connect is one call with one attempt.
- SchedulerCode.Scheduler.IdleBranch: takes the idle fiber to return or to yield; one that throws is EXCEPT, and the code swaps the ended fiber in again (`awcotn/scheduler.cc:219-224`).
- SchedulerCode.Scheduler.Run: what other threads do between two scans is given in advance, so a fiber of this worker that went to HOLD comes back in the reactor model only.
- SchedulerCode.Fiber.SwapIn: the fiber's own run is reduced to the state it comes back with.
- `ioctl`, `setsockopt`, `getsockopt`, and `connect`'s early exits: thin forwarding.
- Configuration, YAML, loggers, appenders, formatting items, levels, mutex guards, threads, singletons and utilities: they would add easy members only.
