/** The reactor as a state machine: N workers over one run queue, one event table and one
    timer set. A step is one mutex-protected section, or the code a thread runs between
    two of them. The hooked calls (do_io, connect, sleep) are program counters of the
    fibers that execute them; what user code does is left open. */
module Reactor {
  import opened Base
  import opened RunQueue
  import opened Sums
  import ET = EventTable
  import TS = TimerSet

  /** Where a fiber's code stands. */
  datatype Pc =
    | Plain                                     // user code
    | IoTry(call: CallId)                       // do_io before the raw call
    | IoArm(call: CallId, timer: Option<nat>)   // timer added (or none wanted), addEvent next
    | IoWait(call: CallId, timer: Option<nat>)  // event armed, yield next or yielded
    | IoWoken(call: CallId, timer: Option<nat>) // resumed, timer->cancel() next
    | IoUndo(call: CallId, timer: Option<nat>)  // addEvent failed, timer->cancel() next
    | Asleep                                    // sleep timer added, yield next or yielded
    | WakeBody(sleeper: FiberId)                // a sleep timer's callback
    | TimeoutBody(call: CallId)                 // a timeout callback before its test
    | TimeoutSet(call: CallId)                  // its test has passed, `cancelled` is set next
    | TimeoutFire(call: CallId)                 // and cancelEvent next
    | Done                                      // a library callback about to return
  {
    /** The fiber has handed out its resume token and may only yield. */
    predicate Suspending() {
      IoWait? || Asleep?
    }

    /** A timeout callback of call c that has passed its test and is still to cancel. */
    predicate PastTest(c: CallId) {
      (TimeoutSet? || TimeoutFire?) && this.call == c
    }

    /** The fiber is inside hooked call `c`, so the call's timer_info is alive. */
    predicate Inside(c: CallId) {
      (IoTry? || IoArm? || IoWait? || IoWoken? || IoUndo?) && this.call == c
    }

    /** The call's timer pointer is in scope. */
    predicate HasTimer() {
      IoArm? || IoWait? || IoWoken? || IoUndo?
    }

    predicate HoldsTimer(c: CallId, addr: nat) {
      HasTimer() && this.call == c && timer == Some(addr)
    }
  }

  datatype Fiber = Fiber(state: FiberState, pc: Pc)

  /** A hooked call: its fiber, the event it waits for, `timer_info::cancelled`, and
      (bookkeeping only) whether its timeout was missed. */
  datatype CallInfo = CallInfo(owner: FiberId, fd: nat, ev: Event, cancelled: bool, missed: bool)

  datatype Phase =
    | Scanning                        // loop head of Scheduler::run
    | Popped(task: Task)              // ft filled, m_activeThreadCount counted up
    | Running(fiber: FiberId)         // inside swapIn of a task
    | Requeue(fiber: FiberId)         // counted off, and its READY fiber not yet scheduled
    | IdleCheck                       // idle fiber before stopping()
    | IdleEvents                      // stopping() has found no timer
    | IdleQueue                       // and no pending event
    | IdlePoll                        // after epoll_wait, before listExpiredCb
    | IdleFlush(cbs: seq<Callback>)   // expired callbacks in the local vector
    | IdleDispatch                    // going through the reported events
    | Exited                          // run returned
  {
    predicate IsIdle() {
      IdleCheck? || IdleEvents? || IdleQueue? || IdlePoll? || IdleFlush? || IdleDispatch?
    }
  }

  /** `cbFiber` is the local cb_fiber; `idleDone` says that idle_fiber is TERM. */
  datatype Worker = Worker(phase: Phase, cbFiber: Option<FiberId>, idleDone: bool)

  datatype State = State(
    fibers: seq<Fiber>,
    calls: seq<CallInfo>,
    queue: seq<Entry>,
    table: ET.Table,
    timers: TS.Timers,
    used: set<nat>,          // addresses of all timers so far
    workers: seq<Worker>,
    active: int,             // m_activeThreadCount
    idle: int,               // m_idleThreadCount
    autoStop: bool,
    stopping: bool,
    dropped: set<FiberId>,   // fibers whose continuation delEvent discarded
    late: bool,              // work came from outside while no worker was going to look again
    revived: bool)           // a worker took work after its idle fiber had ended

  function Start(workers: nat): State {
    State([], [], [], ET.Table(ET.Resize([], 32), map[], 0), TS.Timers([], false, 0), {},
          seq(workers, _ => Worker(Scanning, None, false)), 0, 0, false, false, {}, false, false)
  }

  // ----- Where tasks are -----

  ghost function EntryTasks(e: Entry): multiset<Task> { multiset{e.task} }

  ghost function RecTasks(r: TS.Rec): multiset<Task> { multiset{Call(r.cb)} }

  ghost function CbTasks(cb: Callback): multiset<Task> { multiset{Call(cb)} }

  /** What a worker holds in its hands: the popped task, the fiber to schedule again, or the
      expired callbacks. */
  ghost function WorkerTasks(w: Worker): multiset<Task> {
    match w.phase
    case Popped(task) => multiset{task}
    case Requeue(f) => multiset{Resume(f)}
    case IdleFlush(cbs) => Gather(cbs, CbTasks)
    case _ => multiset{}
  }

  /** A library callback that runs but has not done its work yet. */
  ghost function BodyTasks(f: Fiber): multiset<Task> {
    match f.pc
    case WakeBody(g) => multiset{Call(Wake(g))}
    case TimeoutBody(c) => multiset{Call(Timeout(c))}
    case TimeoutSet(c) => multiset{Call(Timeout(c))}
    case _ => multiset{}
  }

  ghost function Queued(s: State): multiset<Task> { Gather(s.queue, EntryTasks) }

  ghost function Timed(s: State): multiset<Task> { Gather(s.timers.items, RecTasks) }

  ghost function InHand(s: State): multiset<Task> { Gather(s.workers, WorkerTasks) }

  ghost function InBody(s: State): multiset<Task> { Gather(s.fibers, BodyTasks) }

  /** How often a task is outstanding, wherever it is. */
  ghost function Count(s: State, t: Task): nat {
    Queued(s)[t] + ET.Armed(s.table)[t] + Timed(s)[t] + InHand(s)[t] + InBody(s)[t]
  }

  /** The resume tokens of fiber f. */
  ghost function TokensOf(s: State, f: FiberId): nat {
    Count(s, Resume(f)) + Count(s, Call(Wake(f)))
  }

  // ----- Who holds a fiber -----

  /** The fibers a worker refers to: the one it runs and its cb_fiber. */
  ghost function Holds(w: Worker): multiset<FiberId> {
    (if w.phase.Running? then multiset{w.phase.fiber} else multiset{}) +
    (if w.cbFiber.Some? && w.phase != Running(w.cbFiber.value) then multiset{w.cbFiber.value} else multiset{})
  }

  ghost function Held(s: State): multiset<FiberId> { Gather(s.workers, Holds) }

  // ----- Small updates -----

  function Executing(s: State): set<FiberId> {
    set f | 0 <= f < |s.fibers| && s.fibers[f].state == EXEC
  }

  function At(s: State, w: nat, phase: Phase): State
    requires w < |s.workers|
  {
    s.(workers := s.workers[w := s.workers[w].(phase := phase)])
  }

  function SetFiber(s: State, f: FiberId, fiber: Fiber): State
    requires f < |s.fibers|
  {
    s.(fibers := s.fibers[f := fiber])
  }

  function SetPc(s: State, f: FiberId, pc: Pc): State
    requires f < |s.fibers|
  {
    SetFiber(s, f, s.fibers[f].(pc := pc))
  }

  function Push(s: State, task: Task, thread: int): State {
    s.(queue := s.queue + [Entry(task, thread)])
  }

  /** Worker w is executing a fiber whose program counter satisfies the caller's test. */
  predicate Runs(s: State, w: nat) {
    && w < |s.workers| && s.workers[w].phase.Running?
    && s.workers[w].phase.fiber < |s.fibers|
    && s.fibers[s.workers[w].phase.fiber].state == EXEC
  }

  function Self(s: State, w: nat): FiberId
    requires Runs(s, w)
  {
    s.workers[w].phase.fiber
  }

  function SelfPc(s: State, w: nat): Pc
    requires Runs(s, w)
  {
    s.fibers[Self(s, w)].pc
  }

  // ----- Scheduler::run -----

  function Candidate(s: State, w: nat): nat {
    FirstEligible(s.queue, w, Executing(s))
  }

  predicate CanTake(s: State, w: nat) {
    w < |s.workers| && s.workers[w].phase == Scanning && Candidate(s, w) < |s.queue|
  }

  /** The scan finds an entry. */
  function Take(s: State, w: nat): State
    requires CanTake(s, w)
  {
    var i := Candidate(s, w);
    At(s, w, Popped(s.queue[i].task)).(
      queue := Without(s.queue, i), active := s.active + 1, revived := s.revived || s.workers[w].idleDone)
  }

  predicate CanTakeNone(s: State, w: nat) {
    w < |s.workers| && s.workers[w].phase == Scanning && Candidate(s, w) == |s.queue|
  }

  /** The idle branch of the loop: leave run if the idle fiber has ended, else enter it. */
  function IdleBranch(s: State, w: nat): State
    requires w < |s.workers|
  {
    if s.workers[w].idleDone then At(s, w, Exited) else At(s, w, IdleCheck).(idle := s.idle + 1)
  }

  predicate CanStartFiber(s: State, w: nat) {
    && w < |s.workers| && s.workers[w].phase.Popped? && s.workers[w].phase.task.Resume?
    && s.workers[w].phase.task.fiber < |s.fibers|
    && s.fibers[s.workers[w].phase.task.fiber].state != EXEC  // asserted by swapIn
    && !Finished(s.fibers[s.workers[w].phase.task.fiber].state)
  }

  /** Where a fiber continues when it is swapped in. */
  function Resumed(pc: Pc): Pc {
    match pc
    case IoWait(c, t) => IoWoken(c, t)
    case Asleep => Plain
    case _ => pc
  }

  function StartFiber(s: State, w: nat): State
    requires CanStartFiber(s, w)
  {
    var f := s.workers[w].phase.task.fiber;
    SetFiber(At(s, w, Running(f)), f, Fiber(EXEC, Resumed(s.fibers[f].pc)))
  }

  predicate CanStartDead(s: State, w: nat) {
    && w < |s.workers| && s.workers[w].phase.Popped? && s.workers[w].phase.task.Resume?
    && s.workers[w].phase.task.fiber < |s.fibers|
    && Finished(s.fibers[s.workers[w].phase.task.fiber].state)
  }

  /** A popped fiber that has ended falls through to the idle branch, and the active
      count is not taken back. */
  function StartDead(s: State, w: nat): State
    requires CanStartDead(s, w)
  {
    IdleBranch(s, w)
  }

  function Entered(cb: Callback): Pc {
    match cb
    case User(_) => Plain
    case Wake(f) => WakeBody(f)
    case Timeout(c) => TimeoutBody(c)
  }

  predicate CanStartCall(s: State, w: nat) {
    && w < |s.workers| && s.workers[w].phase.Popped? && s.workers[w].phase.task.Call?
    && (s.workers[w].cbFiber.Some? ==>
          && s.workers[w].cbFiber.value < |s.fibers|
          && Disposable(s.fibers[s.workers[w].cbFiber.value].state))  // asserted by reset
  }

  /** A callback runs in cb_fiber, which is reset or newly made. */
  function StartCall(s: State, w: nat): State
    requires CanStartCall(s, w)
  {
    var body := Fiber(EXEC, Entered(s.workers[w].phase.task.cb));
    match s.workers[w].cbFiber
    case Some(g) => SetFiber(At(s, w, Running(g)), g, body)
    case None =>
      var g := |s.fibers|;
      s.(fibers := s.fibers + [body],
         workers := s.workers[w := s.workers[w].(phase := Running(g), cbFiber := Some(g))])
  }

  /** The fiber's swap-out, and what the worker then does with its state. A READY fiber is
      counted off first and scheduled in a step of its own. */
  predicate CanYieldReady(s: State, w: nat) {
    Runs(s, w) && SelfPc(s, w) == Plain
  }

  function Release(s: State, w: nat): State
    requires Runs(s, w)
  {
    var wk := s.workers[w];
    var kept := if wk.cbFiber == Some(wk.phase.fiber) then None else wk.cbFiber;
    s.(workers := s.workers[w := wk.(phase := Scanning, cbFiber := kept)], active := s.active - 1)
  }

  function YieldReady(s: State, w: nat): State
    requires CanYieldReady(s, w)
  {
    var f := Self(s, w);
    SetFiber(At(Release(s, w), w, Requeue(f)), f, Fiber(READY, Plain))
  }

  predicate CanReschedule(s: State, w: nat) {
    w < |s.workers| && s.workers[w].phase.Requeue?
  }

  function Reschedule(s: State, w: nat): State
    requires CanReschedule(s, w)
  {
    Push(At(s, w, Scanning), Resume(s.workers[w].phase.fiber), ANY_THREAD)
  }

  predicate CanYieldHold(s: State, w: nat) {
    Runs(s, w) && SelfPc(s, w).Suspending()
  }

  function YieldHold(s: State, w: nat): State
    requires CanYieldHold(s, w)
  {
    var f := Self(s, w);
    SetFiber(Release(s, w), f, Fiber(HOLD, s.fibers[f].pc))
  }

  predicate CanFinish(s: State, w: nat) {
    Runs(s, w) && (SelfPc(s, w) == Plain || SelfPc(s, w) == Done)
  }

  /** The fiber returns or throws. cb_fiber is reset and kept for the next callback. */
  function Finish(s: State, w: nat, threw: bool): State
    requires CanFinish(s, w)
  {
    var f := Self(s, w);
    if s.workers[w].cbFiber == Some(f) then
      SetFiber(At(s, w, Scanning), f, Fiber(INIT, Plain)).(active := s.active - 1)
    else
      SetFiber(Release(s, w), f, Fiber(if threw then EXCEPT else TERM, Plain))
  }

  // ----- IOManager::idle -----

  predicate InPhase(s: State, w: nat, phase: Phase) {
    w < |s.workers| && s.workers[w].phase == phase
  }

  /** The clock is past the epoch, so NEVER is not the distance to any deadline. */
  predicate CanCheckStop(s: State, w: nat, now: TS.u64) {
    InPhase(s, w, IdleCheck) && now > 0
  }

  /** stopping() reads three things one after another, each under a lock of its own or
      atomically: whether there is a timer, ... */
  function CheckStop(s: State, w: nat, now: TS.u64): State
    requires CanCheckStop(s, w, now)
  {
    var (timers, wait) := TS.GetNextTimer(s.timers, now);
    At(s, w, if wait == TS.NEVER then IdleEvents else IdlePoll).(timers := timers)
  }

  /** ... the pending event count, ... */
  function CheckEvents(s: State, w: nat): State
    requires InPhase(s, w, IdleEvents)
  {
    At(s, w, if s.table.pending == 0 then IdleQueue else IdlePoll)
  }

  /** Scheduler::stopping(). */
  predicate NothingToDo(s: State) {
    s.autoStop && s.stopping && s.queue == [] && s.active == 0
  }

  /** ... and the scheduler's own state. */
  function CheckQueue(s: State, w: nat): State
    requires InPhase(s, w, IdleQueue)
  {
    if NothingToDo(s) then
      s.(workers := s.workers[w := s.workers[w].(phase := Scanning, idleDone := true)], idle := s.idle - 1)
    else At(s, w, IdlePoll)
  }

  predicate CanExpire(s: State, w: nat) {
    InPhase(s, w, IdlePoll)
  }

  /** listExpiredCb; `guard` says whether its early return is as written or as intended. */
  function Expire(s: State, w: nat, now: TS.u64, guard: TS.Guard): State
    requires CanExpire(s, w)
  {
    var (timers, taken) := TS.Expiry(s.timers, now, guard);
    At(s, w, IdleFlush(TS.Callbacks(taken))).(timers := timers)
  }

  predicate CanFlush(s: State, w: nat) {
    w < |s.workers| && s.workers[w].phase.IdleFlush?
  }

  function Calls(cbs: seq<Callback>): seq<Task> {
    seq(|cbs|, i requires 0 <= i < |cbs| => Call(cbs[i]))
  }

  function Flush(s: State, w: nat): State
    requires CanFlush(s, w)
  {
    At(s, w, IdleDispatch).(queue := Appended(s.queue, Calls(s.workers[w].phase.cbs)))
  }

  predicate CanDispatch(s: State, w: nat, report: ET.Report, ok: bool) {
    && InPhase(s, w, IdleDispatch) && ET.Valid(s.table)
    && (report.Ready? ==> report.fd < |s.table.rows|)
    && ET.DispatchOne(s.table, report, ok).Running?
  }

  function Dispatch(s: State, w: nat, report: ET.Report, ok: bool): State
    requires CanDispatch(s, w, report, ok)
  {
    var done := ET.DispatchOne(s.table, report, ok);
    s.(table := done.table, queue := Appended(s.queue, done.released))
  }

  predicate CanIdleYield(s: State, w: nat) {
    InPhase(s, w, IdleDispatch)
  }

  function IdleYield(s: State, w: nat): State
    requires CanIdleYield(s, w)
  {
    At(s, w, Scanning).(idle := s.idle - 1)
  }

  // ----- do_io and connect -----

  predicate CanIoBegin(s: State, w: nat) {
    Runs(s, w) && SelfPc(s, w) == Plain
  }

  function IoBegin(s: State, w: nat, fd: nat, ev: Event): State
    requires CanIoBegin(s, w)
  {
    var f := Self(s, w);
    SetPc(s, f, IoTry(|s.calls|)).(calls := s.calls + [CallInfo(f, fd, ev, false, false)])
  }

  predicate AtTry(s: State, w: nat) {
    Runs(s, w) && SelfPc(s, w).IoTry? && SelfPc(s, w).call < |s.calls|
  }

  /** The raw call returned something else than EAGAIN. */
  function IoReturn(s: State, w: nat): State
    requires AtTry(s, w)
  {
    SetPc(s, Self(s, w), Plain)
  }

  predicate FreshAddr(s: State, addr: nat) {
    addr !in s.used
  }

  /** EAGAIN with a finite timeout: addConditionTimer. */
  function IoTimer(s: State, w: nat, addr: nat, ms: TS.u64, now: TS.u64): State
    requires AtTry(s, w) && FreshAddr(s, addr)
  {
    var c := SelfPc(s, w).call;
    SetPc(s, Self(s, w), IoArm(c, Some(addr))).(
      timers := TS.AddTimer(s.timers, TS.Rec(addr, false, ms, TS.Plus(ms, now), Timeout(c))).0,
      used := s.used + {addr})
  }

  /** EAGAIN without a timeout. */
  function IoNoTimer(s: State, w: nat): State
    requires AtTry(s, w)
  {
    SetPc(s, Self(s, w), IoArm(SelfPc(s, w).call, None))
  }

  predicate CanIoAdd(s: State, w: nat) {
    && Runs(s, w) && SelfPc(s, w).IoArm? && SelfPc(s, w).call < |s.calls|
    && |s.table.rows| >= 2
    && ET.CanAdd(s.table, s.calls[SelfPc(s, w).call].fd, s.calls[SelfPc(s, w).call].ev)  // asserted by addEvent
  }

  function IoAdd(s: State, w: nat, ok: bool): State
    requires CanIoAdd(s, w)
  {
    var f, pc := Self(s, w), SelfPc(s, w);
    var call := s.calls[pc.call];
    var (table, added) := ET.AddEvent(s.table, call.fd, call.ev, Resume(f), ok);
    SetPc(s, f, if added then IoWait(pc.call, pc.timer) else IoUndo(pc.call, pc.timer)).(table := table)
  }

  function CancelOwn(t: TS.Timers, timer: Option<nat>): TS.Timers {
    if timer.Some? then TS.Cancel(t, timer.value).0 else t
  }

  predicate CanIoCancel(s: State, w: nat) {
    Runs(s, w) && SelfPc(s, w).IoWoken? && SelfPc(s, w).call < |s.calls|
  }

  /** After the wake-up: cancel the timer, then return ETIMEDOUT or try again. */
  function IoCancel(s: State, w: nat): State
    requires CanIoCancel(s, w)
  {
    var pc := SelfPc(s, w);
    SetPc(s, Self(s, w), if s.calls[pc.call].cancelled then Plain else IoTry(pc.call)).(
      timers := CancelOwn(s.timers, pc.timer))
  }

  predicate CanIoUndo(s: State, w: nat) {
    Runs(s, w) && SelfPc(s, w).IoUndo?
  }

  function IoUndone(s: State, w: nat): State
    requires CanIoUndo(s, w)
  {
    SetPc(s, Self(s, w), Plain).(timers := CancelOwn(s.timers, SelfPc(s, w).timer))
  }

  // ----- sleep, usleep, nanosleep -----

  predicate CanSleep(s: State, w: nat, addr: nat) {
    Runs(s, w) && SelfPc(s, w) == Plain && FreshAddr(s, addr)
  }

  function Sleep(s: State, w: nat, addr: nat, ms: TS.u64, now: TS.u64): State
    requires CanSleep(s, w, addr)
  {
    var f := Self(s, w);
    SetPc(s, f, Asleep).(
      timers := TS.AddTimer(s.timers, TS.Rec(addr, false, ms, TS.Plus(ms, now), Wake(f))).0,
      used := s.used + {addr})
  }

  // ----- Library callbacks -----

  predicate CanWake(s: State, w: nat) {
    Runs(s, w) && SelfPc(s, w).WakeBody?
  }

  function WakeSleeper(s: State, w: nat): State
    requires CanWake(s, w)
  {
    Push(SetPc(s, Self(s, w), Done), Resume(SelfPc(s, w).sleeper), ANY_THREAD)
  }

  /** The call's timer_info is still referenced by the do_io that made it. */
  predicate Alive(s: State, c: CallId) {
    && c < |s.calls| && s.calls[c].owner < |s.fibers|
    && s.fibers[s.calls[c].owner].pc.Inside(c)
  }

  predicate CanTest(s: State, w: nat) {
    Runs(s, w) && SelfPc(s, w).TimeoutBody?
  }

  /** OnTimer's lock of the weak condition, and the closure's own test. No lock covers the test
      and what follows: two callbacks of one call can both pass. */
  function TestTimeout(s: State, w: nat): State
    requires CanTest(s, w)
  {
    var c := SelfPc(s, w).call;
    if !Alive(s, c) || s.calls[c].cancelled then SetPc(s, Self(s, w), Done)
    else SetPc(s, Self(s, w), TimeoutSet(c))
  }

  predicate CanSet(s: State, w: nat) {
    Runs(s, w) && SelfPc(s, w).TimeoutSet? && SelfPc(s, w).call < |s.calls|
  }

  function SetCancelled(s: State, w: nat): State
    requires CanSet(s, w)
  {
    var c := SelfPc(s, w).call;
    SetPc(s, Self(s, w), TimeoutFire(c)).(calls := s.calls[c := s.calls[c].(cancelled := true)])
  }

  predicate CanFire(s: State, w: nat) {
    Runs(s, w) && SelfPc(s, w).TimeoutFire? && SelfPc(s, w).call < |s.calls| && ET.Valid(s.table)
  }

  /** The owner of call c is still to wait for it, or waits and nothing has released it yet. */
  ghost predicate StillWaiting(s: State, c: CallId) {
    && c < |s.calls| && s.calls[c].owner < |s.fibers|
    && var pc := s.fibers[s.calls[c].owner].pc;
       || ((pc.IoTry? || pc.IoArm?) && pc.call == c)
       || (pc.IoWait? && pc.call == c && Resume(s.calls[c].owner) in ET.Armed(s.table))
  }

  /** Some callback of call c has passed its test and is still to call cancelEvent. */
  ghost predicate Firing(s: State, c: CallId) {
    exists g :: 0 <= g < |s.fibers| && s.fibers[g].pc.PastTest(c)
  }

  /** The closure's cancelEvent. The timeout is missed if the owner still waits, or has yet to,
      and no other callback of the call is going to cancel. */
  ghost function FireTimeout(s: State, w: nat, ok: bool): State
    requires CanFire(s, w)
  {
    var c := SelfPc(s, w).call;
    var call := s.calls[c];
    var (table, out) := ET.CancelEvent(s.table, call.fd, call.ev, ok);
    var s1 := SetPc(s, Self(s, w), Done).(table := table, queue := Appended(s.queue, out));
    s1.(calls := s.calls[c := call.(missed := call.missed || (StillWaiting(s1, c) && !Firing(s1, c)))])
  }

  // ----- What user code and other threads may do -----

  /** A running fiber's user code, or a thread outside the pool. */
  datatype Actor = Inside(worker: nat) | Outside

  predicate MayAct(s: State, a: Actor) {
    a.Inside? ==> Runs(s, a.worker) && SelfPc(s, a.worker) == Plain
  }

  /** The worker will look at the timers before it leaves. */
  predicate Attentive(w: Worker) {
    !w.idleDone && !w.phase.IdleEvents? && !w.phase.IdleQueue?
  }

  ghost predicate Watching(s: State) {
    exists w :: 0 <= w < |s.workers| && Attentive(s.workers[w])
  }

  /** Work that arrives from outside when no worker is going to look for it. */
  ghost function Noted(s: State, s': State, a: Actor): State {
    s'.(late := s.late || (a.Outside? && !Watching(s)))
  }

  datatype UserOp =
    | Submit(id: nat, thread: int)                               // schedule(callback)
    | NewFiber                                                   // new Fiber(cb)
    | SubmitFiber(f: FiberId, thread: int)                       // schedule(fiber)
    | Watch(fd: nat, ev: Event, id: nat, ok: bool)               // addEvent(fd, ev, cb)
    | Unwatch(fd: nat, ev: Event, ok: bool)                      // delEvent
    | CancelWatch(fd: nat, ev: Event, ok: bool)                  // cancelEvent
    | CloseFd(fd: nat, ok: bool)                                 // close -> cancelAll
    | TimerAdd(addr: nat, ms: TS.u64, now: TS.u64, recurring: bool, id: nat)
    | TimerCancel(addr: nat)
    | TimerRefresh(addr: nat, now: TS.u64)
    | TimerReset(addr: nat, ms: TS.u64, fromNow: bool, now: TS.u64)

  /** Users have handles of the timers they added only. */
  predicate UsersTimer(s: State, addr: nat) {
    TS.Has(s.timers.items, addr) ==> TS.At(s.timers.items, addr).cb.User?
  }

  /** What the library asks of its callers: addEvent asserts that the event is not armed
      yet, and a fiber is handed to schedule at most once, before it ever ran. */
  ghost predicate CanOp(s: State, op: UserOp) {
    && ET.Valid(s.table)
    && match op
       case SubmitFiber(f, _) => f < |s.fibers| && s.fibers[f].state == INIT && TokensOf(s, f) == 0 && Held(s)[f] == 0
       case Watch(fd, ev, _, _) => ET.CanAdd(s.table, fd, ev)
       case TimerAdd(addr, _, _, _, _) => FreshAddr(s, addr)
       case TimerCancel(addr) => UsersTimer(s, addr)
       case TimerRefresh(addr, _) => UsersTimer(s, addr)
       case TimerReset(addr, _, _, _) => UsersTimer(s, addr)
       case _ => true
  }

  /** The fiber whose continuation sits in an armed slot. */
  function SlotFiber(t: ET.Table, fd: nat, ev: Event): set<FiberId>
    requires ET.Valid(t)
  {
    if ET.IsArmed(t, fd, ev) && t.rows[fd].Get(ev).Task().Resume? then {t.rows[fd].Get(ev).Task().fiber} else {}
  }

  ghost function ApplyOp(s: State, op: UserOp): State
    requires CanOp(s, op)
  {
    match op
    case Submit(id, thread) => Push(s, Call(User(id)), thread)
    case NewFiber => s.(fibers := s.fibers + [Fiber(INIT, Plain)])
    case SubmitFiber(f, thread) => Push(s, Resume(f), thread)
    case Watch(fd, ev, id, ok) => s.(table := ET.AddEvent(s.table, fd, ev, Call(User(id)), ok).0)
    case Unwatch(fd, ev, ok) =>
      var (table, deleted) := ET.DelEvent(s.table, fd, ev, ok);
      s.(table := table, dropped := if deleted then s.dropped + SlotFiber(s.table, fd, ev) else s.dropped)
    case CancelWatch(fd, ev, ok) =>
      var (table, out) := ET.CancelEvent(s.table, fd, ev, ok);
      s.(table := table, queue := Appended(s.queue, out))
    case CloseFd(fd, ok) =>
      var (table, out) := ET.CancelAll(s.table, fd, ok);
      s.(table := table, queue := Appended(s.queue, out))
    case TimerAdd(addr, ms, now, recurring, id) =>
      s.(timers := TS.AddTimer(s.timers, TS.Rec(addr, recurring, ms, TS.Plus(ms, now), User(id))).0,
         used := s.used + {addr})
    case TimerCancel(addr) => s.(timers := TS.Cancel(s.timers, addr).0)
    case TimerRefresh(addr, now) => s.(timers := TS.Refresh(s.timers, addr, now).0)
    case TimerReset(addr, ms, fromNow, now) => s.(timers := TS.Reset(s.timers, addr, ms, fromNow, now).0)
  }

  // ----- Steps -----

  /** Scheduler::run and the idle fiber. */
  datatype LoopStep =
    | TakeEntry | TakeNothing
    | SwapInFiber | SwapInDead | SwapInCallback
    | SwapOutReady | ScheduleReady | SwapOutHold | SwapOutEnded(threw: bool)
    | IdleStop(now: TS.u64) | IdlePending | IdleQuit | IdleExpire(now: TS.u64, guard: TS.Guard) | IdleSchedule
    | IdleReport(report: ET.Report, ok: bool) | IdleOut

  /** The hooked calls and the library's own callbacks. */
  datatype CodeStep =
    | IoCall(fd: nat, ev: Event) | IoResult
    | IoTimeout(addr: nat, ms: TS.u64, now: TS.u64) | IoForever
    | IoRegister(ok: bool) | IoResume | IoGiveUp
    | SleepFor(addr: nat, ms: TS.u64, now: TS.u64)
    | RunWake | RunTest | RunSet | RunFire(ok: bool)

  datatype Step =
    | Loop(w: nat, loop: LoopStep)
    | Code(w: nat, code: CodeStep)
    | Act(actor: Actor, op: UserOp)
    | SetAutoStop | SetStopping   // the two flags that stop() sets

  predicate CanLoop(s: State, w: nat, step: LoopStep) {
    match step
    case TakeEntry => CanTake(s, w)
    case TakeNothing => CanTakeNone(s, w)
    case SwapInFiber => CanStartFiber(s, w)
    case SwapInDead => CanStartDead(s, w)
    case SwapInCallback => CanStartCall(s, w)
    case SwapOutReady => CanYieldReady(s, w)
    case ScheduleReady => CanReschedule(s, w)
    case SwapOutHold => CanYieldHold(s, w)
    case SwapOutEnded(_) => CanFinish(s, w)
    case IdleStop(now) => CanCheckStop(s, w, now)
    case IdlePending => InPhase(s, w, IdleEvents)
    case IdleQuit => InPhase(s, w, IdleQueue)
    case IdleExpire(_, _) => CanExpire(s, w)
    case IdleSchedule => CanFlush(s, w)
    case IdleReport(report, ok) => CanDispatch(s, w, report, ok)
    case IdleOut => CanIdleYield(s, w)
  }

  function DoLoop(s: State, w: nat, step: LoopStep): State
    requires CanLoop(s, w, step)
  {
    match step
    case TakeEntry => Take(s, w)
    case TakeNothing => IdleBranch(s, w)
    case SwapInFiber => StartFiber(s, w)
    case SwapInDead => StartDead(s, w)
    case SwapInCallback => StartCall(s, w)
    case SwapOutReady => YieldReady(s, w)
    case ScheduleReady => Reschedule(s, w)
    case SwapOutHold => YieldHold(s, w)
    case SwapOutEnded(threw) => Finish(s, w, threw)
    case IdleStop(now) => CheckStop(s, w, now)
    case IdlePending => CheckEvents(s, w)
    case IdleQuit => CheckQueue(s, w)
    case IdleExpire(now, guard) => Expire(s, w, now, guard)
    case IdleSchedule => Flush(s, w)
    case IdleReport(report, ok) => Dispatch(s, w, report, ok)
    case IdleOut => IdleYield(s, w)
  }

  predicate CanCode(s: State, w: nat, step: CodeStep) {
    match step
    case IoCall(_, _) => CanIoBegin(s, w)
    case IoResult => AtTry(s, w)
    case IoTimeout(addr, _, _) => AtTry(s, w) && FreshAddr(s, addr)
    case IoForever => AtTry(s, w)
    case IoRegister(_) => CanIoAdd(s, w)
    case IoResume => CanIoCancel(s, w)
    case IoGiveUp => CanIoUndo(s, w)
    case SleepFor(addr, _, _) => CanSleep(s, w, addr)
    case RunWake => CanWake(s, w)
    case RunTest => CanTest(s, w)
    case RunSet => CanSet(s, w)
    case RunFire(_) => CanFire(s, w)
  }

  ghost function DoCode(s: State, w: nat, step: CodeStep): State
    requires CanCode(s, w, step)
  {
    match step
    case IoCall(fd, ev) => IoBegin(s, w, fd, ev)
    case IoResult => IoReturn(s, w)
    case IoTimeout(addr, ms, now) => IoTimer(s, w, addr, ms, now)
    case IoForever => IoNoTimer(s, w)
    case IoRegister(ok) => IoAdd(s, w, ok)
    case IoResume => IoCancel(s, w)
    case IoGiveUp => IoUndone(s, w)
    case SleepFor(addr, ms, now) => Sleep(s, w, addr, ms, now)
    case RunWake => WakeSleeper(s, w)
    case RunTest => TestTimeout(s, w)
    case RunSet => SetCancelled(s, w)
    case RunFire(ok) => FireTimeout(s, w, ok)
  }

  ghost predicate Enabled(s: State, step: Step) {
    match step
    case Loop(w, loop) => CanLoop(s, w, loop)
    case Code(w, code) => CanCode(s, w, code)
    case Act(actor, op) => MayAct(s, actor) && CanOp(s, op)
    case SetAutoStop => true
    case SetStopping => true
  }

  ghost function Apply(s: State, step: Step): State
    requires Enabled(s, step)
  {
    match step
    case Loop(w, loop) => DoLoop(s, w, loop)
    case Code(w, code) => DoCode(s, w, code)
    case Act(actor, op) => Noted(s, ApplyOp(s, op), actor)
    case SetAutoStop => s.(autoStop := true)
    case SetStopping => s.(stopping := true)
  }
}
