/** What the steps do to each part of the state: to the run queue, the timers, the event table, the
    workers' phases, the fibers and the calls, in the terms of RunQueue, TimerSet and
    EventTable and of the fields alone. */
module ReactorSteps {
  import opened Base
  import opened RunQueue
  import opened Reactor
  import opened ReactorFrames
  import ET = EventTable
  import TS = TimerSet

  // ----- The start -----

  /** n scanning workers, 32 empty contexts, and nothing else. */
  lemma StartsEmpty(n: nat)
    ensures var s := Start(n);
      && s.fibers == [] && s.calls == [] && s.queue == [] && s.timers == TS.Timers([], false, 0) && s.used == {}
      && |s.workers| == n && (forall w :: 0 <= w < n ==> s.workers[w] == Worker(Scanning, None, false))
      && s.active == 0 && s.idle == 0 && !s.autoStop && !s.stopping && s.dropped == {} && !s.late && !s.revived
      && |s.table.rows| == 32 && s.table.kernel == map[] && s.table.pending == 0
      && (forall fd :: 0 <= fd < 32 ==> s.table.rows[fd].fd == fd && s.table.rows[fd].events == Mask(false, false))
  {
    ET.ResizeExactly([], 32);
    hide ET.Resize;
  }

  // ----- The run queue -----

  /** The tasks come at the end of the queue, in order, for any worker. */
  predicate Adds(q: seq<Entry>, q': seq<Entry>, tasks: seq<Task>) {
    && |q'| == |q| + |tasks| && q <= q'
    && forall i :: 0 <= i < |tasks| ==> q'[|q| + i] == Entry(tasks[i], -1)
  }

  lemma LoopQueue(s: State, w: nat, step: LoopStep)
    requires CanLoop(s, w, step) && !step.TakeEntry?
    ensures var q' := DoLoop(s, w, step).queue;
      match step
      case ScheduleReady => Adds(s.queue, q', [Resume(s.workers[w].phase.fiber)])
      case IdleSchedule =>
        var cbs := s.workers[w].phase.cbs;
        && |q'| == |s.queue| + |cbs| && s.queue <= q'
        && (forall i :: 0 <= i < |cbs| ==> q'[|s.queue| + i] == Entry(Call(cbs[i]), -1))
      case IdleReport(report, ok) => Adds(s.queue, q', ET.DispatchOne(s.table, report, ok).released)
      case _ => q' == s.queue
  {
    if IsSwap(step) {
      SwapKeeps(s, w, step);
    } else {
      hide ET.DispatchOne, ET.Valid, TS.Expiry, TS.GetNextTimer, Candidate;
      hide StartFiber, StartCall, YieldReady, YieldHold, Finish;
    }
  }

  /** Swapping fibers in and out touches neither queue nor timers nor table nor the flags. */
  predicate KeepsRest(s: State, s': State) {
    && s'.queue == s.queue && s'.timers == s.timers && s'.used == s.used && s'.table == s.table
    && s'.autoStop == s.autoStop && s'.stopping == s.stopping && s'.late == s.late && s'.dropped == s.dropped
    && s'.revived == s.revived
  }

  lemma SwapKeeps(s: State, w: nat, step: LoopStep)
    requires CanLoop(s, w, step) && IsSwap(step)
    ensures KeepsRest(s, DoLoop(s, w, step))
  {
    hide KeepsRest, StartFiber, StartCall, YieldReady, YieldHold, Finish;
    match step
    case SwapInFiber => SwapInFiberKeeps(s, w);
    case SwapInCallback => SwapInCallbackKeeps(s, w);
    case SwapOutReady => SwapOutReadyKeeps(s, w);
    case SwapOutHold => SwapOutHoldKeeps(s, w);
    case SwapOutEnded(threw) => SwapOutEndedKeeps(s, w, threw);
  }

  lemma SwapInFiberKeeps(s: State, w: nat)
    requires CanStartFiber(s, w)
    ensures KeepsRest(s, StartFiber(s, w))
  {
  }

  lemma SwapInCallbackKeeps(s: State, w: nat)
    requires CanStartCall(s, w)
    ensures KeepsRest(s, StartCall(s, w))
  {
  }

  lemma SwapOutReadyKeeps(s: State, w: nat)
    requires CanYieldReady(s, w)
    ensures KeepsRest(s, YieldReady(s, w))
  {
  }

  lemma SwapOutHoldKeeps(s: State, w: nat)
    requires CanYieldHold(s, w)
    ensures KeepsRest(s, YieldHold(s, w))
  {
  }

  lemma SwapOutEndedKeeps(s: State, w: nat, threw: bool)
    requires CanFinish(s, w)
    ensures KeepsRest(s, Finish(s, w, threw))
  {
  }

  lemma CodeQueue(s: State, w: nat, step: CodeStep)
    requires CanCode(s, w, step)
    ensures var q' := DoCode(s, w, step).queue;
      match step
      case RunWake => Adds(s.queue, q', [Resume(SelfPc(s, w).sleeper)])
      case RunFire(ok) =>
        var call := s.calls[SelfPc(s, w).call]; Adds(s.queue, q', ET.CancelEvent(s.table, call.fd, call.ev, ok).1)
      case _ => q' == s.queue
  {
    hide ET.AddEvent, ET.CancelEvent, TS.AddTimer, CancelOwn, StillWaiting, Firing;
  }

  lemma OpQueue(s: State, op: UserOp)
    requires CanOp(s, op)
    ensures var q' := ApplyOp(s, op).queue;
      match op
      case Submit(id, thread) => q' == s.queue + [Entry(Call(User(id)), thread)]
      case SubmitFiber(f, thread) => q' == s.queue + [Entry(Resume(f), thread)]
      case CancelWatch(fd, ev, ok) => Adds(s.queue, q', ET.CancelEvent(s.table, fd, ev, ok).1)
      case CloseFd(fd, ok) => Adds(s.queue, q', ET.CancelAll(s.table, fd, ok).1)
      case _ => q' == s.queue
  {
    hide ET.AddEvent, ET.DelEvent, ET.CancelEvent, ET.CancelAll, TS.AddTimer, TS.Cancel, TS.Refresh, TS.Reset;
  }

  // ----- The timers -----

  lemma LoopTimers(s: State, w: nat, step: LoopStep)
    requires CanLoop(s, w, step)
    ensures var s' := DoLoop(s, w, step);
      && s'.used == s.used
      && s'.timers == match step
           case IdleStop(now) => TS.GetNextTimer(s.timers, now).0
           case IdleExpire(now, guard) => TS.Expiry(s.timers, now, guard).0
           case _ => s.timers
  {
    if IsSwap(step) {
      SwapKeeps(s, w, step);
      hide DoLoop, CanLoop;
    } else {
      hide ET.DispatchOne, ET.Valid, TS.Expiry, TS.GetNextTimer, Candidate, Appended, Without;
      hide StartFiber, StartCall, YieldReady, YieldHold, Finish;
    }
  }

  /** A sleep and a wait with a timeout add a one-shot timer that is due `ms` from now; the return from
      a wait cancels its timer. */
  lemma CodeTimers(s: State, w: nat, step: CodeStep)
    requires CanCode(s, w, step)
    ensures var s', pc := DoCode(s, w, step), SelfPc(s, w);
      match step
      case IoTimeout(addr, ms, now) =>
        && s'.timers == TS.AddTimer(s.timers, TS.Rec(addr, false, ms, TS.Plus(now, ms), Timeout(pc.call))).0
        && addr !in s.used && s'.used == s.used + {addr}
      case SleepFor(addr, ms, now) =>
        && s'.timers == TS.AddTimer(s.timers, TS.Rec(addr, false, ms, TS.Plus(now, ms), Wake(Self(s, w)))).0
        && addr !in s.used && s'.used == s.used + {addr}
      case IoResume =>
        s'.timers == (if pc.timer.Some? then TS.Cancel(s.timers, pc.timer.value).0 else s.timers) && s'.used == s.used
      case IoGiveUp =>
        s'.timers == (if pc.timer.Some? then TS.Cancel(s.timers, pc.timer.value).0 else s.timers) && s'.used == s.used
      case _ => s'.timers == s.timers && s'.used == s.used
  {
    hide ET.AddEvent, ET.CancelEvent, TS.AddTimer, TS.Cancel, StillWaiting, Firing;
  }

  lemma OpTimers(s: State, op: UserOp)
    requires CanOp(s, op)
    ensures var s' := ApplyOp(s, op);
      && s'.used == (if op.TimerAdd? then s.used + {op.addr} else s.used)
      && s'.timers == match op
           case TimerAdd(addr, ms, now, recurring, id) =>
             TS.AddTimer(s.timers, TS.Rec(addr, recurring, ms, TS.Plus(now, ms), User(id))).0
           case TimerCancel(addr) => TS.Cancel(s.timers, addr).0
           case TimerRefresh(addr, now) => TS.Refresh(s.timers, addr, now).0
           case TimerReset(addr, ms, fromNow, now) => TS.Reset(s.timers, addr, ms, fromNow, now).0
           case _ => s.timers
  {
    hide ET.AddEvent, ET.DelEvent, ET.CancelEvent, ET.CancelAll, TS.AddTimer, TS.Cancel, TS.Refresh, TS.Reset;
  }

  // ----- The event table -----

  lemma LoopTable(s: State, w: nat, step: LoopStep)
    requires CanLoop(s, w, step)
    ensures DoLoop(s, w, step).table ==
      if step.IdleReport? then ET.DispatchOne(s.table, step.report, step.ok).table else s.table
  {
    if IsSwap(step) {
      SwapKeeps(s, w, step);
      hide DoLoop, CanLoop;
    } else {
      hide ET.DispatchOne, ET.Valid, TS.Expiry, TS.GetNextTimer, Candidate, Appended, Without;
      hide StartFiber, StartCall, YieldReady, YieldHold, Finish;
    }
  }

  /** A call registers its own fiber for its own descriptor and event; a timeout cancels just that. */
  lemma CodeTable(s: State, w: nat, step: CodeStep)
    requires CanCode(s, w, step)
    ensures var t', pc := DoCode(s, w, step).table, SelfPc(s, w);
      match step
      case IoRegister(ok) =>
        t' == ET.AddEvent(s.table, s.calls[pc.call].fd, s.calls[pc.call].ev, Resume(Self(s, w)), ok).0
      case RunFire(ok) => t' == ET.CancelEvent(s.table, s.calls[pc.call].fd, s.calls[pc.call].ev, ok).0
      case _ => t' == s.table
  {
    hide ET.AddEvent, ET.CancelEvent, TS.AddTimer, CancelOwn, StillWaiting, Firing;
  }

  lemma OpTable(s: State, op: UserOp)
    requires CanOp(s, op)
    ensures ApplyOp(s, op).table ==
      match op
      case Watch(fd, ev, id, ok) => ET.AddEvent(s.table, fd, ev, Call(User(id)), ok).0
      case Unwatch(fd, ev, ok) => ET.DelEvent(s.table, fd, ev, ok).0
      case CancelWatch(fd, ev, ok) => ET.CancelEvent(s.table, fd, ev, ok).0
      case CloseFd(fd, ok) => ET.CancelAll(s.table, fd, ok).0
      case _ => s.table
  {
    hide ET.AddEvent, ET.DelEvent, ET.CancelEvent, ET.CancelAll, TS.AddTimer, TS.Cancel, TS.Refresh, TS.Reset;
  }

  // ----- The workers -----

  /** Where worker w goes from each phase, and nobody else moves: the control flow of Scheduler::run and
      IOManager::idle. */
  predicate GoesOn(s: State, s': State, w: nat) {
    && w < |s.workers| == |s'.workers|
    && (forall v :: 0 <= v < |s.workers| && v != w ==> s'.workers[v] == s.workers[v])
    && var a, b := s.workers[w].phase, s'.workers[w].phase;
    && (match a
        case Scanning =>
          || b.Popped?
          || b == if s.workers[w].idleDone then Exited else IdleCheck
        case Popped(Resume(f)) =>
          b == if f < |s.fibers| && s.fibers[f].state != TERM && s.fibers[f].state != EXCEPT then Running(f)
               else if s.workers[w].idleDone then Exited else IdleCheck
        case Popped(Call(_)) => b.Running? && s'.workers[w].cbFiber == Some(b.fiber)
        case Running(f) => b == a || b == Requeue(f) || b == Scanning
        case Requeue(_) => b == Scanning
        case IdleCheck => b == if s.timers.items == [] then IdleEvents else IdlePoll
        case IdleEvents => b == if s.table.pending == 0 then IdleQueue else IdlePoll
        case IdleQueue =>
          b == if s.autoStop && s.stopping && s.queue == [] && s.active == 0 then Scanning else IdlePoll
        case IdlePoll => b.IdleFlush?
        case IdleFlush(_) => b == IdleDispatch
        case IdleDispatch => b == IdleDispatch || b == Scanning
        case Exited => false)
    && s'.workers[w].idleDone == (s.workers[w].idleDone || (a == IdleQueue && b == Scanning))
  }

  lemma LoopPhases(s: State, w: nat, step: LoopStep)
    requires CanLoop(s, w, step)
    ensures GoesOn(s, DoLoop(s, w, step), w)
  {
    if IsSwap(step) {
      SwapPhases(s, w, step);
      hide DoLoop, CanLoop, GoesOn;
    } else {
      hide ET.DispatchOne, ET.Valid, TS.Expiry, Candidate, Appended, Without;
      hide StartFiber, StartCall, YieldReady, YieldHold, Finish;
    }
  }

  lemma SwapPhases(s: State, w: nat, step: LoopStep)
    requires CanLoop(s, w, step) && IsSwap(step)
    ensures GoesOn(s, DoLoop(s, w, step), w)
  {
    hide Take, IdleBranch, StartDead, Reschedule, CheckStop, CheckEvents, CheckQueue, Expire, Flush, Dispatch;
    hide IdleYield;
    match step
    case SwapInFiber => hide StartCall, YieldReady, YieldHold, Finish;
    case SwapInCallback => hide StartFiber, YieldReady, YieldHold, Finish;
    case SwapOutReady => hide StartFiber, StartCall, YieldHold, Finish;
    case SwapOutHold => hide StartFiber, StartCall, YieldReady, Finish;
    case SwapOutEnded(_) => hide StartFiber, StartCall, YieldReady, YieldHold;
  }

  /** The callbacks that the worker then carries are those of the expired timers. */
  lemma Carries(s: State, w: nat, now: TS.u64, guard: TS.Guard)
    requires CanExpire(s, w)
    ensures Expire(s, w, now, guard).workers[w].phase.cbs == TS.Callbacks(TS.Expiry(s.timers, now, guard).1)
  {
    hide TS.Expiry;
  }

  lemma OpWorkers(s: State, op: UserOp)
    requires CanOp(s, op)
    ensures ApplyOp(s, op).workers == s.workers && ApplyOp(s, op).active == s.active && ApplyOp(s, op).idle == s.idle
  {
    hide ET.AddEvent, ET.DelEvent, ET.CancelEvent, ET.CancelAll, TS.AddTimer, TS.Cancel, TS.Refresh, TS.Reset;
  }

  lemma CodeWorkers(s: State, w: nat, step: CodeStep)
    requires CanCode(s, w, step)
    ensures var s' := DoCode(s, w, step); s'.workers == s.workers && s'.active == s.active && s'.idle == s.idle
  {
    if step.RunFire? {
      FireWorkers(s, w, step.ok);
      hide FireTimeout;
    } else {
      hide ET.AddEvent, ET.Valid, TS.AddTimer, CancelOwn, Appended, FireTimeout;
    }
  }

  lemma FireWorkers(s: State, w: nat, ok: bool)
    requires CanFire(s, w)
    ensures var s' := FireTimeout(s, w, ok); s'.workers == s.workers && s'.active == s.active && s'.idle == s.idle
  {
    hide ET.CancelEvent, ET.Valid, StillWaiting, Firing, Appended;
  }

  // ----- The fibers -----

  /** Where a fiber's code goes on when a worker swaps it in: out of a wait to the timer's cancel, out of
      a sleep to user code, else where it was. */
  lemma GoesOnAt(s: State, w: nat)
    requires Enabled(s, Loop(w, SwapInFiber))
    ensures s.workers[w].phase.Popped? && s.workers[w].phase.task.Resume?
    ensures var f, s' := s.workers[w].phase.task.fiber, Apply(s, Loop(w, SwapInFiber));
      && f < |s.fibers| == |s'.fibers| && s'.fibers[f].state == EXEC
      && (forall g :: 0 <= g < |s.fibers| && g != f ==> s'.fibers[g] == s.fibers[g])
      && match s.fibers[f].pc
         case IoWait(c, timer) => s'.fibers[f].pc == IoWoken(c, timer)
         case Asleep => s'.fibers[f].pc == Plain
         case pc => s'.fibers[f].pc == pc
  {
  }

  /** A callback begins in user code, or in the library's own code for a sleep timer or a timeout. */
  lemma BeginsAt(s: State, w: nat)
    requires Enabled(s, Loop(w, SwapInCallback))
    ensures s.workers[w].phase.Popped? && s.workers[w].phase.task.Call?
    ensures var s' := Apply(s, Loop(w, SwapInCallback));
      && w < |s'.workers| && s'.workers[w].phase.Running?
      && var g := s'.workers[w].phase.fiber;
      && g == (if s.workers[w].cbFiber.Some? then s.workers[w].cbFiber.value else |s.fibers|) && g < |s'.fibers|
      && (forall f :: 0 <= f < |s.fibers| && f != g ==> f < |s'.fibers| && s'.fibers[f] == s.fibers[f])
      && s'.fibers[g] == match s.workers[w].phase.task.cb
           case User(_) => Fiber(EXEC, Plain)
           case Wake(f) => Fiber(EXEC, WakeBody(f))
           case Timeout(c) => Fiber(EXEC, TimeoutBody(c))
  {
  }

  /** What the running fiber is when it leaves: READY in user code; suspended where it waits or sleeps;
      over, unless it is the worker's cb_fiber, which is INIT again. */
  lemma LeavesAs(s: State, w: nat, step: LoopStep)
    requires CanLoop(s, w, step) && (step.SwapOutReady? || step.SwapOutHold? || step.SwapOutEnded?)
    ensures Runs(s, w)
    ensures var f, s' := Self(s, w), DoLoop(s, w, step);
      && |s'.fibers| == |s.fibers| && (forall g :: 0 <= g < |s.fibers| && g != f ==> s'.fibers[g] == s.fibers[g])
      && s'.fibers[f] == match step
           case SwapOutReady => Fiber(READY, Plain)
           case SwapOutHold => Fiber(HOLD, s.fibers[f].pc)
           case SwapOutEnded(threw) =>
             if s.workers[w].cbFiber == Some(f) then Fiber(INIT, Plain)
             else Fiber(if threw then EXCEPT else TERM, Plain)
           case _ => s.fibers[f]
  {
  }

  /** The running fiber's way through a hooked call and through the library's callbacks: a call begins,
      tries, arms its timer and its event, waits, is woken, takes its timer back, and tries again
      unless `cancelled` is set; a timeout callback ends at once if its call is over or its
      `cancelled` set. */
  predicate Follows(s: State, f: FiberId, step: CodeStep, pc: Pc, pc': Pc) {
    match step
    case IoCall(_, _) => pc == Plain && pc' == IoTry(|s.calls|)
    case IoResult => pc.IoTry? && pc' == Plain
    case IoTimeout(addr, _, _) => pc.IoTry? && pc' == IoArm(pc.call, Some(addr))
    case IoForever => pc.IoTry? && pc' == IoArm(pc.call, None)
    case IoRegister(ok) => pc.IoArm? && pc' == if ok then IoWait(pc.call, pc.timer) else IoUndo(pc.call, pc.timer)
    case IoResume =>
      pc.IoWoken? && pc.call < |s.calls| && pc' == if s.calls[pc.call].cancelled then Plain else IoTry(pc.call)
    case IoGiveUp => pc.IoUndo? && pc' == Plain
    case SleepFor(_, _, _) => pc == Plain && pc' == Asleep
    case RunWake => pc.WakeBody? && pc' == Done
    case RunTest =>
      && pc.TimeoutBody?
      && pc' == if pc.call < |s.calls| && !s.calls[pc.call].cancelled
                   && s.calls[pc.call].owner < |s.fibers| && InCall(s.fibers[s.calls[pc.call].owner].pc, pc.call)
                then TimeoutSet(pc.call) else Done
    case RunSet => pc.TimeoutSet? && pc' == TimeoutFire(pc.call)
    case RunFire(_) => pc.TimeoutFire? && pc' == Done
  }

  /** The fiber's code is somewhere between the beginning and the end of call c. */
  predicate InCall(pc: Pc, c: CallId) {
    match pc
    case IoTry(d) => d == c
    case IoArm(d, _) => d == c
    case IoWait(d, _) => d == c
    case IoWoken(d, _) => d == c
    case IoUndo(d, _) => d == c
    case _ => false
  }

  lemma CodeFollows(s: State, w: nat, step: CodeStep)
    requires CanCode(s, w, step) && ET.Inv(s.table)
    ensures Runs(s, w)
    ensures var f, s' := Self(s, w), DoCode(s, w, step);
      && |s'.fibers| == |s.fibers| && (forall g :: 0 <= g < |s.fibers| && g != f ==> s'.fibers[g] == s.fibers[g])
      && s'.fibers[f].state == EXEC && Follows(s, f, step, s.fibers[f].pc, s'.fibers[f].pc)
  {
    if step.IoRegister? { AddedIfOk(s, w, step.ok); }
    if step.RunTest? {
      TestFollows(s, w);
    } else {
      hide ET.AddEvent, ET.CancelEvent, ET.Inv, ET.Valid, TS.AddTimer, CancelOwn, StillWaiting, Firing, Appended;
      hide InCall;
    }
  }

  lemma TestFollows(s: State, w: nat)
    requires CanTest(s, w)
    ensures var f, s' := Self(s, w), TestTimeout(s, w);
      && s'.fibers == s.fibers[f := Fiber(EXEC, s'.fibers[f].pc)]
      && Follows(s, f, RunTest, s.fibers[f].pc, s'.fibers[f].pc)
  {
  }

  lemma AddedIfOk(s: State, w: nat, ok: bool)
    requires CanIoAdd(s, w) && ET.Inv(s.table)
    ensures var call := s.calls[SelfPc(s, w).call];
      ET.AddEvent(s.table, call.fd, call.ev, Resume(Self(s, w)), ok).1 == ok
  {
    var call := s.calls[SelfPc(s, w).call];
    ET.AddEventEffect(s.table, call.fd, call.ev, Resume(Self(s, w)), ok);
    hide ET.Inv, ET.AddEvent;
  }

  /** Users make fibers, in INIT, and change none. */
  lemma OpFibers(s: State, op: UserOp)
    requires CanOp(s, op)
    ensures ApplyOp(s, op).fibers == if op.NewFiber? then s.fibers + [Fiber(INIT, Plain)] else s.fibers
    ensures ApplyOp(s, op).calls == s.calls
  {
    hide ET.AddEvent, ET.DelEvent, ET.CancelEvent, ET.CancelAll, TS.AddTimer, TS.Cancel, TS.Refresh, TS.Reset;
  }

  /** A call is the running fiber's, for the descriptor and the event it was made for, and not cancelled;
      `cancelled` is set by a timeout only. */
  lemma CodeCalls(s: State, w: nat, step: CodeStep)
    requires CanCode(s, w, step)
    ensures var calls' := DoCode(s, w, step).calls;
      match step
      case IoCall(fd, ev) => calls' == s.calls + [CallInfo(Self(s, w), fd, ev, false, false)]
      case RunSet =>
        var c := SelfPc(s, w).call; calls' == s.calls[c := s.calls[c].(cancelled := true)]
      case RunFire(_) =>
        var c := SelfPc(s, w).call;
        |calls'| == |s.calls| && calls' == s.calls[c := s.calls[c].(missed := calls'[c].missed)]
      case _ => calls' == s.calls
  {
    hide ET.AddEvent, ET.CancelEvent, TS.AddTimer, CancelOwn, StillWaiting, Firing;
  }

  // ----- The flags -----

  /** A worker that takes an entry after its idle fiber has ended revives work; the workers change no other
      flag, and cut off nobody. */
  lemma LoopFlags(s: State, w: nat, step: LoopStep)
    requires CanLoop(s, w, step)
    ensures var s' := DoLoop(s, w, step);
      && s'.autoStop == s.autoStop && s'.stopping == s.stopping && s'.late == s.late && s'.dropped == s.dropped
      && s'.revived == (s.revived || (step.TakeEntry? && w < |s.workers| && s.workers[w].idleDone))
  {
    if IsSwap(step) {
      SwapKeeps(s, w, step);
      hide DoLoop, CanLoop;
    } else {
      hide ET.DispatchOne, TS.Expiry, TS.GetNextTimer, FirstEligible, Appended, ET.Valid;
    }
  }

  lemma CodeFlags(s: State, w: nat, step: CodeStep)
    requires CanCode(s, w, step)
    ensures var s' := DoCode(s, w, step);
      && s'.autoStop == s.autoStop && s'.stopping == s.stopping && s'.late == s.late && s'.dropped == s.dropped
      && s'.revived == s.revived
  {
    hide ET.AddEvent, ET.CancelEvent, TS.AddTimer, CancelOwn, StillWaiting, Firing;
  }

  /** delEvent cuts off the fiber whose continuation it discards; users change nothing else of this. */
  lemma OpFlags(s: State, op: UserOp)
    requires CanOp(s, op)
    ensures var s' := ApplyOp(s, op);
      && s'.autoStop == s.autoStop && s'.stopping == s.stopping && s'.late == s.late && s'.revived == s.revived
      && s'.dropped == if op.Unwatch? then s.dropped + CutOff(s.table, op.fd, op.ev, op.ok) else s.dropped
  {
    if op.Unwatch? {
      ET.RemovedExactly(s.table, op.fd, op.ev, op.ok);
    }
    hide ET.AddEvent, ET.DelEvent, ET.CancelEvent, ET.CancelAll, TS.AddTimer, TS.Cancel, TS.Refresh, TS.Reset, ET.Valid;
  }

  /** The fiber in an armed slot that delEvent empties. */
  function CutOff(t: ET.Table, fd: nat, ev: Event, ok: bool): set<FiberId> {
    if !ok || fd >= |t.rows| || !(if ev == READ then t.rows[fd].events.read else t.rows[fd].events.write) then {}
    else
      var slot := if ev == READ then t.rows[fd].read else t.rows[fd].write;
      if slot.fiber.Some? then {slot.fiber.value} else {}
  }

  /** Work is late if a thread from outside brings it while every worker has ended its idle fiber or is
      past the look at the timers. */
  lemma LateExactly(s: State, actor: Actor, op: UserOp)
    requires Enabled(s, Act(actor, op))
    ensures Apply(s, Act(actor, op)) == ApplyOp(s, op).(late :=
      s.late || (actor.Outside? && forall w :: 0 <= w < |s.workers| ==>
        s.workers[w].idleDone || s.workers[w].phase == IdleEvents || s.workers[w].phase == IdleQueue))
  {
    hide ApplyOp;
  }

  /** stop() sets its flags one by one. */
  lemma StopFlags(s: State)
    ensures Apply(s, SetAutoStop) == s.(autoStop := true) && Apply(s, SetStopping) == s.(stopping := true)
  {
  }
}
