/** No timeout is lost: while a fiber waits in a hooked call with a finite timeout, that
    timeout is under way, unless it came while there was nothing to cancel. */
module ReactorTimeout {
  import opened Base
  import opened Sums
  import opened RunQueue
  import opened Reactor
  import opened Tokens
  import opened LoopFlow
  import opened IdleFlow
  import opened CodeFlow
  import opened ReactorInv
  import opened LoopKeeps
  import opened CodeKeeps
  import opened UserKeeps
  import opened ReactorFrames
  import opened ReactorRuns
  import opened ReactorSafety
  import ET = EventTable
  import TS = TimerSet

  /** The timeout of call c is under way: its callback is in the timer set, a worker's
      vector, the queue or a fiber; or it has passed its test and is about to cancel. */
  ghost predicate UnderWay(s: State, c: CallId)
    requires c < |s.calls|
  {
    if s.calls[c].cancelled then Firing(s, c) else Count(s, Call(Timeout(c))) >= 1
  }

  /** A program counter at which call c still needs its timeout. */
  predicate Exposed(pc: Pc, c: CallId) {
    (pc.IoTry? || pc.IoArm? || pc.IoWait?) && pc.call == c
  }

  ghost predicate NeedsTimeout(s: State, c: CallId)
    requires c < |s.calls|
  {
    var info := s.calls[c];
    var pc := PcOf(s, info.owner);
    && Exposed(pc, c)
    && (info.cancelled || (!pc.IoTry? && pc.timer.Some?))
    && (pc.IoWait? ==> Resume(info.owner) in ET.Armed(s.table))
  }

  ghost predicate Covered(s: State, c: CallId)
    requires c < |s.calls|
  {
    NeedsTimeout(s, c) ==> s.calls[c].missed || UnderWay(s, c)
  }

  ghost predicate AllCovered(s: State) {
    forall c: CallId :: c < |s.calls| ==> Covered(s, c)
  }

  // ----- Steps that do not concern a call -----

  predicate FireKept(s: State, s': State, c: CallId, g: FiberId) {
    PcOf(s, g).PastTest(c) ==> g < |s'.fibers| && PcOf(s', g).PastTest(c)
  }

  /** Call c's owner stays or leaves, and nothing of its timeout goes away. */
  ghost predicate Calm(s: State, s': State, c: CallId)
    requires c < |s.calls|
  {
    && c < |s'.calls| && s'.calls[c] == s.calls[c]
    && (PcOf(s', s.calls[c].owner) == PcOf(s, s.calls[c].owner) || !Exposed(PcOf(s', s.calls[c].owner), c))
    && (forall g: FiberId :: FireKept(s, s', c, g))
    && Count(s', Call(Timeout(c))) >= Count(s, Call(Timeout(c)))
    && (Resume(s.calls[c].owner) in ET.Armed(s'.table) ==> Resume(s.calls[c].owner) in ET.Armed(s.table))
  }

  lemma CalmKeeps(s: State, s': State, c: CallId)
    requires c < |s.calls| && Covered(s, c) && Calm(s, s', c)
    ensures Covered(s', c)
  {
    if Firing(s, c) {
      var g :| 0 <= g < |s.fibers| && s.fibers[g].pc.PastTest(c);
      assert FireKept(s, s', c, g);
    }
  }

  /** Only fiber f moved, and it neither was about to fire c nor comes to need c's timeout. */
  predicate MovesFree(s: State, s': State, f: FiberId, c: CallId) {
    PcOf(s', f) == PcOf(s, f) || (!PcOf(s, f).PastTest(c) && !Exposed(PcOf(s', f), c))
  }

  ghost predicate NoMoreArmed(s: State, s': State, c: CallId)
    requires c < |s.calls|
  {
    Resume(s.calls[c].owner) in ET.Armed(s'.table) ==> Resume(s.calls[c].owner) in ET.Armed(s.table)
  }

  lemma MovedCalm(s: State, s': State, f: FiberId, c: CallId, gained: multiset<Task>, lost: multiset<Task>)
    requires OthersSame(s, s', f) && MovesFree(s, s', f, c)
    requires c < |s.calls| && c < |s'.calls| && s'.calls[c] == s.calls[c]
    requires Flow(s, s', gained, lost) && Call(Timeout(c)) !in lost
    requires NoMoreArmed(s, s', c)
    ensures Calm(s, s', c)
  {
    forall g: FiberId ensures FireKept(s, s', c, g) {
      assert g != f ==> SameFiber(s, s', g);
    }
    assert s.calls[c].owner != f ==> SameFiber(s, s', s.calls[c].owner);
  }

  // ----- The run loop -----

  lemma StillCalm(s: State, s': State, c: CallId, gained: multiset<Task>)
    requires c < |s.calls| && s'.fibers == s.fibers && s'.calls == s.calls && NoMoreArmed(s, s', c)
    requires Flow(s, s', gained, NOTHING)
    ensures Calm(s, s', c)
  {
    MovedCalm(s, s', |s.fibers|, c, gained, NOTHING);
  }

  /** Only fiber f moves, beside calls and slots. */
  ghost predicate Swaps(s: State, s': State, f: FiberId, c: CallId) {
    OthersSame(s, s', f) && MovesFree(s, s', f, c) && s'.calls == s.calls && s'.table == s.table
  }

  lemma SwapCalm(s: State, s': State, f: FiberId, c: CallId, gained: multiset<Task>, lost: multiset<Task>)
    requires c < |s.calls| && Swaps(s, s', f, c)
    requires Flow(s, s', gained, lost) && Call(Timeout(c)) !in lost
    ensures Calm(s, s', c)
  {
    MovedCalm(s, s', f, c, gained, lost);
  }

  lemma StartFiberSwaps(s: State, w: nat, c: CallId)
    requires CanStartFiber(s, w)
    requires var pc := s.fibers[s.workers[w].phase.task.fiber].pc; pc == Plain || pc.Suspending()
    ensures Swaps(s, StartFiber(s, w), s.workers[w].phase.task.fiber, c)
  {
  }

  lemma StartFiberCalm(s: State, w: nat, c: CallId)
    requires Inv(s) && CanStartFiber(s, w) && c < |s.calls|
    ensures Calm(s, StartFiber(s, w), c)
  {
    var f := s.workers[w].phase.task.fiber;
    StartFiberFlow(s, w);
    RestingPc(s, w);
    StartFiberSwaps(s, w, c);
    hide Inv, StartFiber, Swaps, Flow;
    SwapCalm(s, StartFiber(s, w), f, c, NOTHING, multiset{Resume(f)});
  }

  lemma RestingPc(s: State, w: nat)
    requires Inv(s) && CanStartFiber(s, w)
    ensures var pc := s.fibers[s.workers[w].phase.task.fiber].pc; pc == Plain || pc.Suspending()
  {
    assert WorkerOk(s.workers[w], s.fibers);
    assert OkAt(s, s.workers[w].phase.task.fiber);
  }

  lemma ReuseSwaps(s: State, w: nat, c: CallId)
    requires CanStartCall(s, w) && s.workers[w].cbFiber.Some?
    requires s.fibers[s.workers[w].cbFiber.value].pc == Plain
    ensures Swaps(s, StartCall(s, w), s.workers[w].cbFiber.value, c)
  {
  }

  lemma CreateSwaps(s: State, w: nat, c: CallId)
    requires CanStartCall(s, w) && s.workers[w].cbFiber.None?
    ensures Swaps(s, StartCall(s, w), |s.fibers|, c)
  {
  }

  lemma StartCallCalm(s: State, w: nat, c: CallId)
    requires Inv(s) && CanStartCall(s, w) && c < |s.calls|
    ensures Calm(s, StartCall(s, w), c)
  {
    var cb := s.workers[w].phase.task.cb;
    if s.workers[w].cbFiber.Some? {
      ReusePc(s, w);
      ReuseFlow(s, w);
      ReuseSwaps(s, w, c);
      hide Inv, StartCall, Swaps, Flow;
      SwapCalm(s, StartCall(s, w), s.workers[w].cbFiber.value, c, NOTHING, Consumed(cb));
    } else {
      CreateFlow(s, w);
      CreateSwaps(s, w, c);
      hide Inv, StartCall, Swaps, Flow;
      SwapCalm(s, StartCall(s, w), |s.fibers|, c, NOTHING, Consumed(cb));
    }
  }

  lemma SwapOutSwaps(s: State, w: nat, step: LoopStep, c: CallId)
    requires CanLoop(s, w, step)
    requires step.SwapOutReady? || step.SwapOutHold? || step.SwapOutEnded?
    ensures Runs(s, w) && Swaps(s, DoLoop(s, w, step), Self(s, w), c)
  {
    SwapOutOut(s, w, step);
    OutPc(s, w, step);
    hide DoLoop, CanLoop, OthersSame;
  }

  lemma OutPc(s: State, w: nat, step: LoopStep)
    requires CanLoop(s, w, step) && (step.SwapOutReady? || step.SwapOutHold? || step.SwapOutEnded?)
    ensures Runs(s, w) && (SelfPc(s, w) == Plain || SelfPc(s, w) == Done || SelfPc(s, w).Suspending())
  {
    hide DoLoop;
  }

  lemma SwapOutCalm(s: State, w: nat, step: LoopStep, c: CallId)
    requires Inv(s) && CanLoop(s, w, step) && c < |s.calls|
    requires step.SwapOutReady? || step.SwapOutHold? || step.SwapOutEnded?
    ensures Calm(s, DoLoop(s, w, step), c)
  {
    SwapOutSwaps(s, w, step, c);
    var issued := if step.SwapOutReady? then [Resume(Self(s, w))] else [];
    match step {
      case SwapOutReady => YieldReadyFibers(s, w);
      case SwapOutHold => YieldHoldFibers(s, w);
      case SwapOutEnded(threw) => FinishFibers(s, w, threw);
    }
    hide Inv, Swaps, Flow, YieldReady, YieldHold, Finish;
    SwapCalm(s, DoLoop(s, w, step), Self(s, w), c, multiset(issued), NOTHING);
  }

  lemma QueueCalm(s: State, w: nat, step: LoopStep, c: CallId)
    requires Inv(s) && CanLoop(s, w, step) && c < |s.calls|
    requires step.TakeEntry? || step.ScheduleReady? || step.IdleSchedule?
    ensures Calm(s, DoLoop(s, w, step), c)
  {
    match step {
      case TakeEntry => TakeFlow(s, w);
      case ScheduleReady => RescheduleFlow(s, w);
      case IdleSchedule => FlushFibers(s, w);
    }
    IdleFrame(s, w, step);
    hide *;
    StillCalm(s, DoLoop(s, w, step), c, NOTHING);
  }

  lemma ExpireCalm(s: State, w: nat, now: TS.u64, guard: TS.Guard, c: CallId)
    requires Inv(s) && CanExpire(s, w) && c < |s.calls|
    ensures Calm(s, Expire(s, w, now, guard), c)
  {
    RecurringAreUsers(s);
    ExpireFibers(s, w, now, guard);
    hide Inv, Flow, TS.Expiry, ET.Armed, Recurring, Calm;
    StillCalm(s, Expire(s, w, now, guard), c, Recurring(s, now, guard));
  }

  lemma DispatchCalm(s: State, w: nat, report: ET.Report, ok: bool, c: CallId)
    requires Inv(s) && CanDispatch(s, w, report, ok) && c < |s.calls|
    ensures Calm(s, Dispatch(s, w, report, ok), c)
  {
    DispatchFibers(s, w, report, ok);
    ET.DispatchOneEffect(s.table, report, ok);
    hide Inv, Flow, ET.Inv, ET.DispatchOne, ET.Armed, Calm;
    StillCalm(s, Dispatch(s, w, report, ok), c, NOTHING);
  }

  lemma ParkCalm(s: State, w: nat, step: LoopStep, c: CallId)
    requires Inv(s) && CanLoop(s, w, step) && c < |s.calls|
    requires IsPark(step)
    ensures Calm(s, DoLoop(s, w, step), c)
  {
    ParkMoves(s, w, step);
    hide DoLoop, CanLoop, Moves;
    ParkedCalm(s, w, DoLoop(s, w, step), c);
  }

  /** The steps that move a worker with empty hands. */
  predicate IsPark(step: LoopStep) {
    step.TakeNothing? || step.IdleStop? || step.IdlePending? || step.IdleQuit? || step.IdleOut?
  }

  lemma ParkMoves(s: State, w: nat, step: LoopStep)
    requires CanLoop(s, w, step) && IsPark(step)
    ensures Moves(s, w, DoLoop(s, w, step))
  {
    match step
    case TakeNothing => TakeNoneMoves(s, w);
    case IdleStop(now) => CheckStopMoves(s, w, now);
    case IdlePending => CheckRestMoves(s, w);
    case IdleQuit => CheckRestMoves(s, w);
    case IdleOut =>
  }

  lemma ParkedCalm(s: State, w: nat, s': State, c: CallId)
    requires FibersOk(s) && Moves(s, w, s') && c < |s.calls|
    ensures Calm(s, s', c)
  {
    MoveFibers(s, w, s'.workers[w], s');
    StillCalm(s, s', c, NOTHING);
  }

  lemma LoopCalm(s: State, w: nat, step: LoopStep, c: CallId)
    requires Inv(s) && CanLoop(s, w, step) && c < |s.calls|
    ensures Calm(s, DoLoop(s, w, step), c)
  {
    match step
    case TakeEntry => QueueCalm(s, w, step, c);
    case TakeNothing => ParkCalm(s, w, step, c);
    case SwapInFiber => StartFiberCalm(s, w, c);
    case SwapInDead => PoppedFiberStarts(s, w);
    case SwapInCallback => StartCallCalm(s, w, c);
    case SwapOutReady => SwapOutCalm(s, w, step, c);
    case ScheduleReady => QueueCalm(s, w, step, c);
    case SwapOutHold => SwapOutCalm(s, w, step, c);
    case SwapOutEnded(_) => SwapOutCalm(s, w, step, c);
    case IdleStop(_) => ParkCalm(s, w, step, c);
    case IdlePending => ParkCalm(s, w, step, c);
    case IdleQuit => ParkCalm(s, w, step, c);
    case IdleExpire(now, guard) => ExpireCalm(s, w, now, guard, c);
    case IdleSchedule => QueueCalm(s, w, step, c);
    case IdleReport(report, ok) => DispatchCalm(s, w, report, ok, c);
    case IdleOut => ParkCalm(s, w, step, c);
  }

  lemma LoopCovered(s: State, w: nat, step: LoopStep)
    requires Inv(s) && AllCovered(s) && CanLoop(s, w, step)
    ensures AllCovered(DoLoop(s, w, step))
  {
    LoopFrame(s, w, step);
    forall c: CallId | c < |s.calls| ensures Covered(DoLoop(s, w, step), c) {
      LoopCalm(s, w, step, c);
      CalmKeeps(s, DoLoop(s, w, step), c);
    }
  }

  // ----- The hooked calls -----

  /** The running fiber moves to `pc`; call c is not the one it is in, or it leaves it. */
  lemma SelfCalm(s: State, w: nat, s': State, pc: Pc, c: CallId, gained: multiset<Task>, lost: multiset<Task>)
    requires Runs(s, w) && SelfMoves(s, w, s', pc) && Flow(s, s', gained, lost)
    requires !SelfPc(s, w).PastTest(c) && !Exposed(pc, c) && Call(Timeout(c)) !in lost
    requires c < |s.calls| && c < |s'.calls| && s'.calls[c] == s.calls[c] && NoMoreArmed(s, s', c)
    ensures Calm(s, s', c)
  {
    MovedCalm(s, s', Self(s, w), c, gained, lost);
  }

  lemma FiringKept(s: State, w: nat, s': State, pc: Pc, c: CallId)
    requires Runs(s, w) && SelfMoves(s, w, s', pc) && (SelfPc(s, w).PastTest(c) ==> pc.PastTest(c))
    ensures Firing(s, c) ==> Firing(s', c)
  {
    if Firing(s, c) {
      var g :| 0 <= g < |s.fibers| && s.fibers[g].pc.PastTest(c);
      assert s'.fibers[g].pc.PastTest(c);
    }
  }

  /** The running fiber goes on within its own call c, whose timeout stays under way. */
  lemma OwnCovered(s: State, w: nat, s': State, pc: Pc, c: CallId, gained: multiset<Task>)
    requires Runs(s, w) && SelfMoves(s, w, s', pc) && Flow(s, s', gained, NOTHING)
    requires c < |s.calls| && s'.calls == s.calls && s.calls[c].owner == Self(s, w) && Covered(s, c)
    requires Exposed(SelfPc(s, w), c) && !SelfPc(s, w).IoWait?
    requires SelfPc(s, w).IoTry? && !s.calls[c].cancelled && pc.HasTimer() && pc.timer.Some? ==>
      Call(Timeout(c)) in gained
    requires SelfPc(s, w).IoArm? && InCall(pc) && !pc.IoTry? ==> pc.timer == SelfPc(s, w).timer
    ensures Covered(s', c)
  {
    FiringKept(s, w, s', pc, c);
    CountKept(s, s', c, gained);
    assert PcOf(s', Self(s, w)) == pc && PcOf(s, Self(s, w)) == SelfPc(s, w);
    hide Flow, Count, Firing, ET.Armed, SelfMoves, PcOf;
  }

  lemma CountKept(s: State, s': State, c: CallId, gained: multiset<Task>)
    requires Flow(s, s', gained, NOTHING)
    ensures Count(s', Call(Timeout(c))) >= Count(s, Call(Timeout(c)))
    ensures Call(Timeout(c)) in gained ==> Count(s', Call(Timeout(c))) >= 1
  {
    assert Count(s', Call(Timeout(c))) + NOTHING[Call(Timeout(c))]
      == Count(s, Call(Timeout(c))) + gained[Call(Timeout(c))];
    hide Count;
  }

  lemma IoBeginCovered(s: State, w: nat, fd: nat, ev: Event)
    requires Inv(s) && AllCovered(s) && CanIoBegin(s, w)
    ensures AllCovered(IoBegin(s, w, fd, ev))
  {
    var s', pc := IoBegin(s, w, fd, ev), IoTry(|s.calls|);
    QuietMove(s, w, s', pc);
    forall c: CallId | c < |s'.calls| ensures Covered(s', c) {
      if c < |s.calls| {
        SelfCalm(s, w, s', pc, c, NOTHING, NOTHING);
        CalmKeeps(s, s', c);
      }
    }
  }

  lemma IoReturnCovered(s: State, w: nat)
    requires Inv(s) && AllCovered(s) && AtTry(s, w)
    ensures AllCovered(IoReturn(s, w))
  {
    var s' := IoReturn(s, w);
    QuietMove(s, w, s', Plain);
    LeavesCovered(s, w, s', Plain, NOTHING, NOTHING, |s.calls|);
  }

  /** A step within a hooked call that does not lose tasks and arms at most its own fiber. */
  lemma InCallCovered(s: State, w: nat, s': State, pc: Pc, gained: multiset<Task>)
    requires Inv(s) && AllCovered(s) && Runs(s, w) && SelfMoves(s, w, s', pc) && Flow(s, s', gained, NOTHING)
    requires s'.calls == s.calls
    requires forall f: FiberId :: f != Self(s, w) && Resume(f) in ET.Armed(s'.table) ==> Resume(f) in ET.Armed(s.table)
    requires SelfPc(s, w).IoTry? || SelfPc(s, w).IoArm?
    requires InCall(pc) && !pc.IoTry? && pc.call == SelfPc(s, w).call
    requires SelfPc(s, w).IoTry? && pc.timer.Some? ==> Call(Timeout(pc.call)) in gained
    requires SelfPc(s, w).IoArm? ==> pc.timer == SelfPc(s, w).timer
    ensures AllCovered(s')
  {
    assert PcAt(s, Self(s, w));
    forall c: CallId | c < |s'.calls| ensures Covered(s', c) {
      if c == pc.call {
        OwnCovered(s, w, s', pc, c, gained);
      } else if s.calls[c].owner != Self(s, w) {
        SelfCalm(s, w, s', pc, c, gained, NOTHING);
        CalmKeeps(s, s', c);
      }
    }
  }

  lemma IoTimerCovered(s: State, w: nat, addr: nat, ms: TS.u64, now: TS.u64)
    requires Inv(s) && AllCovered(s) && AtTry(s, w) && FreshAddr(s, addr)
    ensures AllCovered(IoTimer(s, w, addr, ms, now))
  {
    var c := SelfPc(s, w).call;
    var r := TS.Rec(addr, false, ms, TS.Plus(ms, now), Timeout(c));
    AddTimerMove(s, w, IoTimer(s, w, addr, ms, now), IoArm(c, Some(addr)), r);
    InCallCovered(s, w, IoTimer(s, w, addr, ms, now), IoArm(c, Some(addr)), multiset{Call(Timeout(c))});
  }

  lemma IoNoTimerCovered(s: State, w: nat)
    requires Inv(s) && AllCovered(s) && AtTry(s, w)
    ensures AllCovered(IoNoTimer(s, w))
  {
    var pc := IoArm(SelfPc(s, w).call, None);
    QuietMove(s, w, IoNoTimer(s, w), pc);
    InCallCovered(s, w, IoNoTimer(s, w), pc, NOTHING);
  }

  lemma IoAddCovered(s: State, w: nat, ok: bool)
    requires Inv(s) && AllCovered(s) && CanIoAdd(s, w)
    ensures AllCovered(IoAdd(s, w, ok))
  {
    var s', call := IoAdd(s, w, ok), s.calls[SelfPc(s, w).call];
    IoAddFibers(s, w, ok);
    IoAddShape(s, w, ok);
    ET.AddEventEffect(s.table, call.fd, call.ev, Resume(Self(s, w)), ok);
    assert ET.Armed(s'.table) == ET.Armed(s.table) + if ok then multiset{Resume(Self(s, w))} else NOTHING;
    hide IoAdd, ET.AddEvent, ET.Armed, Inv, AllCovered, Flow;
    InCallCovered(s, w, s', AfterAdd(SelfPc(s, w), ok), if ok then multiset{Resume(Self(s, w))} else NOTHING);
  }

  lemma IoCancelCovered(s: State, w: nat)
    requires Inv(s) && AllCovered(s) && CanIoCancel(s, w)
    ensures AllCovered(IoCancel(s, w))
  {
    hide Inv, AllCovered;
    CancelCovered(s, w, IoCancel(s, w), IoCancel(s, w).fibers[Self(s, w)].pc);
  }

  /** The running fiber cancels its own timer and goes back to trying, or returns. */
  lemma CancelCovered(s: State, w: nat, s': State, pc: Pc)
    requires Inv(s) && AllCovered(s) && Runs(s, w) && SelfMoves(s, w, s', pc) && s'.calls == s.calls
    requires SelfPc(s, w).IoWoken? || SelfPc(s, w).IoUndo?
    requires pc == Plain || (pc == IoTry(SelfPc(s, w).call) && pc.call < |s.calls| && !s.calls[pc.call].cancelled)
    requires s'.queue == s.queue && s'.table == s.table && s'.timers == CancelOwn(s.timers, SelfPc(s, w).timer)
    ensures AllCovered(s')
  {
    var timer, own := SelfPc(s, w).timer, SelfPc(s, w).call;
    CancelFlow(s, w, s', pc);
    OwnTasksOnly(s.timers.items, timer, own);
    LeftCovered(s, w, s', pc, own);
    hide Inv, Flow, OwnTasks, AllCovered, Covered, CancelOwn, OwnTimer;
    LeavesCovered(s, w, s', pc, NOTHING, OwnTasks(s.timers.items, timer), own);
  }

  lemma CancelFlow(s: State, w: nat, s': State, pc: Pc)
    requires Inv(s) && Runs(s, w) && SelfMoves(s, w, s', pc)
    requires SelfPc(s, w).IoWoken? || SelfPc(s, w).IoUndo?
    requires pc == Plain || pc.IoTry?
    requires s'.queue == s.queue && s'.table == s.table && s'.timers == CancelOwn(s.timers, SelfPc(s, w).timer)
    ensures SelfPc(s, w).call < |s.calls| && s.calls[SelfPc(s, w).call].owner == Self(s, w)
    ensures OwnTimer(s.timers.items, SelfPc(s, w).timer, SelfPc(s, w).call)
    ensures Flow(s, s', NOTHING, OwnTasks(s.timers.items, SelfPc(s, w).timer))
  {
    assert PcAt(s, Self(s, w)) && OwnAt(s, Self(s, w));
    CancelMove(s, w, s', pc, SelfPc(s, w).timer, SelfPc(s, w).call);
  }

  lemma LeftCovered(s: State, w: nat, s': State, pc: Pc, c: CallId)
    requires Runs(s, w) && SelfMoves(s, w, s', pc) && s'.calls == s.calls
    requires c < |s.calls| && s.calls[c].owner == Self(s, w)
    requires pc == Plain || (pc == IoTry(c) && !s.calls[c].cancelled)
    ensures Covered(s', c)
  {
  }

  lemma OwnTasksOnly(items: seq<TS.Rec>, timer: Option<nat>, own: CallId)
    requires OwnTimer(items, timer, own)
    ensures forall c: CallId :: c != own ==> Call(Timeout(c)) !in OwnTasks(items, timer)
  {
  }

  /** The running fiber leaves where it was, beside calls and slots, and no timeout goes
      away but that of call `own`, which it does not need any more. */
  lemma LeavesCovered(s: State, w: nat, s': State, pc: Pc, gained: multiset<Task>, lost: multiset<Task>, own: CallId)
    requires AllCovered(s) && Runs(s, w) && SelfMoves(s, w, s', pc) && Flow(s, s', gained, lost)
    requires s'.calls == s.calls && s'.table == s.table && !SelfPc(s, w).TimeoutFire? && !SelfPc(s, w).TimeoutSet?
    requires forall c: CallId :: c != own ==> !Exposed(pc, c) && Call(Timeout(c)) !in lost
    requires own < |s.calls| ==> Covered(s', own)
    ensures AllCovered(s')
  {
    forall c: CallId | c < |s'.calls| ensures Covered(s', c) {
      if c != own {
        SelfCalm(s, w, s', pc, c, gained, lost);
        CalmKeeps(s, s', c);
      }
    }
  }

  lemma SleepShape(s: State, w: nat, addr: nat, ms: TS.u64, now: TS.u64)
    requires CanSleep(s, w, addr)
    ensures var s' := Sleep(s, w, addr, ms, now);
      && SelfMoves(s, w, s', Asleep) && s'.calls == s.calls && s'.table == s.table && s'.queue == s.queue
      && s'.timers.items == TS.Insert(s.timers.items, TS.Rec(addr, false, ms, TS.Plus(ms, now), Wake(Self(s, w))))
  {
  }

  lemma SleepCovered(s: State, w: nat, addr: nat, ms: TS.u64, now: TS.u64)
    requires Inv(s) && AllCovered(s) && CanSleep(s, w, addr)
    ensures AllCovered(Sleep(s, w, addr, ms, now))
  {
    var s' := Sleep(s, w, addr, ms, now);
    var r := TS.Rec(addr, false, ms, TS.Plus(ms, now), Wake(Self(s, w)));
    SleepShape(s, w, addr, ms, now);
    hide Sleep;
    AddTimerMove(s, w, s', Asleep, r);
    hide Inv, Flow, AllCovered;
    LeavesCovered(s, w, s', Asleep, multiset{Call(r.cb)}, NOTHING, |s.calls|);
  }

  // ----- The library's callbacks -----

  lemma WakeCovered(s: State, w: nat)
    requires Inv(s) && AllCovered(s) && CanWake(s, w)
    ensures AllCovered(WakeSleeper(s, w))
  {
    var s', g := WakeSleeper(s, w), SelfPc(s, w).sleeper;
    WakeFlow(s, w);
    LeavesCovered(s, w, s', Done, multiset{Resume(g)}, multiset{Call(Wake(g))}, |s.calls|);
  }

  /** A test that passes changes nothing but its own fiber's program counter. */
  lemma TestPassed(s: State, w: nat, c: CallId)
    requires CanTest(s, w) && c == SelfPc(s, w).call && c < |s.calls| && Covered(s, c) && !s.calls[c].cancelled
    requires s.calls[c].owner < |s.fibers|
    requires Flow(s, SetPc(s, Self(s, w), TimeoutSet(c)), NOTHING, NOTHING)
    ensures Covered(SetPc(s, Self(s, w), TimeoutSet(c)), c)
  {
    var s' := SetPc(s, Self(s, w), TimeoutSet(c));
    FiringKept(s, w, s', TimeoutSet(c), c);
    assert Count(s', Call(Timeout(c))) + NOTHING[Call(Timeout(c))]
      == Count(s, Call(Timeout(c))) + NOTHING[Call(Timeout(c))];
    hide Flow, Count;
    if s.calls[c].owner != Self(s, w) {
      assert PcOf(s', s.calls[c].owner) == PcOf(s, s.calls[c].owner);
      assert NeedsTimeout(s', c) ==> NeedsTimeout(s, c);
    }
  }

  /** A test that fails moves only its own fiber, and changes nothing the call needs. */
  lemma TestFailed(s: State, w: nat, c: CallId)
    requires CanTest(s, w) && c == SelfPc(s, w).call && c < |s.calls| && Covered(s, c)
    requires s.calls[c].owner < |s.fibers|
    requires !Alive(s, c) || s.calls[c].cancelled
    ensures Covered(SetPc(s, Self(s, w), Done), c)
  {
    var s' := SetPc(s, Self(s, w), Done);
    FiringKept(s, w, s', Done, c);
    if s.calls[c].owner != Self(s, w) {
      assert PcOf(s', s.calls[c].owner) == PcOf(s, s.calls[c].owner);
      assert NeedsTimeout(s', c) ==> NeedsTimeout(s, c);
    }
  }

  lemma TestOwnCovered(s: State, w: nat)
    requires Inv(s) && AllCovered(s) && CanTest(s, w)
    ensures SelfPc(s, w).call < |TestTimeout(s, w).calls| && Covered(TestTimeout(s, w), SelfPc(s, w).call)
  {
    var c := SelfPc(s, w).call;
    OwnCallCovered(s, w, c);
    TestFibers(s, w);
    hide Inv, Covered, Flow, AllCovered, FibersOk, WorkersOk;
    if Alive(s, c) && !s.calls[c].cancelled {
      TestPassed(s, w, c);
    } else {
      TestFailed(s, w, c);
    }
  }

  lemma OwnCallCovered(s: State, w: nat, c: CallId)
    requires PcsOk(s) && AllCovered(s) && CanTest(s, w) && c == SelfPc(s, w).call
    ensures c < |s.calls| && s.calls[c].owner < |s.fibers| && Covered(s, c)
  {
    assert PcAt(s, Self(s, w));
    hide Covered;
  }

  lemma TestCovered(s: State, w: nat)
    requires Inv(s) && AllCovered(s) && CanTest(s, w)
    ensures AllCovered(TestTimeout(s, w))
  {
    var s', own := TestTimeout(s, w), SelfPc(s, w).call;
    TestFibers(s, w);
    TestShape(s, w);
    TestOwnCovered(s, w);
    hide Inv, TestTimeout, Flow, AllCovered, Covered, Calm;
    forall c: CallId | c < |s'.calls| ensures Covered(s', c) {
      if c != own { TestOthersCovered(s, w, s', s'.fibers[Self(s, w)].pc, c); }
    }
    AllAreCovered(s');
  }

  lemma AllAreCovered(s: State)
    requires forall c: CallId :: c < |s.calls| ==> Covered(s, c)
    ensures AllCovered(s)
  {
    hide Covered;
  }

  lemma TestOthersCovered(s: State, w: nat, s': State, pc: Pc, c: CallId)
    requires AllCovered(s) && CanTest(s, w)
    requires SelfMoves(s, w, s', pc) && TimeoutMove(SelfPc(s, w), pc, SelfPc(s, w).call)
    requires Flow(s, s', NOTHING, Spent(pc, SelfPc(s, w).call)) && s'.calls == s.calls && s'.table == s.table
    requires c < |s.calls| && c != SelfPc(s, w).call
    ensures Covered(s', c)
  {
    assert Covered(s, c);
    hide AllCovered, Covered, Flow, Calm;
    SelfCalm(s, w, s', pc, c, NOTHING, Spent(pc, SelfPc(s, w).call));
    CalmKeeps(s, s', c);
  }

  lemma SetOwnCovered(s: State, w: nat)
    requires CanSet(s, w)
    ensures Covered(SetCancelled(s, w), SelfPc(s, w).call)
  {
    assert SetCancelled(s, w).fibers[Self(s, w)].pc.PastTest(SelfPc(s, w).call);
  }

  lemma SetCovered(s: State, w: nat)
    requires Inv(s) && AllCovered(s) && CanSet(s, w)
    ensures AllCovered(SetCancelled(s, w))
  {
    var s', own := SetCancelled(s, w), SelfPc(s, w).call;
    SetFibers(s, w);
    SetShape(s, w);
    SetOwnCovered(s, w);
    hide Inv, SetCancelled, Flow;
    forall c: CallId | c < |s'.calls| ensures Covered(s', c) {
      if c != own {
        SelfCalm(s, w, s', TimeoutFire(own), c, NOTHING, multiset{Call(Timeout(own))});
        CalmKeeps(s, s', c);
      }
    }
  }

  lemma FireShape(s: State, w: nat, ok: bool)
    requires CanFire(s, w) && ET.Inv(s.table)
    ensures var s', own := FireTimeout(s, w, ok), SelfPc(s, w).call;
      && SelfMoves(s, w, s', Done) && |s'.calls| == |s.calls| && own < |s.calls|
      && (forall c: CallId :: c < |s.calls| && c != own ==> s'.calls[c] == s.calls[c])
      && ET.Armed(s'.table) <= ET.Armed(s.table)
  {
    var call := s.calls[SelfPc(s, w).call];
    ET.CancelEventEffect(s.table, call.fd, call.ev, ok);
    hide ET.Armed, ET.Inv;
  }

  lemma FireOwnCovered(s: State, w: nat, ok: bool)
    requires CanFire(s, w) && s.calls[SelfPc(s, w).call].cancelled
    ensures Covered(FireTimeout(s, w, ok), SelfPc(s, w).call)
  {
    var c, s', s1 := SelfPc(s, w).call, FireTimeout(s, w, ok), Released(s, w, ok);
    FireIs(s, w, ok);
    FireFlags(s, w, ok);
    hide FireTimeout, Released, ET.Armed;
    assert Firing(s', c) == Firing(s1, c);
  }

  lemma FireFlags(s: State, w: nat, ok: bool)
    requires CanFire(s, w)
    ensures var s', c := FireTimeout(s, w, ok), SelfPc(s, w).call;
      && s'.fibers == Released(s, w, ok).fibers && c < |s'.calls|
      && s'.calls[c] == s.calls[c].(missed := s'.calls[c].missed)
  {
    hide StillWaiting, ET.CancelEvent, Appended, Firing;
  }

  lemma FireCovered(s: State, w: nat, ok: bool)
    requires Inv(s) && AllCovered(s) && CanFire(s, w)
    ensures AllCovered(FireTimeout(s, w, ok))
  {
    var s', own := FireTimeout(s, w, ok), SelfPc(s, w).call;
    FireFibers(s, w, ok);
    assert PcAt(s, Self(s, w));
    FireOwnCovered(s, w, ok);
    ET.CancelEventEffect(s.table, s.calls[own].fd, s.calls[own].ev, ok);
    FireShape(s, w, ok);
    hide Inv, FireTimeout, Flow, ET.Inv;
    forall c: CallId | c < |s'.calls| ensures Covered(s', c) {
      if c != own {
        SelfCalm(s, w, s', Done, c, NOTHING, NOTHING);
        CalmKeeps(s, s', c);
      }
    }
  }

  // ----- User code and outside threads -----

  lemma SlotsCalm(s: State, s': State, c: CallId, gained: multiset<Task>, lost: multiset<Task>)
    requires c < |s.calls| && s'.fibers == s.fibers && s'.calls == s.calls
    requires Flow(s, s', gained, lost) && Call(Timeout(c)) !in lost
    requires NoMoreArmed(s, s', c)
    ensures Calm(s, s', c)
  {
    MovedCalm(s, s', |s.fibers|, c, gained, lost);
  }

  lemma TimersCalm(s: State, s': State, c: CallId)
    requires c < |s.calls| && s' == s.(timers := s'.timers, used := s'.used)
    requires Timed(s')[Call(Timeout(c))] >= Timed(s)[Call(Timeout(c))]
    ensures Calm(s, s', c)
  {
  }

  lemma SubmitCalm(s: State, op: UserOp, c: CallId)
    requires Inv(s) && CanOp(s, op) && c < |s.calls|
    requires op.Submit? || op.SubmitFiber? || op.NewFiber?
    ensures Calm(s, ApplyOp(s, op), c)
  {
    hide Calm;
    match op
    case Submit(id, thread) => PushCalm(s, Call(User(id)), thread, c);
    case SubmitFiber(f, thread) => PushCalm(s, Resume(f), thread, c);
    case NewFiber => NewFiberCalm(s, c);
  }

  lemma PushCalm(s: State, task: Task, thread: int, c: CallId)
    requires c < |s.calls|
    ensures Calm(s, Push(s, task, thread), c)
  {
    PushFlow(s, task, thread);
    hide Flow, Calm;
    SlotsCalm(s, Push(s, task, thread), c, multiset{task}, NOTHING);
  }

  lemma NewFiberCalm(s: State, c: CallId)
    requires Inv(s) && c < |s.calls|
    ensures Calm(s, s.(fibers := s.fibers + [Fiber(INIT, Plain)]), c)
  {
    NewFiberFibers(s);
    hide Flow, Calm, Inv;
    MovedCalm(s, s.(fibers := s.fibers + [Fiber(INIT, Plain)]), |s.fibers|, c, NOTHING, NOTHING);
  }

  lemma WatchCalm(s: State, op: UserOp, c: CallId)
    requires Inv(s) && op.Watch? && CanOp(s, op) && c < |s.calls|
    ensures Calm(s, ApplyOp(s, op), c)
  {
    var task := Call(User(op.id));
    WatchFibers(s, op.fd, op.ev, op.id, op.ok);
    ET.AddEventEffect(s.table, op.fd, op.ev, task, op.ok);
    hide Inv, ET.AddEvent, ET.Armed, Flow;
    SlotsCalm(s, ApplyOp(s, op), c, if op.ok then multiset{task} else NOTHING, NOTHING);
  }

  lemma UnwatchCalm(s: State, op: UserOp, c: CallId)
    requires Inv(s) && op.Unwatch? && CanOp(s, op) && c < |s.calls|
    ensures Calm(s, ApplyOp(s, op), c)
  {
    var s' := ApplyOp(s, op);
    ET.DelEventEffect(s.table, op.fd, op.ev, op.ok);
    if op.ok && ET.IsArmed(s.table, op.fd, op.ev) {
      var task := s.table.rows[op.fd].Get(op.ev).Task();
      assert SlotAt(s, op.fd, op.ev);
      DeletedFlow(s, s', task);
      hide Inv, ET.Inv, ET.DelEvent, ET.Armed, Flow, Calm;
      SlotsCalm(s, s', c, NOTHING, multiset{task});
    } else {
      assert s' == s;
      hide Inv, ET.Inv, ET.DelEvent, ET.Armed, Flow, ApplyOp, CanOp;
      StillItself(s, c);
    }
  }

  lemma StillItself(s: State, c: CallId)
    requires c < |s.calls|
    ensures Calm(s, s, c)
  {
    hide Count, ET.Armed;
  }

  lemma MovedCalmly(s: State, table: ET.Table, out: seq<Task>, c: CallId)
    requires Inv(s) && ET.Armed(s.table) == ET.Armed(table) + multiset(out) && c < |s.calls|
    ensures Calm(s, s.(table := table, queue := Appended(s.queue, out)), c)
  {
    var s' := s.(table := table, queue := Appended(s.queue, out));
    ReleasedFibers(s, s', out);
    hide Inv, ET.Armed, Flow, Appended;
    SlotsCalm(s, s', c, NOTHING, NOTHING);
  }

  lemma ReleaseCalm(s: State, op: UserOp, c: CallId)
    requires Inv(s) && (op.CancelWatch? || op.CloseFd?) && CanOp(s, op) && c < |s.calls|
    ensures Calm(s, ApplyOp(s, op), c)
  {
    match op
    case CancelWatch(fd, ev, ok) =>
      ET.CancelEventEffect(s.table, fd, ev, ok);
      MovedCalmly(s, ET.CancelEvent(s.table, fd, ev, ok).0, ET.CancelEvent(s.table, fd, ev, ok).1, c);
    case CloseFd(fd, ok) =>
      ET.CancelAllEffect(s.table, fd, ok);
      MovedCalmly(s, ET.CancelAll(s.table, fd, ok).0, ET.CancelAll(s.table, fd, ok).1, c);
  }

  /** A step that only replaces a timer by itself under another key. */
  lemma ReplacedCalm(s: State, s': State, c: CallId, r: TS.Rec)
    requires c < |s.calls| && s' == s.(timers := s'.timers)
    requires TS.Has(s.timers.items, r.addr) && TS.At(s.timers.items, r.addr).cb == r.cb
    requires s'.timers.items == TS.Insert(TS.Erase(s.timers.items, r.addr), r)
    ensures Calm(s, s', c)
  {
    ReplaceGathers(s.timers.items, r);
    TimersCalm(s, s', c);
  }

  lemma RekeyCalm(s: State, op: UserOp, c: CallId)
    requires CanOp(s, op) && c < |s.calls| && (op.TimerRefresh? || op.TimerReset?)
    ensures Calm(s, ApplyOp(s, op), c)
  {
    var items := s.timers.items;
    if op.TimerRefresh? && TS.Has(items, op.addr) {
      var r := TS.At(items, op.addr);
      ReplacedCalm(s, ApplyOp(s, op), c, r.(next := TS.Plus(op.now, r.ms)));
    } else if op.TimerReset? && TS.Reset(s.timers, op.addr, op.ms, op.fromNow, op.now).1 {
      var r := TS.At(items, op.addr);
      var start := if op.fromNow then op.now else TS.Minus(r.next, r.ms);
      ReplacedCalm(s, ApplyOp(s, op), c, r.(ms := op.ms, next := TS.Plus(start, op.ms)));
    } else {
      assert ApplyOp(s, op) == s;
    }
  }

  lemma TimerCalm(s: State, op: UserOp, c: CallId)
    requires CanOp(s, op) && c < |s.calls| && (op.TimerAdd? || op.TimerCancel?)
    ensures Calm(s, ApplyOp(s, op), c)
  {
    match op {
      case TimerAdd(addr, ms, now, recurring, id) =>
        TS.InsertGathers(s.timers.items, TS.Rec(addr, recurring, ms, TS.Plus(ms, now), User(id)), RecTasks);
      case TimerCancel(addr) => TS.EraseGathers(s.timers.items, addr, RecTasks);
    }
    TimersCalm(s, ApplyOp(s, op), c);
  }

  lemma OpCalm(s: State, op: UserOp, c: CallId)
    requires Inv(s) && CanOp(s, op) && c < |s.calls|
    ensures Calm(s, ApplyOp(s, op), c)
  {
    if op.Submit? || op.SubmitFiber? || op.NewFiber? { SubmitCalm(s, op, c); }
    else if op.Watch? { WatchCalm(s, op, c); }
    else if op.Unwatch? { UnwatchCalm(s, op, c); }
    else if op.CancelWatch? || op.CloseFd? { ReleaseCalm(s, op, c); }
    else if op.TimerRefresh? || op.TimerReset? { RekeyCalm(s, op, c); }
    else { TimerCalm(s, op, c); }
  }

  lemma FlagsCovered(s: State, s': State)
    requires AllCovered(s) && s' == s.(autoStop := s'.autoStop, stopping := s'.stopping, late := s'.late)
    ensures AllCovered(s')
  {
    forall c: CallId | c < |s'.calls| ensures Covered(s', c) {
      StillCalm(s, s', c, NOTHING);
      CalmKeeps(s, s', c);
    }
  }

  lemma ActCovered(s: State, actor: Actor, op: UserOp)
    requires Inv(s) && AllCovered(s) && CanOp(s, op)
    ensures AllCovered(Noted(s, ApplyOp(s, op), actor))
  {
    OpFrame(s, op);
    forall c: CallId | c < |s.calls| ensures Covered(ApplyOp(s, op), c) {
      OpCalm(s, op, c);
      CalmKeeps(s, ApplyOp(s, op), c);
    }
    hide ApplyOp;
    FlagsCovered(ApplyOp(s, op), Noted(s, ApplyOp(s, op), actor));
  }

  // ----- Whole runs -----

  lemma CodeCovered(s: State, w: nat, step: CodeStep)
    requires Inv(s) && AllCovered(s) && CanCode(s, w, step)
    ensures AllCovered(DoCode(s, w, step))
  {
    hide Inv, AllCovered;
    match step
    case IoCall(fd, ev) => IoBeginCovered(s, w, fd, ev);
    case IoResult => IoReturnCovered(s, w);
    case IoTimeout(addr, ms, now) => IoTimerCovered(s, w, addr, ms, now);
    case IoForever => IoNoTimerCovered(s, w);
    case IoRegister(ok) => IoAddCovered(s, w, ok);
    case IoResume => IoCancelCovered(s, w);
    case IoGiveUp => CancelCovered(s, w, IoUndone(s, w), Plain);
    case SleepFor(addr, ms, now) => SleepCovered(s, w, addr, ms, now);
    case RunWake => WakeCovered(s, w);
    case RunTest => TestCovered(s, w);
    case RunSet => SetCovered(s, w);
    case RunFire(ok) => FireCovered(s, w, ok);
  }

  lemma StepCovered(s: State, step: Step)
    requires Inv(s) && AllCovered(s) && Enabled(s, step)
    ensures AllCovered(Apply(s, step))
  {
    hide Inv, AllCovered;
    match step
    case Loop(w, loop) => LoopCovered(s, w, loop);
    case Code(w, code) => CodeCovered(s, w, code);
    case Act(actor, op) => ActCovered(s, actor, op);
    case SetAutoStop => FlagsCovered(s, s.(autoStop := true));
    case SetStopping => FlagsCovered(s, s.(stopping := true));
  }

  lemma {:induction false} RunCovered(s: State, steps: seq<Step>)
    requires Inv(s) && AllCovered(s) && Feasible(s, steps)
    ensures AllCovered(Run(s, steps))
    decreases |steps|
  {
    hide Inv, AllCovered;
    if steps != [] {
      StepKeeps(s, steps[0]);
      StepCovered(s, steps[0]);
      RunCovered(Apply(s, steps[0]), steps[1..]);
    }
  }

  lemma ReachableCovered(s: State)
    requires Reachable(s)
    ensures AllCovered(s)
  {
    var n: nat, steps :| Feasible(Start(n), steps) && Run(Start(n), steps) == s;
    StartInv(n);
    RunCovered(Start(n), steps);
  }

  // ----- Exactly when a timeout is missed -----

  /** The owner of call c waits and its slot is still armed. */
  ghost predicate WaitsArmed(s: State, c: CallId)
    requires c < |s.calls|
  {
    && PcOf(s, s.calls[c].owner).IoWait? && PcOf(s, s.calls[c].owner).call == c
    && Resume(s.calls[c].owner) in ET.Armed(s.table)
  }

  /** The owner of call c has yet to call addEvent for it. */
  ghost predicate OnItsWay(s: State, c: CallId)
    requires c < |s.calls|
  {
    (PcOf(s, s.calls[c].owner).IoTry? || PcOf(s, s.calls[c].owner).IoArm?) && PcOf(s, s.calls[c].owner).call == c
  }

  /** Another callback of the same call is past its test too. */
  ghost predicate AnotherFires(s: State, w: nat, c: CallId)
    requires Runs(s, w)
  {
    exists g :: 0 <= g < |s.fibers| && g != Self(s, w) && s.fibers[g].pc.PastTest(c)
  }

  /** A timeout that fires while its fiber waits releases it, exactly when epoll_ctl lets
      it; it is missed exactly when epoll_ctl fails then, or when the fiber is still on its
      way to addEvent, and no other callback of the call is going to cancel. */
  lemma MissedExactly(s: State, w: nat, ok: bool)
    requires Reachable(s) && CanFire(s, w)
    ensures var c := SelfPc(s, w).call; var s' := FireTimeout(s, w, ok);
      && c < |s'.calls|
      && (s'.calls[c].missed
          <==> s.calls[c].missed || ((OnItsWay(s, c) || (WaitsArmed(s, c) && !ok)) && !AnotherFires(s, w, c)))
      && (WaitsArmed(s, c) && ok ==>
            && Resume(s.calls[c].owner) !in ET.Armed(s'.table)
            && s'.queue == s.queue + [Entry(Resume(s.calls[c].owner), ANY_THREAD)])
  {
    var c := SelfPc(s, w).call;
    ReachableInv(s);
    FireReleases(s, w, ok);
    assert PcAt(s, Self(s, w));
    FireNotes(s, w, ok);
    hide Inv, FireTimeout;
  }

  /** A cancelEvent, whosoever's it is, releases a waiting owner exactly when it names the
      event of the call and epoll_ctl lets it. */
  lemma CancelReleases(s: State, c: CallId, fd: nat, ev: Event, ok: bool)
    requires Inv(s) && c < |s.calls| && WaitsArmed(s, c)
    ensures var f := s.calls[c].owner; var (table, out) := ET.CancelEvent(s.table, fd, ev, ok);
      if ok && fd == s.calls[c].fd && ev == s.calls[c].ev
      then Resume(f) !in ET.Armed(table) && out == [Resume(f)]
      else Resume(f) in ET.Armed(table)
  {
    var f := s.calls[c].owner;
    ET.CancelEventEffect(s.table, fd, ev, ok);
    ArmedFiberWaits(s, f);
    OnceArmed(s, f);
    assert SlotAt(s, fd, ev);
    var (table, out) := ET.CancelEvent(s.table, fd, ev, ok);
    assert ET.Armed(s.table)[Resume(f)] == ET.Armed(table)[Resume(f)] + multiset(out)[Resume(f)];
    hide Inv, ET.Inv, ET.CancelEvent, ET.Armed;
  }

  /** What the closure's cancelEvent does to a waiting owner. */
  lemma FireReleases(s: State, w: nat, ok: bool)
    requires Inv(s) && CanFire(s, w)
    ensures var c := SelfPc(s, w).call; var f := s.calls[c].owner; var s' := FireTimeout(s, w, ok);
      WaitsArmed(s, c) ==>
        && (Resume(f) in ET.Armed(s'.table) <==> !ok)
        && (ok ==> s'.queue == s.queue + [Entry(Resume(f), ANY_THREAD)])
  {
    var c := SelfPc(s, w).call;
    if WaitsArmed(s, c) {
      CancelReleases(s, c, s.calls[c].fd, s.calls[c].ev, ok);
    }
    FireIs(s, w, ok);
    ReleasedIs(s, w, ok);
    OneAppended(s.queue, Resume(s.calls[c].owner));
    hide *;
  }

  lemma FireNotes(s: State, w: nat, ok: bool)
    requires CanFire(s, w) && ET.Inv(s.table) && s.calls[SelfPc(s, w).call].owner < |s.fibers|
    requires var c := SelfPc(s, w).call;
      WaitsArmed(s, c) ==> (Resume(s.calls[c].owner) in ET.Armed(FireTimeout(s, w, ok).table) <==> !ok)
    ensures var c := SelfPc(s, w).call; var s' := FireTimeout(s, w, ok);
      && c < |s'.calls|
      && (s'.calls[c].missed
          <==> s.calls[c].missed || ((OnItsWay(s, c) || (WaitsArmed(s, c) && !ok)) && !AnotherFires(s, w, c)))
  {
    var c := SelfPc(s, w).call;
    FireIs(s, w, ok);
    FireShape(s, w, ok);
    StillExactly(s, w, Released(s, w, ok), c);
    FiringIsAnother(s, w, Released(s, w, ok), c);
    hide FireTimeout, StillWaiting, Firing, AnotherFires, WaitsArmed, OnItsWay, ET.Inv, ET.Armed;
  }

  lemma OneAppended(queue: seq<Entry>, task: Task)
    ensures Appended(queue, [task]) == queue + [Entry(task, ANY_THREAD)]
  {
  }

  lemma ReleasedIs(s: State, w: nat, ok: bool)
    requires CanFire(s, w)
    ensures var call := s.calls[SelfPc(s, w).call]; var (table, out) := ET.CancelEvent(s.table, call.fd, call.ev, ok);
      Released(s, w, ok).table == table && Released(s, w, ok).queue == Appended(s.queue, out)
  {
    hide ET.CancelEvent, Appended;
  }

  /** The state in which FireTimeout looks whether the owner still waits. */
  ghost function Released(s: State, w: nat, ok: bool): State
    requires CanFire(s, w)
  {
    var call := s.calls[SelfPc(s, w).call];
    var (table, out) := ET.CancelEvent(s.table, call.fd, call.ev, ok);
    SetPc(s, Self(s, w), Done).(table := table, queue := Appended(s.queue, out))
  }

  lemma FireIs(s: State, w: nat, ok: bool)
    requires CanFire(s, w)
    ensures var s1, s', c := Released(s, w, ok), FireTimeout(s, w, ok), SelfPc(s, w).call;
      && s'.table == s1.table && s'.queue == s1.queue && c < |s'.calls| && s1.calls == s.calls
      && s'.calls[c].missed == (s.calls[c].missed || (StillWaiting(s1, c) && !Firing(s1, c)))
      && s1.fibers == s.fibers[Self(s, w) := Fiber(EXEC, Done)]
  {
    hide StillWaiting, ET.CancelEvent, Appended, Firing;
  }

  lemma FiringIsAnother(s: State, w: nat, s1: State, c: CallId)
    requires Runs(s, w) && s1.fibers == s.fibers[Self(s, w) := Fiber(EXEC, Done)]
    ensures Firing(s1, c) <==> AnotherFires(s, w, c)
  {
    if Firing(s1, c) {
      var g :| 0 <= g < |s1.fibers| && s1.fibers[g].pc.PastTest(c);
      assert g != Self(s, w) && s.fibers[g].pc.PastTest(c);
    }
    if AnotherFires(s, w, c) {
      var g :| 0 <= g < |s.fibers| && g != Self(s, w) && s.fibers[g].pc.PastTest(c);
      assert s1.fibers[g].pc.PastTest(c);
    }
  }

  lemma StillExactly(s: State, w: nat, s1: State, c: CallId)
    requires Runs(s, w) && SelfPc(s, w).TimeoutFire? && s1.fibers == s.fibers[Self(s, w) := Fiber(EXEC, Done)]
    requires s1.calls == s.calls && c < |s.calls| && s.calls[c].owner < |s.fibers|
    requires ET.Armed(s1.table) <= ET.Armed(s.table)
    ensures StillWaiting(s1, c)
      <==> OnItsWay(s, c) || (WaitsArmed(s, c) && Resume(s.calls[c].owner) in ET.Armed(s1.table))
  {
  }

  lemma OnceArmed(s: State, f: FiberId)
    requires FibersOk(s) && f < |s.fibers|
    ensures ET.Armed(s.table)[Resume(f)] <= 1
  {
    assert OkAt(s, f);
  }

  lemma CodeKeepsCancelled(s: State, w: nat, step: CodeStep, c: CallId)
    requires CanCode(s, w, step) && c < |s.calls| && s.calls[c].cancelled
    ensures c < |DoCode(s, w, step).calls| && DoCode(s, w, step).calls[c].cancelled
  {
    if step.RunFire? {
      FireCancelled(s, w, step.ok, c);
      hide FireTimeout;
    } else {
      hide TS.AddTimer, CancelOwn, ET.AddEvent;
    }
  }

  lemma FireCancelled(s: State, w: nat, ok: bool, c: CallId)
    requires CanFire(s, w) && c < |s.calls|
    ensures c < |FireTimeout(s, w, ok).calls| && FireTimeout(s, w, ok).calls[c].cancelled == s.calls[c].cancelled
  {
    hide ET.CancelEvent, ET.Valid, StillWaiting, Firing, Appended;
  }

  lemma {:induction false} RunKeepsCancelled(s: State, steps: seq<Step>, c: CallId)
    requires Feasible(s, steps) && c < |s.calls| && s.calls[c].cancelled
    ensures c < |Run(s, steps).calls| && Run(s, steps).calls[c].cancelled
    decreases |steps|
  {
    if steps != [] {
      match steps[0] {
        case Loop(w, loop) => LoopFrame(s, w, loop);
        case Code(w, code) => CodeKeepsCancelled(s, w, code, c);
        case Act(actor, op) => OpFrame(s, op);
        case _ =>
      }
      hide Enabled, DoLoop, DoCode, ApplyOp;
      RunKeepsCancelled(Apply(s, steps[0]), steps[1..], c);
    }
  }

  /** A call gets one shot: once `cancelled` is set, every later timeout callback of the call,
      also that of a timer added by a retry, does nothing for the rest of the run. */
  lemma OneShot(s: State, steps: seq<Step>, c: CallId, w: nat)
    requires Feasible(s, steps) && c < |s.calls| && s.calls[c].cancelled
    requires var s1 := Run(s, steps); CanTest(s1, w) && SelfPc(s1, w) == TimeoutBody(c)
    ensures var s1 := Run(s, steps); TestTimeout(s1, w) == SetPc(s1, Self(s1, w), Done)
  {
    RunKeepsCancelled(s, steps, c);
  }
}
