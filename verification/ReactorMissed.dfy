/** When a timeout is lost: a waiting fiber has its timeout under way exactly if that timeout
    was not missed, a run in which it is missed, and when an expiry hands it out. */
module ReactorMissed {
  import opened Base
  import opened RunQueue
  import opened Reactor
  import opened Tokens
  import opened LoopFlow
  import opened CodeFlow
  import opened ReactorInv
  import opened CodeKeeps
  import opened ReactorFrames
  import opened ReactorRuns
  import opened ReactorSafety
  import opened ReactorTimeout
  import opened Scenes
  import ET = EventTable
  import TS = TimerSet
  import TR = TimerRuns

  // ----- The last shot of a call -----

  /** Once the timeout of call c is missed, `cancelled` is set, and no callback of the call is
      past its test any more. */
  ghost predicate ShotOk(s: State, c: CallId)
    requires c < |s.calls|
  {
    && (s.calls[c].missed ==> s.calls[c].cancelled)
    && (forall g: FiberId :: PcOf(s, g).PastTest(c) ==> !s.calls[c].missed)
  }

  ghost predicate ShotsOk(s: State) {
    forall c: CallId :: c < |s.calls| ==> ShotOk(s, c)
  }

  /** Fiber g gets past no timeout's test that it was not past before. */
  predicate NoShot(s: State, s': State, g: FiberId) {
    PcOf(s', g).TimeoutSet? || PcOf(s', g).TimeoutFire? ==> PcOf(s, g) == PcOf(s', g)
  }

  predicate FlagsSame(s: State, s': State) {
    && |s.calls| <= |s'.calls|
    && (forall c :: 0 <= c < |s.calls| ==> s'.calls[c] == s.calls[c])
    && (forall c :: |s.calls| <= c < |s'.calls| ==> !s'.calls[c].cancelled && !s'.calls[c].missed)
  }

  ghost predicate Quiet(s: State, s': State) {
    FlagsSame(s, s') && forall g: FiberId :: NoShot(s, s', g)
  }

  lemma QuietKeeps(s: State, s': State)
    requires PcsOk(s) && ShotsOk(s) && Quiet(s, s')
    ensures ShotsOk(s')
  {
    forall c: CallId | c < |s'.calls| ensures ShotOk(s', c) {
      forall g: FiberId | PcOf(s', g).PastTest(c) ensures c < |s.calls| && PcOf(s, g).PastTest(c) {
        assert NoShot(s, s', g) && PcAt(s, g);
      }
      assert c < |s.calls| ==> ShotOk(s, c);
    }
  }

  lemma OneQuiet(s: State, s': State, f: FiberId)
    requires OthersSame(s, s', f) && FlagsSame(s, s') && NoShot(s, s', f)
    ensures Quiet(s, s')
  {
    forall g: FiberId ensures NoShot(s, s', g) {
      assert g != f ==> SameFiber(s, s', g);
    }
  }

  lemma StillQuiet(s: State, s': State)
    requires s'.fibers == s.fibers && s'.calls == s.calls
    ensures Quiet(s, s')
  {
  }

  lemma SwapInQuiet(s: State, w: nat, step: LoopStep)
    requires CanLoop(s, w, step)
    requires step.SwapInFiber? || step.SwapInCallback?
    ensures Quiet(s, DoLoop(s, w, step))
  {
    match step
    case SwapInFiber => OneQuiet(s, StartFiber(s, w), s.workers[w].phase.task.fiber);
    case SwapInCallback =>
      OneQuiet(s, StartCall(s, w), if s.workers[w].cbFiber.Some? then s.workers[w].cbFiber.value else |s.fibers|);
  }

  lemma SwapOutQuiet(s: State, w: nat, step: LoopStep)
    requires CanLoop(s, w, step)
    requires step.SwapOutReady? || step.SwapOutHold? || step.SwapOutEnded?
    ensures Quiet(s, DoLoop(s, w, step))
  {
    SwapOutOut(s, w, step);
    hide DoLoop, CanLoop;
    OneQuiet(s, DoLoop(s, w, step), Self(s, w));
  }

  lemma LoopQuiet(s: State, w: nat, step: LoopStep)
    requires CanLoop(s, w, step)
    ensures Quiet(s, DoLoop(s, w, step))
  {
    if step.SwapInFiber? || step.SwapInCallback? {
      SwapInQuiet(s, w, step);
    } else if IsSwap(step) {
      SwapOutQuiet(s, w, step);
    } else {
      IdleFrame(s, w, step);
      hide DoLoop, CanLoop, Quiet;
      StillQuiet(s, DoLoop(s, w, step));
    }
  }

  lemma CodeQuiet(s: State, w: nat, step: CodeStep)
    requires CanCode(s, w, step) && !step.RunTest? && !step.RunSet? && !step.RunFire?
    ensures Quiet(s, DoCode(s, w, step))
  {
    hide TS.AddTimer, CancelOwn, ET.AddEvent, ET.CancelEvent, ET.Valid, StillWaiting, Firing, Appended;
    OneQuiet(s, DoCode(s, w, step), Self(s, w));
  }

  lemma ActQuiet(s: State, actor: Actor, op: UserOp)
    requires CanOp(s, op)
    ensures Quiet(s, Noted(s, ApplyOp(s, op), actor))
  {
    hide ET.AddEvent, ET.DelEvent, ET.CancelEvent, ET.CancelAll, ET.Valid, Appended;
    hide TS.AddTimer, TS.Cancel, TS.Refresh, TS.Reset;
    OneQuiet(s, Noted(s, ApplyOp(s, op), actor), |s.fibers|);
  }

  /** A callback passes its test only while `cancelled` is not set, hence nothing is missed. */
  lemma TestShots(s: State, w: nat)
    requires PcsOk(s) && ShotsOk(s) && CanTest(s, w)
    ensures ShotsOk(TestTimeout(s, w))
  {
    var s' := TestTimeout(s, w);
    TestShape(s, w);
    OnlySelfMoves(s, w, s', s'.fibers[Self(s, w)].pc);
    hide TestTimeout;
    forall c: CallId | c < |s'.calls| ensures ShotOk(s', c) { assert ShotOk(s, c); }
  }

  lemma OnlySelfMoves(s: State, w: nat, s': State, pc: Pc)
    requires Runs(s, w) && SelfMoves(s, w, s', pc)
    ensures forall g: FiberId :: PcOf(s', g) == if g == Self(s, w) then pc else PcOf(s, g)
  {
  }

  lemma SetShots(s: State, w: nat)
    requires ShotsOk(s) && CanSet(s, w)
    ensures ShotsOk(SetCancelled(s, w))
  {
    var s', own := SetCancelled(s, w), SelfPc(s, w).call;
    SetShape(s, w);
    OnlySelfMoves(s, w, s', TimeoutFire(own));
    hide SetCancelled;
    forall c: CallId | c < |s'.calls| ensures ShotOk(s', c) {
      assert ShotOk(s, c) && PcOf(s, Self(s, w)).PastTest(own);
    }
  }

  /** A cancelEvent makes the call miss only if no other callback is going to cancel. */
  lemma FireShots(s: State, w: nat, ok: bool)
    requires PcsOk(s) && ShotsOk(s) && CanFire(s, w) && ET.Inv(s.table)
    ensures ShotsOk(FireTimeout(s, w, ok))
  {
    var s', own := FireTimeout(s, w, ok), SelfPc(s, w).call;
    assert PcAt(s, Self(s, w));
    FireShape(s, w, ok);
    FireIs(s, w, ok);
    FireFlags(s, w, ok);
    OnlySelfMoves(s, w, s', Done);
    hide FireTimeout, ReactorTimeout.Released, StillWaiting, Firing, ET.Inv, ET.Armed;
    forall c: CallId | c < |s'.calls| ensures ShotOk(s', c) {
      assert ShotOk(s, c) && ShotOk(s, own);
      assert PcOf(s, Self(s, w)).PastTest(own);
    }
  }

  lemma StepShots(s: State, step: Step)
    requires Inv(s) && ShotsOk(s) && Enabled(s, step)
    ensures ShotsOk(Apply(s, step))
  {
    match step {
      case Loop(w, loop) => LoopQuiet(s, w, loop);
      case Code(w, code) =>
        if code.RunTest? { TestShots(s, w); }
        else if code.RunSet? { SetShots(s, w); }
        else if code.RunFire? { FireShots(s, w, code.ok); }
        else { CodeQuiet(s, w, code); }
      case Act(actor, op) => ActQuiet(s, actor, op);
      case _ => StillQuiet(s, Apply(s, step));
    }
    hide ShotsOk, Quiet, DoLoop, DoCode, ApplyOp, Enabled;
    if !(step.Code? && (step.code.RunTest? || step.code.RunSet? || step.code.RunFire?)) {
      QuietKeeps(s, Apply(s, step));
    }
  }

  lemma {:induction false} RunShots(s: State, steps: seq<Step>)
    requires Inv(s) && ShotsOk(s) && Feasible(s, steps)
    ensures ShotsOk(Run(s, steps))
    decreases |steps|
  {
    hide Inv, ShotsOk;
    if steps != [] {
      StepKeeps(s, steps[0]);
      StepShots(s, steps[0]);
      RunShots(Apply(s, steps[0]), steps[1..]);
    }
  }

  lemma ReachableShots(s: State)
    requires Reachable(s)
    ensures ShotsOk(s)
  {
    var n: nat, steps :| Feasible(Start(n), steps) && Run(Start(n), steps) == s;
    StartInv(n);
    RunShots(Start(n), steps);
  }

  /** While a fiber waits in a hooked call with a finite timeout and has not been released,
      its timeout is under way exactly if it has not been missed: a callback in the timer set,
      a worker's vector, the queue or a fiber, or the one cancelEvent that is still to come. */
  lemma UnderWayExactly(s: State, f: FiberId)
    requires Reachable(s) && f < |s.fibers| && s.fibers[f].pc.IoWait? && s.fibers[f].pc.timer.Some?
    requires Resume(f) in ET.Armed(s.table)
    ensures var c := s.fibers[f].pc.call;
      c < |s.calls| && s.calls[c].owner == f && (UnderWay(s, c) <==> !s.calls[c].missed)
  {
    var c := s.fibers[f].pc.call;
    ReachableInv(s);
    ReachableCovered(s);
    ReachableShots(s);
    assert PcAt(s, f);
    assert Covered(s, c) && ShotOk(s, c);
    hide Inv, UnderWay, ET.Armed;
    NobodyFires(s, c);
  }

  /** Once a timeout is missed, it is not under way. */
  lemma NobodyFires(s: State, c: CallId)
    requires c < |s.calls| && ShotOk(s, c)
    ensures s.calls[c].missed ==> !UnderWay(s, c)
  {
    if Firing(s, c) {
      var g :| 0 <= g < |s.fibers| && s.fibers[g].pc.PastTest(c);
      assert PcOf(s, g).PastTest(c);
    }
  }

  lemma FireKeepsMissed(s: State, w: nat, ok: bool, c: CallId)
    requires CanFire(s, w) && ET.Inv(s.table) && c < |s.calls| && s.calls[c].missed
    ensures c < |FireTimeout(s, w, ok).calls| && FireTimeout(s, w, ok).calls[c].missed
  {
    FireShape(s, w, ok);
    FireIs(s, w, ok);
    hide FireTimeout, ET.Inv, ET.Armed;
  }

  lemma CodeKeepsMissed(s: State, w: nat, step: CodeStep, c: CallId)
    requires ET.Inv(s.table) && CanCode(s, w, step) && c < |s.calls| && s.calls[c].missed
    ensures c < |DoCode(s, w, step).calls| && DoCode(s, w, step).calls[c].missed
  {
    if step.RunFire? {
      FireKeepsMissed(s, w, step.ok, c);
      hide FireTimeout;
    } else if !step.RunTest? && !step.RunSet? {
      CodeQuiet(s, w, step);
      hide DoCode;
    }
  }

  lemma StepKeepsMissed(s: State, step: Step, c: CallId)
    requires Inv(s) && Enabled(s, step) && c < |s.calls| && s.calls[c].missed
    ensures c < |Apply(s, step).calls| && Apply(s, step).calls[c].missed
  {
    match step
    case Loop(w, loop) =>
      LoopQuiet(s, w, loop);
      hide DoLoop;
    case Code(w, code) =>
      CodeKeepsMissed(s, w, code, c);
      hide DoCode;
    case Act(actor, op) =>
      ActQuiet(s, actor, op);
      hide ApplyOp;
    case _ =>
  }

  /** A missed timeout is missed for good: in no later state of any run is it under way. */
  lemma {:induction false} MissedForGood(s: State, steps: seq<Step>, c: CallId)
    requires Inv(s) && ShotsOk(s) && Feasible(s, steps) && c < |s.calls| && s.calls[c].missed
    ensures var s' := Run(s, steps); c < |s'.calls| && s'.calls[c].missed && !UnderWay(s', c)
    decreases |steps|
  {
    if steps == [] {
      assert ShotOk(s, c);
      NobodyFires(s, c);
    } else {
      StepKeeps(s, steps[0]);
      StepShots(s, steps[0]);
      StepKeepsMissed(s, steps[0], c);
      hide Inv, ShotsOk, UnderWay, Apply, Enabled;
      MissedForGood(Apply(s, steps[0]), steps[1..], c);
    }
  }

  // ----- A run in which a timeout is missed -----

  const READING := CallInfo(0, 3, READ, false, false)
  const READER := Fiber(EXEC, IoArm(0, Some(0)))
  const TIMER := TS.Rec(0, false, 1, 6, Timeout(0))

  /** A user's callback reads from fd 3: EAGAIN, and the timer is added. */
  function Reading(tickled: bool, w1: Worker, idle: int): State {
    Scene([READER], [READING], [], TS.Timers([TIMER], tickled, 0), {0}, InFiber(0), w1, 1, idle)
  }

  /** The timer has expired. */
  function Expired(queue: seq<Entry>, w1: Worker, active: int, idle: int): State {
    Scene([READER], [READING], queue, TS.Timers([], false, 6), {0}, InFiber(0), w1, active, idle)
  }

  /** Its callback runs in fiber 1. */
  function CallingBack(pc: Pc, cancelled: bool, missed: bool): State {
    Scene([READER, Fiber(EXEC, pc)], [CallInfo(0, 3, READ, cancelled, missed)], [], TS.Timers([], false, 6), {0},
          InFiber(0), InFiber(1), 2, 0)
  }

  lemma Blocked()
    ensures Reachable(Reading(true, SCAN, 0))
  {
    Started();
    var s := Scene([Fiber(EXEC, Plain)], [], [], NO_TIMERS, {}, InFiber(0), SCAN, 1, 0);
    hide Reachable, Start;
    ReachableStep(s, Code(0, IoCall(3, READ)));
    var s1 := Scene([Fiber(EXEC, IoTry(0))], [READING], [], NO_TIMERS, {}, InFiber(0), SCAN, 1, 0);
    assert s1 == IoBegin(s, 0, 3, READ);
    ReachableStep(s1, Code(0, IoTimeout(0, 1, 5)));
    assert TS.Insert([], TIMER) == [TIMER];
    assert IoTimer(s1, 0, 0, 1, 5) == Reading(true, SCAN, 0);
  }

  lemma Polling()
    ensures Reachable(Reading(false, SCAN.(phase := IdlePoll), 1))
  {
    Blocked();
    hide Reachable, Start;
    var s := Reading(true, SCAN, 0);
    ReachableStep(s, Loop(1, TakeNothing));
    var s1 := Reading(true, SCAN.(phase := IdleCheck), 1);
    assert s1 == IdleBranch(s, 1);
    ReachableStep(s1, Loop(1, IdleStop(5)));
    assert CheckStop(s1, 1, 5) == Reading(false, SCAN.(phase := IdlePoll), 1);
  }

  lemma TakesTimer(t: TS.Timers)
    requires t == TS.Timers([TIMER], false, 0)
    ensures TS.Expiry(t, 6, TS.AsWritten) == (TS.Timers([], false, 6), [TIMER])
    ensures TS.Callbacks([TIMER]) == [Timeout(0)]
  {
    assert [TIMER][1..] == [];
    assert TS.TakenAsWritten([TIMER], 0, 6) == 1;
    assert t.items[..1] == [TIMER] && t.items[1..] == [];
    assert TS.Rearm([], [TIMER], 6) == [];
  }

  lemma Flushing()
    ensures Reachable(Expired([Entry(Call(Timeout(0)), ANY_THREAD)], SCAN, 1, 0))
  {
    Polling();
    hide Reachable, Start;
    var s := Reading(false, SCAN.(phase := IdlePoll), 1);
    TakesTimer(s.timers);
    hide TS.Expiry, TS.Callbacks;
    ReachableStep(s, Loop(1, IdleExpire(6, TS.AsWritten)));
    var s1 := Expired([], SCAN.(phase := IdleFlush([Timeout(0)])), 1, 1);
    assert s1 == Expire(s, 1, 6, TS.AsWritten);
    Scheduled(s1);
  }

  lemma Scheduled(s: State)
    requires s == Expired([], SCAN.(phase := IdleFlush([Timeout(0)])), 1, 1) && Reachable(s)
    ensures Reachable(Expired([Entry(Call(Timeout(0)), ANY_THREAD)], SCAN, 1, 0))
  {
    hide Reachable, Start;
    ReachableStep(s, Loop(1, IdleSchedule));
    var s1 := Expired([Entry(Call(Timeout(0)), ANY_THREAD)], SCAN.(phase := IdleDispatch), 1, 1);
    assert Calls([Timeout(0)]) == [Call(Timeout(0))];
    OneAppended([], Call(Timeout(0)));
    assert s1 == Flush(s, 1);
    ReachableStep(s1, Loop(1, IdleOut));
    assert IdleYield(s1, 1) == Expired([Entry(Call(Timeout(0)), ANY_THREAD)], SCAN, 1, 0);
  }

  lemma CallbackRuns()
    ensures Reachable(CallingBack(TimeoutBody(0), false, false))
  {
    Flushing();
    var s := Expired([Entry(Call(Timeout(0)), ANY_THREAD)], SCAN, 1, 0);
    hide Start;
    TakesOne(s, 1, Timeout(0));
    var s1 := Expired([], Worker(Popped(Call(Timeout(0))), None, false), 2, 0);
    assert s1 == At(s, 1, Popped(Call(Timeout(0)))).(queue := [], active := 2);
    hide Reachable;
    ReachableStep(s1, Loop(1, SwapInCallback));
    assert StartCall(s1, 1) == CallingBack(TimeoutBody(0), false, false);
  }

  lemma CallbackFires()
    ensures Reachable(CallingBack(TimeoutFire(0), true, false))
  {
    CallbackRuns();
    hide Reachable, Start;
    var s := CallingBack(TimeoutBody(0), false, false);
    ReachableStep(s, Code(1, RunTest));
    assert Alive(s, 0);
    var s1 := CallingBack(TimeoutSet(0), false, false);
    assert s1 == TestTimeout(s, 1);
    ReachableStep(s1, Code(1, RunSet));
    assert SetCancelled(s1, 1) == CallingBack(TimeoutFire(0), true, false);
  }

  lemma CallbackMisses()
    ensures Reachable(CallingBack(Done, true, true))
  {
    CallbackFires();
    StartRow(3);
    NothingToCancel(Start(2).table);
    hide *;
    ReachableStep(CallingBack(TimeoutFire(0), true, false), Code(1, RunFire(true)));
  }

  lemma NothingToCancel(table: ET.Table)
    requires table == Start(2).table && ET.Valid(table) && 3 < |table.rows| && table.rows[3] == ET.Fresh(3)
    ensures var s, step := CallingBack(TimeoutFire(0), true, false), Code(1, RunFire(true));
      Enabled(s, step) && Apply(s, step) == CallingBack(Done, true, true)
  {
    var s := CallingBack(TimeoutFire(0), true, false);
    hide Start, ET.Valid;
    assert ET.CancelEvent(table, 3, READ, true) == (table, []);
    assert FireTimeout(s, 1, true).calls == [CallInfo(0, 3, READ, true, true)];
  }

  /** A timeout's callback can run between addConditionTimer and addEvent and find nothing to
      cancel: the fiber then waits, and nothing of its timeout is left anywhere. */
  lemma TimeoutCanBeMissed()
    ensures exists s: State :: Reachable(s) && MissedAndWaiting(s, 0)
  {
    CallbackMisses();
    StartRow(3);
    Registers(Start(2).table);
    var s := CallingBack(Done, true, true);
    var s' := IoAdd(s, 0, true);
    RegisterStep(s);
    hide Start, Apply, Enabled, CallingBack, Reachable, UnderWay, WaitsArmed, IoAdd, CanIoAdd;
    ReachableStep(s, Code(0, IoRegister(true)));
    UnderWayExactly(s', 0);
  }

  lemma Registers(table: ET.Table)
    requires table == Start(2).table && ET.Inv(table) && 3 < |table.rows| && table.rows[3] == ET.Fresh(3)
    ensures var s := CallingBack(Done, true, true);
      && CanIoAdd(s, 0)
      && var s' := IoAdd(s, 0, true);
         && |s'.calls| == 1 && WaitsArmed(s', 0) && PcOf(s', s'.calls[0].owner).timer.Some? && s'.calls[0].missed
  {
    var s := CallingBack(Done, true, true);
    RegistersAt(table);
    assert s.calls == [CallInfo(0, 3, READ, true, true)];
    hide *;
    RegistersIn(s);
  }

  lemma RegistersIn(s: State)
    requires CanIoAdd(s, 0) && ET.Inv(s.table) && Self(s, 0) == 0 && SelfPc(s, 0) == IoArm(0, Some(0))
    requires |s.calls| == 1 && s.calls[0].owner == 0
    ensures var s' := IoAdd(s, 0, true); s'.calls == s.calls && WaitsArmed(s', 0) && PcOf(s', 0) == IoWait(0, Some(0))
  {
    IoAddShape(s, 0, true);
    IoAddArms(s, 0);
    hide ET.Inv, IoAdd, CanIoAdd;
  }

  lemma RegisterStep(s: State)
    requires CanIoAdd(s, 0)
    ensures Enabled(s, Code(0, IoRegister(true))) && Apply(s, Code(0, IoRegister(true))) == IoAdd(s, 0, true)
  {
    hide IoAdd, CanIoAdd;
  }

  lemma RegistersAt(table: ET.Table)
    requires table == Start(2).table && ET.Inv(table) && 3 < |table.rows| && table.rows[3] == ET.Fresh(3)
    ensures var s := CallingBack(Done, true, true);
      s.table == table && CanIoAdd(s, 0) && Self(s, 0) == 0 && SelfPc(s, 0) == IoArm(0, Some(0))
  {
    hide Start;
  }

  lemma IoAddArms(s: State, w: nat)
    requires ET.Inv(s.table) && CanIoAdd(s, w)
    ensures Resume(Self(s, w)) in ET.Armed(IoAdd(s, w, true).table)
  {
    var call := s.calls[SelfPc(s, w).call];
    ET.AddEventEffect(s.table, call.fd, call.ev, Resume(Self(s, w)), true);
    hide ET.AddEvent, ET.Armed, ET.Inv;
  }

  ghost predicate MissedAndWaiting(s: State, c: CallId) {
    && c < |s.calls| && WaitsArmed(s, c) && PcOf(s, s.calls[c].owner).timer.Some?
    && s.calls[c].missed && !UnderWay(s, c)
  }

  // ----- When a timeout is handed out -----

  /** The timer of a hooked call is the only one in the set with the call's timeout. */
  lemma OnlyTimer(s: State, f: FiberId, c: CallId, addr: nat, r: TS.Rec)
    requires Inv(s) && f < |s.fibers| && s.fibers[f].pc.HoldsTimer(c, addr) && TS.Has(s.timers.items, addr)
    ensures r in s.timers.items && r.cb == Timeout(c) <==> r == TS.At(s.timers.items, addr)
  {
    assert PcAt(s, f) && OwnAt(s, f);
    if r in s.timers.items && r.cb == Timeout(c) {
      assert RecOk(r, s);
      TS.AddrUnique(s.timers.items, r, TS.At(s.timers.items, addr));
    }
  }

  lemma InCallbacks(taken: seq<TS.Rec>, cb: Callback)
    ensures cb in TS.Callbacks(taken) <==> exists r :: r in taken && r.cb == cb
  {
    if cb in TS.Callbacks(taken) {
      var i :| 0 <= i < |taken| && TS.Callbacks(taken)[i] == cb;
      assert taken[i] in taken;
    }
    if r :| r in taken && r.cb == cb {
      var i :| 0 <= i < |taken| && taken[i] == r;
      assert TS.Callbacks(taken)[i] == cb;
    }
  }

  /** While the timer of a hooked call is in the set, a worker's expiry takes the timeout
      along exactly after a rollover, or when the timer is due; as the early return is
      written, also no other timer may be overdue. */
  lemma DueIsHandedOut(s: State, w: nat, f: FiberId, c: CallId, addr: nat, now: TS.u64, guard: TS.Guard)
    requires Reachable(s) && f < |s.fibers| && s.fibers[f].pc.HoldsTimer(c, addr) && TS.Has(s.timers.items, addr)
    requires CanExpire(s, w)
    ensures Expire(s, w, now, guard).workers[w].phase.IdleFlush?
    ensures Timeout(c) in Expire(s, w, now, guard).workers[w].phase.cbs <==>
      || TR.SetBack(s.timers.previous, now)
      || (TS.At(s.timers.items, addr).next <= now && (guard.Intended? || s.timers.items[0].next >= now))
  {
    ReachableInv(s);
    var taken := TS.Expiry(s.timers, now, guard).1;
    InCallbacks(taken, Timeout(c));
    var own := TS.At(s.timers.items, addr);
    OnlyTimer(s, f, c, addr, own);
    TR.TakenExactly(s.timers, now, guard, own);
    forall r | r in taken && r.cb == Timeout(c) ensures r == own {
      TR.TakenExactly(s.timers, now, guard, r);
      OnlyTimer(s, f, c, addr, r);
    }
    hide Inv, TS.Expiry;
  }

  // ----- Wakes that are nobody's timeout -----

  lemma CancelWatchIs(s: State, fd: nat, ev: Event, ok: bool)
    requires ET.Valid(s.table)
    ensures CanOp(s, CancelWatch(fd, ev, ok))
    ensures var (table, out) := ET.CancelEvent(s.table, fd, ev, ok);
      ApplyOp(s, CancelWatch(fd, ev, ok)) == s.(table := table, queue := Appended(s.queue, out))
  {
    hide ET.CancelEvent, Appended, ET.Valid;
  }

  /** Anybody's cancelEvent wakes a waiting call exactly when it names the call's event and
      epoll_ctl lets it; it leaves the call's `cancelled` as it was, so that the call takes
      the wake for a report of its event. */
  lemma ForeignWake(s: State, c: CallId, fd: nat, ev: Event, ok: bool)
    requires Reachable(s) && c < |s.calls| && WaitsArmed(s, c)
    ensures CanOp(s, CancelWatch(fd, ev, ok))
    ensures var s', f := ApplyOp(s, CancelWatch(fd, ev, ok)), s.calls[c].owner;
      && s'.calls == s.calls
      && (WaitsArmed(s', c) <==> !(ok && fd == s.calls[c].fd && ev == s.calls[c].ev))
      && (!WaitsArmed(s', c) ==> s'.queue == s.queue + [Entry(Resume(f), ANY_THREAD)])
  {
    ReachableInv(s);
    CancelReleases(s, c, fd, ev, ok);
    OneAppended(s.queue, Resume(s.calls[c].owner));
    CancelWatchIs(s, fd, ev, ok);
    hide Inv, ET.Inv, ET.CancelEvent, ET.Armed, Appended, ApplyOp, CanOp;
  }

  /** So does the timeout of another call on the same event, once past its test. */
  lemma StaleWake(s: State, c: CallId, w: nat, ok: bool)
    requires Reachable(s) && c < |s.calls| && WaitsArmed(s, c)
    requires CanFire(s, w) && SelfPc(s, w).call != c
    ensures var s', d, f := FireTimeout(s, w, ok), SelfPc(s, w).call, s.calls[c].owner;
      && |s'.calls| == |s.calls| && s'.calls[c] == s.calls[c] && PcOf(s', f) == PcOf(s, f)
      && (Resume(f) !in ET.Armed(s'.table) <==> ok && s.calls[d].fd == s.calls[c].fd && s.calls[d].ev == s.calls[c].ev)
      && (Resume(f) !in ET.Armed(s'.table) ==> s'.queue == s.queue + [Entry(Resume(f), ANY_THREAD)])
  {
    ReachableInv(s);
    var d := s.calls[SelfPc(s, w).call];
    CancelReleases(s, c, d.fd, d.ev, ok);
    OneAppended(s.queue, Resume(s.calls[c].owner));
    FireIs(s, w, ok);
    FireShape(s, w, ok);
    ReleasedIs(s, w, ok);
    hide Inv, ET.Inv, ET.CancelEvent, ET.Armed, Appended, FireTimeout, Released;
  }
}
