/** Resume tokens over whole runs: each one that is issued is used by exactly one resume,
    unless it is still outstanding or delEvent threw it away. */
module ReactorLedger {
  import opened Base
  import opened Sums
  import opened RunQueue
  import opened Reactor
  import opened Tokens
  import opened LoopFlow
  import opened IdleFlow
  import opened CodeFlow
  import opened ReactorInv
  import opened LoopKeeps
  import opened CodeKeeps
  import opened UserKeeps
  import opened ReactorRuns
  import opened ReactorSafety
  import opened ReactorTimeout
  import ET = EventTable
  import TS = TimerSet

  /** Fiber f hands out a token: it yields ready, or registers its event, or adds its sleep
      timer. */
  predicate LoopIssues(s: State, w: nat, step: LoopStep, f: FiberId)
    requires CanLoop(s, w, step)
  {
    step.SwapOutReady? && Self(s, w) == f
  }

  predicate CodeIssues(s: State, w: nat, step: CodeStep, f: FiberId)
    requires CanCode(s, w, step)
  {
    ((step.IoRegister? && step.ok) || step.SleepFor?) && Self(s, w) == f
  }

  /** A worker swaps fiber f in. */
  predicate LoopResumes(s: State, w: nat, step: LoopStep, f: FiberId)
    requires CanLoop(s, w, step)
  {
    step.SwapInFiber? && s.workers[w].phase.task.fiber == f
  }

  /** A new fiber is submitted. */
  predicate OpIssues(op: UserOp, f: FiberId) {
    op.SubmitFiber? && op.f == f
  }

  /** delEvent discards f's continuation. */
  ghost predicate OpDiscards(s: State, op: UserOp, f: FiberId)
    requires CanOp(s, op)
  {
    op.Unwatch? && op.ok && f in SlotFiber(s.table, op.fd, op.ev)
  }

  ghost predicate Issues(s: State, step: Step, f: FiberId)
    requires Enabled(s, step)
  {
    match step
    case Loop(w, loop) => LoopIssues(s, w, loop, f)
    case Code(w, code) => CodeIssues(s, w, code, f)
    case Act(_, op) => OpIssues(op, f)
    case _ => false
  }

  ghost predicate Resumes(s: State, step: Step, f: FiberId)
    requires Enabled(s, step)
  {
    step.Loop? && LoopResumes(s, step.w, step.loop, f)
  }

  ghost predicate Discards(s: State, step: Step, f: FiberId)
    requires Enabled(s, step)
  {
    step.Act? && OpDiscards(s, step.op, f)
  }

  function Bit(b: bool): nat { if b then 1 else 0 }

  ghost function Named(m: multiset<Task>, f: FiberId): nat {
    m[Resume(f)] + m[Call(Wake(f))]
  }

  lemma Moved(s: State, s': State, gained: multiset<Task>, lost: multiset<Task>, f: FiberId)
    requires Flow(s, s', gained, lost)
    ensures TokensOf(s', f) + Named(lost, f) == TokensOf(s, f) + Named(gained, f)
  {
    assert Count(s', Resume(f)) + lost[Resume(f)] == Count(s, Resume(f)) + gained[Resume(f)];
    assert Count(s', Call(Wake(f))) + lost[Call(Wake(f))] == Count(s, Call(Wake(f))) + gained[Call(Wake(f))];
  }

  // ----- The run loop -----

  lemma StartFiberTokens(s: State, w: nat, f: FiberId)
    requires Inv(s) && CanStartFiber(s, w)
    ensures TokensOf(StartFiber(s, w), f) + Bit(s.workers[w].phase.task.fiber == f) == TokensOf(s, f)
  {
    StartFiberFlow(s, w);
    hide Inv, TokensOf, StartFiber, Flow;
    Moved(s, StartFiber(s, w), NOTHING, multiset{Resume(s.workers[w].phase.task.fiber)}, f);
  }

  lemma StartCallTokens(s: State, w: nat, f: FiberId)
    requires Inv(s) && CanStartCall(s, w)
    ensures TokensOf(StartCall(s, w), f) == TokensOf(s, f)
  {
    StartCallFlow(s, w);
    hide Inv, TokensOf, StartCall, Flow;
    Moved(s, StartCall(s, w), NOTHING, Consumed(s.workers[w].phase.task.cb), f);
  }

  lemma StartCallFlow(s: State, w: nat)
    requires Inv(s) && CanStartCall(s, w)
    ensures Flow(s, StartCall(s, w), NOTHING, Consumed(s.workers[w].phase.task.cb))
  {
    if s.workers[w].cbFiber.Some? { ReuseFlow(s, w); } else { CreateFlow(s, w); }
    hide *;
  }

  lemma YieldReadyTokens(s: State, w: nat, f: FiberId)
    requires Inv(s) && CanYieldReady(s, w)
    ensures TokensOf(YieldReady(s, w), f) == TokensOf(s, f) + Bit(Self(s, w) == f)
  {
    YieldReadyFibers(s, w);
    hide Inv, TokensOf, YieldReady, Flow;
    Moved(s, YieldReady(s, w), multiset([Resume(Self(s, w))]), NOTHING, f);
  }

  lemma OutTokens(s: State, w: nat, s': State, f: FiberId)
    requires Flow(s, s', multiset([]), NOTHING)
    ensures TokensOf(s', f) == TokensOf(s, f)
  {
    Moved(s, s', multiset([]), NOTHING, f);
  }

  lemma IdleTokens(s: State, w: nat, step: LoopStep, f: FiberId)
    requires Inv(s) && CanLoop(s, w, step)
    requires step.TakeEntry? || step.ScheduleReady? || step.IdleSchedule? || step.IdleReport?
    ensures TokensOf(DoLoop(s, w, step), f) == TokensOf(s, f)
  {
    match step {
      case TakeEntry => TakeFlow(s, w);
      case ScheduleReady => RescheduleFibers(s, w);
      case IdleSchedule => FlushFibers(s, w);
      case IdleReport(report, ok) => DispatchFibers(s, w, report, ok);
    }
    hide Inv, TokensOf, Flow, Take, Reschedule, Flush, Dispatch;
    Moved(s, DoLoop(s, w, step), NOTHING, NOTHING, f);
  }

  lemma ExpireTokens(s: State, w: nat, now: TS.u64, guard: TS.Guard, f: FiberId)
    requires Inv(s) && CanExpire(s, w)
    ensures TokensOf(Expire(s, w, now, guard), f) == TokensOf(s, f)
  {
    RecurringAreUsers(s);
    ExpireFibers(s, w, now, guard);
    RecurringOfUsers(s, now, guard);
    hide Inv, TokensOf, Flow, Expire, Recurring;
    assert Named(Recurring(s, now, guard), f) == 0;
    Moved(s, Expire(s, w, now, guard), Recurring(s, now, guard), NOTHING, f);
  }

  lemma ParkTokens(s: State, w: nat, s': State, f: FiberId)
    requires FibersOk(s) && Moves(s, w, s')
    ensures TokensOf(s', f) == TokensOf(s, f)
  {
    MoveFibers(s, w, s'.workers[w], s');
    hide TokensOf, Flow;
    Moved(s, s', NOTHING, NOTHING, f);
  }

  lemma LoopTokens(s: State, w: nat, step: LoopStep, f: FiberId)
    requires Inv(s) && CanLoop(s, w, step)
    ensures TokensOf(DoLoop(s, w, step), f) + Bit(LoopResumes(s, w, step, f))
      == TokensOf(s, f) + Bit(LoopIssues(s, w, step, f))
  {
    match step {
      case SwapInFiber => StartFiberTokens(s, w, f);
      case SwapInDead => PoppedFiberStarts(s, w);
      case SwapInCallback => StartCallTokens(s, w, f);
      case SwapOutReady => YieldReadyTokens(s, w, f);
      case SwapOutHold =>
        YieldHoldFibers(s, w);
        OutTokens(s, w, YieldHold(s, w), f);
      case SwapOutEnded(threw) =>
        FinishFibers(s, w, threw);
        OutTokens(s, w, Finish(s, w, threw), f);
      case IdleExpire(now, guard) => ExpireTokens(s, w, now, guard, f);
      case TakeNothing =>
        ParkMoves(s, w, step);
        ParkTokens(s, w, DoLoop(s, w, step), f);
      case IdleStop(_) =>
        ParkMoves(s, w, step);
        ParkTokens(s, w, DoLoop(s, w, step), f);
      case IdlePending =>
        ParkMoves(s, w, step);
        ParkTokens(s, w, DoLoop(s, w, step), f);
      case IdleQuit =>
        ParkMoves(s, w, step);
        ParkTokens(s, w, DoLoop(s, w, step), f);
      case IdleOut =>
        ParkMoves(s, w, step);
        ParkTokens(s, w, DoLoop(s, w, step), f);
      case _ => IdleTokens(s, w, step, f);
    }
    hide *;
  }

  // ----- The hooked calls and the library's callbacks -----

  lemma QuietTokens(s: State, w: nat, step: CodeStep, f: FiberId)
    requires Inv(s) && CanCode(s, w, step) && (step.IoCall? || step.IoResult? || step.IoForever?)
    ensures TokensOf(DoCode(s, w, step), f) == TokensOf(s, f)
  {
    hide TokensOf;
    match step
    case IoCall(fd, ev) => QuietMoveTokens(s, w, IoBegin(s, w, fd, ev), IoTry(|s.calls|), f);
    case IoResult => QuietMoveTokens(s, w, IoReturn(s, w), Plain, f);
    case IoForever => QuietMoveTokens(s, w, IoNoTimer(s, w), IoArm(SelfPc(s, w).call, None), f);
  }

  lemma QuietMoveTokens(s: State, w: nat, s': State, pc: Pc, f: FiberId)
    requires FibersOk(s) && WorkersOk(s) && Runs(s, w) && SelfMoves(s, w, s', pc)
    requires s'.queue == s.queue && s'.table == s.table && s'.timers == s.timers
    requires !SelfPc(s, w).Suspending() && !pc.Suspending()
    requires BodyTasks(Fiber(EXEC, pc)) == BodyTasks(s.fibers[Self(s, w)])
    ensures TokensOf(s', f) == TokensOf(s, f)
  {
    QuietMove(s, w, s', pc);
    hide TokensOf, Flow;
    Moved(s, s', NOTHING, NOTHING, f);
  }

  lemma AddTimerTokens(s: State, w: nat, s': State, pc: Pc, r: TS.Rec, f: FiberId)
    requires FibersOk(s) && WorkersOk(s) && Runs(s, w) && SelfMoves(s, w, s', pc)
    requires s'.queue == s.queue && s'.table == s.table && s'.timers.items == TS.Insert(s.timers.items, r)
    requires !SelfPc(s, w).Suspending() && Arming(SelfPc(s, w), pc, Self(s, w), r)
    ensures TokensOf(s', f) == TokensOf(s, f) + Named(multiset{Call(r.cb)}, f)
  {
    AddTimerMove(s, w, s', pc, r);
    hide TokensOf, Flow;
    Moved(s, s', multiset{Call(r.cb)}, NOTHING, f);
  }

  lemma IoTimerTokens(s: State, w: nat, addr: nat, ms: TS.u64, now: TS.u64, f: FiberId)
    requires Inv(s) && AtTry(s, w) && FreshAddr(s, addr)
    ensures TokensOf(IoTimer(s, w, addr, ms, now), f) == TokensOf(s, f)
  {
    var c := SelfPc(s, w).call;
    var r := TS.Rec(addr, false, ms, TS.Plus(ms, now), Timeout(c));
    hide TokensOf;
    AddTimerTokens(s, w, IoTimer(s, w, addr, ms, now), IoArm(c, Some(addr)), r, f);
  }

  lemma SleepTokens(s: State, w: nat, addr: nat, ms: TS.u64, now: TS.u64, f: FiberId)
    requires Inv(s) && CanSleep(s, w, addr)
    ensures TokensOf(Sleep(s, w, addr, ms, now), f) == TokensOf(s, f) + Bit(Self(s, w) == f)
  {
    var r := TS.Rec(addr, false, ms, TS.Plus(ms, now), Wake(Self(s, w)));
    SleepShape(s, w, addr, ms, now);
    hide TokensOf, Sleep;
    AddTimerTokens(s, w, Sleep(s, w, addr, ms, now), Asleep, r, f);
  }

  lemma RegisterTokens(s: State, w: nat, ok: bool, f: FiberId)
    requires Inv(s) && CanIoAdd(s, w)
    ensures TokensOf(IoAdd(s, w, ok), f) == TokensOf(s, f) + Bit(ok && Self(s, w) == f)
  {
    IoAddFibers(s, w, ok);
    hide Inv, TokensOf, Flow, IoAdd;
    Moved(s, IoAdd(s, w, ok), if ok then multiset{Resume(Self(s, w))} else NOTHING, NOTHING, f);
  }

  lemma CancelTokens(s: State, w: nat, s': State, pc: Pc, f: FiberId)
    requires Inv(s) && Runs(s, w) && SelfMoves(s, w, s', pc)
    requires SelfPc(s, w).IoWoken? || SelfPc(s, w).IoUndo?
    requires pc == Plain || pc.IoTry?
    requires s'.queue == s.queue && s'.table == s.table && s'.timers == CancelOwn(s.timers, SelfPc(s, w).timer)
    ensures TokensOf(s', f) == TokensOf(s, f)
  {
    var timer := SelfPc(s, w).timer;
    CancelFlow(s, w, s', pc);
    OnlyTimeouts(s.timers.items, timer, SelfPc(s, w).call, f);
    hide Inv, TokensOf, Flow, OwnTasks;
    Moved(s, s', NOTHING, OwnTasks(s.timers.items, timer), f);
  }

  lemma OnlyTimeouts(items: seq<TS.Rec>, timer: Option<nat>, c: CallId, f: FiberId)
    requires OwnTimer(items, timer, c)
    ensures Named(OwnTasks(items, timer), f) == 0
  {
  }

  lemma TestTokens(s: State, w: nat, f: FiberId)
    requires Inv(s) && CanTest(s, w)
    ensures TokensOf(TestTimeout(s, w), f) == TokensOf(s, f)
  {
    var pc := TestTimeout(s, w).fibers[Self(s, w)].pc;
    TestFibers(s, w);
    UsedTimeout(f, pc, SelfPc(s, w).call);
    hide Inv, TokensOf, Flow, TestTimeout, Spent;
    Moved(s, TestTimeout(s, w), NOTHING, Spent(pc, SelfPc(s, w).call), f);
  }

  lemma SetTokens(s: State, w: nat, f: FiberId)
    requires Inv(s) && CanSet(s, w)
    ensures TokensOf(SetCancelled(s, w), f) == TokensOf(s, f)
  {
    SetFibers(s, w);
    hide Inv, TokensOf, Flow, SetCancelled;
    Moved(s, SetCancelled(s, w), NOTHING, multiset{Call(Timeout(SelfPc(s, w).call))}, f);
  }

  lemma FireTokens(s: State, w: nat, ok: bool, f: FiberId)
    requires Inv(s) && CanFire(s, w)
    ensures TokensOf(FireTimeout(s, w, ok), f) == TokensOf(s, f)
  {
    FireFibers(s, w, ok);
    hide Inv, TokensOf, Flow, FireTimeout;
    Moved(s, FireTimeout(s, w, ok), NOTHING, NOTHING, f);
  }

  lemma GiveUpTokens(s: State, w: nat, step: CodeStep, f: FiberId)
    requires Inv(s) && CanCode(s, w, step) && (step.IoResume? || step.IoGiveUp?)
    ensures TokensOf(DoCode(s, w, step), f) == TokensOf(s, f)
  {
    hide Inv, TokensOf;
    match step
    case IoResume => CancelTokens(s, w, IoCancel(s, w), IoCancel(s, w).fibers[Self(s, w)].pc, f);
    case IoGiveUp => CancelTokens(s, w, IoUndone(s, w), Plain, f);
  }

  lemma CodeTokens(s: State, w: nat, step: CodeStep, f: FiberId)
    requires Inv(s) && CanCode(s, w, step)
    ensures TokensOf(DoCode(s, w, step), f) == TokensOf(s, f) + Bit(CodeIssues(s, w, step, f))
  {
    hide Inv, TokensOf;
    match step
    case IoTimeout(addr, ms, now) => IoTimerTokens(s, w, addr, ms, now, f);
    case SleepFor(addr, ms, now) => SleepTokens(s, w, addr, ms, now, f);
    case IoRegister(ok) => RegisterTokens(s, w, ok, f);
    case IoResume => GiveUpTokens(s, w, step, f);
    case IoGiveUp => GiveUpTokens(s, w, step, f);
    case RunWake => WakeTokens(s, w, f);
    case RunTest => TestTokens(s, w, f);
    case RunSet => SetTokens(s, w, f);
    case RunFire(ok) => FireTokens(s, w, ok, f);
    case _ => QuietTokens(s, w, step, f);
  }

  // ----- User code and outside threads -----

  lemma PushTokens(s: State, task: Task, thread: int, f: FiberId)
    ensures TokensOf(Push(s, task, thread), f) == TokensOf(s, f) + Named(multiset{task}, f)
  {
    PushFlow(s, task, thread);
    hide TokensOf, Flow;
    Moved(s, Push(s, task, thread), multiset{task}, NOTHING, f);
  }

  lemma NewFiberTokens(s: State, f: FiberId)
    requires Inv(s)
    ensures TokensOf(s.(fibers := s.fibers + [Fiber(INIT, Plain)]), f) == TokensOf(s, f)
  {
    NewFiberFibers(s);
    hide TokensOf, Flow, Inv;
    Moved(s, s.(fibers := s.fibers + [Fiber(INIT, Plain)]), NOTHING, NOTHING, f);
  }

  lemma WatchTokens(s: State, fd: nat, ev: Event, id: nat, ok: bool, f: FiberId)
    requires Inv(s) && ET.CanAdd(s.table, fd, ev)
    ensures TokensOf(s.(table := ET.AddEvent(s.table, fd, ev, Call(User(id)), ok).0), f) == TokensOf(s, f)
  {
    WatchFibers(s, fd, ev, id, ok);
    hide TokensOf, Flow, Inv, ET.AddEvent;
    Moved(s, s.(table := ET.AddEvent(s.table, fd, ev, Call(User(id)), ok).0),
          if ok then multiset{Call(User(id))} else NOTHING, NOTHING, f);
  }

  lemma ReleasedTokens(s: State, table: ET.Table, out: seq<Task>, f: FiberId)
    requires FibersOk(s) && ET.Armed(s.table) == ET.Armed(table) + multiset(out)
    ensures TokensOf(s.(table := table, queue := Appended(s.queue, out)), f) == TokensOf(s, f)
  {
    var s' := s.(table := table, queue := Appended(s.queue, out));
    ReleasedFibers(s, s', out);
    hide TokensOf, Flow, ET.Armed;
    Moved(s, s', NOTHING, NOTHING, f);
  }

  /** The table and the tasks that cancelEvent or cancelAll leaves. */
  function ReleasedBy(s: State, op: UserOp): (ET.Table, seq<Task>)
    requires ET.Valid(s.table) && (op.CancelWatch? || op.CloseFd?)
  {
    if op.CancelWatch? then ET.CancelEvent(s.table, op.fd, op.ev, op.ok) else ET.CancelAll(s.table, op.fd, op.ok)
  }

  lemma ReleaseShape(s: State, op: UserOp)
    requires CanOp(s, op) && (op.CancelWatch? || op.CloseFd?)
    ensures var (table, out) := ReleasedBy(s, op);
      ApplyOp(s, op) == s.(table := table, queue := Appended(s.queue, out))
  {
    hide ET.CancelEvent, ET.CancelAll, ET.Valid, Appended;
  }

  lemma ReleaseMoves(s: State, op: UserOp)
    requires ET.Inv(s.table) && (op.CancelWatch? || op.CloseFd?)
    ensures var (table, out) := ReleasedBy(s, op); ET.Armed(s.table) == ET.Armed(table) + multiset(out)
  {
    if op.CancelWatch? {
      ET.CancelEventEffect(s.table, op.fd, op.ev, op.ok);
    } else {
      ET.CancelAllEffect(s.table, op.fd, op.ok);
    }
    hide ET.Inv, ET.Armed, ET.CancelEvent, ET.CancelAll;
  }

  lemma ReleaseTokens(s: State, op: UserOp, f: FiberId)
    requires Inv(s) && CanOp(s, op) && (op.CancelWatch? || op.CloseFd?)
    ensures TokensOf(ApplyOp(s, op), f) == TokensOf(s, f)
  {
    ReleaseShape(s, op);
    ReleaseMoves(s, op);
    assert FibersOk(s);
    hide Inv, TokensOf, FibersOk, ApplyOp, ReleasedBy, ET.Armed, CanOp;
    ReleasedTokens(s, ReleasedBy(s, op).0, ReleasedBy(s, op).1, f);
  }

  lemma DeletedTokens(s: State, s': State, task: Task, f: FiberId)
    requires s' == s.(table := s'.table, dropped := s'.dropped)
    requires ET.Armed(s.table) == ET.Armed(s'.table) + multiset{task}
    ensures TokensOf(s', f) + Named(multiset{task}, f) == TokensOf(s, f)
  {
    DeletedFlow(s, s', task);
    hide TokensOf, Flow, ET.Armed;
    Moved(s, s', NOTHING, multiset{task}, f);
  }

  /** What delEvent throws away is a user's callback, or the fiber it says. */
  lemma DiscardedTask(s: State, fd: nat, ev: Event, f: FiberId)
    requires Inv(s) && ET.IsArmed(s.table, fd, ev)
    ensures Named(multiset{s.table.rows[fd].Get(ev).Task()}, f) == Bit(f in SlotFiber(s.table, fd, ev))
  {
    assert SlotAt(s, fd, ev);
  }

  lemma UnwatchTokens(s: State, fd: nat, ev: Event, ok: bool, f: FiberId)
    requires Inv(s) && CanOp(s, Unwatch(fd, ev, ok))
    ensures TokensOf(ApplyOp(s, Unwatch(fd, ev, ok)), f) + Bit(ok && f in SlotFiber(s.table, fd, ev)) == TokensOf(s, f)
  {
    ET.DelEventEffect(s.table, fd, ev, ok);
    if ok && ET.IsArmed(s.table, fd, ev) {
      DiscardedTask(s, fd, ev, f);
      hide TokensOf, Inv, Named, ET.DelEvent, ET.Armed, SlotFiber;
      DeletedTokens(s, ApplyOp(s, Unwatch(fd, ev, ok)), s.table.rows[fd].Get(ev).Task(), f);
    } else {
      hide TokensOf, Inv, ET.DelEvent, ET.Armed;
      assert ApplyOp(s, Unwatch(fd, ev, ok)) == s;
    }
  }

  lemma TimerOpTokens(s: State, op: UserOp, f: FiberId)
    requires CanOp(s, op)
    requires op.TimerAdd? || op.TimerCancel? || op.TimerRefresh? || op.TimerReset?
    ensures TokensOf(ApplyOp(s, op), f) == TokensOf(s, f)
  {
    UserTimed(s, op, Resume(f));
    UserTimed(s, op, Call(Wake(f)));
  }

  /** Users' timer operations change the counts of users' callbacks only. */
  lemma UserTimed(s: State, op: UserOp, t: Task)
    requires CanOp(s, op) && !(t.Call? && t.cb.User?)
    requires op.TimerAdd? || op.TimerCancel? || op.TimerRefresh? || op.TimerReset?
    ensures Timed(ApplyOp(s, op))[t] == Timed(s)[t]
  {
    var items := s.timers.items;
    match op
    case TimerAdd(addr, ms, now, recurring, id) =>
      TS.InsertGathers(items, TS.Rec(addr, recurring, ms, TS.Plus(ms, now), User(id)), RecTasks);
    case TimerCancel(addr) => TS.EraseGathers(items, addr, RecTasks);
    case TimerRefresh(_, _) => Rekeyed(s, op);
    case TimerReset(_, _, _, _) => Rekeyed(s, op);
  }

  lemma Rekeyed(s: State, op: UserOp)
    requires CanOp(s, op) && (op.TimerRefresh? || op.TimerReset?)
    ensures Timed(ApplyOp(s, op)) == Timed(s)
  {
    var items := s.timers.items;
    if op.TimerRefresh? && TS.Has(items, op.addr) {
      ReplaceGathers(items, TS.At(items, op.addr).(next := TS.Plus(op.now, TS.At(items, op.addr).ms)));
    } else if op.TimerReset? && TS.Reset(s.timers, op.addr, op.ms, op.fromNow, op.now).1 {
      var r := TS.At(items, op.addr);
      var start := if op.fromNow then op.now else TS.Minus(r.next, r.ms);
      ReplaceGathers(items, r.(ms := op.ms, next := TS.Plus(start, op.ms)));
    }
  }

  lemma OpTokens(s: State, op: UserOp, f: FiberId)
    requires Inv(s) && CanOp(s, op)
    ensures TokensOf(ApplyOp(s, op), f) + Bit(OpDiscards(s, op, f)) == TokensOf(s, f) + Bit(OpIssues(op, f))
  {
    hide Inv, TokensOf;
    match op
    case Submit(id, thread) => PushTokens(s, Call(User(id)), thread, f);
    case NewFiber => NewFiberTokens(s, f);
    case SubmitFiber(g, thread) => PushTokens(s, Resume(g), thread, f);
    case Watch(fd, ev, id, ok) => WatchTokens(s, fd, ev, id, ok, f);
    case Unwatch(fd, ev, ok) => UnwatchTokens(s, fd, ev, ok, f);
    case CancelWatch(_, _, _) => ReleaseTokens(s, op, f);
    case CloseFd(_, _) => ReleaseTokens(s, op, f);
    case _ => TimerOpTokens(s, op, f);
  }

  // ----- Whole runs -----

  /** One step moves exactly the tokens of f that it says. */
  lemma StepTokens(s: State, step: Step, f: FiberId)
    requires Inv(s) && Enabled(s, step)
    ensures TokensOf(Apply(s, step), f) + Bit(Resumes(s, step, f)) + Bit(Discards(s, step, f))
      == TokensOf(s, f) + Bit(Issues(s, step, f))
  {
    match step
    case Loop(w, loop) =>
      LoopTokens(s, w, loop, f);
      hide Inv, TokensOf, DoLoop, LoopResumes, LoopIssues;
    case Code(w, code) =>
      CodeTokens(s, w, code, f);
      hide Inv, TokensOf, DoCode, CodeIssues;
    case Act(actor, op) =>
      OpTokens(s, op, f);
      hide Inv, ApplyOp, OpDiscards, OpIssues, CanOp;
    case SetAutoStop =>
    case SetStopping =>
  }

  ghost function Issued(s: State, steps: seq<Step>, f: FiberId): nat
    requires Feasible(s, steps)
    decreases |steps|
  {
    if steps == [] then 0 else Bit(Issues(s, steps[0], f)) + Issued(Apply(s, steps[0]), steps[1..], f)
  }

  ghost function Resumed(s: State, steps: seq<Step>, f: FiberId): nat
    requires Feasible(s, steps)
    decreases |steps|
  {
    if steps == [] then 0 else Bit(Resumes(s, steps[0], f)) + Resumed(Apply(s, steps[0]), steps[1..], f)
  }

  ghost function Discarded(s: State, steps: seq<Step>, f: FiberId): nat
    requires Feasible(s, steps)
    decreases |steps|
  {
    if steps == [] then 0 else Bit(Discards(s, steps[0], f)) + Discarded(Apply(s, steps[0]), steps[1..], f)
  }

  lemma {:induction false} RunTokens(s: State, steps: seq<Step>, f: FiberId)
    requires Inv(s) && Feasible(s, steps)
    ensures TokensOf(Run(s, steps), f) + Resumed(s, steps, f) + Discarded(s, steps, f)
      == TokensOf(s, f) + Issued(s, steps, f)
    decreases |steps|
  {
    hide Inv, TokensOf, Issues, Resumes, Discards, Enabled, Apply;
    if steps != [] {
      StepKeeps(s, steps[0]);
      StepTokens(s, steps[0], f);
      RunTokens(Apply(s, steps[0]), steps[1..], f);
    }
  }

  /** In every run, the resumes of a fiber are the tokens it handed out, less the ones that
      delEvent discarded and at most one that is still outstanding: no wake-up is lost or
      happens twice, whichever of epoll, a timeout, close and the timers compete for it. */
  lemma ResumedOncePerToken(n: nat, steps: seq<Step>, f: FiberId)
    requires Feasible(Start(n), steps) && f < |Run(Start(n), steps).fibers|
    ensures var s := Run(Start(n), steps);
      && Resumed(Start(n), steps, f) + Discarded(Start(n), steps, f) + TokensOf(s, f) == Issued(Start(n), steps, f)
      && TokensOf(s, f) <= 1
  {
    StartInv(n);
    StartCounts(n, Resume(f));
    StartCounts(n, Call(Wake(f)));
    assert TokensOf(Start(n), f) == 0;
    hide Inv, TokensOf, Start, Run, Feasible, Issued, Resumed, Discarded;
    RunTokens(Start(n), steps, f);
    OneToken(Run(Start(n), steps), f);
  }
}
