/** Every task over whole runs: what comes into the reactor is outstanding somewhere, or has
    been used up by one of the steps that do so. */
module ReactorConserved {
  import opened Base
  import opened RunQueue
  import opened Reactor
  import opened Tokens
  import opened LoopFlow
  import opened IdleFlow
  import opened CodeFlow
  import opened ReactorInv
  import opened LoopKeeps
  import opened CodeKeeps
  import opened UserKeeps
  import opened ReactorRuns
  import opened ReactorTimeout
  import opened ReactorLedger
  import opened ReactorExit
  import ET = EventTable
  import TS = TimerSet

  // ----- One step -----

  ghost function LoopGains(s: State, w: nat, step: LoopStep): multiset<Task>
    requires CanLoop(s, w, step)
  {
    match step
    case SwapOutReady => multiset([Resume(Self(s, w))])
    case IdleExpire(now, guard) => Recurring(s, now, guard)
    case _ => NOTHING
  }

  ghost function LoopLoses(s: State, w: nat, step: LoopStep): multiset<Task>
    requires CanLoop(s, w, step)
  {
    match step
    case SwapInFiber => multiset{Resume(s.workers[w].phase.task.fiber)}
    case SwapInCallback => Consumed(s.workers[w].phase.task.cb)
    case _ => NOTHING
  }

  lemma LoopMoves(s: State, w: nat, step: LoopStep)
    requires Inv(s) && CanLoop(s, w, step)
    ensures Flow(s, DoLoop(s, w, step), LoopGains(s, w, step), LoopLoses(s, w, step))
  {
    match step {
      case TakeEntry => TakeFlow(s, w);
      case SwapInFiber => StartFiberFlow(s, w);
      case SwapInDead => PoppedFiberStarts(s, w);
      case SwapInCallback => StartCallFlow(s, w);
      case SwapOutReady => YieldReadyFibers(s, w);
      case ScheduleReady => RescheduleFlow(s, w);
      case SwapOutHold => YieldHoldFibers(s, w);
      case SwapOutEnded(threw) => FinishFibers(s, w, threw);
      case IdleExpire(now, guard) =>
        RecurringAreUsers(s);
        ExpireFibers(s, w, now, guard);
      case IdleSchedule => FlushFibers(s, w);
      case IdleReport(report, ok) => DispatchFibers(s, w, report, ok);
      case _ => ParkFlow(s, w, step);
    }
    hide Inv, Flow, FibersOk, WorkersOk, Recurring;
  }

  lemma ParkFlow(s: State, w: nat, step: LoopStep)
    requires Inv(s) && CanLoop(s, w, step) && IsPark(step)
    ensures Flow(s, DoLoop(s, w, step), NOTHING, NOTHING)
  {
    var s' := DoLoop(s, w, step);
    ParkMoves(s, w, step);
    hide DoLoop, CanLoop;
    MoveFibers(s, w, s'.workers[w], s');
  }

  ghost function CodeGains(s: State, w: nat, step: CodeStep): multiset<Task>
    requires CanCode(s, w, step)
  {
    match step
    case IoTimeout(_, _, _) => multiset{Call(Timeout(SelfPc(s, w).call))}
    case IoRegister(ok) => if ok then multiset{Resume(Self(s, w))} else NOTHING
    case SleepFor(_, _, _) => multiset{Call(Wake(Self(s, w)))}
    case RunWake => multiset{Resume(SelfPc(s, w).sleeper)}
    case _ => NOTHING
  }

  ghost function CodeLoses(s: State, w: nat, step: CodeStep): multiset<Task>
    requires CanCode(s, w, step)
  {
    match step
    case IoResume => OwnTasks(s.timers.items, SelfPc(s, w).timer)
    case IoGiveUp => OwnTasks(s.timers.items, SelfPc(s, w).timer)
    case RunWake => multiset{Call(Wake(SelfPc(s, w).sleeper))}
    case RunTest => Spent(TestTimeout(s, w).fibers[Self(s, w)].pc, SelfPc(s, w).call)
    case RunSet => multiset{Call(Timeout(SelfPc(s, w).call))}
    case _ => NOTHING
  }

  lemma TimerMoves(s: State, w: nat, step: CodeStep)
    requires Inv(s) && CanCode(s, w, step) && (step.IoTimeout? || step.SleepFor?)
    ensures Flow(s, DoCode(s, w, step), CodeGains(s, w, step), NOTHING)
  {
    if step.IoTimeout? {
      var c := SelfPc(s, w).call;
      var r := TS.Rec(step.addr, false, step.ms, TS.Plus(step.ms, step.now), Timeout(c));
      AddTimerMove(s, w, IoTimer(s, w, step.addr, step.ms, step.now), IoArm(c, Some(step.addr)), r);
    } else {
      var r := TS.Rec(step.addr, false, step.ms, TS.Plus(step.ms, step.now), Wake(Self(s, w)));
      SleepShape(s, w, step.addr, step.ms, step.now);
      AddTimerMove(s, w, Sleep(s, w, step.addr, step.ms, step.now), Asleep, r);
    }
    hide Inv, Flow, FibersOk, WorkersOk, TS.AddTimer, TS.Insert;
  }

  lemma QuietMoves(s: State, w: nat, step: CodeStep)
    requires Inv(s) && CanCode(s, w, step) && (step.IoCall? || step.IoResult? || step.IoForever?)
    ensures Flow(s, DoCode(s, w, step), NOTHING, NOTHING)
  {
    match step {
      case IoCall(fd, ev) => QuietMove(s, w, IoBegin(s, w, fd, ev), IoTry(|s.calls|));
      case IoResult => QuietMove(s, w, IoReturn(s, w), Plain);
      case IoForever => QuietMove(s, w, IoNoTimer(s, w), IoArm(SelfPc(s, w).call, None));
    }
    hide Inv, Flow, FibersOk, WorkersOk;
  }

  lemma LeaveMoves(s: State, w: nat, step: CodeStep)
    requires Inv(s) && CanCode(s, w, step) && (step.IoResume? || step.IoGiveUp?)
    ensures Flow(s, DoCode(s, w, step), NOTHING, CodeLoses(s, w, step))
  {
    match step {
      case IoResume => CancelFlow(s, w, IoCancel(s, w), IoCancel(s, w).fibers[Self(s, w)].pc);
      case IoGiveUp => CancelFlow(s, w, IoUndone(s, w), Plain);
    }
    hide Inv, Flow, OwnTasks, CancelOwn, OwnTimer;
  }

  lemma CodeMoves(s: State, w: nat, step: CodeStep)
    requires Inv(s) && CanCode(s, w, step)
    ensures Flow(s, DoCode(s, w, step), CodeGains(s, w, step), CodeLoses(s, w, step))
  {
    hide Flow, FibersOk, WorkersOk;
    match step
    case IoTimeout(_, _, _) => TimerMoves(s, w, step);
    case SleepFor(_, _, _) => TimerMoves(s, w, step);
    case IoRegister(ok) => IoAddFibers(s, w, ok);
    case IoResume => LeaveMoves(s, w, step);
    case IoGiveUp => LeaveMoves(s, w, step);
    case RunWake => WakeFlow(s, w);
    case RunTest => TestFibers(s, w);
    case RunSet => SetFibers(s, w);
    case RunFire(ok) => FireFibers(s, w, ok);
    case _ => QuietMoves(s, w, step);
  }

  ghost function OpGains(s: State, op: UserOp): multiset<Task> {
    match op
    case Submit(id, _) => multiset{Call(User(id))}
    case SubmitFiber(f, _) => multiset{Resume(f)}
    case Watch(_, _, id, ok) => if ok then multiset{Call(User(id))} else NOTHING
    case TimerAdd(_, _, _, _, id) => multiset{Call(User(id))}
    case _ => NOTHING
  }

  ghost function OpLoses(s: State, op: UserOp): multiset<Task>
    requires CanOp(s, op)
  {
    match op
    case Unwatch(fd, ev, ok) =>
      if ok && ET.IsArmed(s.table, fd, ev) then multiset{s.table.rows[fd].Get(ev).Task()} else NOTHING
    case TimerCancel(addr) => ErasedTasks(s.timers.items, addr)
    case _ => NOTHING
  }

  lemma UnwatchMoves(s: State, op: UserOp)
    requires Inv(s) && op.Unwatch? && CanOp(s, op)
    ensures Flow(s, ApplyOp(s, op), NOTHING, OpLoses(s, op))
  {
    ET.DelEventEffect(s.table, op.fd, op.ev, op.ok);
    if op.ok && ET.IsArmed(s.table, op.fd, op.ev) {
      DeletedFlow(s, ApplyOp(s, op), s.table.rows[op.fd].Get(op.ev).Task());
    } else {
      assert ApplyOp(s, op) == s;
    }
    hide Inv, ET.Inv, ET.Armed, ET.DelEvent;
  }

  lemma ReleaseFlows(s: State, op: UserOp)
    requires Inv(s) && (op.CancelWatch? || op.CloseFd?) && CanOp(s, op)
    ensures Flow(s, ApplyOp(s, op), NOTHING, NOTHING)
  {
    ReleaseShape(s, op);
    ReleaseMoves(s, op);
    assert FibersOk(s);
    hide Inv, ApplyOp, ET.Armed, Flow, FibersOk;
    ReleasedFibers(s, ApplyOp(s, op), ReleasedBy(s, op).1);
  }

  lemma TimersFlow(s: State, s': State, gained: multiset<Task>, lost: multiset<Task>)
    requires s' == s.(timers := s'.timers, used := s'.used)
    requires forall t :: Timed(s')[t] + lost[t] == Timed(s)[t] + gained[t]
    ensures Flow(s, s', gained, lost)
  {
  }

  lemma TimerOpMoves(s: State, op: UserOp)
    requires CanOp(s, op) && (op.TimerAdd? || op.TimerCancel?)
    ensures Flow(s, ApplyOp(s, op), OpGains(s, op), OpLoses(s, op))
  {
    var s' := ApplyOp(s, op);
    forall t ensures Timed(s')[t] + OpLoses(s, op)[t] == Timed(s)[t] + OpGains(s, op)[t] {
      if op.TimerAdd? {
        TimerPush(s, TS.Rec(op.addr, op.recurring, op.ms, TS.Plus(op.ms, op.now), User(op.id)), s', t);
      } else {
        TimerErase(s, op.addr, s', t);
      }
    }
    hide Timed, TS.Insert, TS.Erase;
    TimersFlow(s, s', OpGains(s, op), OpLoses(s, op));
  }

  lemma RekeyMoves(s: State, op: UserOp)
    requires CanOp(s, op) && (op.TimerRefresh? || op.TimerReset?)
    ensures Flow(s, ApplyOp(s, op), NOTHING, NOTHING)
  {
    var items, s' := s.timers.items, ApplyOp(s, op);
    if op.TimerRefresh? && TS.Has(items, op.addr) {
      ReplaceGathers(items, TS.At(items, op.addr).(next := TS.Plus(op.now, TS.At(items, op.addr).ms)));
    } else if op.TimerReset? && TS.Reset(s.timers, op.addr, op.ms, op.fromNow, op.now).1 {
      var r := TS.At(items, op.addr);
      var start := if op.fromNow then op.now else TS.Minus(r.next, r.ms);
      ReplaceGathers(items, r.(ms := op.ms, next := TS.Plus(start, op.ms)));
    }
    assert Timed(s') == Timed(s);
    TimersFlow(s, s', NOTHING, NOTHING);
  }

  lemma OpMoves(s: State, op: UserOp)
    requires Inv(s) && CanOp(s, op)
    ensures Flow(s, ApplyOp(s, op), OpGains(s, op), OpLoses(s, op))
  {
    hide Flow;
    match op
    case Submit(id, thread) => PushFlow(s, Call(User(id)), thread);
    case SubmitFiber(f, thread) => PushFlow(s, Resume(f), thread);
    case NewFiber => NewFiberFibers(s);
    case Watch(fd, ev, id, ok) => WatchFibers(s, fd, ev, id, ok);
    case Unwatch(_, _, _) => UnwatchMoves(s, op);
    case CancelWatch(_, _, _) => ReleaseFlows(s, op);
    case CloseFd(_, _) => ReleaseFlows(s, op);
    case TimerRefresh(_, _) => RekeyMoves(s, op);
    case TimerReset(_, _, _, _) => RekeyMoves(s, op);
    case _ => TimerOpMoves(s, op);
  }

  /** The tasks that a step brings in. */
  ghost function Gains(s: State, step: Step): multiset<Task>
    requires Enabled(s, step)
  {
    match step
    case Loop(w, loop) => LoopGains(s, w, loop)
    case Code(w, code) => CodeGains(s, w, code)
    case Act(_, op) => OpGains(s, op)
    case _ => NOTHING
  }

  /** Those it uses up or throws away. */
  ghost function Loses(s: State, step: Step): multiset<Task>
    requires Enabled(s, step)
  {
    match step
    case Loop(w, loop) => LoopLoses(s, w, loop)
    case Code(w, code) => CodeLoses(s, w, code)
    case Act(_, op) => OpLoses(s, op)
    case _ => NOTHING
  }

  lemma FlagsFlow(s: State, s': State, s1: State, gained: multiset<Task>, lost: multiset<Task>)
    requires Flow(s, s', gained, lost) && s1 == s'.(autoStop := s1.autoStop, stopping := s1.stopping, late := s1.late)
    ensures Flow(s, s1, gained, lost)
  {
    forall t ensures Count(s1, t) == Count(s', t) {
    }
  }

  /** A step changes how often each task is outstanding by exactly what it gains and loses. */
  lemma StepFlow(s: State, step: Step)
    requires Inv(s) && Enabled(s, step)
    ensures Flow(s, Apply(s, step), Gains(s, step), Loses(s, step))
  {
    hide Inv, Flow, DoLoop, DoCode, ApplyOp, CanLoop, CanCode, CanOp, LoopGains, LoopLoses, CodeGains, CodeLoses;
    hide OpGains, OpLoses;
    match step
    case Loop(w, loop) => LoopMoves(s, w, loop);
    case Code(w, code) => CodeMoves(s, w, code);
    case Act(actor, op) =>
      OpMoves(s, op);
      FlagsFlow(s, ApplyOp(s, op), Apply(s, step), OpGains(s, op), OpLoses(s, op));
    case _ =>
      SameFlow(s);
      FlagsFlow(s, s, Apply(s, step), NOTHING, NOTHING);
  }

  lemma SameFlow(s: State)
    ensures Flow(s, s, NOTHING, NOTHING)
  {
  }

  // ----- Whole runs -----

  ghost function Gained(s: State, steps: seq<Step>, t: Task): nat
    requires Feasible(s, steps)
    decreases |steps|
  {
    if steps == [] then 0 else Gains(s, steps[0])[t] + Gained(Apply(s, steps[0]), steps[1..], t)
  }

  ghost function Lost(s: State, steps: seq<Step>, t: Task): nat
    requires Feasible(s, steps)
    decreases |steps|
  {
    if steps == [] then 0 else Loses(s, steps[0])[t] + Lost(Apply(s, steps[0]), steps[1..], t)
  }

  /** Conservation, for every task: what was outstanding and what came is outstanding or gone. */
  lemma {:induction false} RunFlow(s: State, steps: seq<Step>, t: Task)
    requires Inv(s) && Feasible(s, steps)
    ensures Count(Run(s, steps), t) + Lost(s, steps, t) == Count(s, t) + Gained(s, steps, t)
    decreases |steps|
  {
    hide Inv, Apply, Enabled, Gains, Loses, Count;
    if steps != [] {
      StepFlow(s, steps[0]);
      StepKeeps(s, steps[0]);
      RunFlow(Apply(s, steps[0]), steps[1..], t);
      assert Count(Apply(s, steps[0]), t) + Loses(s, steps[0])[t] == Count(s, t) + Gains(s, steps[0])[t];
    }
  }

  // ----- The callbacks of users -----

  /** A worker starts the callback. */
  ghost predicate Starts(s: State, step: Step, id: nat) {
    && step.Loop? && step.loop.SwapInCallback? && step.w < |s.workers| && s.workers[step.w].phase.Popped?
    && s.workers[step.w].phase.task == Call(User(id))
  }

  /** delEvent on its event, or cancel of its timer, throws it away. */
  ghost predicate ThrowsAway(s: State, step: Step, id: nat)
    requires Enabled(s, step)
  {
    step.Act? && (step.op.Unwatch? || step.op.TimerCancel?) && Call(User(id)) in OpLoses(s, step.op)
  }

  /** A user's callback is used up in these two ways only, and once at a time. */
  lemma UserLoses(s: State, step: Step, id: nat)
    requires Inv(s) && Enabled(s, step)
    ensures Loses(s, step)[Call(User(id))] == Bit(Starts(s, step, id)) + Bit(ThrowsAway(s, step, id))
  {
    hide Inv, LoopLoses, CodeLoses, OpLoses, CanLoop, CanCode, CanOp;
    match step
    case Loop(w, loop) => LoopLosesUser(s, w, loop, id);
    case Code(w, code) => CodeLosesNone(s, w, code, id);
    case Act(_, op) => OpLosesUser(s, op, id);
    case _ =>
  }

  lemma LoopLosesUser(s: State, w: nat, step: LoopStep, id: nat)
    requires CanLoop(s, w, step)
    ensures LoopLoses(s, w, step)[Call(User(id))] == Bit(Starts(s, Loop(w, step), id))
  {
    if step.SwapInCallback? { ConsumedUser(s.workers[w].phase.task.cb, id); }
    hide Consumed;
  }

  lemma ConsumedUser(cb: Callback, id: nat)
    ensures Consumed(cb)[Call(User(id))] == Bit(cb == User(id))
  {
  }

  lemma OpLosesUser(s: State, op: UserOp, id: nat)
    requires CanOp(s, op)
    ensures OpLoses(s, op)[Call(User(id))] == Bit((op.Unwatch? || op.TimerCancel?) && Call(User(id)) in OpLoses(s, op))
  {
  }

  lemma CodeLosesNone(s: State, w: nat, step: CodeStep, id: nat)
    requires Inv(s) && CanCode(s, w, step)
    ensures CodeLoses(s, w, step)[Call(User(id))] == 0
  {
    if step.IoResume? || step.IoGiveUp? {
      assert PcAt(s, Self(s, w)) && OwnAt(s, Self(s, w));
    }
    hide Inv, TestTimeout;
  }

  ghost function Started(s: State, steps: seq<Step>, id: nat): nat
    requires Feasible(s, steps)
    decreases |steps|
  {
    if steps == [] then 0 else Bit(Starts(s, steps[0], id)) + Started(Apply(s, steps[0]), steps[1..], id)
  }

  ghost function ThrownAway(s: State, steps: seq<Step>, id: nat): nat
    requires Feasible(s, steps)
    decreases |steps|
  {
    if steps == [] then 0 else Bit(ThrowsAway(s, steps[0], id)) + ThrownAway(Apply(s, steps[0]), steps[1..], id)
  }

  lemma {:induction false} LostIs(s: State, steps: seq<Step>, id: nat)
    requires Inv(s) && Feasible(s, steps)
    ensures Lost(s, steps, Call(User(id))) == Started(s, steps, id) + ThrownAway(s, steps, id)
    decreases |steps|
  {
    hide Inv, Apply, Enabled, Loses, Starts, ThrowsAway;
    if steps != [] {
      UserLoses(s, steps[0], id);
      StepKeeps(s, steps[0]);
      LostIs(Apply(s, steps[0]), steps[1..], id);
    }
  }

  /** In every run: how often a user's callback came in, by schedule, a watched event, a timer
      or a recurring timer's expiry, is how often it was started or thrown away, plus how
      often it is still outstanding. None is lost, none runs twice. */
  lemma CallbacksConserved(n: nat, steps: seq<Step>, id: nat)
    requires Feasible(Start(n), steps)
    ensures Gained(Start(n), steps, Call(User(id)))
      == Started(Start(n), steps, id) + ThrownAway(Start(n), steps, id) + Count(Run(Start(n), steps), Call(User(id)))
  {
    StartInv(n);
    StartCounts(n, Call(User(id)));
    hide Inv, Start, Count, Gained, Lost, Started, ThrownAway;
    RunFlow(Start(n), steps, Call(User(id)));
    LostIs(Start(n), steps, id);
  }

  /** And when all idle fibers have ended, with no late work from outside and no worker that
      took work after its own had, every callback was started or thrown away. */
  lemma AllCallbacksStarted(n: nat, steps: seq<Step>, id: nat)
    requires n > 0 && Feasible(Start(n), steps)
    requires var s := Run(Start(n), steps); AllDone(s) && !s.late && !s.revived
    ensures Gained(Start(n), steps, Call(User(id))) == Started(Start(n), steps, id) + ThrownAway(Start(n), steps, id)
  {
    CallbacksConserved(n, steps, id);
    NoWorkAbandoned(n, steps, Call(User(id)), 0);
    hide *;
  }
}
