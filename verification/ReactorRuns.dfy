/** Runs of the reactor: from the state that the constructor leaves behind, every
    sequence of enabled steps of all workers, fibers and outside threads keeps the invariant. */
module ReactorRuns {
  import opened Base
  import opened Sums
  import opened RunQueue
  import opened Reactor
  import opened Tokens
  import opened LoopFlow
  import opened CodeFlow
  import opened ReactorInv
  import opened LoopKeeps
  import opened CodeKeeps
  import opened UserKeeps
  import ET = EventTable
  import ER = EventRuns
  import TS = TimerSet

  lemma StartCounts(n: nat, t: Task)
    ensures Count(Start(n), t) == 0
  {
    var s := Start(n);
    GatherNone(s.workers, WorkerTasks);
    ER.FreshTable(s.table.rows);
  }

  lemma StartFibers(n: nat)
    ensures FibersOk(Start(n)) && LoopFlow.Known(Start(n)) && WorkersOk(Start(n)) && CensusOk(Start(n))
  {
    var s := Start(n);
    forall t ensures Count(s, t) == 0 { StartCounts(n, t); }
    GatherNone(s.workers, UnitOf);
  }

  lemma EmptySlots(s: State)
    requires ET.Inv(s.table) && forall i :: 0 <= i < |s.table.rows| ==> s.table.rows[i] == ET.Fresh(i)
    ensures SlotsOk(s)
  {
  }

  lemma EmptyContext(s: State)
    requires s.fibers == [] && s.calls == [] && s.timers.items == []
    ensures PcsOk(s) && TimersOk(s) && OwnOk(s)
  {
  }

  lemma StartInv(n: nat)
    ensures Inv(Start(n))
  {
    StartFibers(n);
    ER.FreshTable(Start(n).table.rows);
    EmptySlots(Start(n));
    EmptyContext(Start(n));
    hide FibersOk, LoopFlow.Known, CensusOk, WorkersOk, SlotsOk, PcsOk, TimersOk, OwnOk, ET.Inv;
  }

  lemma LoopKeepsInv(s: State, w: nat, step: LoopStep)
    requires Inv(s) && CanLoop(s, w, step)
    ensures Inv(DoLoop(s, w, step))
  {
    hide Inv;
    match step
    case TakeEntry => TakeKeeps(s, w);
    case TakeNothing => TakeNoneKeeps(s, w);
    case SwapInFiber => StartFiberKeeps(s, w);
    case SwapInDead => PoppedFiberStarts(s, w);
    case SwapInCallback => if s.workers[w].cbFiber.Some? { ReuseKeeps(s, w); } else { CreateKeeps(s, w); }
    case SwapOutReady => YieldReadyKeeps(s, w);
    case ScheduleReady => RescheduleKeeps(s, w);
    case SwapOutHold => YieldHoldKeeps(s, w);
    case SwapOutEnded(threw) => FinishKeeps(s, w, threw);
    case IdleStop(now) => CheckStopKeeps(s, w, now);
    case IdlePending => CheckEventsKeeps(s, w);
    case IdleQuit => CheckQueueKeeps(s, w);
    case IdleExpire(now, guard) => ExpireKeeps(s, w, now, guard);
    case IdleSchedule => FlushKeeps(s, w);
    case IdleReport(report, ok) => DispatchKeeps(s, w, report, ok);
    case IdleOut => IdleYieldKeeps(s, w);
  }

  lemma CodeKeepsInv(s: State, w: nat, step: CodeStep)
    requires Inv(s) && CanCode(s, w, step)
    ensures Inv(DoCode(s, w, step))
  {
    hide Inv;
    match step
    case IoCall(fd, ev) => IoBeginKeeps(s, w, fd, ev);
    case IoResult => IoReturnKeeps(s, w);
    case IoTimeout(addr, ms, now) => IoTimerKeeps(s, w, addr, ms, now);
    case IoForever => IoNoTimerKeeps(s, w);
    case IoRegister(ok) => IoAddKeeps(s, w, ok);
    case IoResume => IoCancelKeeps(s, w);
    case IoGiveUp => IoUndoKeeps(s, w);
    case SleepFor(addr, ms, now) => SleepKeeps(s, w, addr, ms, now);
    case RunWake => WakeKeeps(s, w);
    case RunTest => TestKeeps(s, w);
    case RunSet => SetKeeps(s, w);
    case RunFire(ok) => FireKeeps(s, w, ok);
  }

  lemma ActKeepsInv(s: State, actor: Actor, op: UserOp)
    requires Inv(s) && MayAct(s, actor) && CanOp(s, op)
    ensures Inv(Noted(s, ApplyOp(s, op), actor))
  {
    OpKeeps(s, op);
    FlagsKeep(ApplyOp(s, op), Noted(s, ApplyOp(s, op), actor));
  }

  /** One step of anyone. */
  lemma StepKeeps(s: State, step: Step)
    requires Inv(s) && Enabled(s, step)
    ensures Inv(Apply(s, step))
  {
    hide Inv;
    match step
    case Loop(w, loop) => LoopKeepsInv(s, w, loop);
    case Code(w, code) => CodeKeepsInv(s, w, code);
    case Act(actor, op) => ActKeepsInv(s, actor, op);
    case SetAutoStop => FlagsKeep(s, s.(autoStop := true));
    case SetStopping => FlagsKeep(s, s.(stopping := true));
  }

  ghost predicate Feasible(s: State, steps: seq<Step>)
    decreases |steps|
  {
    steps == [] || (Enabled(s, steps[0]) && Feasible(Apply(s, steps[0]), steps[1..]))
  }

  ghost function Run(s: State, steps: seq<Step>): State
    requires Feasible(s, steps)
    decreases |steps|
  {
    if steps == [] then s else Run(Apply(s, steps[0]), steps[1..])
  }

  lemma {:induction false} RunKeeps(s: State, steps: seq<Step>)
    requires Inv(s) && Feasible(s, steps)
    ensures Inv(Run(s, steps))
    decreases |steps|
  {
    hide Inv;
    if steps != [] {
      StepKeeps(s, steps[0]);
      RunKeeps(Apply(s, steps[0]), steps[1..]);
    }
  }

  /** Reached from the start with some number of workers. */
  ghost predicate Reachable(s: State) {
    exists n: nat, steps :: Feasible(Start(n), steps) && Run(Start(n), steps) == s
  }

  lemma {:induction false} RunAppend(s: State, steps: seq<Step>, step: Step)
    requires Feasible(s, steps) && Enabled(Run(s, steps), step)
    ensures Feasible(s, steps + [step]) && Run(s, steps + [step]) == Apply(Run(s, steps), step)
    decreases |steps|
  {
    var more := steps + [step];
    if steps != [] {
      assert more[0] == steps[0] && more[1..] == steps[1..] + [step];
      RunAppend(Apply(s, steps[0]), steps[1..], step);
    } else {
      assert more[1..] == [];
    }
  }

  lemma StartReachable(n: nat)
    ensures Reachable(Start(n))
  {
    assert Feasible(Start(n), []) && Run(Start(n), []) == Start(n);
  }

  lemma ReachableStep(s: State, step: Step)
    requires Reachable(s) && Enabled(s, step)
    ensures Reachable(Apply(s, step))
  {
    var n: nat, steps :| Feasible(Start(n), steps) && Run(Start(n), steps) == s;
    RunAppend(Start(n), steps, step);
    assert Feasible(Start(n), steps + [step]);
  }

  lemma ReachableInv(s: State)
    requires Reachable(s)
    ensures Inv(s)
  {
    var n: nat, steps :| Feasible(Start(n), steps) && Run(Start(n), steps) == s;
    StartInv(n);
    RunKeeps(Start(n), steps);
  }
}
