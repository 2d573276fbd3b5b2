/** Two workers and a stop: a quiescent moment that does not last, an idle fiber that ends
    while a timer is pending, and work that nobody is left to do. */
module ReactorAbandoned {
  import opened Base
  import opened RunQueue
  import opened Reactor
  import opened ReactorInv
  import opened ReactorRuns
  import opened ReactorTimeout
  import opened ReactorExit
  import opened Scenes
  import ET = EventTable
  import TS = TimerSet

  const TIMER := TS.Rec(0, false, 1, 6, User(7))
  const SLEEP := TS.Rec(1, false, 1, 9, Wake(0))

  /** Worker 0 after its idle fiber has ended. */
  const OVER := Worker(Scanning, None, true)

  function Idle(phase: Phase): Worker { SCAN.(phase := phase) }

  function Stopped(s: State): State { s.(autoStop := true, stopping := true) }

  /** The user's timer is set, and a stop is requested. */
  function Timing(tickled: bool, w1: Worker, idle: int): State {
    Stopped(Scene([], [], [], TS.Timers([TIMER], tickled, 0), {0}, SCAN, w1, 0, idle))
  }

  /** Worker 1 carries the callback. */
  function Carrying(w0: Worker, idle: int): State {
    Stopped(Scene([], [], [], TS.Timers([], false, 6), {0}, w0, Idle(IdleFlush([User(7)])), 0, idle))
  }

  /** Worker 0's idle fiber has ended, and worker 0 runs the callback all the same. */
  function Revived(w0: Worker, fibers: seq<Fiber>, timers: seq<TS.Rec>, w1: Worker, active: int, idle: int): State {
    var used := if timers == [] then {0} else {0, 1};
    Stopped(Scene(fibers, [], [], TS.Timers(timers, timers != [], 6), used, w0, w1, active, idle)).(revived := true)
  }

  const POPPED := OVER.(phase := Popped(Call(User(7))))
  const RUNS := Worker(Running(0), Some(0), true)
  const RUNNING := Fiber(EXEC, Plain)
  const SLEEPING := Fiber(HOLD, Asleep)

  // ----- A quiescent moment that does not last -----

  lemma TimerSetUp()
    ensures Reachable(Scene([], [], [], TS.Timers([TIMER], true, 0), {0}, SCAN, SCAN, 0, 0))
  {
    StartReachable(2);
    StartRow(3);
    SceneStart();
    AddsTimer();
    hide *;
    ReachableStep(Start(2), Act(Outside, TimerAdd(0, 1, 5, false, 7)));
  }

  lemma AddsTimer()
    requires ET.Valid(Start(2).table)
    ensures var s := Scene([], [], [], NO_TIMERS, {}, SCAN, SCAN, 0, 0);
      var step := Act(Outside, TimerAdd(0, 1, 5, false, 7));
      && Enabled(s, step)
      && Apply(s, step) == Scene([], [], [], TS.Timers([TIMER], true, 0), {0}, SCAN, SCAN, 0, 0)
  {
    var s := Scene([], [], [], NO_TIMERS, {}, SCAN, SCAN, 0, 0);
    assert Attentive(s.workers[0]);
    assert TS.Insert([], TIMER) == [TIMER];
    hide ET.Valid, Start;
  }

  lemma StopRequested()
    ensures Reachable(Timing(true, SCAN, 0))
  {
    TimerSetUp();
    var s := Scene([], [], [], TS.Timers([TIMER], true, 0), {0}, SCAN, SCAN, 0, 0);
    hide Reachable, Start;
    ReachableStep(s, SetAutoStop);
    ReachableStep(s.(autoStop := true), SetStopping);
  }

  lemma TimerExpires()
    ensures Reachable(Carrying(SCAN, 1))
  {
    StopRequested();
    GoesToPoll();
    hide Reachable, Start;
    var s2 := Timing(false, Idle(IdlePoll), 1);
    TakesTimer(s2.timers);
    hide TS.Expiry, TS.Callbacks;
    ReachableStep(s2, Loop(1, IdleExpire(6, TS.AsWritten)));
    assert Expire(s2, 1, 6, TS.AsWritten) == Carrying(SCAN, 1);
  }

  lemma GoesToPoll()
    requires Reachable(Timing(true, SCAN, 0))
    ensures Reachable(Timing(false, Idle(IdlePoll), 1))
  {
    hide Reachable, Start;
    var s := Timing(true, SCAN, 0);
    ReachableStep(s, Loop(1, TakeNothing));
    var s1 := Timing(true, Idle(IdleCheck), 1);
    assert s1 == IdleBranch(s, 1);
    ReachableStep(s1, Loop(1, IdleStop(5)));
    assert CheckStop(s1, 1, 5) == Timing(false, Idle(IdlePoll), 1);
  }

  lemma TakesTimer(t: TS.Timers)
    requires t == TS.Timers([TIMER], false, 0)
    ensures TS.Expiry(t, 6, TS.AsWritten) == (TS.Timers([], false, 6), [TIMER])
    ensures TS.Callbacks([TIMER]) == [User(7)]
  {
    assert [TIMER][1..] == [];
    assert TS.TakenAsWritten([TIMER], 0, 6) == 1;
    assert t.items[..1] == [TIMER] && t.items[1..] == [];
    assert TS.Rearm([], [TIMER], 6) == [];
  }

  lemma FirstReads()
    ensures Reachable(Carrying(Idle(IdleEvents), 2))
  {
    TimerExpires();
    hide Reachable, Start;
    var s := Carrying(SCAN, 1);
    ReachableStep(s, Loop(0, TakeNothing));
    var s1 := Carrying(Idle(IdleCheck), 2);
    assert s1 == IdleBranch(s, 0);
    ReachableStep(s1, Loop(0, IdleStop(7)));
    assert CheckStop(s1, 0, 7) == Carrying(Idle(IdleEvents), 2);
  }

  lemma FirstEnds()
    ensures Reachable(Carrying(OVER, 1))
  {
    FirstReads();
    assert Start(2).table.pending == 0;
    hide Reachable, Start;
    var s := Carrying(Idle(IdleEvents), 2);
    ReachableStep(s, Loop(0, IdlePending));
    var s1 := Carrying(Idle(IdleQueue), 2);
    assert s1 == CheckEvents(s, 0);
    ReachableStep(s1, Loop(0, IdleQuit));
    assert CheckQueue(s1, 0) == Carrying(OVER, 1);
  }

  /** stopping() can hold, and end one worker, while another worker carries the callback of
      an expired timer that it schedules a moment later. */
  lemma QuiescenceIsNotStable()
    ensures var s := Carrying(OVER, 1);
      && Reachable(s) && Quiescent(s) && s.workers[0].idleDone && Enabled(s, Loop(1, IdleSchedule))
      && Apply(s, Loop(1, IdleSchedule)).queue == [Entry(Call(User(7)), ANY_THREAD)]
  {
    FirstEnds();
    assert Start(2).table.pending == 0;
    hide Reachable, Start;
    Schedules();
  }

  lemma Schedules()
    ensures var s := Carrying(OVER, 1);
      && Enabled(s, Loop(1, IdleSchedule))
      && Apply(s, Loop(1, IdleSchedule)) == Stopped(Scene([], [], [Entry(Call(User(7)), ANY_THREAD)],
           TS.Timers([], false, 6), {0}, OVER, Idle(IdleDispatch), 0, 1))
  {
    hide Start;
    assert Calls([User(7)]) == [Call(User(7))];
    OneAppended([], Call(User(7)));
    hide Appended;
  }

  // ----- Work that nobody is left to do -----

  lemma TakesAgain()
    ensures Reachable(Revived(POPPED, [], [], Idle(IdleDispatch), 1, 1))
  {
    FirstEnds();
    Schedules();
    hide Start;
    var s := Stopped(Scene([], [], [Entry(Call(User(7)), ANY_THREAD)], TS.Timers([], false, 6), {0}, OVER,
                           Idle(IdleDispatch), 0, 1));
    ReachableStep(Carrying(OVER, 1), Loop(1, IdleSchedule));
    hide Apply, Enabled;
    TakesOne(s, 0, User(7));
    assert At(s, 0, Popped(Call(User(7)))).(queue := [], active := 1, revived := true)
      == Revived(POPPED, [], [], Idle(IdleDispatch), 1, 1);
  }

  lemma SecondReads()
    ensures Reachable(Revived(RUNS, [RUNNING], [], Idle(IdleEvents), 1, 1))
  {
    TakesAgain();
    hide Reachable, Start;
    var s := Revived(POPPED, [], [], Idle(IdleDispatch), 1, 1);
    ReachableStep(s, Loop(0, SwapInCallback));
    var s1 := Revived(RUNS, [RUNNING], [], Idle(IdleDispatch), 1, 1);
    assert s1 == StartCall(s, 0);
    ReachableStep(s1, Loop(1, IdleOut));
    var s2 := Revived(RUNS, [RUNNING], [], SCAN, 1, 0);
    assert s2 == IdleYield(s1, 1);
    GoesIdle();
  }

  lemma GoesIdle()
    requires Reachable(Revived(RUNS, [RUNNING], [], SCAN, 1, 0))
    ensures Reachable(Revived(RUNS, [RUNNING], [], Idle(IdleEvents), 1, 1))
  {
    hide Reachable, Start;
    var s := Revived(RUNS, [RUNNING], [], SCAN, 1, 0);
    ReachableStep(s, Loop(1, TakeNothing));
    var s1 := Revived(RUNS, [RUNNING], [], Idle(IdleCheck), 1, 1);
    assert s1 == IdleBranch(s, 1);
    ReachableStep(s1, Loop(1, IdleStop(8)));
    assert CheckStop(s1, 1, 8) == Revived(RUNS, [RUNNING], [], Idle(IdleEvents), 1, 1);
  }

  lemma FallsAsleep()
    ensures Reachable(Revived(OVER, [SLEEPING], [SLEEP], Idle(IdleEvents), 0, 1))
  {
    SecondReads();
    hide Reachable, Start;
    var s := Revived(RUNS, [RUNNING], [], Idle(IdleEvents), 1, 1);
    ReachableStep(s, Code(0, SleepFor(1, 1, 8)));
    var s1 := Revived(RUNS, [Fiber(EXEC, Asleep)], [SLEEP], Idle(IdleEvents), 1, 1);
    assert TS.Insert([], SLEEP) == [SLEEP];
    assert s1 == Sleep(s, 0, 1, 1, 8);
    ReachableStep(s1, Loop(0, SwapOutHold));
    assert YieldHold(s1, 0) == Revived(OVER, [SLEEPING], [SLEEP], Idle(IdleEvents), 0, 1);
  }

  lemma SecondQueue()
    ensures Reachable(Revived(OVER, [SLEEPING], [SLEEP], Idle(IdleQueue), 0, 1))
  {
    FallsAsleep();
    assert Start(2).table.pending == 0;
    hide Reachable, Start;
    var s := Revived(OVER, [SLEEPING], [SLEEP], Idle(IdleEvents), 0, 1);
    ReachableStep(s, Loop(1, IdlePending));
    assert CheckEvents(s, 1) == Revived(OVER, [SLEEPING], [SLEEP], Idle(IdleQueue), 0, 1);
  }

  /** The three reads are made one after another: a worker's idle fiber can end while a timer
      is pending that was set between the first read and the last. */
  lemma EndsWithTimerPending()
    ensures var s := Revived(OVER, [SLEEPING], [SLEEP], Idle(IdleQueue), 0, 1);
      && Reachable(s) && Enabled(s, Loop(1, IdleQuit)) && s.timers.items == [SLEEP]
      && Apply(s, Loop(1, IdleQuit)) == Revived(OVER, [SLEEPING], [SLEEP], OVER, 0, 0)
  {
    SecondQueue();
    hide Reachable, Start;
  }

  const OUT := OVER.(phase := Exited)

  /** When all workers have left run, only the flags can still change from within. */
  lemma NobodyLeft(s: State, step: Step)
    requires forall w :: 0 <= w < |s.workers| ==> s.workers[w].phase == Exited
    requires Internal(step) && Enabled(s, step)
    ensures step.SetAutoStop? || step.SetStopping?
  {
  }

  /** With a worker that took work after its idle fiber had ended, work can be abandoned though
      nothing came from outside late: all workers have left run, a fiber sleeps, its timer is
      in the set, and no step of the pool will ever wake it. */
  lemma WorkCanBeAbandoned()
    ensures var s := Revived(OUT, [SLEEPING], [SLEEP], OUT, 0, 0);
      && Reachable(s) && !s.late && (forall w :: 0 <= w < |s.workers| ==> s.workers[w].phase == Exited)
      && (forall step :: Internal(step) && Enabled(s, step) ==> step.SetAutoStop? || step.SetStopping?)
      && s.fibers[0] == Fiber(HOLD, Asleep) && TS.Has(s.timers.items, 1) && TS.At(s.timers.items, 1).cb == Wake(0)
  {
    EndsWithTimerPending();
    hide Reachable, Start;
    var s := Revived(OVER, [SLEEPING], [SLEEP], OVER, 0, 0);
    ReachableStep(Revived(OVER, [SLEEPING], [SLEEP], Idle(IdleQueue), 0, 1), Loop(1, IdleQuit));
    ReachableStep(s, Loop(0, TakeNothing));
    var s1 := Revived(OUT, [SLEEPING], [SLEEP], OVER, 0, 0);
    assert s1 == IdleBranch(s, 0);
    ReachableStep(s1, Loop(1, TakeNothing));
    var s2 := Revived(OUT, [SLEEPING], [SLEEP], OUT, 0, 0);
    assert s2 == IdleBranch(s1, 1);
    forall step | Internal(step) && Enabled(s2, step) ensures step.SetAutoStop? || step.SetStopping? {
      NobodyLeft(s2, step);
    }
  }
}
