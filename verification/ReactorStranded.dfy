/** A descriptor that is closed while its context is armed: the kernel drops it from epoll and
    the event table does not notice. What is armed there is never released again. */
module ReactorStranded {
  import opened Base
  import opened Sums
  import opened Reactor
  import opened ReactorInv
  import opened ReactorRuns
  import opened ReactorExit
  import opened RunQueue
  import opened ReactorSafety
  import opened ReactorTimeout
  import opened ReactorWorld
  import opened Scenes
  import opened ConnectRuns
  import ET = EventTable
  import TS = TimerSet

  // ----- Exactly when -----

  /** The context of fd stays as it is, whatever anybody does. */
  ghost predicate Frozen(x: World, fd: nat) {
    fd < |x.s.table.rows|
    && forall moves :: ReactorWorld.Feasible(x, moves) ==> SameRow(x.s, ReactorWorld.Run(x, moves).s, fd)
  }

  lemma MoveKeepsForgotten(x: World, m: Move, fd: nat)
    requires WorldOk(x) && Can(x, m) && fd in x.forgotten
    ensures fd in Next(x, m).forgotten && SameRow(x.s, Next(x, m).s, fd)
  {
    ReachableInv(x.s);
    hide ReactorRuns.Reachable, StampsOk, BatchesOk, PlacesOk, FreshIsOver, Apply, Enabled, Inv;
    if m.Pool? {
      StepRow(x.s, m.step, fd);
    } else if m.Connect? {
      StepRow(x.s, Code(m.w, m.code), fd);
    }
  }

  lemma {:induction false} ForgottenStays(x: World, moves: seq<Move>, fd: nat)
    requires WorldOk(x) && ReactorWorld.Feasible(x, moves) && fd in x.forgotten
    ensures SameRow(x.s, ReactorWorld.Run(x, moves).s, fd)
    decreases |moves|
  {
    hide WorldOk, Can, Next, ForgottenArmed;
    if moves == [] {
      ForgottenKnown(x, fd);
    } else {
      MoveKeepsForgotten(x, moves[0], fd);
      NextOk(x, moves[0]);
      ForgottenStays(Next(x, moves[0]), moves[1..], fd);
    }
  }

  lemma ForgottenKnown(x: World, fd: nat)
    requires WorldOk(x) && fd in x.forgotten
    ensures fd < |x.s.table.rows|
  {
    hide ReactorRuns.Reachable, StampsOk, BatchesOk, PlacesOk, FreshIsOver;
  }

  /** As long as nothing is armed there, the descriptor can be armed again. */
  lemma CanArmAgain(x: World, fd: nat)
    requires ET.Inv(x.s.table) && fd < |x.s.table.rows| && fd !in x.forgotten && x.s.table.rows[fd].events == NONE
    ensures var moves := [Pool(Act(Outside, Watch(fd, READ, 0, true)))];
      ReactorWorld.Feasible(x, moves) && !SameRow(x.s, ReactorWorld.Run(x, moves).s, fd)
  {
    var m := Pool(Act(Outside, Watch(fd, READ, 0, true)));
    ET.AddEventEffect(x.s.table, fd, READ, Call(User(0)), true);
    Arms(x, fd);
    hide ET.AddEvent, ET.Inv, ET.Armed, Can, Next;
    assert [m][1..] == [];
  }

  lemma Arms(x: World, fd: nat)
    requires ET.Valid(x.s.table) && ET.CanAdd(x.s.table, fd, READ) && fd !in x.forgotten
    ensures var m := Pool(Act(Outside, Watch(fd, READ, 0, true)));
      Can(x, m) && Next(x, m).s.table == ET.AddEvent(x.s.table, fd, READ, Call(User(0)), true).0
  {
    hide ET.AddEvent, ET.Valid;
  }

  /** Closing a descriptor freezes its context exactly if something is armed there at that
      moment: no cancelEvent, cancelAll, timeout, report or delEvent ever takes it away. */
  lemma ClosingFreezesExactly(x: World, fd: nat)
    requires WorldOk(x) && fd !in x.forgotten && fd < |x.s.table.rows|
    ensures Frozen(Next(x, Forget(fd)), fd) <==> x.s.table.rows[fd].events != NONE
  {
    var x' := Next(x, Forget(fd));
    NextOk(x, Forget(fd));
    ReachableInv(x.s);
    KernelKnows(x.s.table, fd);
    assert ET.Inv(x.s.table);
    hide WorldOk, ReactorRuns.Reachable, Inv, ET.Inv, ET.Valid;
    if x.s.table.rows[fd].events != NONE {
      forall moves | ReactorWorld.Feasible(x', moves) ensures SameRow(x'.s, ReactorWorld.Run(x', moves).s, fd) {
        ForgottenStays(x', moves, fd);
      }
    } else {
      CanArmAgain(x', fd);
    }
  }

  // ----- What it means -----

  lemma RowTask(t: ET.Table, fd: nat, ev: Event)
    requires ET.Inv(t) && ET.IsArmed(t, fd, ev)
    ensures t.rows[fd].Get(ev).Occupied() && t.rows[fd].Get(ev).Task() in ET.Armed(t) && t.pending >= 1
  {
    GatherHas(t.rows, fd, ET.RowTasks);
    assert t.rows[fd].Valid();
    if t.pending == 0 { NothingArmed(t); }
    hide ET.Bits, ET.Armed;
  }

  /** A fiber that waits there is armed in every later state: it is never queued, popped or
      run again, its timeout cannot release it, and the pending count never returns to zero. */
  lemma StrandedForever(x: World, moves: seq<Move>, fd: nat, ev: Event)
    requires WorldOk(x) && fd in x.forgotten && ET.Inv(x.s.table) && ET.IsArmed(x.s.table, fd, ev)
    requires ReactorWorld.Feasible(x, moves)
    ensures var s := ReactorWorld.Run(x, moves).s;
      && x.s.table.rows[fd].Get(ev).Occupied()
      && x.s.table.rows[fd].Get(ev).Task() in ET.Armed(s.table) && s.table.pending >= 1
  {
    ForgottenStays(x, moves, fd);
    ReactorWorld.RunOk(x, moves);
    var s := ReactorWorld.Run(x, moves).s;
    ReachableInv(s);
    RowTask(s.table, fd, ev);
    hide WorldOk, Inv, ReactorRuns.Reachable, ET.Armed, ET.Inv;
  }

  /** A worker that is not past the read of the pending count never ends its idle fiber. */
  predicate KeptBusy(s: State, w: nat) {
    w < |s.workers| && !s.workers[w].idleDone && s.workers[w].phase != IdleQueue
  }

  lemma MoveKeepsBusy(x: World, m: Move, w: nat)
    requires Can(x, m) && KeptBusy(x.s, w) && x.s.table.pending >= 1
    ensures KeptBusy(Next(x, m).s, w)
  {
    hide Apply, NothingToDo;
    if m.Pool? {
      StepLeaves(x.s, m.step, w);
      hide Enabled;
    } else if m.Connect? {
      StepLeaves(x.s, Code(m.w, m.code), w);
    }
  }

  /** So the pool never stops. */
  lemma {:induction false} PoolNeverStops(x: World, moves: seq<Move>, fd: nat, w: nat)
    requires WorldOk(x) && fd in x.forgotten && KeptBusy(x.s, w) && ReactorWorld.Feasible(x, moves)
    ensures KeptBusy(ReactorWorld.Run(x, moves).s, w)
    decreases |moves|
  {
    if moves != [] {
      PendingLeft(x, fd);
      hide WorldOk, KeptBusy, Can, Next;
      MoveKeepsBusy(x, moves[0], w);
      MoveKeepsForgotten(x, moves[0], fd);
      NextOk(x, moves[0]);
      PoolNeverStops(Next(x, moves[0]), moves[1..], fd, w);
    }
  }

  lemma PendingLeft(x: World, fd: nat)
    requires WorldOk(x) && fd in x.forgotten
    ensures x.s.table.pending >= 1
  {
    ReachableInv(x.s);
    var row := x.s.table.rows[fd];
    RowTask(x.s.table, fd, if row.events.read then READ else WRITE);
    hide ReactorRuns.Reachable, StampsOk, BatchesOk, PlacesOk, FreshIsOver;
  }

  // ----- close, with a fiber that waits -----

  /** Fiber 0 writes to fd 5 on worker 0. */
  function Writes(fiber: Fiber, w0: Worker, queue: seq<Entry>, active: int): State {
    Scene([fiber], [CONNECTING], queue, NO_TIMERS, {}, w0, SCAN, active, 0)
  }

  function Running5(pc: Pc, w0: Worker): State { Writes(Fiber(EXEC, pc), w0, [], 1) }

  function Waits5(fiber: Fiber, w0: Worker, active: int): State
    requires Empty(EMPTY_TABLE)
  {
    Writes(fiber, w0, [], active).(table := Armed5(EMPTY_TABLE, Resume(0)))
  }

  function At5(s: State, now: nat, armed: map<CallId, nat>, cause: map<CallId, Cause>): World {
    World(s, now, map[], map[], {}, armed, cause, {})
  }

  const ALONE := Worker(Running(0), None, false)
  const OTHER: map<CallId, Cause> := map[0 := Other]

  lemma Blocks(s: State)
    requires s == Running5(IoTry(0), InFiber(0)) || s == Running5(IoTry(0), ALONE)
    ensures Enabled(s, Code(0, IoForever)) && Apply(s, Code(0, IoForever)) == Running5(IoArm(0, None), s.workers[0])
  {
    hide Reactor.Start;
    assert IoNoTimer(s, 0) == Running5(IoArm(0, None), s.workers[0]);
  }

  lemma Calls5()
    ensures Enabled(Users([], Plain, SCAN, 0), Code(0, IoCall(5, WRITE)))
    ensures Apply(Users([], Plain, SCAN, 0), Code(0, IoCall(5, WRITE))) == Running5(IoTry(0), InFiber(0))
  {
    hide Reactor.Start;
    assert IoBegin(Users([], Plain, SCAN, 0), 0, 5, WRITE) == Running5(IoTry(0), InFiber(0));
  }

  lemma FirstTry()
    ensures ReactorWorld.Reachable(At5(Running5(IoArm(0, None), InFiber(0)), 5, map[], map[]))
  {
    UserRuns();
    Calls5();
    Blocks(Running5(IoTry(0), InFiber(0)));
    hide Reactor.Start, ReactorWorld.Reachable, Apply, Enabled;
    Walk(At5(Users([], Plain, SCAN, 0), 3, map[], map[]), Code(0, IoCall(5, WRITE)), Running5(IoTry(0), InFiber(0)));
    Walk(At5(Running5(IoTry(0), InFiber(0)), 4, map[], map[]), Code(0, IoForever),
         Running5(IoArm(0, None), InFiber(0)));
  }

  lemma RegistersAgain(s: State, w0: Worker)
    requires Empty(EMPTY_TABLE) && s == Running5(IoArm(0, None), w0) && (w0 == InFiber(0) || w0 == ALONE)
    ensures Enabled(s, Code(0, IoRegister(true)))
    ensures Apply(s, Code(0, IoRegister(true))) == Waits5(Fiber(EXEC, IoWait(0, None)), w0, 1)
  {
    Arms5(EMPTY_TABLE, Resume(0));
    hide Reactor.Start, ET.AddEvent, Armed5, Empty;
    assert IoAdd(s, 0, true) == Waits5(Fiber(EXEC, IoWait(0, None)), w0, 1);
  }

  lemma Registered(w0: Worker, now: nat, armed: map<CallId, nat>, cause: map<CallId, Cause>)
    requires Empty(EMPTY_TABLE) && (w0 == InFiber(0) || w0 == ALONE)
    requires ReactorWorld.Reachable(At5(Running5(IoArm(0, None), w0), now, armed, cause)) && armed.Keys <= {0}
    ensures ReactorWorld.Reachable(At5(Waits5(Fiber(EXEC, IoWait(0, None)), w0, 1), now + 1, map[0 := now], cause))
  {
    var s := Running5(IoArm(0, None), w0);
    var x, step := At5(s, now, armed, cause), Code(0, IoRegister(true));
    RegistersAgain(s, w0);
    NobodyWaits(s, 0);
    hide ReactorWorld.Reachable, Reactor.Start, Apply, Enabled, Waiting, Armed5, Empty, Waits5;
    assert InCallAt(s, 0) && SelfPc(s, 0).call == 0;
    RegisterMove(x, armed);
    hide Can, Next, Running5;
    ReachableNext(x, Pool(step));
  }

  lemma RegisterMove(x: World, armed: map<CallId, nat>)
    requires var step := Code(0, IoRegister(true)); Enabled(x.s, step) && InCallAt(x.s, 0) && SelfPc(x.s, 0).call == 0
    requires x == At5(x.s, x.now, armed, x.cause) && armed.Keys <= {0} && !Waiting(x.s, 0)
    ensures var m := Pool(Code(0, IoRegister(true)));
      Can(x, m) && Next(x, m) == At5(Apply(x.s, m.step), x.now + 1, map[0 := x.now], x.cause)
  {
    hide Apply, Enabled, Waiting;
    assert armed[0 := x.now] == map[0 := x.now];
  }

  lemma SwapsOut5()
    requires Empty(EMPTY_TABLE)
    ensures var s := Waits5(Fiber(EXEC, IoWait(0, None)), InFiber(0), 1);
      Enabled(s, Loop(0, SwapOutHold)) && Apply(s, Loop(0, SwapOutHold)) == Waits5(HELD, SCAN, 0)
  {
    hide Reactor.Start, Armed5, Empty;
    var s := Waits5(Fiber(EXEC, IoWait(0, None)), InFiber(0), 1);
    assert YieldHold(s, 0) == Waits5(HELD, SCAN, 0);
  }

  lemma FirstWait()
    requires Empty(EMPTY_TABLE)
    ensures ReactorWorld.Reachable(At5(Waits5(HELD, SCAN, 0), 7, map[0 := 5], map[]))
  {
    FirstTry();
    Registered(InFiber(0), 5, map[], map[]);
    SwapsOut5();
    StillWaits(Waits5(HELD, SCAN, 0));
    hide ReactorWorld.Reachable, Reactor.Start, Apply, Enabled, Waiting, Empty, Armed5;
    Walk(At5(Waits5(Fiber(EXEC, IoWait(0, None)), InFiber(0), 1), 6, map[0 := 5], map[]),
         Loop(0, SwapOutHold), Waits5(HELD, SCAN, 0));
  }

  lemma Cancels5(t: ET.Table, task: Task)
    requires Empty(t) && ET.Inv(t)
    ensures ET.Valid(Armed5(t, task)) && ET.CancelAll(Armed5(t, task), 5, true) == (t, [task])
  {
    Valid5(t, task);
    Back5(t, task);
    ET.TriggeredAll(Row5(task));
    assert ET.Released(Row5(task), Mask(false, true)) == [task] by { assert [] + [task] == [task]; }
    hide ET.Valid, ET.Inv, ET.TriggerEach, ET.Bind, ET.Released;
  }

  lemma Closes()
    requires Empty(EMPTY_TABLE)
    ensures var s, step := Waits5(HELD, SCAN, 0), Act(Outside, CloseFd(5, true));
      Enabled(s, step) && Apply(s, step) == Writes(HELD, SCAN, [AWAKE], 0)
  {
    StartEmpty();
    Cancels5(EMPTY_TABLE, Resume(0));
    var s := Waits5(HELD, SCAN, 0);
    assert s.workers[0] == SCAN && s.table == Armed5(EMPTY_TABLE, Resume(0)) && s.queue == [];
    assert s.(table := EMPTY_TABLE, queue := [AWAKE]) == Writes(HELD, SCAN, [AWAKE], 0);
    hide Reactor.Start, Armed5, ET.Inv, ET.Valid, ET.CancelAll, Empty, Apply, Enabled;
    ClosesIn(s, EMPTY_TABLE);
  }

  lemma ClosesIn(s: State, t: ET.Table)
    requires ET.Valid(s.table) && ET.CancelAll(s.table, 5, true) == (t, [Resume(0)])
    requires s.queue == [] && !s.late && 0 < |s.workers| && Attentive(s.workers[0])
    ensures var step := Act(Outside, CloseFd(5, true));
      Enabled(s, step) && Apply(s, step) == s.(table := t, queue := [AWAKE])
  {
    OneAppended([], Resume(0));
    hide ET.CancelAll, ET.Valid, Appended;
  }

  /** cancelAll, the first half of close, succeeds and queues the fiber. */
  lemma FirstHalf()
    requires Empty(EMPTY_TABLE)
    ensures ReactorWorld.Reachable(At5(Writes(HELD, SCAN, [AWAKE], 0), 8, map[0 := 5], OTHER))
  {
    FirstWait();
    Closes();
    var s, s' := Waits5(HELD, SCAN, 0), Writes(HELD, SCAN, [AWAKE], 0);
    var x, step := At5(s, 7, map[0 := 5], map[]), Act(Outside, CloseFd(5, true));
    StillWaits(s);
    NobodyWaits(s', 0);
    hide ReactorWorld.Reachable, Reactor.Start, Apply, Enabled, Waiting, Empty, Armed5, Waits5, Writes;
    CloseMove(x, s');
    hide Can, Next;
    ReachableNext(x, Pool(step));
  }

  lemma CloseMove(x: World, s': State)
    requires var step := Act(Outside, CloseFd(5, true)); Enabled(x.s, step) && Apply(x.s, step) == s'
    requires x == At5(x.s, 7, map[0 := 5], map[]) && Waiting(x.s, 0) && !Waiting(s', 0)
    ensures var m := Pool(Act(Outside, CloseFd(5, true)));
      Can(x, m) && Next(x, m) == At5(s', 8, map[0 := 5], OTHER)
  {
    hide Apply, Enabled, Waiting;
  }

  lemma TakesBack()
    ensures var s := Writes(HELD, SCAN, [AWAKE], 0);
      && Enabled(s, Loop(0, TakeEntry))
      && Apply(s, Loop(0, TakeEntry)) == Writes(HELD, SCAN.(phase := Popped(Resume(0))), [], 1)
    ensures var s := Writes(HELD, SCAN.(phase := Popped(Resume(0))), [], 1);
      Enabled(s, Loop(0, SwapInFiber)) && Apply(s, Loop(0, SwapInFiber)) == Running5(IoWoken(0, None), ALONE)
    ensures var s := Running5(IoWoken(0, None), ALONE);
      Enabled(s, Code(0, IoResume)) && Apply(s, Code(0, IoResume)) == Running5(IoTry(0), ALONE)
  {
    hide Reactor.Start;
    var s := Writes(HELD, SCAN, [AWAKE], 0);
    TakeIs(s, 0, Resume(0));
    assert At(s, 0, Popped(Resume(0))).(queue := [], active := 1)
      == Writes(HELD, SCAN.(phase := Popped(Resume(0))), [], 1);
    var s1 := Writes(HELD, SCAN.(phase := Popped(Resume(0))), [], 1);
    assert StartFiber(s1, 0) == Running5(IoWoken(0, None), ALONE);
    assert IoCancel(Running5(IoWoken(0, None), ALONE), 0) == Running5(IoTry(0), ALONE);
  }

  /** One step later, with nobody waiting. */
  lemma QuietWalk(s: State, now: nat, step: Step, s': State)
    requires ReactorWorld.Reachable(At5(s, now, map[0 := 5], OTHER)) && Enabled(s, step) && Apply(s, step) == s'
    requires s.table == EMPTY_TABLE && !step.Act?
    requires step.Loop? ==> step.loop.TakeEntry? || step.loop.SwapInFiber?
    requires step.Code? ==> step.code.IoResume? || step.code.IoForever?
    ensures ReactorWorld.Reachable(At5(s', now + 1, map[0 := 5], OTHER))
  {
    NobodyWaits(s, 0);
    hide ReactorWorld.Reachable, Reactor.Start, Waiting, Apply, Enabled;
    Walk(At5(s, now, map[0 := 5], OTHER), step, s');
  }

  /** Before the second half another worker resumes the fiber: still EAGAIN, and it arms the
      event again. */
  lemma SecondTry()
    requires Empty(EMPTY_TABLE)
    ensures ReactorWorld.Reachable(At5(Waits5(Fiber(EXEC, IoWait(0, None)), ALONE, 1), 13, map[0 := 12], OTHER))
  {
    FirstHalf();
    TakesBack();
    Blocks(Running5(IoTry(0), ALONE));
    hide ReactorWorld.Reachable, Reactor.Start, Apply, Enabled, Empty, At5;
    QuietWalk(Writes(HELD, SCAN, [AWAKE], 0), 8, Loop(0, TakeEntry),
              Writes(HELD, SCAN.(phase := Popped(Resume(0))), [], 1));
    QuietWalk(Writes(HELD, SCAN.(phase := Popped(Resume(0))), [], 1), 9, Loop(0, SwapInFiber),
              Running5(IoWoken(0, None), ALONE));
    QuietWalk(Running5(IoWoken(0, None), ALONE), 10, Code(0, IoResume), Running5(IoTry(0), ALONE));
    QuietWalk(Running5(IoTry(0), ALONE), 11, Code(0, IoForever), Running5(IoArm(0, None), ALONE));
    Registered(ALONE, 12, map[0 := 5], OTHER);
  }

  /** close, whose cancelAll succeeded, strands a fiber all the same if the fiber gets to arm
      its event again before the descriptor is closed: here is such a world, and it is the
      one before the second half of close. */
  lemma CloseCanStrand()
    ensures exists x: World ::
      && ReactorWorld.Reachable(x) && 5 !in x.forgotten && 0 in x.cause
      && Waiting(x.s, 0) && x.s.calls[0].fd == 5 && ET.IsArmed(x.s.table, 5, WRITE)
      && Frozen(Next(x, Forget(5)), 5)
  {
    StartEmpty();
    SecondTry();
    var x := At5(Waits5(Fiber(EXEC, IoWait(0, None)), ALONE, 1), 13, map[0 := 12], OTHER);
    StillWaits(x.s);
    ReachableOk(x);
    ClosingFreezesExactly(x, 5);
    hide ReactorWorld.Reachable, Reactor.Start, Waiting, WorldOk, Frozen, Next;
  }
}
