/** When connect can be fooled: whole runs of the reactor and the kernel, up to the moment at
    which connect asks getsockopt how the attempt went. */
module ConnectRuns {
  import opened Base
  import opened RunQueue
  import opened Reactor
  import opened ReactorInv
  import opened ReactorRuns
  import opened ReactorSafety
  import opened ReactorTimeout
  import opened ReactorWorld
  import opened Scenes
  import ER = EventRuns
  import HC = HookedCalls
  import ET = EventTable
  import TS = TimerSet

  /** In this move connect call c looks at SO_ERROR: after its wait, or after a failed addEvent. */
  predicate Answers(x: World, m: Move, c: CallId) {
    && m.Pool? && m.step.Code? && InCallAt(x.s, m.step.w) && SelfPc(x.s, m.step.w).call == c && c in x.begun
    && ((m.step.code.IoResult? && SelfPc(x.s, m.step.w).IoTry?) || m.step.code.IoGiveUp?)
  }

  /** In every world: connect returns 0 on an attempt that is not made exactly if the attempt
      goes on, getsockopt works, and addEvent had failed or the wait was ended by something else
      than a report made after addEvent: a report that was older, or a cancel. */
  lemma FalseSuccessExactly(x: World, m: Move, c: CallId, peer: HC.Peer, soOk: bool)
    requires ReactorWorld.Reachable(x) && Can(x, m) && Answers(x, m, c)
    requires (peer == HC.InProgress <==> c in x.going) && (peer.Refused? ==> peer.errno != 0)
    ensures var added := m.step.code.IoResult?;
      HC.Connect(HC.Failed(HC.EINPROGRESS), HC.Round(added, false), HC.SoError(peer), soOk) == HC.Returned(0)
      && peer != HC.Made
      <==> c in x.going && soOk && (!added || (c in x.cause && x.cause[c] != Fresh))
  {
    ReachableOk(x);
    var g := Self(x.s, m.step.w);
    assert PlaceAt(x, g);
    HC.ConnectFalseSuccess(HC.Failed(HC.EINPROGRESS), HC.Round(m.step.code.IoResult?, false), peer, soOk);
    hide ReactorRuns.Reachable, StampsOk, BatchesOk, ForgottenArmed, Can;
  }

  // ----- An older report ends the wait of a connect -----

  const REPORT := ET.Ready(5, false, true, false)

  /** A table in which nothing is armed, with a context for fd 5. */
  predicate Empty(t: ET.Table) {
    5 < |t.rows| && t.rows[5] == ET.Fresh(5) && t.kernel == map[] && t.pending == 0
  }

  /** Only fd 5's write slot is armed. */
  function Armed5(t: ET.Table, task: Task): ET.Table
    requires 5 < |t.rows|
  {
    ET.Table(t.rows[5 := Row5(task)], map[5 := Mask(false, true)], 1)
  }

  function Row5(task: Task): ET.Row { ET.Row(5, Mask(false, true), ET.EMPTY, ET.Bind(task)) }

  lemma Arms5(t: ET.Table, task: Task)
    requires Empty(t)
    ensures |t.rows| >= 2 && ET.AddEvent(t, 5, WRITE, task, true) == (Armed5(t, task), true)
    ensures ET.CanAdd(t, 5, WRITE)
  {
    assert NONE.With(WRITE) == Mask(false, true);
  }

  lemma Back5(t: ET.Table, task: Task)
    requires Empty(t)
    ensures Armed5(t, task).rows[5 := ET.Fresh(5)] == t.rows && map[5 := Mask(false, true)] - {5} == map[]
  {
  }

  lemma Deletes5(t: ET.Table, task: Task)
    requires Empty(t)
    ensures ET.DelEvent(Armed5(t, task), 5, WRITE, true) == (t, true)
    ensures ET.IsArmed(Armed5(t, task), 5, WRITE) && Armed5(t, task).rows[5].Get(WRITE).Task() == task
  {
    Back5(t, task);
    assert Mask(false, true).Without(WRITE) == NONE;
  }

  lemma Valid5(t: ET.Table, task: Task)
    requires Empty(t) && ET.Inv(t)
    ensures ET.Inv(Armed5(t, task)) && ET.Valid(Armed5(t, task))
  {
    Arms5(t, task);
    ET.AddEventEffect(t, 5, WRITE, task, true);
    hide ET.AddEvent, ET.Armed;
  }

  lemma Triggers5(task: Task)
    ensures Row5(task).Valid() && ET.TriggerEach(Row5(task), Mask(false, true)) == (ET.Fresh(5), [task])
  {
    assert [] + [task] == [task];
  }

  lemma Reports5(t: ET.Table, task: Task)
    requires Empty(t) && ET.Inv(t)
    ensures ET.Valid(Armed5(t, task))
    ensures ET.DispatchOne(Armed5(t, task), REPORT, true) == ET.Running(t, [task])
  {
    Valid5(t, task);
    Back5(t, task);
    Triggers5(task);
    hide ET.Valid, ET.Inv, ET.TriggerEach, ET.Bind;
    assert REPORT.Events() == Mask(false, true) && Mask(false, true).Minus(Mask(false, true)) == NONE;
  }

  lemma StartEmpty()
    ensures Empty(Reactor.Start(2).table) && ET.Inv(Reactor.Start(2).table)
  {
    StartRow(5);
  }

  lemma NobodyWaits(s: State, c: CallId)
    requires s.table == Reactor.Start(2).table
    ensures !Waiting(s, c)
  {
    StartInv(2);
    assert ET.Armed(Reactor.Start(2).table) == multiset{} by {
      StartArmsNothing();
    }
  }

  lemma StartArmsNothing()
    ensures ET.Armed(Reactor.Start(2).table) == multiset{}
  {
    ER.FreshTable(Reactor.Start(2).table.rows);
  }

  /** A step that ends no wait, in a world in which the kernel has forgotten nothing. */
  lemma Walk(x: World, step: Step, s': State)
    requires ReactorWorld.Reachable(x) && Enabled(x.s, step) && Apply(x.s, step) == s'
    requires x.forgotten == {} && Paced(x, step) && Batches(x, step) == x.batches && Armings(x, step) == x.armed
    requires forall c <- x.armed :: Waiting(x.s, c) ==> Waiting(s', c)
    ensures ReactorWorld.Reachable(x.(s := s', now := x.now + 1))
  {
    hide Apply, Enabled, Paced, Batches, Armings, Succeeds, ReactorWorld.Reachable, Waiting;
    ReachableNext(x, Pool(step));
    assert Causes(x, step, s') == x.cause;
  }

  const RUNNING := Fiber(EXEC, Plain)
  const EMPTY_TABLE := Reactor.Start(2).table

  function Idle(phase: Phase): Worker { SCAN.(phase := phase) }

  /** Before any connect: `x` has made `now` moves. */
  function Early(s: State, now: nat, batches: map<nat, seq<Stamped>>): World {
    World(s, now, batches, map[], {}, map[], map[], {})
  }

  /** A user's callback runs in fiber 0 on worker 0. */
  function Users(calls: seq<CallInfo>, pc: Pc, w1: Worker, idle: int): State {
    Scene([Fiber(EXEC, pc)], calls, [], NO_TIMERS, {}, InFiber(0), w1, 1, idle)
  }

  const COLLECTED: map<nat, seq<Stamped>> := map[1 := [Stamped(REPORT, 7)]]
  const CONNECTING := CallInfo(0, 5, WRITE, false, false)

  const QUEUED := Scene([], [], [Entry(Call(User(7)), ANY_THREAD)], NO_TIMERS, {}, SCAN, SCAN, 0, 0)
  const TAKEN := Scene([], [], [], NO_TIMERS, {}, Worker(Popped(Call(User(7))), None, false), SCAN, 1, 0)

  lemma UserRuns()
    ensures ReactorWorld.Reachable(Early(Users([], Plain, SCAN, 0), 3, map[]))
  {
    StartRow(5);
    SubmitsOne();
    StartReachableWorld();
    TakesIt();
    RunsIt();
    hide Reactor.Start, ReactorWorld.Reachable, Apply, Enabled, ET.Valid;
    Walk(Early(Scene([], [], [], NO_TIMERS, {}, SCAN, SCAN, 0, 0), 0, map[]), Act(Outside, Submit(7, ANY_THREAD)),
         QUEUED);
    Walk(Early(QUEUED, 1, map[]), Loop(0, TakeEntry), TAKEN);
    Walk(Early(TAKEN, 2, map[]), Loop(0, SwapInCallback), Users([], Plain, SCAN, 0));
  }

  lemma TakesIt()
    ensures Enabled(QUEUED, Loop(0, TakeEntry)) && Apply(QUEUED, Loop(0, TakeEntry)) == TAKEN
  {
    hide Reactor.Start;
    TakeIs(QUEUED, 0, Call(User(7)));
    hide Apply, Enabled;
    assert At(QUEUED, 0, Popped(Call(User(7)))).(queue := [], active := 1) == TAKEN;
  }

  lemma RunsIt()
    ensures Enabled(TAKEN, Loop(0, SwapInCallback))
    ensures Apply(TAKEN, Loop(0, SwapInCallback)) == Users([], Plain, SCAN, 0)
  {
    hide Reactor.Start;
    assert StartCall(TAKEN, 0) == Users([], Plain, SCAN, 0);
  }

  lemma StartReachableWorld()
    ensures ReactorWorld.Reachable(Early(Scene([], [], [], NO_TIMERS, {}, SCAN, SCAN, 0, 0), 0, map[]))
  {
    SceneStart();
    var x := ReactorWorld.Start(2);
    assert ReactorWorld.Feasible(x, []) && ReactorWorld.Run(x, []) == x;
    hide Reactor.Start;
  }

  /** While a user watches fd 5 for WRITE, worker 1 polls, and epoll reports the fd. */
  lemma Polls()
    requires Empty(EMPTY_TABLE)
    ensures ReactorWorld.Reachable(
      Early(Users([], Plain, Idle(IdlePoll), 1).(table := Armed5(EMPTY_TABLE, Call(User(9)))), 7, map[]))
  {
    UserRuns();
    WatchesNow();
    var t := Armed5(EMPTY_TABLE, Call(User(9)));
    var s := Users([], Plain, SCAN, 0);
    assert t.pending == 1;
    hide ReactorWorld.Reachable, Reactor.Start, Armed5, Users, Apply, Enabled, Empty;
    Walk(Early(s, 3, map[]), Act(Inside(0), Watch(5, WRITE, 9, true)), s.(table := t));
    GoesToPoll(t);
  }

  lemma WatchesNow()
    requires Empty(EMPTY_TABLE)
    ensures var s, step := Users([], Plain, SCAN, 0), Act(Inside(0), Watch(5, WRITE, 9, true));
      Enabled(s, step) && Apply(s, step) == s.(table := Armed5(EMPTY_TABLE, Call(User(9))))
  {
    StartEmpty();
    Arms5(EMPTY_TABLE, Call(User(9)));
    var s := Users([], Plain, SCAN, 0);
    assert s.table == EMPTY_TABLE && ET.Valid(EMPTY_TABLE);
    hide Reactor.Start, Users, Apply, Enabled, Empty, Armed5, ET.AddEvent, ET.Inv, ET.Valid;
    Watches(s);
  }

  lemma Watches(s: State)
    requires s == Users([], Plain, SCAN, 0) && Empty(s.table) && ET.Valid(s.table)
    requires ET.AddEvent(s.table, 5, WRITE, Call(User(9)), true) == (Armed5(s.table, Call(User(9))), true)
    ensures var step := Act(Inside(0), Watch(5, WRITE, 9, true));
      Enabled(s, step) && Apply(s, step) == s.(table := Armed5(s.table, Call(User(9))))
  {
    hide Reactor.Start, ET.AddEvent, ET.Valid;
  }

  lemma GoesToPoll(t: ET.Table)
    requires ReactorWorld.Reachable(Early(Users([], Plain, SCAN, 0).(table := t), 4, map[])) && t.pending == 1
    ensures ReactorWorld.Reachable(Early(Users([], Plain, Idle(IdlePoll), 1).(table := t), 7, map[]))
  {
    var s := Users([], Plain, SCAN, 0).(table := t);
    var s1 := Users([], Plain, Idle(IdleCheck), 1).(table := t);
    var s2 := Users([], Plain, Idle(IdleEvents), 1).(table := t);
    GoesIdle(t);
    ReadsTimers(t);
    ReadsEvents(t);
    hide Reactor.Start, ReactorWorld.Reachable, Apply, Enabled, Users;
    Walk(Early(s, 4, map[]), Loop(1, TakeNothing), s1);
    Walk(Early(s1, 5, map[]), Loop(1, IdleStop(5)), s2);
    Walk(Early(s2, 6, map[]), Loop(1, IdlePending), Users([], Plain, Idle(IdlePoll), 1).(table := t));
  }

  lemma GoesIdle(t: ET.Table)
    ensures var s := Users([], Plain, SCAN, 0).(table := t);
      && Enabled(s, Loop(1, TakeNothing))
      && Apply(s, Loop(1, TakeNothing)) == Users([], Plain, Idle(IdleCheck), 1).(table := t)
  {
    hide Reactor.Start;
    assert IdleBranch(Users([], Plain, SCAN, 0).(table := t), 1) == Users([], Plain, Idle(IdleCheck), 1).(table := t);
  }

  lemma ReadsTimers(t: ET.Table)
    ensures var s := Users([], Plain, Idle(IdleCheck), 1).(table := t);
      && Enabled(s, Loop(1, IdleStop(5)))
      && Apply(s, Loop(1, IdleStop(5))) == Users([], Plain, Idle(IdleEvents), 1).(table := t)
  {
    hide Reactor.Start;
    assert CheckStop(Users([], Plain, Idle(IdleCheck), 1).(table := t), 1, 5)
      == Users([], Plain, Idle(IdleEvents), 1).(table := t);
  }

  lemma ReadsEvents(t: ET.Table)
    requires t.pending == 1
    ensures var s := Users([], Plain, Idle(IdleEvents), 1).(table := t);
      && Enabled(s, Loop(1, IdlePending))
      && Apply(s, Loop(1, IdlePending)) == Users([], Plain, Idle(IdlePoll), 1).(table := t)
  {
    hide Reactor.Start;
    assert CheckEvents(Users([], Plain, Idle(IdleEvents), 1).(table := t), 1)
      == Users([], Plain, Idle(IdlePoll), 1).(table := t);
  }

  lemma Collects()
    requires Empty(EMPTY_TABLE)
    ensures ReactorWorld.Reachable(
      Early(Users([], Plain, Idle(IdleDispatch), 1).(table := Armed5(EMPTY_TABLE, Call(User(9)))), 10, COLLECTED))
  {
    Polls();
    var t := Armed5(EMPTY_TABLE, Call(User(9)));
    assert t.kernel == map[5 := Mask(false, true)];
    hide ReactorWorld.Reachable, Reactor.Start, Armed5;
    var s := Users([], Plain, Idle(IdlePoll), 1).(table := t);
    var x := Early(s, 7, map[]);
    assert !GoesOn(x, 5);
    assert Can(x, EpollWait(1, [REPORT]));
    ReachableNext(x, EpollWait(1, [REPORT]));
    assert Stamp([REPORT], 7) == [Stamped(REPORT, 7)];
    assert map[][1 := [Stamped(REPORT, 7)]] == COLLECTED;
    assert Next(x, EpollWait(1, [REPORT])) == Early(s, 8, COLLECTED);
    Dispatches(t);
  }

  lemma Dispatches(t: ET.Table)
    requires ReactorWorld.Reachable(Early(Users([], Plain, Idle(IdlePoll), 1).(table := t), 8, COLLECTED))
    ensures ReactorWorld.Reachable(Early(Users([], Plain, Idle(IdleDispatch), 1).(table := t), 10, COLLECTED))
  {
    hide ReactorWorld.Reachable, Reactor.Start;
    var s := Users([], Plain, Idle(IdlePoll), 1).(table := t);
    var s1 := Users([], Plain, Idle(IdleFlush([])), 1).(table := t).(timers := TS.Timers([], false, 0));
    assert Expire(s, 1, 0, TS.AsWritten) == s1;
    Walk(Early(s, 8, COLLECTED), Loop(1, IdleExpire(0, TS.AsWritten)), s1);
    assert Calls([]) == [] && Appended([], []) == [];
    assert Flush(s1, 1) == Users([], Plain, Idle(IdleDispatch), 1).(table := t);
    Walk(Early(s1, 9, COLLECTED), Loop(1, IdleSchedule), Users([], Plain, Idle(IdleDispatch), 1).(table := t));
  }

  /** The watch is removed, and the fiber calls connect on fd 5. */
  lemma Unwatches()
    requires Empty(EMPTY_TABLE)
    ensures ReactorWorld.Reachable(Early(Users([], Plain, Idle(IdleDispatch), 1), 11, COLLECTED))
  {
    Collects();
    StartEmpty();
    Valid5(EMPTY_TABLE, Call(User(9)));
    Deletes5(EMPTY_TABLE, Call(User(9)));
    var t := Armed5(EMPTY_TABLE, Call(User(9)));
    hide ReactorWorld.Reachable, Reactor.Start, Armed5, ET.Inv, ET.DelEvent;
    var s := Users([], Plain, Idle(IdleDispatch), 1).(table := t);
    Removes(s, t);
    Walk(Early(s, 10, COLLECTED), Act(Inside(0), Unwatch(5, WRITE, true)), s.(table := EMPTY_TABLE));
  }

  lemma Removes(s: State, t: ET.Table)
    requires s == Users([], Plain, Idle(IdleDispatch), 1).(table := t) && ET.Valid(t)
    requires ET.DelEvent(t, 5, WRITE, true) == (EMPTY_TABLE, true)
    requires ET.IsArmed(t, 5, WRITE) && t.rows[5].Get(WRITE).Task() == Call(User(9))
    ensures var step := Act(Inside(0), Unwatch(5, WRITE, true));
      Enabled(s, step) && Apply(s, step) == s.(table := EMPTY_TABLE)
  {
    hide Reactor.Start, ET.DelEvent, ET.Valid;
  }

  lemma Connects()
    requires Empty(EMPTY_TABLE)
    ensures ReactorWorld.Reachable(Early(Users([CONNECTING], IoArm(0, None), Idle(IdleDispatch), 1), 13, COLLECTED).(
      begun := map[0 := 12], going := {0}))
  {
    Unwatches();
    BeginsCall();
    ConnectMove();
    var s := Users([], Plain, Idle(IdleDispatch), 1);
    var s1 := Users([CONNECTING], IoTry(0), Idle(IdleDispatch), 1);
    hide ReactorWorld.Reachable, Reactor.Start, Apply, Enabled, Users;
    Walk(Early(s, 11, COLLECTED), Code(0, IoCall(5, WRITE)), s1);
    hide Can, Next;
    ReachableNext(Early(s1, 12, COLLECTED), Connect(0, IoForever));
  }

  lemma BeginsCall()
    ensures var s := Users([], Plain, Idle(IdleDispatch), 1);
      && Enabled(s, Code(0, IoCall(5, WRITE)))
      && Apply(s, Code(0, IoCall(5, WRITE))) == Users([CONNECTING], IoTry(0), Idle(IdleDispatch), 1)
  {
    hide Reactor.Start;
    assert IoBegin(Users([], Plain, Idle(IdleDispatch), 1), 0, 5, WRITE)
      == Users([CONNECTING], IoTry(0), Idle(IdleDispatch), 1);
  }

  lemma ConnectMove()
    ensures var x := Early(Users([CONNECTING], IoTry(0), Idle(IdleDispatch), 1), 12, COLLECTED);
      && Can(x, Connect(0, IoForever))
      && Next(x, Connect(0, IoForever))
         == Early(Users([CONNECTING], IoArm(0, None), Idle(IdleDispatch), 1), 13, COLLECTED).(
              begun := map[0 := 12], going := {0})
  {
    hide Reactor.Start;
    var s1 := Users([CONNECTING], IoTry(0), Idle(IdleDispatch), 1);
    var x := Early(s1, 12, COLLECTED);
    assert IoNoTimer(s1, 0) == Users([CONNECTING], IoArm(0, None), Idle(IdleDispatch), 1);
    assert map[][0 := 12] == map[0 := 12] && {} + {0} == {0};
    NothingCaused(x, Code(0, IoForever));
    hide Causes;
  }

  lemma NothingCaused(x: World, step: Step)
    requires Enabled(x.s, step) && x.armed == map[] && x.cause == map[]
    ensures Causes(x, step, Apply(x.s, step)) == map[]
  {
    hide Apply, Enabled;
  }

  /** The world of a connect that is under way. */
  function Later(s: State, now: nat, batch: seq<Stamped>, cause: map<CallId, Cause>): World {
    World(s, now, map[1 := batch], map[0 := 12], {0}, map[0 := 13], cause, {})
  }

  lemma Registers()
    requires Empty(EMPTY_TABLE)
    ensures ReactorWorld.Reachable(Later(
      Users([CONNECTING], IoWait(0, None), Idle(IdleDispatch), 1).(table := Armed5(EMPTY_TABLE, Resume(0))), 14,
      [Stamped(REPORT, 7)], map[]))
  {
    Connects();
    Arms5(EMPTY_TABLE, Resume(0));
    var s := Users([CONNECTING], IoArm(0, None), Idle(IdleDispatch), 1);
    var x := Early(s, 13, COLLECTED).(begun := map[0 := 12], going := {0});
    var t := Armed5(EMPTY_TABLE, Resume(0));
    AddsItself(s, t);
    hide ReactorWorld.Reachable, Reactor.Start, Armed5;
    assert Can(x, Pool(Code(0, IoRegister(true))));
    ReachableNext(x, Pool(Code(0, IoRegister(true))));
    NothingCaused(x, Code(0, IoRegister(true)));
    assert map[][0 := 13] == map[0 := 13];
    assert COLLECTED == map[1 := [Stamped(REPORT, 7)]];
    hide Apply;
  }

  lemma AddsItself(s: State, t: ET.Table)
    requires s == Users([CONNECTING], IoArm(0, None), Idle(IdleDispatch), 1) && Empty(s.table)
    requires |s.table.rows| >= 2 && ET.CanAdd(s.table, 5, WRITE)
    requires ET.AddEvent(s.table, 5, WRITE, Resume(0), true) == (t, true)
    ensures CanIoAdd(s, 0)
    ensures IoAdd(s, 0, true) == Users([CONNECTING], IoWait(0, None), Idle(IdleDispatch), 1).(table := t)
  {
    hide Reactor.Start, ET.AddEvent;
  }

  /** The report that worker 1 still has in hand is older than the attempt; it ends the wait. */
  lemma OldReportWakes()
    requires Empty(EMPTY_TABLE)
    ensures ReactorWorld.Reachable(Later(
      Users([CONNECTING], IoWait(0, None), Idle(IdleDispatch), 1).(queue := [Entry(Resume(0), ANY_THREAD)]), 15,
      [], map[0 := Stale]))
  {
    Registers();
    StartEmpty();
    Reports5(EMPTY_TABLE, Resume(0));
    var t := Armed5(EMPTY_TABLE, Resume(0));
    var s := Users([CONNECTING], IoWait(0, None), Idle(IdleDispatch), 1).(table := t);
    var s' := s.(table := EMPTY_TABLE, queue := [Entry(Resume(0), ANY_THREAD)]);
    var step := Loop(1, IdleReport(REPORT, true));
    StillWaits(s);
    NobodyWaits(s', 0);
    ReportIs(s, t);
    var x := Later(s, 14, [Stamped(REPORT, 7)], map[]);
    hide ReactorWorld.Reachable, Reactor.Start, Armed5, ET.DispatchOne, ET.Inv, ET.Valid, Waiting, Empty;
    hide Apply, Enabled;
    StaleCause(x, s');
    ReportMove(x, s');
    hide Can, Next, Causes;
    ReachableNext(x, Pool(step));
  }

  lemma ReportMove(x: World, s': State)
    requires Enabled(x.s, Loop(1, IdleReport(REPORT, true))) && Apply(x.s, Loop(1, IdleReport(REPORT, true))) == s'
    requires x == Later(x.s, 14, [Stamped(REPORT, 7)], map[])
    requires Causes(x, Loop(1, IdleReport(REPORT, true)), s') == map[0 := Stale]
    ensures var m := Pool(Loop(1, IdleReport(REPORT, true)));
      Can(x, m) && Next(x, m) == Later(s', 15, [], map[0 := Stale])
  {
    hide Apply, Enabled, Causes;
    assert [Stamped(REPORT, 7)][1..] == [];
    assert x.batches[1 := []] == map[1 := []];
  }

  lemma StillWaits(s: State)
    requires Empty(EMPTY_TABLE) && s.table == Armed5(EMPTY_TABLE, Resume(0))
    requires s.calls == [CONNECTING] && PcOf(s, 0) == IoWait(0, None)
    ensures Waiting(s, 0)
  {
    StartEmpty();
    Arms5(EMPTY_TABLE, Resume(0));
    ET.AddEventEffect(EMPTY_TABLE, 5, WRITE, Resume(0), true);
    hide Reactor.Start, Armed5, ET.AddEvent, ET.Inv, ET.Armed, Empty;
  }

  lemma ReportIs(s: State, t: ET.Table)
    requires s == Users([CONNECTING], IoWait(0, None), Idle(IdleDispatch), 1).(table := t)
    requires 5 < |t.rows| && ET.Valid(t)
    requires ET.DispatchOne(t, REPORT, true) == ET.Running(EMPTY_TABLE, [Resume(0)])
    ensures var step := Loop(1, IdleReport(REPORT, true));
      && Enabled(s, step)
      && Apply(s, step) == s.(table := EMPTY_TABLE, queue := [Entry(Resume(0), ANY_THREAD)])
  {
    OneAppended([], Resume(0));
    hide Reactor.Start, ET.DispatchOne, ET.Valid, Appended;
  }

  lemma StaleCause(x: World, s': State)
    requires x.armed == map[0 := 13] && x.cause == map[] && Waiting(x.s, 0) && !Waiting(s', 0)
    requires x.batches == map[1 := [Stamped(REPORT, 7)]]
    ensures Causes(x, Loop(1, IdleReport(REPORT, true)), s') == map[0 := Stale]
  {
    hide Waiting;
  }

  const STALE: map<CallId, Cause> := map[0 := Stale]

  function Waits(fiber: Fiber, queue: seq<Entry>, w0: Worker, active: int): State {
    Scene([fiber], [CONNECTING], queue, NO_TIMERS, {}, w0, Idle(IdleDispatch), active, 1)
  }

  const HELD := Fiber(HOLD, IoWait(0, None))
  const AWAKE := Entry(Resume(0), ANY_THREAD)

  lemma SwapsOut()
    ensures var s := Users([CONNECTING], IoWait(0, None), Idle(IdleDispatch), 1).(queue := [AWAKE]);
      Enabled(s, Loop(0, SwapOutHold)) && Apply(s, Loop(0, SwapOutHold)) == Waits(HELD, [AWAKE], SCAN, 0)
  {
    hide Reactor.Start;
    var s := Users([CONNECTING], IoWait(0, None), Idle(IdleDispatch), 1).(queue := [AWAKE]);
    assert YieldHold(s, 0) == Waits(HELD, [AWAKE], SCAN, 0);
  }

  lemma TakesFiber()
    ensures var s := Waits(HELD, [AWAKE], SCAN, 0);
      Enabled(s, Loop(0, TakeEntry)) && Apply(s, Loop(0, TakeEntry)) == Waits(HELD, [], Idle(Popped(Resume(0))), 1)
  {
    hide Reactor.Start;
    var s := Waits(HELD, [AWAKE], SCAN, 0);
    TakeIs(s, 0, Resume(0));
    hide Apply, Enabled;
    assert At(s, 0, Popped(Resume(0))).(queue := [], active := 1) == Waits(HELD, [], Idle(Popped(Resume(0))), 1);
  }

  lemma SwapsIn()
    ensures var s := Waits(HELD, [], Idle(Popped(Resume(0))), 1);
      && Enabled(s, Loop(0, SwapInFiber))
      && Apply(s, Loop(0, SwapInFiber)) == Waits(Fiber(EXEC, IoWoken(0, None)), [], Idle(Running(0)), 1)
  {
    hide Reactor.Start;
    var s := Waits(HELD, [], Idle(Popped(Resume(0))), 1);
    assert StartFiber(s, 0) == Waits(Fiber(EXEC, IoWoken(0, None)), [], Idle(Running(0)), 1);
  }

  lemma TriesAgain()
    ensures var s := Waits(Fiber(EXEC, IoWoken(0, None)), [], Idle(Running(0)), 1);
      && Enabled(s, Code(0, IoResume))
      && Apply(s, Code(0, IoResume)) == Waits(Fiber(EXEC, IoTry(0)), [], Idle(Running(0)), 1)
  {
    hide Reactor.Start;
    var s := Waits(Fiber(EXEC, IoWoken(0, None)), [], Idle(Running(0)), 1);
    assert IoCancel(s, 0) == Waits(Fiber(EXEC, IoTry(0)), [], Idle(Running(0)), 1);
  }

  /** One step later, with nobody waiting. */
  lemma StaleWalk(s: State, now: nat, step: Step, s': State)
    requires ReactorWorld.Reachable(Later(s, now, [], STALE)) && Enabled(s, step) && Apply(s, step) == s'
    requires s.table == EMPTY_TABLE && !step.Act?
    requires step.Loop? ==> step.loop.SwapOutHold? || step.loop.TakeEntry? || step.loop.SwapInFiber?
    requires step.Code? ==> step.code.IoResume?
    ensures ReactorWorld.Reachable(Later(s', now + 1, [], STALE))
  {
    NobodyWaits(s, 0);
    hide ReactorWorld.Reachable, Reactor.Start, Waiting, Apply, Enabled;
    Walk(Later(s, now, [], STALE), step, s');
  }

  /** The fiber is resumed, and comes to look at SO_ERROR. */
  lemma ComesToLook()
    requires Empty(EMPTY_TABLE)
    ensures ReactorWorld.Reachable(Later(Waits(Fiber(EXEC, IoTry(0)), [], Idle(Running(0)), 1), 19, [], STALE))
  {
    OldReportWakes();
    SwapsOut();
    TakesFiber();
    SwapsIn();
    TriesAgain();
    hide ReactorWorld.Reachable, Reactor.Start, Empty, Apply, Enabled, Later;
    StaleWalk(Users([CONNECTING], IoWait(0, None), Idle(IdleDispatch), 1).(queue := [AWAKE]), 15,
              Loop(0, SwapOutHold), Waits(HELD, [AWAKE], SCAN, 0));
    StaleWalk(Waits(HELD, [AWAKE], SCAN, 0), 16, Loop(0, TakeEntry), Waits(HELD, [], Idle(Popped(Resume(0))), 1));
    StaleWalk(Waits(HELD, [], Idle(Popped(Resume(0))), 1), 17, Loop(0, SwapInFiber),
              Waits(Fiber(EXEC, IoWoken(0, None)), [], Idle(Running(0)), 1));
    StaleWalk(Waits(Fiber(EXEC, IoWoken(0, None)), [], Idle(Running(0)), 1), 18, Code(0, IoResume),
              Waits(Fiber(EXEC, IoTry(0)), [], Idle(Running(0)), 1));
  }

  /** In world x, connect call c comes to look at SO_ERROR next, after a wait that an older
      report has ended; its attempt goes on, and it will return 0. */
  ghost predicate Fooled(x: World, m: Move, c: CallId) {
    && Can(x, m) && Answers(x, m, c) && m.step.code.IoResult?
    && c in x.going && c in x.cause && x.cause[c] == Stale
    && HC.Connect(HC.Failed(HC.EINPROGRESS), HC.Round(true, false), HC.SoError(HC.InProgress), true) == HC.Returned(0)
  }

  /** An older report alone, with no cancel, no failed addEvent and no timeout, makes connect
      return 0 on an attempt that goes on. */
  lemma OldReportFools()
    ensures exists x: World, m: Move :: ReactorWorld.Reachable(x) && Fooled(x, m, 0)
  {
    StartEmpty();
    ComesToLook();
    Looks();
    var x, m := Later(Waits(Fiber(EXEC, IoTry(0)), [], Idle(Running(0)), 1), 19, [], STALE), Pool(Code(0, IoResult));
    hide *;
    assert ReactorWorld.Reachable(x) && Fooled(x, m, 0);
  }

  lemma Looks()
    ensures var x := Later(Waits(Fiber(EXEC, IoTry(0)), [], Idle(Running(0)), 1), 19, [], STALE);
      Fooled(x, Pool(Code(0, IoResult)), 0)
  {
    hide Reactor.Start;
  }
}
