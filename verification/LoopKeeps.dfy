/** The steps of the run loop and of the idle fiber keep the invariant. */
module LoopKeeps {
  import opened Base
  import opened Sums
  import opened RunQueue
  import opened Reactor
  import opened Tokens
  import opened LoopFlow
  import opened IdleFlow
  import opened CodeFlow
  import opened ReactorInv
  import ET = EventTable
  import TS = TimerSet

  lemma QueueHas(s: State, i: nat)
    requires i < |s.queue|
    ensures Count(s, s.queue[i].task) >= 1
  {
    GatherHas(s.queue, i, EntryTasks);
  }

  /** What the scan takes is a callback or a fiber that rests with a token. */
  lemma TakenOk(s: State, w: nat)
    requires Inv(s) && CanTake(s, w)
    ensures WorkerOk(Take(s, w).workers[w], s.fibers)
  {
    TakenAtRest(s, w);
    assert WorkerOk(s.workers[w], s.fibers);
    hide Inv, WorkersOk, Candidate;
  }

  lemma TakenAtRest(s: State, w: nat)
    requires Inv(s) && CanTake(s, w)
    ensures var task := s.queue[Candidate(s, w)].task;
      task.Resume? ==> task.fiber < |s.fibers| && AtRest(s.fibers[task.fiber].state)
  {
    var i := Candidate(s, w);
    QueueHas(s, i);
    StopsExactly(s.queue, w, Executing(s), i);
    assert KnownTask(s.queue[i].task, |s.fibers|, |s.calls|);
    hide FirstEligible, Candidate;
    if s.queue[i].task.Resume? { assert OkAt(s, s.queue[i].task.fiber); }
  }

  lemma TakeKeeps(s: State, w: nat)
    requires Inv(s) && CanTake(s, w)
    ensures Inv(Take(s, w))
  {
    var s' := Take(s, w);
    TakenOk(s, w);
    TakeFibers(s, w);
    TakeFlow(s, w);
    KnownFlow(s, s', NOTHING, NOTHING);
    CensusShift(s, w, s'.workers[w], s');
    WorkersFrame(s, s', w, |s.fibers|);
    ContextStill(s, s');
  }

  predicate HandsFree(w: Worker) {
    !w.phase.Running? && !w.phase.Popped? && !w.phase.Requeue? && !w.phase.IdleFlush?
  }

  /** A worker that holds no task and runs no fiber goes from one such phase to another. */
  ghost predicate Moves(s: State, w: nat, s': State) {
    && w < |s.workers| && w < |s'.workers| && s'.workers == s.workers[w := s'.workers[w]]
    && s' == s.(workers := s'.workers, timers := s'.timers, idle := s'.idle)
    && s'.timers.items == s.timers.items
    && s'.workers[w].cbFiber == s.workers[w].cbFiber && HandsFree(s.workers[w]) && HandsFree(s'.workers[w])
    && s'.idle + UnitOf(s.workers[w])[Resting] == s.idle + UnitOf(s'.workers[w])[Resting]
  }

  lemma MoveKeeps(s: State, w: nat, s': State)
    requires Inv(s) && Moves(s, w, s')
    ensures Inv(s')
  {
    var wk := s'.workers[w];
    MoveFibers(s, w, wk, s');
    KnownFlow(s, s', NOTHING, NOTHING);
    CensusShift(s, w, wk, s');
    assert WorkerOk(s.workers[w], s.fibers);
    WorkersFrame(s, s', w, |s.fibers|);
    ContextStill(s, s');
  }

  lemma TakeNoneMoves(s: State, w: nat)
    requires CanTakeNone(s, w)
    ensures Moves(s, w, IdleBranch(s, w))
  {
  }

  lemma TakeNoneKeeps(s: State, w: nat)
    requires Inv(s) && CanTakeNone(s, w)
    ensures Inv(IdleBranch(s, w))
  {
    TakeNoneMoves(s, w);
    hide IdleBranch, Moves;
    MoveKeeps(s, w, IdleBranch(s, w));
  }

  lemma CheckStopMoves(s: State, w: nat, now: TS.u64)
    requires CanCheckStop(s, w, now)
    ensures Moves(s, w, CheckStop(s, w, now))
  {
  }

  lemma CheckRestMoves(s: State, w: nat)
    ensures InPhase(s, w, IdleEvents) ==> Moves(s, w, CheckEvents(s, w))
    ensures InPhase(s, w, IdleQueue) ==> Moves(s, w, CheckQueue(s, w))
  {
  }

  lemma CheckEventsKeeps(s: State, w: nat)
    requires Inv(s) && InPhase(s, w, IdleEvents)
    ensures Inv(CheckEvents(s, w))
  {
    CheckRestMoves(s, w);
    hide CheckEvents, Moves;
    MoveKeeps(s, w, CheckEvents(s, w));
  }

  lemma CheckQueueKeeps(s: State, w: nat)
    requires Inv(s) && InPhase(s, w, IdleQueue)
    ensures Inv(CheckQueue(s, w))
  {
    CheckRestMoves(s, w);
    hide CheckQueue, Moves;
    MoveKeeps(s, w, CheckQueue(s, w));
  }

  lemma CheckStopKeeps(s: State, w: nat, now: TS.u64)
    requires Inv(s) && CanCheckStop(s, w, now)
    ensures Inv(CheckStop(s, w, now))
  {
    CheckStopMoves(s, w, now);
    hide CheckStop, Moves;
    MoveKeeps(s, w, CheckStop(s, w, now));
  }

  lemma IdleYieldKeeps(s: State, w: nat)
    requires Inv(s) && CanIdleYield(s, w)
    ensures Inv(IdleYield(s, w))
  {
    MoveKeeps(s, w, IdleYield(s, w));
  }

  // ----- swapIn -----

  /** In a reachable state swapIn's assertion holds for every popped fiber, and the branch
      that would lose an active count is never taken. */
  lemma PoppedFiberStarts(s: State, w: nat)
    requires Inv(s) && w < |s.workers| && s.workers[w].phase.Popped? && s.workers[w].phase.task.Resume?
    ensures CanStartFiber(s, w) && !CanStartDead(s, w)
  {
    PoppedAtRest(s, w);
  }

  lemma InHandKnown(s: State, w: nat)
    requires Inv(s) && w < |s.workers| && s.workers[w].phase.Popped?
    ensures KnownTask(s.workers[w].phase.task, |s.fibers|, |s.calls|)
  {
    InHandHas(s, w, s.workers[w].phase.task);
  }

  /** A step by worker w that, apart from queue and counters, changes w and fiber f only. */
  ghost predicate Local(s: State, s': State, w: nat, f: FiberId) {
    && s' == s.(fibers := s'.fibers, workers := s'.workers, queue := s'.queue, active := s'.active)
    && OthersKept(s, s', w) && OthersSame(s, s', f)
  }

  lemma LocalKeeps(s: State, s': State, w: nat, f: FiberId)
    requires Inv(s) && w < |s.workers| && Local(s, s', w, f)
    requires CensusOk(s') && FibersOk(s') && Known(s') && WorkerOk(s'.workers[w], s'.fibers)
    requires f < |s.fibers| ==> Names(s.workers[w], f)
    requires PcAt(s', f) && OwnAt(s', f) && FreeToMove(s, s', f, ET.Armed(s.table)) && FreeOfTimers(s, s', f)
    ensures Inv(s')
  {
    if f < |s.fibers| {
      forall v | 0 <= v < |s.workers| && v != w ensures !Names(s.workers[v], f) { NamedOnce(s, w, v, f); }
    }
    LocalWorkers(s, s', w, f);
    ContextFrame(s, s', f);
  }

  lemma LocalWorkers(s: State, s': State, w: nat, f: FiberId)
    requires WorkersOk(s) && w < |s.workers| && Local(s, s', w, f) && WorkerOk(s'.workers[w], s'.fibers)
    requires f < |s.fibers| ==> forall v :: 0 <= v < |s.workers| && v != w ==> !Names(s.workers[v], f)
    ensures WorkersOk(s')
  {
    forall g | 0 <= g < |s.fibers| && g != f ensures s'.fibers[g].state == s.fibers[g].state {
      assert SameFiber(s, s', g);
    }
    WorkersFrame(s, s', w, f);
  }

  lemma StartFiberLeaves(s: State, w: nat)
    requires Inv(s) && CanStartFiber(s, w)
    ensures var s', f := StartFiber(s, w), s.workers[w].phase.task.fiber;
      FreeToMove(s, s', f, ET.Armed(s.table)) && FreeOfTimers(s, s', f)
  {
    var f := s.workers[w].phase.task.fiber;
    PoppedHasNoOther(s, w);
    hide Inv, ET.Armed, Timed, FibersOk;
  }

  /** The token in the worker's hand is the only one. */
  lemma PoppedHasNoOther(s: State, w: nat)
    requires FibersOk(s) && WorkersOk(s) && CanStartFiber(s, w)
    ensures var f := s.workers[w].phase.task.fiber;
      ET.Armed(s.table)[Resume(f)] == 0 && Timed(s)[Call(Wake(f))] == 0
  {
    PoppedAtRest(s, w);
    InHandHas(s, w, Resume(s.workers[w].phase.task.fiber));
    hide FibersOk, WorkersOk, InHand, Queued, InBody, Timed, ET.Armed, Held;
  }

  lemma StartFiberPc(s: State, w: nat)
    requires Inv(s) && CanStartFiber(s, w)
    ensures var s', f := StartFiber(s, w), s.workers[w].phase.task.fiber; PcAt(s', f) && OwnAt(s', f)
  {
    var f := s.workers[w].phase.task.fiber;
    assert PcAt(s, f) && OwnAt(s, f);
  }

  lemma StartFiberLocal(s: State, w: nat)
    requires CanStartFiber(s, w)
    ensures var s', f := StartFiber(s, w), s.workers[w].phase.task.fiber;
      && Local(s, s', w, f) && Names(s.workers[w], f)
      && s'.workers == s.workers[w := s'.workers[w]] && UnitOf(s'.workers[w]) == UnitOf(s.workers[w])
      && s'.active == s.active && s'.idle == s.idle && |s'.fibers| == |s.fibers|
  {
  }

  lemma StartFiberKeeps(s: State, w: nat)
    requires Inv(s) && CanStartFiber(s, w)
    ensures Inv(StartFiber(s, w))
  {
    var s', f := StartFiber(s, w), s.workers[w].phase.task.fiber;
    StartFiberFlow(s, w);
    StartFiberFibers(s, w);
    StartedWorkerOk(s, w);
    StartFiberLeaves(s, w);
    StartFiberPc(s, w);
    StartFiberLocal(s, w);
    hide StartFiber;
    CensusShift(s, w, s'.workers[w], s');
    KnownFlow(s, s', NOTHING, multiset{Resume(f)});
    LocalKeeps(s, s', w, f);
  }

  lemma StartedWorkerOk(s: State, w: nat)
    requires Inv(s) && CanStartFiber(s, w)
    ensures WorkerOk(StartFiber(s, w).workers[w], StartFiber(s, w).fibers)
  {
    var f := s.workers[w].phase.task.fiber;
    assert WorkerOk(s.workers[w], s.fibers);
    PoppedAtRest(s, w);
    HeldHas(s, w, f);
  }

  lemma ReusePc(s: State, w: nat)
    requires Inv(s) && CanStartCall(s, w) && s.workers[w].cbFiber.Some?
    ensures var s', g := StartCall(s, w), s.workers[w].cbFiber.value;
      && PcAt(s', g) && OwnAt(s', g) && s.fibers[g].pc == Plain && WorkerOk(s'.workers[w], s'.fibers)
  {
    var g := s.workers[w].cbFiber.value;
    InHandKnown(s, w);
    assert WorkerOk(s.workers[w], s.fibers);
    assert OkAt(s, g);
  }

  lemma ReuseKeeps(s: State, w: nat)
    requires Inv(s) && CanStartCall(s, w) && s.workers[w].cbFiber.Some?
    ensures Inv(StartCall(s, w))
  {
    var s', g := StartCall(s, w), s.workers[w].cbFiber.value;
    ReusePc(s, w);
    ReuseFlow(s, w);
    ReuseFibers(s, w);
    KnownFlow(s, s', NOTHING, Consumed(s.workers[w].phase.task.cb));
    CensusShift(s, w, s'.workers[w], s');
    LocalKeeps(s, s', w, g);
  }

  lemma CreateKeeps(s: State, w: nat)
    requires Inv(s) && CanStartCall(s, w) && s.workers[w].cbFiber.None?
    ensures Inv(StartCall(s, w))
  {
    var s', g := StartCall(s, w), |s.fibers|;
    CreateFlow(s, w);
    CreateFibers(s, w);
    KnownFlow(s, s', NOTHING, Consumed(s.workers[w].phase.task.cb));
    CensusShift(s, w, s'.workers[w], s');
    CreateLocal(s, w);
    hide *;
    LocalKeeps(s, s', w, g);
  }

  lemma CreateLocal(s: State, w: nat)
    requires Inv(s) && CanStartCall(s, w) && s.workers[w].cbFiber.None?
    ensures var s', g := StartCall(s, w), |s.fibers|;
      && Local(s, s', w, g) && w < |s'.workers| && WorkerOk(s'.workers[w], s'.fibers) && PcAt(s', g) && OwnAt(s', g)
      && FreeToMove(s, s', g, ET.Armed(s.table)) && FreeOfTimers(s, s', g)
  {
    InHandKnown(s, w);
    hide Inv, ET.Armed;
  }

  // ----- swapOut -----

  lemma SwapOutKeeps(s: State, w: nat, s': State, issued: seq<Task>)
    requires Inv(s) && Runs(s, w) && FibersOk(s') && Flow(s, s', multiset(issued), NOTHING)
    requires Local(s, s', w, Self(s, w)) && |s'.fibers| == |s.fibers|
    requires s'.workers == s.workers[w := s'.workers[w]]
    requires s'.workers[w].phase == Scanning || s'.workers[w].phase == Requeue(Self(s, w))
    requires s'.active == s.active - 1
    requires issued == [] || issued == [Resume(Self(s, w))]
    requires var pc := s'.fibers[Self(s, w)].pc; pc == SelfPc(s, w) || (pc == Plain && SelfPc(s, w) == Done)
    requires WorkerOk(s'.workers[w], s'.fibers)
    ensures Inv(s')
  {
    var f := Self(s, w);
    IssuedKnown(s, w, s', issued);
    SwapOutCensus(s, w, s');
    SwapOutFree(s, w, s');
    assert Names(s.workers[w], f) && w < |s.workers|;
    hide *;
    LocalKeeps(s, s', w, f);
  }

  lemma SwapOutCensus(s: State, w: nat, s': State)
    requires CensusOk(s) && Runs(s, w) && Local(s, s', w, Self(s, w))
    requires s'.workers == s.workers[w := s'.workers[w]] && s'.active == s.active - 1
    requires s'.workers[w].phase == Scanning || s'.workers[w].phase == Requeue(Self(s, w))
    ensures CensusOk(s')
  {
    hide CensusOk;
    CensusShift(s, w, s'.workers[w], s');
  }

  lemma IssuedKnown(s: State, w: nat, s': State, issued: seq<Task>)
    requires Known(s) && Runs(s, w) && Flow(s, s', multiset(issued), NOTHING)
    requires |s'.fibers| == |s.fibers| && |s'.calls| == |s.calls|
    requires issued == [] || issued == [Resume(Self(s, w))]
    ensures Known(s')
  {
    forall t | multiset(issued)[t] > 0 ensures KnownTask(t, |s'.fibers|, |s'.calls|) {
      assert t in issued;
    }
    hide Known, Flow;
    KnownFlow(s, s', multiset(issued), NOTHING);
  }

  /** Nothing relies on the program counter that a fiber leaves when it swaps out. */
  lemma SwapOutFree(s: State, w: nat, s': State)
    requires PcsOk(s) && OwnOk(s) && Runs(s, w) && Local(s, s', w, Self(s, w)) && |s'.fibers| == |s.fibers|
    requires var pc := s'.fibers[Self(s, w)].pc; pc == SelfPc(s, w) || (pc == Plain && SelfPc(s, w) == Done)
    ensures PcAt(s', Self(s, w)) && OwnAt(s', Self(s, w))
    ensures FreeToMove(s, s', Self(s, w), ET.Armed(s.table)) && FreeOfTimers(s, s', Self(s, w))
  {
    assert PcAt(s, Self(s, w)) && OwnAt(s, Self(s, w));
    hide ET.Armed;
  }

  lemma ReleasedWorkerOk(s: State, w: nat, fibers: seq<Fiber>)
    requires Inv(s) && Runs(s, w) && |fibers| == |s.fibers|
    requires forall g :: 0 <= g < |fibers| && g != Self(s, w) ==> fibers[g] == s.fibers[g]
    ensures WorkerOk(Release(s, w).workers[w], fibers)
  {
    assert WorkerOk(s.workers[w], s.fibers);
  }

  lemma YieldReadyLocal(s: State, w: nat)
    requires CanYieldReady(s, w)
    ensures var s', f := YieldReady(s, w), Self(s, w);
      && Local(s, s', w, f) && |s'.fibers| == |s.fibers| && s'.fibers[f].pc == Plain
      && s'.workers == s.workers[w := s'.workers[w]]
      && s'.workers[w] == Release(s, w).workers[w].(phase := Requeue(f))
      && s'.fibers[f].state == READY && s'.active == s.active - 1
  {
  }

  lemma YieldReadyWorkerOk(s: State, w: nat)
    requires Inv(s) && CanYieldReady(s, w)
    ensures WorkerOk(YieldReady(s, w).workers[w], YieldReady(s, w).fibers)
  {
    ReleasedWorkerOk(s, w, YieldReady(s, w).fibers);
    YieldReadyLocal(s, w);
    hide YieldReady, Inv, Local, Release;
  }

  lemma YieldReadyKeeps(s: State, w: nat)
    requires Inv(s) && CanYieldReady(s, w)
    ensures Inv(YieldReady(s, w))
  {
    YieldReadyFibers(s, w);
    YieldReadyLocal(s, w);
    YieldReadyWorkerOk(s, w);
    hide YieldReady, Inv, FibersOk, Flow, Local, WorkerOk, Release;
    SwapOutKeeps(s, w, YieldReady(s, w), [Resume(Self(s, w))]);
  }

  lemma RescheduleKeeps(s: State, w: nat)
    requires Inv(s) && CanReschedule(s, w)
    ensures Inv(Reschedule(s, w))
  {
    var s' := Reschedule(s, w);
    RescheduleFibers(s, w);
    KnownFlow(s, s', NOTHING, NOTHING);
    CensusShift(s, w, s'.workers[w], s');
    assert WorkerOk(s.workers[w], s.fibers);
    WorkersFrame(s, s', w, |s.fibers|);
    ContextStill(s, s');
  }

  lemma YieldHoldKeeps(s: State, w: nat)
    requires Inv(s) && CanYieldHold(s, w)
    ensures Inv(YieldHold(s, w))
  {
    YieldHoldFibers(s, w);
    ReleasedWorkerOk(s, w, YieldHold(s, w).fibers);
    SwapOutKeeps(s, w, YieldHold(s, w), []);
  }

  lemma FinishWorkerOk(s: State, w: nat, threw: bool)
    requires WorkersOk(s) && CanFinish(s, w)
    ensures WorkerOk(Finish(s, w, threw).workers[w], Finish(s, w, threw).fibers)
  {
    assert WorkerOk(s.workers[w], s.fibers);
    hide WorkersOk;
    if s.workers[w].cbFiber == Some(Self(s, w)) {
      assert Finish(s, w, threw).workers[w] == s.workers[w].(phase := Scanning);
      assert Finish(s, w, threw).fibers[Self(s, w)] == Fiber(INIT, Plain);
      hide Finish;
    } else {
      assert Finish(s, w, threw).workers[w] == s.workers[w].(phase := Scanning);
      FreedWorkerOk(s.workers[w], s.fibers, Finish(s, w, threw).fibers, Self(s, w));
      hide Finish, WorkerOk;
    }
  }

  lemma FreedWorkerOk(w: Worker, fibers: seq<Fiber>, fibers': seq<Fiber>, f: FiberId)
    requires WorkerOk(w, fibers) && w.phase == Running(f) && w.cbFiber != Some(f) && |fibers'| == |fibers|
    requires forall g :: 0 <= g < |fibers| && g != f ==> fibers'[g] == fibers[g]
    ensures WorkerOk(w.(phase := Scanning), fibers')
  {
  }

  lemma FinishKeeps(s: State, w: nat, threw: bool)
    requires Inv(s) && CanFinish(s, w)
    ensures Inv(Finish(s, w, threw))
  {
    FinishFibers(s, w, threw);
    FinishWorkerOk(s, w, threw);
    FinishLocal(s, w, threw);
    hide Finish, Inv, FibersOk, Flow, Local, WorkerOk;
    SwapOutKeeps(s, w, Finish(s, w, threw), []);
  }

  lemma FinishLocal(s: State, w: nat, threw: bool)
    requires CanFinish(s, w)
    ensures var s', f := Finish(s, w, threw), Self(s, w);
      && Local(s, s', w, f) && |s'.fibers| == |s.fibers| && s'.fibers[f].pc == Plain
      && s'.workers == s.workers[w := s'.workers[w]] && s'.workers[w].phase == Scanning && s'.active == s.active - 1
  {
  }

  // ----- The idle fiber -----

  lemma ExpireKeeps(s: State, w: nat, now: TS.u64, guard: TS.Guard)
    requires Inv(s) && CanExpire(s, w)
    ensures Inv(Expire(s, w, now, guard))
  {
    var s' := Expire(s, w, now, guard);
    RecurringAreUsers(s);
    ExpireFibers(s, w, now, guard);
    RecurringOfUsers(s, now, guard);
    KnownFlow(s, s', Recurring(s, now, guard), NOTHING);
    CensusShift(s, w, s'.workers[w], s');
    assert WorkerOk(s.workers[w], s.fibers);
    WorkersFrame(s, s', w, |s.fibers|);
    TS.ExpiryEffect(s.timers, now, guard);
    TimersWithin(s, s');
  }

  lemma RecurringAreUsers(s: State)
    requires TimersOk(s)
    ensures RecurringIsUsers(s.timers.items)
  {
    forall r | r in s.timers.items && r.recurring ensures r.cb.User? { assert RecOk(r, s); }
  }

  /** Timers are only taken away or moved in time; nothing else about the context changes. */
  lemma TimersWithin(s: State, s': State)
    requires Inv(s) && TS.Valid(s'.timers.items) && TS.Within(s'.timers.items, s.timers.items)
    requires s'.table == s.table && s'.fibers == s.fibers && s'.calls == s.calls && s'.used == s.used
    ensures ET.Inv(s'.table) && PcsOk(s') && SlotsOk(s') && TimersOk(s') && OwnOk(s')
  {
    SlotsSame(s, s');
    PcsFrame(s, s', |s.fibers|);
    SlotsFrame(s, s', |s.fibers|);
    TimersFrame(s, s', |s.fibers|);
    OwnFrame(s, s', |s.fibers|);
  }

  lemma FlushKeeps(s: State, w: nat)
    requires Inv(s) && CanFlush(s, w)
    ensures Inv(Flush(s, w))
  {
    var s' := Flush(s, w);
    FlushFibers(s, w);
    KnownFlow(s, s', NOTHING, NOTHING);
    CensusShift(s, w, s'.workers[w], s');
    assert WorkerOk(s.workers[w], s.fibers);
    WorkersFrame(s, s', w, |s.fibers|);
    ContextStill(s, s');
  }

  /** Armed slots are only emptied into the queue; nothing else changes. */
  lemma ReleaseKeeps(s: State, s': State)
    requires Inv(s) && ET.Inv(s'.table) && FibersOk(s') && Known(s')
    requires forall fd: nat, ev: Event :: ET.SlotKept(s'.table, s.table, fd, ev)
    requires s' == s.(table := s'.table, queue := s'.queue, dropped := s'.dropped)
    ensures Inv(s')
  {
    TimersSame(s, s');
    PcsFrame(s, s', |s.fibers|);
    SlotsFrame(s, s', |s.fibers|);
    TimersFrame(s, s', |s.fibers|);
    OwnFrame(s, s', |s.fibers|);
  }

  lemma DispatchKeeps(s: State, w: nat, report: ET.Report, ok: bool)
    requires Inv(s) && CanDispatch(s, w, report, ok)
    ensures Inv(Dispatch(s, w, report, ok))
  {
    var s' := Dispatch(s, w, report, ok);
    DispatchFibers(s, w, report, ok);
    KnownFlow(s, s', NOTHING, NOTHING);
    forall fd: nat, ev: Event ensures ET.SlotKept(s'.table, s.table, fd, ev) {
      ET.DispatchSlots(s.table, report, ok, fd, ev);
    }
    ReleaseKeeps(s, s');
  }
}
