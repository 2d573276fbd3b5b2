/** What holds in every reachable state of the reactor. */
module ReactorSafety {
  import opened Base
  import opened Sums
  import opened RunQueue
  import opened Reactor
  import opened Tokens
  import opened LoopFlow
  import opened CodeFlow
  import opened ReactorInv
  import opened LoopKeeps
  import opened ReactorFrames
  import opened ReactorRuns
  import ET = EventTable
  import TS = TimerSet

  // ----- Fibers -----

  /** No fiber is popped, run or kept as cb_fiber by two workers at once, although pop and
      swapIn are separate steps and an event may fire before its fiber has yielded. */
  lemma MutualExclusion(s: State, v: nat, w: nat, f: FiberId)
    requires Reachable(s) && v < |s.workers| && w < |s.workers|
    requires Names(s.workers[v], f) && Names(s.workers[w], f)
    ensures v == w
  {
    ReachableInv(s);
    if v != w { NamedOnce(s, v, w, f); }
  }

  /** How many resume tokens a fiber has, by its state: exactly one while it is suspended,
      unless delEvent threw it away; none while it runs user code, or once it has ended. */
  lemma OneToken(s: State, f: FiberId)
    requires Reachable(s) && f < |s.fibers|
    ensures var fiber := s.fibers[f];
      && TokensOf(s, f) <= 1
      && (fiber.state == READY ==> TokensOf(s, f) == 1)
      && (fiber.state == HOLD ==> TokensOf(s, f) == if f in s.dropped then 0 else 1)
      && (fiber.state == EXEC && !fiber.pc.Suspending() ==> TokensOf(s, f) == 0)
      && (Finished(fiber.state) ==> TokensOf(s, f) == 0)
  {
    ReachableInv(s);
    assert OkAt(s, f);
  }

  /** A popped fiber is never finished and never executing: swapIn's assertion holds, and
      the branch that would leak an active count is never entered. */
  lemma PoppedIsAtRest(s: State, w: nat)
    requires Reachable(s) && w < |s.workers|
    requires s.workers[w].phase.Popped? && s.workers[w].phase.task.Resume?
    ensures CanStartFiber(s, w) && !CanStartDead(s, w)
    ensures AtRest(s.fibers[s.workers[w].phase.task.fiber].state)
  {
    ReachableInv(s);
    PoppedFiberStarts(s, w);
    assert WorkerOk(s.workers[w], s.fibers);
  }

  /** At every loop head cb_fiber is null or INIT, so reset's assertion holds when the next
      callback is taken, and the destructor's when the worker leaves. */
  lemma CbFiberIsFresh(s: State, w: nat)
    requires Reachable(s) && w < |s.workers| && s.workers[w].cbFiber.Some? && !s.workers[w].phase.Running?
    ensures s.workers[w].cbFiber.value < |s.fibers|
    ensures s.fibers[s.workers[w].cbFiber.value].state == INIT && TokensOf(s, s.workers[w].cbFiber.value) == 0
  {
    ReachableInv(s);
    var g := s.workers[w].cbFiber.value;
    assert WorkerOk(s.workers[w], s.fibers);
    HeldHas(s, w, g);
    assert OkAt(s, g);
  }

  // ----- Counters -----

  predicate IsBusy(w: Worker) {
    w.phase.Popped? || w.phase.Running?
  }

  function BusyBelow(ws: seq<Worker>, n: nat): set<nat>
    requires n <= |ws|
  {
    set w | 0 <= w < n && IsBusy(ws[w])
  }

  function IdleBelow(ws: seq<Worker>, n: nat): set<nat>
    requires n <= |ws|
  {
    set w | 0 <= w < n && ws[w].phase.IsIdle()
  }

  lemma {:induction false} BusyCounted(ws: seq<Worker>, n: nat)
    requires n <= |ws|
    ensures Gather(ws[..n], UnitOf)[Busy] == |BusyBelow(ws, n)|
  {
    if n > 0 {
      BusyCounted(ws, n - 1);
      assert ws[..n] == ws[..n - 1] + [ws[n - 1]];
      GatherPush(ws[..n - 1], ws[n - 1], UnitOf);
      BusyBelowGrows(ws, n);
      hide Gather, BusyBelow;
    }
  }

  lemma BusyBelowGrows(ws: seq<Worker>, n: nat)
    requires 0 < n <= |ws|
    ensures |BusyBelow(ws, n)| == |BusyBelow(ws, n - 1)| + if IsBusy(ws[n - 1]) then 1 else 0
  {
    assert BusyBelow(ws, n) == BusyBelow(ws, n - 1) + if IsBusy(ws[n - 1]) then {n - 1} else {};
  }

  lemma {:induction false} IdleCounted(ws: seq<Worker>, n: nat)
    requires n <= |ws|
    ensures Gather(ws[..n], UnitOf)[Resting] == |IdleBelow(ws, n)|
  {
    if n > 0 {
      IdleCounted(ws, n - 1);
      assert ws[..n] == ws[..n - 1] + [ws[n - 1]];
      GatherPush(ws[..n - 1], ws[n - 1], UnitOf);
      IdleBelowGrows(ws, n);
      hide Gather, IdleBelow;
    }
  }

  lemma IdleBelowGrows(ws: seq<Worker>, n: nat)
    requires 0 < n <= |ws|
    ensures |IdleBelow(ws, n)| == |IdleBelow(ws, n - 1)| + if ws[n - 1].phase.IsIdle() then 1 else 0
  {
    assert IdleBelow(ws, n) == IdleBelow(ws, n - 1) + if ws[n - 1].phase.IsIdle() then {n - 1} else {};
  }

  /** m_activeThreadCount is the number of workers that hold a popped task, and
      m_idleThreadCount the number of those inside their idle fiber. */
  lemma CountersExact(s: State)
    requires Reachable(s)
    ensures s.active == |set w | 0 <= w < |s.workers| && IsBusy(s.workers[w])|
    ensures s.idle == |set w | 0 <= w < |s.workers| && s.workers[w].phase.IsIdle()|
  {
    ReachableInv(s);
    BusyCounted(s.workers, |s.workers|);
    IdleCounted(s.workers, |s.workers|);
    assert s.workers[..|s.workers|] == s.workers;
    assert BusyBelow(s.workers, |s.workers|) == set w | 0 <= w < |s.workers| && IsBusy(s.workers[w]);
    assert IdleBelow(s.workers, |s.workers|) == set w | 0 <= w < |s.workers| && s.workers[w].phase.IsIdle();
  }

  // ----- Events and timers of a hooked call -----

  /** Whatever is armed sits in a slot. */
  lemma ArmedSlot(t: ET.Table, task: Task) returns (fd: nat, ev: Event)
    requires ET.Valid(t) && task in ET.Armed(t)
    ensures ET.IsArmed(t, fd, ev) && t.rows[fd].Get(ev).Task() == task
  {
    fd := GatherFrom(t.rows, task, ET.RowTasks);
    assert t.rows[fd].Valid();
    ev := if task in ET.SlotTasks(t.rows[fd].read) then READ else WRITE;
  }

  /** An armed fiber is inside a hooked call that waits for exactly that event. */
  lemma ArmedFiberWaits(s: State, f: FiberId)
    requires Inv(s) && Resume(f) in ET.Armed(s.table)
    ensures f < |s.fibers| && s.fibers[f].pc.IoWait?
    ensures var c := s.fibers[f].pc.call;
      && c < |s.calls| && ET.IsArmed(s.table, s.calls[c].fd, s.calls[c].ev)
      && s.table.rows[s.calls[c].fd].Get(s.calls[c].ev).Task() == Resume(f)
  {
    var fd, ev := ArmedSlot(s.table, Resume(f));
    assert SlotAt(s, fd, ev);
  }

  /** A hooked call leaves nothing behind: back in user code, its fiber is in no slot, and
      neither a timeout of any of its calls nor a sleep timer for it is in the timer set. */
  lemma ReturnLeavesNothing(s: State, f: FiberId, r: TS.Rec)
    requires Reachable(s) && f < |s.fibers| && s.fibers[f].pc == Plain
    ensures Resume(f) !in ET.Armed(s.table)
    ensures r in s.timers.items ==> r.cb != Wake(f)
    ensures r in s.timers.items && r.cb.Timeout? ==> r.cb.call < |s.calls| && s.calls[r.cb.call].owner != f
  {
    ReachableInv(s);
    if Resume(f) in ET.Armed(s.table) { ArmedFiberWaits(s, f); }
    if r in s.timers.items { assert RecOk(r, s); }
  }

  // ----- Timeouts that come late -----

  function PcOf(s: State, g: FiberId): Pc {
    if g < |s.fibers| then s.fibers[g].pc else Plain
  }

  predicate InCall(pc: Pc) {
    pc.IoTry? || pc.IoArm? || pc.IoWait? || pc.IoWoken? || pc.IoUndo?
  }

  /** Fiber g enters no call that existed before. */
  predicate Stays(s: State, s': State, g: FiberId) {
    InCall(PcOf(s', g)) && PcOf(s', g).call < |s.calls| ==> PcOf(s, g).Inside(PcOf(s', g).call)
  }

  /** A hooked call is entered only by beginning it, once, and belongs to one fiber. */
  ghost predicate NoReentry(s: State, s': State) {
    CallsKept(s, s') && forall g: FiberId :: Stays(s, s', g)
  }

  lemma OneMoves(s: State, s': State, f: FiberId)
    requires OthersSame(s, s', f) && CallsKept(s, s') && Stays(s, s', f)
    ensures NoReentry(s, s')
  {
    forall g: FiberId ensures Stays(s, s', g) {
      assert g != f ==> SameFiber(s, s', g);
    }
  }

  lemma NoneMoves(s: State, s': State)
    requires s'.fibers == s.fibers && s'.calls == s.calls
    ensures NoReentry(s, s')
  {
  }

  lemma SwapInNoReentry(s: State, w: nat, step: LoopStep)
    requires CanLoop(s, w, step)
    requires step.SwapInFiber? || step.SwapInCallback?
    ensures NoReentry(s, DoLoop(s, w, step))
  {
    match step
    case SwapInFiber => OneMoves(s, StartFiber(s, w), s.workers[w].phase.task.fiber);
    case SwapInCallback =>
      OneMoves(s, StartCall(s, w), if s.workers[w].cbFiber.Some? then s.workers[w].cbFiber.value else |s.fibers|);
  }

  /** A fiber that swaps out goes on in its call or is in user code again; the others stay. */
  ghost predicate OutOf(s: State, s': State, f: FiberId) {
    && OthersSame(s, s', f) && s'.calls == s.calls && s'.table == s.table
    && (PcOf(s', f) == PcOf(s, f) || PcOf(s', f) == Plain)
  }

  lemma YieldReadyOut(s: State, w: nat)
    requires CanYieldReady(s, w)
    ensures OutOf(s, YieldReady(s, w), Self(s, w))
  {
  }

  lemma YieldHoldOut(s: State, w: nat)
    requires CanYieldHold(s, w)
    ensures OutOf(s, YieldHold(s, w), Self(s, w))
  {
  }

  lemma FinishOut(s: State, w: nat, threw: bool)
    requires CanFinish(s, w)
    ensures OutOf(s, Finish(s, w, threw), Self(s, w))
  {
    if s.workers[w].cbFiber == Some(Self(s, w)) { FinishKept(s, w, threw); } else { FinishFreed(s, w, threw); }
    FinishCalls(s, w, threw);
    hide Finish;
  }

  lemma FinishCalls(s: State, w: nat, threw: bool)
    requires CanFinish(s, w)
    ensures Finish(s, w, threw).calls == s.calls
  {
  }

  lemma SwapOutOut(s: State, w: nat, step: LoopStep)
    requires CanLoop(s, w, step) && (step.SwapOutReady? || step.SwapOutHold? || step.SwapOutEnded?)
    ensures Runs(s, w) && OutOf(s, DoLoop(s, w, step), Self(s, w))
  {
    hide OutOf, YieldReady, YieldHold, Finish;
    match step
    case SwapOutReady => YieldReadyOut(s, w);
    case SwapOutHold => YieldHoldOut(s, w);
    case SwapOutEnded(threw) => FinishOut(s, w, threw);
  }

  lemma SwapOutNoReentry(s: State, w: nat, step: LoopStep)
    requires CanLoop(s, w, step)
    requires step.SwapOutReady? || step.SwapOutHold? || step.SwapOutEnded?
    ensures NoReentry(s, DoLoop(s, w, step))
  {
    SwapOutOut(s, w, step);
    hide DoLoop, CanLoop;
    OneMoves(s, DoLoop(s, w, step), Self(s, w));
  }

  lemma LoopNoReentry(s: State, w: nat, step: LoopStep)
    requires CanLoop(s, w, step)
    ensures NoReentry(s, DoLoop(s, w, step))
  {
    if step.SwapInFiber? || step.SwapInCallback? {
      SwapInNoReentry(s, w, step);
    } else if step.SwapOutReady? || step.SwapOutHold? || step.SwapOutEnded? {
      SwapOutNoReentry(s, w, step);
    } else {
      IdleFrame(s, w, step);
      hide DoLoop, CanLoop, NoReentry;
      NoneMoves(s, DoLoop(s, w, step));
    }
  }

  lemma CodeNoReentry(s: State, w: nat, step: CodeStep)
    requires CanCode(s, w, step)
    ensures NoReentry(s, DoCode(s, w, step))
  {
    hide TS.AddTimer, CancelOwn, ET.AddEvent, ET.CancelEvent, ET.Valid, StillWaiting, Firing, Appended;
    OneMoves(s, DoCode(s, w, step), Self(s, w));
  }

  lemma ActNoReentry(s: State, actor: Actor, op: UserOp)
    requires CanOp(s, op)
    ensures NoReentry(s, Noted(s, ApplyOp(s, op), actor))
  {
    hide ET.AddEvent, ET.DelEvent, ET.CancelEvent, ET.CancelAll, ET.Valid, Appended;
    hide TS.AddTimer, TS.Cancel, TS.Refresh, TS.Reset;
    OneMoves(s, Noted(s, ApplyOp(s, op), actor), |s.fibers|);
  }

  lemma StepNoReentry(s: State, step: Step)
    requires Enabled(s, step)
    ensures NoReentry(s, Apply(s, step))
  {
    match step
    case Loop(w, loop) => LoopNoReentry(s, w, loop);
    case Code(w, code) => CodeNoReentry(s, w, code);
    case Act(actor, op) => ActNoReentry(s, actor, op);
    case SetAutoStop => NoneMoves(s, Apply(s, step));
    case SetStopping => NoneMoves(s, Apply(s, step));
  }

  /** The weak condition of a timer never comes back to life. */
  lemma DeadStaysDead(s: State, s': State, c: CallId)
    requires NoReentry(s, s') && c < |s.calls| && !Alive(s, c)
    ensures c < |s'.calls| && !Alive(s', c)
  {
    assert SameCall(s.calls[c], s'.calls[c]);
    assert Stays(s, s', s.calls[c].owner);
  }

  lemma {:induction false} RunDead(s: State, steps: seq<Step>, c: CallId)
    requires Feasible(s, steps) && c < |s.calls| && !Alive(s, c)
    ensures c < |Run(s, steps).calls| && !Alive(Run(s, steps), c)
    decreases |steps|
  {
    if steps != [] {
      StepNoReentry(s, steps[0]);
      DeadStaysDead(s, Apply(s, steps[0]), c);
      hide Apply, Enabled, Alive;
      RunDead(Apply(s, steps[0]), steps[1..], c);
    }
  }

  /** Once a hooked call has returned, its timeout callback does nothing, however much later
      it runs: only the callback's own fiber moves on. */
  lemma LateTimeoutIsNoOp(s: State, steps: seq<Step>, c: CallId, w: nat)
    requires Feasible(s, steps) && c < |s.calls| && !Alive(s, c)
    requires var s1 := Run(s, steps); CanTest(s1, w) && SelfPc(s1, w) == TimeoutBody(c)
    ensures var s1 := Run(s, steps); TestTimeout(s1, w) == SetPc(s1, Self(s1, w), Done)
  {
    RunDead(s, steps, c);
  }
}
