/** Which step wakes a fiber that waits in a hooked call, and how program counters move. */
module ReactorWakes {
  import opened Base
  import opened Sums
  import opened RunQueue
  import opened Reactor
  import opened Tokens
  import opened LoopFlow
  import opened CodeFlow
  import opened ReactorInv
  import opened CodeKeeps
  import opened LoopKeeps
  import opened ReactorFrames
  import opened ReactorRuns
  import opened ReactorSafety
  import opened ReactorTimeout
  import RS = ReactorSteps
  import ET = EventTable
  import TS = TimerSet

  // ----- Program counters -----

  /** The moves between program counters that concern hooked calls; a fiber that comes to wait
      has registered its event in this step. */
  predicate Edge(a: Pc, b: Pc, next: CallId, registers: bool) {
    match b
    case IoTry(c) => a == b || (a == Plain && c == next) || (a.IoWoken? && a.call == c)
    case IoArm(c, _) => a == b || a == IoTry(c)
    case IoWait(c, timer) => a == b || (registers && a == IoArm(c, timer))
    case IoWoken(c, timer) => a == b || a == IoWait(c, timer)
    case IoUndo(c, timer) => a == b || a == IoArm(c, timer)
    case _ => true
  }

  predicate MovesOn(s: State, s': State, registrar: Option<FiberId>, g: FiberId) {
    Edge(PcOf(s, g), PcOf(s', g), |s.calls|, registrar == Some(g))
  }

  ghost predicate AllEdges(s: State, s': State, registrar: Option<FiberId>) {
    forall g: FiberId :: MovesOn(s, s', registrar, g)
  }

  /** The fiber whose addEvent succeeds in this step. */
  function Registrar(s: State, step: Step): Option<FiberId> {
    if step.Code? && step.code == IoRegister(true) && Runs(s, step.w) then Some(Self(s, step.w)) else None
  }

  lemma OneEdge(s: State, s': State, registrar: Option<FiberId>, f: FiberId)
    requires OthersSame(s, s', f) && MovesOn(s, s', registrar, f)
    ensures AllEdges(s, s', registrar)
  {
    forall g: FiberId ensures MovesOn(s, s', registrar, g) {
      assert g != f ==> SameFiber(s, s', g);
    }
  }

  lemma NoEdge(s: State, s': State)
    requires s'.fibers == s.fibers
    ensures AllEdges(s, s', None)
  {
  }

  lemma SwapInEdges(s: State, w: nat, step: LoopStep)
    requires CanLoop(s, w, step) && (step.SwapInFiber? || step.SwapInCallback?)
    ensures AllEdges(s, DoLoop(s, w, step), None)
  {
    match step
    case SwapInFiber => OneEdge(s, StartFiber(s, w), None, s.workers[w].phase.task.fiber);
    case SwapInCallback =>
      OneEdge(s, StartCall(s, w), None, if s.workers[w].cbFiber.Some? then s.workers[w].cbFiber.value else |s.fibers|);
  }

  lemma SwapOutEdges(s: State, w: nat, step: LoopStep)
    requires CanLoop(s, w, step) && (step.SwapOutReady? || step.SwapOutHold? || step.SwapOutEnded?)
    ensures AllEdges(s, DoLoop(s, w, step), None)
  {
    SwapOutOut(s, w, step);
    hide DoLoop, CanLoop;
    OneEdge(s, DoLoop(s, w, step), None, Self(s, w));
  }

  lemma LoopEdges(s: State, w: nat, step: LoopStep)
    requires CanLoop(s, w, step)
    ensures AllEdges(s, DoLoop(s, w, step), None)
  {
    if step.SwapInFiber? || step.SwapInCallback? {
      SwapInEdges(s, w, step);
    } else if IsSwap(step) {
      SwapOutEdges(s, w, step);
    } else {
      IdleFrame(s, w, step);
      hide DoLoop, CanLoop, AllEdges;
      NoEdge(s, DoLoop(s, w, step));
    }
  }

  lemma CodeEdges(s: State, w: nat, step: CodeStep)
    requires CanCode(s, w, step)
    ensures AllEdges(s, DoCode(s, w, step), Registrar(s, Code(w, step)))
  {
    if step.IoRegister? {
      NotAdded(s, w);
    }
    hide TS.AddTimer, CancelOwn, ET.AddEvent, ET.CancelEvent, ET.Valid, StillWaiting, Appended, Firing;
    OneEdge(s, DoCode(s, w, step), Registrar(s, Code(w, step)), Self(s, w));
  }

  lemma NotAdded(s: State, w: nat)
    requires CanIoAdd(s, w)
    ensures var call := s.calls[SelfPc(s, w).call];
      !ET.AddEvent(s.table, call.fd, call.ev, Resume(Self(s, w)), false).1
  {
  }

  lemma ActEdges(s: State, actor: Actor, op: UserOp)
    requires CanOp(s, op)
    ensures AllEdges(s, Noted(s, ApplyOp(s, op), actor), None)
  {
    hide ET.AddEvent, ET.DelEvent, ET.CancelEvent, ET.CancelAll, ET.Valid, Appended;
    hide TS.AddTimer, TS.Cancel, TS.Refresh, TS.Reset;
    OneEdge(s, Noted(s, ApplyOp(s, op), actor), None, |s.fibers|);
  }

  /** Every step of anyone follows these edges. */
  lemma StepEdges(s: State, step: Step)
    requires Enabled(s, step)
    ensures AllEdges(s, Apply(s, step), Registrar(s, step))
  {
    match step
    case Loop(w, loop) => LoopEdges(s, w, loop);
    case Code(w, code) => CodeEdges(s, w, code);
    case Act(actor, op) => ActEdges(s, actor, op);
    case _ => NoEdge(s, Apply(s, step));
  }

  // ----- What ends a wait -----

  /** The event of call c. */
  predicate Waits(s: State, c: CallId, fd: nat, ev: Event)
    requires c < |s.calls|
  {
    fd == s.calls[c].fd && ev == s.calls[c].ev
  }

  /** The step takes the event of call c off its slot: a report of EPOLLIN or EPOLLOUT, as the call
      waits for reading or writing, or of an error or a hang-up; a cancelEvent, cancelAll or
      delEvent on it, or a timeout that fires on it; and epoll_ctl succeeds. */
  predicate Takes(s: State, c: CallId, step: Step)
    requires c < |s.calls|
  {
    match step
    case Loop(_, IdleReport(report, ok)) =>
      && ok && report.Ready? && report.fd == s.calls[c].fd
      && (report.errorOrHangup || if s.calls[c].ev == READ then report.input else report.output)
    case Code(w, RunFire(ok)) =>
      ok && Runs(s, w) && SelfPc(s, w).TimeoutFire? && SelfPc(s, w).call < |s.calls|
      && var d := s.calls[SelfPc(s, w).call]; Waits(s, c, d.fd, d.ev)
    case Act(_, CancelWatch(fd, ev, ok)) => ok && Waits(s, c, fd, ev)
    case Act(_, CloseFd(fd, ok)) => ok && fd == s.calls[c].fd
    case Act(_, Unwatch(fd, ev, ok)) => ok && Waits(s, c, fd, ev)
    case _ => false
  }

  /** The one slot that holds the owner of a waiting call is that of the call's event. */
  lemma OwnSlot(s: State, c: CallId, fd: nat, ev: Event)
    requires Inv(s) && c < |s.calls| && WaitsArmed(s, c)
    ensures ET.IsArmed(s.table, s.calls[c].fd, s.calls[c].ev)
    ensures ET.IsArmed(s.table, fd, ev) ==>
      (s.table.rows[fd].Get(ev).Task() == Resume(s.calls[c].owner) <==> Waits(s, c, fd, ev))
  {
    ArmedFiberWaits(s, s.calls[c].owner);
    assert SlotAt(s, fd, ev);
  }

  /** What is left armed after `out` is taken: the owner, if it is not in `out`. */
  lemma LeftArmed(s: State, c: CallId, table: ET.Table, out: seq<Task>)
    requires Inv(s) && c < |s.calls| && WaitsArmed(s, c)
    requires ET.Armed(s.table) == ET.Armed(table) + multiset(out)
    ensures Resume(s.calls[c].owner) in ET.Armed(table) <==> Resume(s.calls[c].owner) !in out
  {
    var task := Resume(s.calls[c].owner);
    ArmedFiberWaits(s, s.calls[c].owner);
    OnceArmed(s, s.calls[c].owner);
    assert ET.Armed(s.table)[task] == ET.Armed(table)[task] + multiset(out)[task];
    assert multiset(out)[task] > 0 <==> task in out;
  }

  /** Triggering `hit` releases the owner exactly if it covers the call's event. */
  lemma ReleasedOwner(s: State, c: CallId, fd: nat, hit: Mask)
    requires Inv(s) && c < |s.calls| && WaitsArmed(s, c)
    requires fd < |s.table.rows| && s.table.rows[fd].Valid() && hit.Within(s.table.rows[fd].events)
    ensures Resume(s.calls[c].owner) in ET.Released(s.table.rows[fd], hit)
      <==> fd == s.calls[c].fd && hit.Has(s.calls[c].ev)
  {
    OwnSlot(s, c, fd, READ);
    OwnSlot(s, c, fd, WRITE);
    hide Inv, WaitsArmed;
  }

  lemma RowValid(t: ET.Table, fd: nat)
    requires ET.Valid(t) && fd < |t.rows|
    ensures t.rows[fd].Valid()
  {
  }

  /** A report that covers the call's event overlaps the armed set. */
  lemma CoveredMeets(s: State, c: CallId, hit: Mask)
    requires Inv(s) && c < |s.calls| && WaitsArmed(s, c) && hit.Has(s.calls[c].ev)
    ensures s.calls[c].fd < |s.table.rows| && s.table.rows[s.calls[c].fd].events.Meets(hit)
  {
    OwnSlot(s, c, s.calls[c].fd, s.calls[c].ev);
    hide Inv, WaitsArmed;
  }

  lemma ReportOut(s: State, w: nat, report: ET.Report, ok: bool, c: CallId)
    requires Inv(s) && CanDispatch(s, w, report, ok) && c < |s.calls| && WaitsArmed(s, c)
    ensures Resume(s.calls[c].owner) in ET.DispatchOne(s.table, report, ok).released
      <==> Takes(s, c, Loop(w, IdleReport(report, ok)))
  {
    assert ET.Inv(s.table);
    hide Inv, CanDispatch, WaitsArmed, Takes;
    if ET.Effective(s.table, report, ok) {
      EffectiveOut(s, w, report, ok, c);
    } else {
      ET.DispatchOneEffect(s.table, report, ok);
      hide ET.Inv, ET.DispatchOne, ET.Armed, ET.Released;
      NotCovered(s, w, report, ok, c);
    }
  }

  lemma NotCovered(s: State, w: nat, report: ET.Report, ok: bool, c: CallId)
    requires Inv(s) && c < |s.calls| && WaitsArmed(s, c) && (report.Ready? ==> report.fd < |s.table.rows|)
    requires !ET.Effective(s.table, report, ok)
    ensures !Takes(s, c, Loop(w, IdleReport(report, ok)))
  {
    hide Inv, WaitsArmed;
    if report.Ready? && report.Events().Has(s.calls[c].ev) { CoveredMeets(s, c, report.Events()); }
  }

  lemma EffectiveOut(s: State, w: nat, report: ET.Report, ok: bool, c: CallId)
    requires Inv(s) && CanDispatch(s, w, report, ok) && c < |s.calls| && WaitsArmed(s, c)
    requires ET.Effective(s.table, report, ok)
    ensures Resume(s.calls[c].owner) in ET.DispatchOne(s.table, report, ok).released
      <==> Takes(s, c, Loop(w, IdleReport(report, ok)))
  {
    EffectiveReleases(s.table, report, ok);
    RowValid(s.table, report.fd);
    assert ok && report.Ready?;
    hide Inv, ET.Inv, ET.Valid, ET.DispatchOne, ET.Effective, ET.Released, WaitsArmed;
    ReleasedOwner(s, c, report.fd, report.Events());
  }

  lemma EffectiveReleases(t: ET.Table, report: ET.Report, ok: bool)
    requires ET.Inv(t) && (report.Ready? ==> report.fd < |t.rows|) && ET.DispatchOne(t, report, ok).Running?
    requires ET.Effective(t, report, ok)
    ensures report.Events().Within(t.rows[report.fd].events)
    ensures ET.DispatchOne(t, report, ok).released == ET.Released(t.rows[report.fd], report.Events())
  {
    ET.DispatchOneEffect(t, report, ok);
    hide ET.Inv, ET.DispatchOne, ET.Armed, ET.Released;
  }

  lemma ReportTakes(s: State, w: nat, report: ET.Report, ok: bool, c: CallId)
    requires Inv(s) && CanDispatch(s, w, report, ok) && c < |s.calls| && WaitsArmed(s, c)
    ensures Resume(s.calls[c].owner) in ET.Armed(Dispatch(s, w, report, ok).table)
      <==> !Takes(s, c, Loop(w, IdleReport(report, ok)))
  {
    var done := ET.DispatchOne(s.table, report, ok);
    ET.DispatchOneEffect(s.table, report, ok);
    LeftArmed(s, c, done.table, done.released);
    ReportOut(s, w, report, ok, c);
    assert Dispatch(s, w, report, ok).table == done.table;
    hide *;
  }

  lemma CloseTakes(s: State, fd: nat, ok: bool, c: CallId)
    requires Inv(s) && c < |s.calls| && WaitsArmed(s, c)
    ensures Resume(s.calls[c].owner) in ET.Armed(ET.CancelAll(s.table, fd, ok).0) <==> !(ok && fd == s.calls[c].fd)
  {
    var (table, out) := ET.CancelAll(s.table, fd, ok);
    ET.CancelAllEffect(s.table, fd, ok);
    LeftArmed(s, c, table, out);
    OwnSlot(s, c, fd, s.calls[c].ev);
    if fd < |s.table.rows| && ok {
      RowValid(s.table, fd);
      ReleasedOwner(s, c, fd, s.table.rows[fd].events);
    }
    hide Inv, ET.Inv, ET.CancelAll, ET.Armed, ET.Released, WaitsArmed;
  }

  lemma DeleteTakes(s: State, fd: nat, ev: Event, ok: bool, c: CallId)
    requires Inv(s) && c < |s.calls| && WaitsArmed(s, c)
    ensures Resume(s.calls[c].owner) in ET.Armed(ET.DelEvent(s.table, fd, ev, ok).0) <==> !(ok && Waits(s, c, fd, ev))
  {
    ET.DelEventEffect(s.table, fd, ev, ok);
    OwnSlot(s, c, fd, ev);
    var table := ET.DelEvent(s.table, fd, ev, ok).0;
    if ok && ET.IsArmed(s.table, fd, ev) {
      var task := s.table.rows[fd].Get(ev).Task();
      assert multiset([task]) == multiset{task};
      LeftArmed(s, c, table, [task]);
    }
    hide Inv, ET.Inv, ET.DelEvent, ET.Armed, WaitsArmed;
  }

  lemma CancelTakes(s: State, fd: nat, ev: Event, ok: bool, c: CallId)
    requires Inv(s) && c < |s.calls| && WaitsArmed(s, c)
    ensures Resume(s.calls[c].owner) in ET.Armed(ET.CancelEvent(s.table, fd, ev, ok).0)
      <==> !(ok && Waits(s, c, fd, ev))
  {
    CancelReleases(s, c, fd, ev, ok);
    hide Inv, ET.CancelEvent, ET.Armed, WaitsArmed;
  }

  lemma AddKeepsArmed(s: State, fd: nat, ev: Event, task: Task, ok: bool, t: Task)
    requires ET.Inv(s.table) && ET.CanAdd(s.table, fd, ev)
    ensures t in ET.Armed(s.table) ==> t in ET.Armed(ET.AddEvent(s.table, fd, ev, task, ok).0)
  {
    ET.AddEventEffect(s.table, fd, ev, task, ok);
    hide ET.Inv, ET.AddEvent, ET.Armed;
  }

  // ----- Every step -----

  /** A waiting fiber is not the one that a worker swaps in. */
  lemma NotSwappedIn(s: State, w: nat, c: CallId)
    requires Inv(s) && c < |s.calls| && WaitsArmed(s, c)
    requires w < |s.workers| && s.workers[w].phase.Popped? && s.workers[w].phase.task.Resume?
    ensures s.workers[w].phase.task.fiber != s.calls[c].owner
  {
    var f := s.calls[c].owner;
    ArmedFiberWaits(s, f);
    InHandHas(s, w, s.workers[w].phase.task);
    assert OkAt(s, f);
  }

  lemma SwapInKeeps(s: State, w: nat, step: LoopStep, c: CallId)
    requires Inv(s) && CanLoop(s, w, step) && (step.SwapInFiber? || step.SwapInCallback?)
    requires c < |s.calls| && WaitsArmed(s, c)
    ensures PcOf(DoLoop(s, w, step), s.calls[c].owner) == PcOf(s, s.calls[c].owner)
    ensures DoLoop(s, w, step).table == s.table
  {
    ArmedFiberWaits(s, s.calls[c].owner);
    hide WaitsArmed;
    if step.SwapInFiber? {
      NotSwappedIn(s, w, c);
    } else if s.workers[w].cbFiber.Some? {
      ReusePc(s, w);
    }
    hide Inv, ET.Armed, WorkersOk, Candidate;
  }

  lemma SwapOutKeepsPc(s: State, w: nat, step: LoopStep, c: CallId)
    requires CanLoop(s, w, step) && (step.SwapOutReady? || step.SwapOutHold? || step.SwapOutEnded?)
    requires c < |s.calls| && WaitsArmed(s, c)
    ensures PcOf(DoLoop(s, w, step), s.calls[c].owner) == PcOf(s, s.calls[c].owner)
    ensures DoLoop(s, w, step).table == s.table
  {
    SwapOutOut(s, w, step);
    OutPc(s, w, step);
    WaitingPc(s, c);
    if s.calls[c].owner == Self(s, w) { HoldsPc(s, w, step); }
    hide DoLoop, CanLoop, WaitsArmed;
    if s.calls[c].owner != Self(s, w) { assert SameFiber(s, DoLoop(s, w, step), s.calls[c].owner); }
  }

  lemma HoldsPc(s: State, w: nat, step: LoopStep)
    requires CanLoop(s, w, step) && (step.SwapOutReady? || step.SwapOutHold? || step.SwapOutEnded?)
    requires Runs(s, w) && SelfPc(s, w).IoWait?
    ensures PcOf(DoLoop(s, w, step), Self(s, w)) == SelfPc(s, w)
  {
  }

  lemma OtherKeeps(s: State, w: nat, step: LoopStep)
    requires CanLoop(s, w, step) && !IsSwap(step)
    ensures DoLoop(s, w, step).fibers == s.fibers
    ensures !step.IdleReport? ==> DoLoop(s, w, step).table == s.table
  {
    IdleFrame(s, w, step);
    hide DoLoop, CanLoop;
  }

  lemma LoopWakes(s: State, w: nat, step: LoopStep, c: CallId)
    requires Inv(s) && CanLoop(s, w, step) && c < |s.calls| && WaitsArmed(s, c)
    ensures c < |DoLoop(s, w, step).calls|
    ensures WaitsArmed(DoLoop(s, w, step), c) <==> !Takes(s, c, Loop(w, step))
  {
    LoopFrame(s, w, step);
    if step.SwapInFiber? || step.SwapInCallback? {
      SwapInKeeps(s, w, step, c);
    } else if IsSwap(step) {
      SwapOutKeepsPc(s, w, step, c);
    } else {
      OtherKeeps(s, w, step);
      if step.IdleReport? { ReportTakes(s, w, step.report, step.ok, c); }
    }
    hide Inv, CanLoop, ET.Armed;
    if !step.IdleReport? { hide DoLoop; }
  }

  /** The running fiber waits for nothing: it is at another program counter. */
  lemma CodeKeepsWait(s: State, w: nat, step: CodeStep, c: CallId)
    requires CanCode(s, w, step) && c < |s.calls| && WaitsArmed(s, c)
    ensures c < |DoCode(s, w, step).calls| && DoCode(s, w, step).calls[c].owner == s.calls[c].owner
    ensures PcOf(DoCode(s, w, step), s.calls[c].owner) == PcOf(s, s.calls[c].owner)
    ensures !step.IoRegister? && !step.RunFire? ==> DoCode(s, w, step).table == s.table
  {
    hide WaitsArmed;
    WaitingPc(s, c);
    if step.RunFire? {
      FireIs(s, w, step.ok);
      FireCalls(s, w, step.ok, c);
      hide FireTimeout, ReactorTimeout.Released;
    } else if step.RunWake? || step.RunTest? || step.RunSet? {
    } else {
      IoKeepsWait(s, w, step, c);
      hide DoCode, CanCode;
    }
  }

  lemma WaitingPc(s: State, c: CallId)
    requires c < |s.calls| && WaitsArmed(s, c)
    ensures PcOf(s, s.calls[c].owner).IoWait?
  {
    hide ET.Armed;
  }

  lemma FireCalls(s: State, w: nat, ok: bool, c: CallId)
    requires CanFire(s, w) && c < |s.calls|
    ensures c < |FireTimeout(s, w, ok).calls|
    ensures FireTimeout(s, w, ok).calls[c] == s.calls[c].(missed := FireTimeout(s, w, ok).calls[c].missed)
    ensures FireTimeout(s, w, ok).fibers == s.fibers[Self(s, w) := Fiber(EXEC, Done)]
  {
    hide ET.CancelEvent, StillWaiting, Firing, Appended, ET.Valid;
  }

  lemma IoKeepsWait(s: State, w: nat, step: CodeStep, c: CallId)
    requires CanCode(s, w, step) && !step.RunFire? && !step.RunWake? && !step.RunTest? && !step.RunSet?
    requires c < |s.calls| && PcOf(s, s.calls[c].owner).IoWait?
    ensures c < |DoCode(s, w, step).calls| && DoCode(s, w, step).calls[c] == s.calls[c]
    ensures PcOf(DoCode(s, w, step), s.calls[c].owner) == PcOf(s, s.calls[c].owner)
    ensures !step.IoRegister? ==> DoCode(s, w, step).table == s.table
  {
    SameFlags(s, w, step, c);
    OnlySelf(s, w, step);
    hide DoCode, CanCode;
  }

  lemma OnlySelf(s: State, w: nat, step: CodeStep)
    requires CanCode(s, w, step) && !step.RunFire? && !step.RunWake? && !step.RunTest? && !step.RunSet?
    ensures Runs(s, w) && !SelfPc(s, w).IoWait?
    ensures forall g: FiberId :: g != Self(s, w) ==> PcOf(DoCode(s, w, step), g) == PcOf(s, g)
    ensures !step.IoRegister? ==> DoCode(s, w, step).table == s.table
  {
    hide TS.AddTimer, CancelOwn, ET.AddEvent;
  }

  lemma RegisterTable(s: State, w: nat, ok: bool)
    requires CanIoAdd(s, w)
    ensures var call := s.calls[SelfPc(s, w).call];
      IoAdd(s, w, ok).table == ET.AddEvent(s.table, call.fd, call.ev, Resume(Self(s, w)), ok).0
  {
    hide ET.AddEvent;
  }

  lemma CodeWakes(s: State, w: nat, step: CodeStep, c: CallId)
    requires Inv(s) && CanCode(s, w, step) && c < |s.calls| && WaitsArmed(s, c)
    ensures c < |DoCode(s, w, step).calls|
    ensures WaitsArmed(DoCode(s, w, step), c) <==> !Takes(s, c, Code(w, step))
  {
    CodeKeepsWait(s, w, step, c);
    StillArmed(s, c);
    WaitingPc(s, c);
    if step.IoRegister? {
      RegisterKeeps(s, w, step.ok, c);
    } else if step.RunFire? {
      FireTakes(s, w, step.ok, c);
    }
    hide Inv, ET.Armed, IoAdd, FireTimeout;
    if !step.IoRegister? && !step.RunFire? { hide DoCode, CanCode; }
  }

  lemma RegisterKeeps(s: State, w: nat, ok: bool, c: CallId)
    requires Inv(s) && CanIoAdd(s, w) && c < |s.calls| && WaitsArmed(s, c)
    ensures Resume(s.calls[c].owner) in ET.Armed(IoAdd(s, w, ok).table)
  {
    var call := s.calls[SelfPc(s, w).call];
    RegisterTable(s, w, ok);
    AddKeepsArmed(s, call.fd, call.ev, Resume(Self(s, w)), ok, Resume(s.calls[c].owner));
    hide Inv, ET.Inv, ET.Armed, ET.AddEvent, IoAdd;
  }

  lemma FireTakes(s: State, w: nat, ok: bool, c: CallId)
    requires Inv(s) && CanFire(s, w) && c < |s.calls| && WaitsArmed(s, c)
    ensures Resume(s.calls[c].owner) in ET.Armed(FireTimeout(s, w, ok).table) <==> !Takes(s, c, Code(w, RunFire(ok)))
  {
    var d := s.calls[SelfPc(s, w).call];
    CancelTakes(s, d.fd, d.ev, ok, c);
    FireIs(s, w, ok);
    ReleasedIs(s, w, ok);
    hide Inv, ET.Inv, ET.Armed, ET.CancelEvent, FireTimeout, ReactorTimeout.Released, WaitsArmed;
  }

  lemma OpTakes(s: State, c: CallId, actor: Actor, op: UserOp)
    requires c < |s.calls|
    ensures Takes(s, c, Act(actor, op)) <==>
      match op
      case Unwatch(fd, ev, ok) => ok && Waits(s, c, fd, ev)
      case CancelWatch(fd, ev, ok) => ok && Waits(s, c, fd, ev)
      case CloseFd(fd, ok) => ok && fd == s.calls[c].fd
      case _ => false
  {
  }

  lemma OpArmed(s: State, actor: Actor, op: UserOp, c: CallId)
    requires Inv(s) && CanOp(s, op) && c < |s.calls| && WaitsArmed(s, c)
    ensures Resume(s.calls[c].owner) in ET.Armed(ApplyOp(s, op).table) <==> !Takes(s, c, Act(actor, op))
  {
    RS.OpTable(s, op);
    OpTakes(s, c, actor, op);
    hide *;
    match op
    case Watch(fd, ev, id, ok) => WatchKeeps(s, op, c);
    case Unwatch(fd, ev, ok) => DeleteTakes(s, fd, ev, ok, c);
    case CancelWatch(fd, ev, ok) => CancelTakes(s, fd, ev, ok, c);
    case CloseFd(fd, ok) => CloseTakes(s, fd, ok, c);
    case _ => StillArmed(s, c);
  }

  lemma WatchKeeps(s: State, op: UserOp, c: CallId)
    requires Inv(s) && op.Watch? && CanOp(s, op) && c < |s.calls| && WaitsArmed(s, c)
    ensures Resume(s.calls[c].owner) in ET.Armed(ET.AddEvent(s.table, op.fd, op.ev, Call(User(op.id)), op.ok).0)
  {
    AddKeepsArmed(s, op.fd, op.ev, Call(User(op.id)), op.ok, Resume(s.calls[c].owner));
    hide Inv, ET.Inv, ET.Armed, ET.AddEvent;
  }

  lemma StillArmed(s: State, c: CallId)
    requires c < |s.calls| && WaitsArmed(s, c)
    ensures Resume(s.calls[c].owner) in ET.Armed(s.table)
  {
    hide ET.Armed;
  }

  /** Beside the table and new fibers, nothing that a wait depends on has changed. */
  lemma WaitIsArmed(s: State, s': State, c: CallId)
    requires c < |s.calls| && WaitsArmed(s, c) && s'.calls == s.calls && s.fibers <= s'.fibers
    ensures WaitsArmed(s', c) <==> Resume(s.calls[c].owner) in ET.Armed(s'.table)
  {
    hide ET.Armed;
  }

  lemma OpWakes(s: State, actor: Actor, op: UserOp, c: CallId)
    requires Inv(s) && CanOp(s, op) && c < |s.calls| && WaitsArmed(s, c)
    ensures c < |ApplyOp(s, op).calls|
    ensures WaitsArmed(ApplyOp(s, op), c) <==> !Takes(s, c, Act(actor, op))
  {
    OpFrame(s, op);
    RS.OpTable(s, op);
    RS.OpFibers(s, op);
    hide Inv, ApplyOp, CanOp, WaitsArmed, ET.Armed, Takes;
    OpArmed(s, actor, op, c);
    WaitIsArmed(s, ApplyOp(s, op), c);
  }

  /** In every reachable state, a step of anyone ends the wait of a call exactly if it takes
      the call's event off its slot. */
  lemma WokenExactly(s: State, c: CallId, step: Step)
    requires Inv(s) && c < |s.calls| && WaitsArmed(s, c) && Enabled(s, step)
    ensures c < |Apply(s, step).calls|
    ensures !WaitsArmed(Apply(s, step), c) <==> Takes(s, c, step)
  {
    hide Inv, DoLoop, DoCode, ApplyOp, CanLoop, CanCode, CanOp;
    match step
    case Loop(w, loop) => LoopWakes(s, w, loop, c);
    case Code(w, code) => CodeWakes(s, w, code, c);
    case Act(actor, op) =>
      OpWakes(s, actor, op, c);
      WaitsNoted(s, ApplyOp(s, op), actor, c);
    case _ =>
  }

  lemma WaitsNoted(s: State, s1: State, actor: Actor, c: CallId)
    requires c < |s1.calls|
    ensures WaitsArmed(Noted(s, s1, actor), c) == WaitsArmed(s1, c)
  {
  }

  /** And no step but the call's own timeout sets its `cancelled`. */
  lemma CancelledByOwnTimeout(s: State, c: CallId, step: Step)
    requires c < |s.calls| && Enabled(s, step)
    requires !(step.Code? && step.code.RunSet? && SelfPc(s, step.w) == TimeoutSet(c))
    ensures c < |Apply(s, step).calls| && Apply(s, step).calls[c].cancelled == s.calls[c].cancelled
  {
    match step
    case Loop(w, loop) =>
      LoopFrame(s, w, loop);
      hide DoLoop;
    case Code(w, code) =>
      CodeCancelled(s, w, code, c);
      hide DoCode;
    case Act(actor, op) =>
      OpFrame(s, op);
      hide ApplyOp;
    case _ =>
  }

  lemma CodeCancelled(s: State, w: nat, step: CodeStep, c: CallId)
    requires CanCode(s, w, step) && c < |s.calls|
    requires !(step.RunSet? && SelfPc(s, w) == TimeoutSet(c))
    ensures c < |DoCode(s, w, step).calls| && DoCode(s, w, step).calls[c].cancelled == s.calls[c].cancelled
  {
    if step.RunFire? {
      FireCalls(s, w, step.ok, c);
      hide FireTimeout;
    } else if !step.RunSet? {
      SameFlags(s, w, step, c);
      hide DoCode;
    }
  }

  lemma SameFlags(s: State, w: nat, step: CodeStep, c: CallId)
    requires CanCode(s, w, step) && !step.RunFire? && !step.RunSet? && c < |s.calls|
    ensures c < |DoCode(s, w, step).calls| && DoCode(s, w, step).calls[c] == s.calls[c]
  {
    hide TS.AddTimer, CancelOwn, ET.AddEvent;
  }
}
