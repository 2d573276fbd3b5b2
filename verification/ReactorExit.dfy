/** When workers leave, and what they leave behind. */
module ReactorExit {
  import opened Base
  import opened Sums
  import opened RunQueue
  import opened Reactor
  import opened Tokens
  import opened LoopFlow
  import opened CodeFlow
  import opened ReactorInv
  import opened LoopKeeps
  import opened CodeKeeps
  import opened ReactorFrames
  import opened ReactorRuns
  import opened ReactorSafety
  import ET = EventTable
  import TS = TimerSet

  /** A stop is requested, and there is nothing queued, active, armed or timed. */
  predicate Quiescent(s: State) {
    NothingToDo(s) && s.timers.items == [] && s.table.pending == 0
  }

  // ----- The three reads of stopping() -----

  /** Undisturbed, the three reads end the idle fiber exactly at a quiescent moment. */
  lemma StoppingIsQuiescent(s: State, w: nat, now: TS.u64)
    requires CanCheckStop(s, w, now) && !s.workers[w].idleDone
    ensures Quiescent(s) <==>
      && InPhase(CheckStop(s, w, now), w, IdleEvents)
      && InPhase(CheckEvents(CheckStop(s, w, now), w), w, IdleQueue)
      && CheckQueue(CheckEvents(CheckStop(s, w, now), w), w).workers[w].idleDone
  {
    TimersRead(s, w, now);
  }

  lemma TimersRead(s: State, w: nat, now: TS.u64)
    requires CanCheckStop(s, w, now)
    ensures InPhase(CheckStop(s, w, now), w, IdleEvents) <==> s.timers.items == []
  {
  }

  /** How a step changes what a worker has read: each read follows the one before, and finds
      nothing; and only a worker whose idle fiber has ended leaves run. */
  predicate Leaves(s: State, before: Worker, after: Worker) {
    && (after.idleDone ==> before.idleDone || (before.phase == IdleQueue && NothingToDo(s)))
    && (after.phase == IdleQueue ==> before.phase == IdleQueue || (before.phase == IdleEvents && s.table.pending == 0))
    && (after.phase == IdleEvents ==> before.phase == IdleEvents || (before.phase == IdleCheck && s.timers.items == []))
    && (after.phase == Exited ==> before.phase == Exited || before.idleDone)
  }

  lemma LoopLeaves(s: State, v: nat, step: LoopStep, w: nat)
    requires CanLoop(s, v, step) && w < |s.workers|
    ensures w < |DoLoop(s, v, step).workers| && Leaves(s, s.workers[w], DoLoop(s, v, step).workers[w])
  {
    if step.SwapInFiber? || step.SwapInCallback? {
      SwapInFrame(s, v, step);
      hide DoLoop;
    } else if IsSwap(step) {
      SwapOutFrame(s, v, step);
      hide DoLoop;
    } else {
      IdleLeaves(s, v, step, w);
      hide DoLoop, Leaves;
    }
  }

  lemma IdleLeaves(s: State, v: nat, step: LoopStep, w: nat)
    requires CanLoop(s, v, step) && !IsSwap(step) && w < |s.workers|
    ensures w < |DoLoop(s, v, step).workers| && Leaves(s, s.workers[w], DoLoop(s, v, step).workers[w])
  {
    hide Leaves;
    if step.IdleStop? || step.IdlePending? || step.IdleQuit? || step.TakeNothing? || step.SwapInDead? {
      ReadLeaves(s, v, step, w);
    } else {
      WorkLeaves(s, v, step, w);
    }
  }

  lemma ReadLeaves(s: State, v: nat, step: LoopStep, w: nat)
    requires CanLoop(s, v, step) && w < |s.workers|
    requires step.IdleStop? || step.IdlePending? || step.IdleQuit? || step.TakeNothing? || step.SwapInDead?
    ensures w < |DoLoop(s, v, step).workers| && Leaves(s, s.workers[w], DoLoop(s, v, step).workers[w])
  {
    if step.IdleStop? { TimersRead(s, v, step.now); }
    hide TS.GetNextTimer, Candidate, NothingToDo;
  }

  lemma WorkLeaves(s: State, v: nat, step: LoopStep, w: nat)
    requires CanLoop(s, v, step) && w < |s.workers|
    requires || step.TakeEntry? || step.ScheduleReady? || step.IdleExpire? || step.IdleSchedule?
             || step.IdleReport? || step.IdleOut?
    ensures w < |DoLoop(s, v, step).workers| && Leaves(s, s.workers[w], DoLoop(s, v, step).workers[w])
  {
    hide TS.Expiry, ET.DispatchOne, Candidate, NothingToDo, Appended, Without;
  }

  lemma StepLeaves(s: State, step: Step, w: nat)
    requires Enabled(s, step) && w < |s.workers|
    ensures w < |Apply(s, step).workers| && Leaves(s, s.workers[w], Apply(s, step).workers[w])
  {
    if step.Loop? {
      LoopLeaves(s, step.w, step.loop, w);
      hide DoLoop, Leaves;
    } else {
      SameWorkers(s, step);
      hide Apply;
    }
  }

  /** Only the run loop touches workers. */
  lemma SameWorkers(s: State, step: Step)
    requires Enabled(s, step) && !step.Loop?
    ensures Apply(s, step).workers == s.workers
  {
    match step
    case Code(w, code) =>
      CodeFrame(s, w, code);
      hide DoCode;
    case Act(actor, op) =>
      OpFrame(s, op);
      hide ApplyOp;
    case SetAutoStop =>
    case SetStopping =>
  }

  // ----- Leaving needs a check that finds nothing -----

  /** The state of a run after its first k steps. */
  ghost function StateAt(s: State, steps: seq<Step>, k: nat): State
    requires Feasible(s, steps) && k <= |steps|
    decreases k
  {
    if k == 0 then s else StateAt(Apply(s, steps[0]), steps[1..], k - 1)
  }

  lemma {:induction false} AtStep(s: State, steps: seq<Step>, k: nat)
    requires Feasible(s, steps) && k < |steps|
    ensures Enabled(StateAt(s, steps, k), steps[k])
    ensures StateAt(s, steps, k + 1) == Apply(StateAt(s, steps, k), steps[k])
    decreases k
  {
    hide Apply, Enabled;
    if k > 0 {
      AtStep(Apply(s, steps[0]), steps[1..], k - 1);
      assert steps[1..][k - 1] == steps[k];
    }
  }

  lemma {:induction false} AtEnd(s: State, steps: seq<Step>)
    requires Feasible(s, steps)
    ensures StateAt(s, steps, |steps|) == Run(s, steps)
    decreases |steps|
  {
    hide Apply, Enabled;
    if steps != [] {
      AtEnd(Apply(s, steps[0]), steps[1..]);
    }
  }

  lemma {:induction false} WorkersStay(s: State, steps: seq<Step>, k: nat, w: nat)
    requires Feasible(s, steps) && k <= |steps| && w < |s.workers|
    ensures w < |StateAt(s, steps, k).workers|
    decreases k
  {
    hide Apply, Enabled, Leaves;
    if k > 0 {
      StepLeaves(s, steps[0], w);
      WorkersStay(Apply(s, steps[0]), steps[1..], k - 1, w);
    }
  }

  /** Worker w as it is after k steps. */
  ghost function WorkerAt(s: State, steps: seq<Step>, k: nat, w: nat): Worker
    requires Feasible(s, steps) && k <= |steps| && w < |s.workers|
  {
    WorkersStay(s, steps, k, w);
    StateAt(s, steps, k).workers[w]
  }

  lemma OneBack(s: State, steps: seq<Step>, k: nat, w: nat)
    requires Feasible(s, steps) && k < |steps| && w < |s.workers|
    ensures Leaves(StateAt(s, steps, k), WorkerAt(s, steps, k, w), WorkerAt(s, steps, k + 1, w))
  {
    AtStep(s, steps, k);
    WorkersStay(s, steps, k, w);
    hide StateAt, Leaves;
    StepLeaves(StateAt(s, steps, k), steps[k], w);
  }

  /** From step i + 1 to step k worker w is in this phase, and before it was not. */
  ghost predicate Since(s: State, steps: seq<Step>, w: nat, phase: Phase, i: nat, k: nat)
    requires Feasible(s, steps) && k <= |steps| && w < |s.workers|
  {
    && i < k && WorkerAt(s, steps, i, w).phase != phase
    && forall m: nat :: i < m <= k ==> WorkerAt(s, steps, m, w).phase == phase
  }

  lemma {:induction false} EnteredPhase(s: State, steps: seq<Step>, w: nat, phase: Phase, k: nat) returns (i: nat)
    requires Feasible(s, steps) && k <= |steps| && w < |s.workers|
    requires s.workers[w].phase != phase && WorkerAt(s, steps, k, w).phase == phase
    ensures Since(s, steps, w, phase, i, k)
    decreases k
  {
    hide StateAt;
    assert k > 0 by { WorkerStart(s, steps, w); }
    hide WorkerAt, Feasible, Since;
    if WorkerAt(s, steps, k - 1, w).phase == phase {
      i := EnteredPhase(s, steps, w, phase, k - 1);
      SinceLonger(s, steps, w, phase, i, k - 1);
    } else {
      i := k - 1;
      SinceOne(s, steps, w, phase, i);
    }
  }

  lemma SinceOne(s: State, steps: seq<Step>, w: nat, phase: Phase, i: nat)
    requires Feasible(s, steps) && i < |steps| && w < |s.workers|
    requires WorkerAt(s, steps, i, w).phase != phase && WorkerAt(s, steps, i + 1, w).phase == phase
    ensures Since(s, steps, w, phase, i, i + 1)
  {
    hide WorkerAt, Feasible;
  }

  lemma SinceLonger(s: State, steps: seq<Step>, w: nat, phase: Phase, i: nat, k: nat)
    requires Feasible(s, steps) && k < |steps| && w < |s.workers|
    requires Since(s, steps, w, phase, i, k) && WorkerAt(s, steps, k + 1, w).phase == phase
    ensures Since(s, steps, w, phase, i, k + 1)
  {
    hide WorkerAt, Feasible;
  }

  lemma WorkerStart(s: State, steps: seq<Step>, w: nat)
    requires Feasible(s, steps) && w < |s.workers|
    ensures WorkerAt(s, steps, 0, w) == s.workers[w]
  {
  }

  lemma LeftQueue(s: State, steps: seq<Step>, w: nat, k: nat)
    requires Feasible(s, steps) && k < |steps| && w < |s.workers|
    requires Leaves(StateAt(s, steps, k), WorkerAt(s, steps, k, w), WorkerAt(s, steps, k + 1, w))
    ensures WorkerAt(s, steps, k + 1, w).idleDone && !WorkerAt(s, steps, k, w).idleDone ==>
      WorkerAt(s, steps, k, w).phase == IdleQueue && NothingToDo(StateAt(s, steps, k))
  {
    hide StateAt, WorkerAt, NothingToDo;
  }

  lemma {:induction false} IdleFiberEnds(s: State, steps: seq<Step>, w: nat, k: nat) returns (c: nat)
    requires Feasible(s, steps) && k <= |steps| && w < |s.workers|
    requires !s.workers[w].idleDone && WorkerAt(s, steps, k, w).idleDone
    ensures c < k && WorkerAt(s, steps, c, w).phase == IdleQueue && NothingToDo(StateAt(s, steps, c))
    decreases k
  {
    hide StateAt;
    assert k > 0 by { WorkerStart(s, steps, w); }
    OneBack(s, steps, k - 1, w);
    hide NothingToDo, WorkerAt, Leaves, Feasible;
    LeftQueue(s, steps, w, k - 1);
    if WorkerAt(s, steps, k - 1, w).idleDone {
      c := IdleFiberEnds(s, steps, w, k - 1);
    } else {
      c := k - 1;
    }
  }

  /** The idle fiber of worker w ended on this check: the timers were read at step a, the
      pending count at step b, the scheduler's state at step c, and nothing was found. */
  ghost predicate CheckedAt(s: State, steps: seq<Step>, w: nat, a: nat, b: nat, c: nat)
    requires Feasible(s, steps) && w < |s.workers| && c <= |steps|
  {
    && Since(s, steps, w, IdleQueue, b, c) && Since(s, steps, w, IdleEvents, a, b)
    && StateAt(s, steps, a).timers.items == [] && StateAt(s, steps, b).table.pending == 0
    && NothingToDo(StateAt(s, steps, c))
  }

  /** A worker leaves run only after one check whose three reads found nothing: no timer, then
      no pending event, then no queued or active task and a stop requested. */
  lemma ExitNeedsCheck(s: State, steps: seq<Step>, w: nat) returns (a: nat, b: nat, c: nat)
    requires Feasible(s, steps) && w < |s.workers| && Attentive(s.workers[w]) && s.workers[w].phase != Exited
    requires w < |Run(s, steps).workers| && Run(s, steps).workers[w].phase == Exited
    ensures c <= |steps| && CheckedAt(s, steps, w, a, b, c)
  {
    AtEnd(s, steps);
    var x := EnteredPhase(s, steps, w, Exited, |steps|);
    OneBack(s, steps, x, w);
    c := IdleFiberEnds(s, steps, w, x);
    b := EnteredPhase(s, steps, w, IdleQueue, c);
    OneBack(s, steps, b, w);
    a := EnteredPhase(s, steps, w, IdleEvents, b);
    OneBack(s, steps, a, w);
    hide StateAt;
  }

  // ----- When nothing is left -----

  /** No expired callbacks and no READY fiber in hand that is still to be scheduled. */
  predicate EmptyHanded(w: Worker) {
    !w.phase.Requeue? && (w.phase.IdleFlush? ==> w.phase.cbs == [])
  }

  /** Quiescent, and no worker carries something that it has not scheduled yet. */
  predicate Settled(s: State) {
    Quiescent(s) && forall w <- s.workers :: EmptyHanded(w)
  }

  lemma NoneBusy(s: State, w: nat)
    requires CensusOk(s) && s.active == 0 && w < |s.workers|
    ensures !s.workers[w].phase.Popped? && !s.workers[w].phase.Running?
  {
    GatherHas(s.workers, w, UnitOf);
    assert UnitOf(s.workers[w])[Busy] <= Census(s)[Busy];
  }

  lemma NothingArmed(t: ET.Table)
    requires ET.Inv(t) && t.pending == 0
    ensures forall fd: nat, ev: Event :: !ET.IsArmed(t, fd, ev)
    ensures ET.Armed(t) == multiset{}
  {
    forall i | 0 <= i < |t.rows| ensures t.rows[i].events == NONE {
      GatherHas(t.rows, i, ET.RowBits);
      assert |ET.RowBits(t.rows[i])| <= |ET.Bits(t)|;
    }
    forall i | 0 <= i < |t.rows| ensures ET.RowTasks(t.rows[i]) == multiset{} {
      assert t.rows[i].Valid();
    }
    GatherNone(t.rows, ET.RowTasks);
  }

  lemma NoOneExecutes(s: State, f: FiberId)
    requires Inv(s) && s.active == 0 && f < |s.fibers|
    ensures s.fibers[f].state != EXEC
  {
    assert OkAt(s, f);
    if s.fibers[f].state == EXEC {
      var w := GatherFrom(s.workers, f, Holds);
      NoneBusy(s, w);
    }
  }

  lemma SettledBodies(s: State)
    requires Inv(s) && Settled(s)
    ensures InBody(s) == NOTHING
  {
    forall f | 0 <= f < |s.fibers| ensures BodyTasks(s.fibers[f]) == NOTHING {
      NoOneExecutes(s, f);
      assert OkAt(s, f);
    }
    GatherNone(s.fibers, BodyTasks);
  }

  lemma SettledHands(s: State)
    requires Inv(s) && Settled(s)
    ensures InHand(s) == NOTHING
  {
    forall w | 0 <= w < |s.workers| ensures WorkerTasks(s.workers[w]) == NOTHING {
      NoneBusy(s, w);
      assert EmptyHanded(s.workers[w]);
    }
    GatherNone(s.workers, WorkerTasks);
  }

  /** In a settled state no task is outstanding anywhere: not in the queue, a slot, the
      timer set, a worker's hands or a callback's body. */
  lemma SettledIsEmpty(s: State, t: Task)
    requires Inv(s) && Settled(s)
    ensures Count(s, t) == 0
  {
    NothingArmed(s.table);
    SettledBodies(s);
    SettledHands(s);
  }

  /** And no fiber is suspended, except those that delEvent cut off. */
  lemma SettledFibers(s: State, f: FiberId)
    requires Inv(s) && Settled(s) && f < |s.fibers|
    ensures Disposable(s.fibers[f].state) || (s.fibers[f].state == HOLD && f in s.dropped)
  {
    SettledIsEmpty(s, Resume(f));
    SettledIsEmpty(s, Call(Wake(f)));
    NoOneExecutes(s, f);
    assert OkAt(s, f);
  }

  // ----- A settled state stays settled -----

  /** Steps of workers and fibers, and of the thread that stops the scheduler. */
  predicate Internal(step: Step) {
    step.Act? ==> step.actor.Inside?
  }

  predicate IsIdleStep(step: LoopStep) {
    || step.TakeNothing? || step.IdleStop? || step.IdlePending? || step.IdleQuit?
    || step.IdleExpire? || step.IdleSchedule? || step.IdleOut?
  }

  /** With nothing queued or carried and no one running, only idle steps are left. */
  lemma SettledSteps(s: State, step: Step)
    requires Inv(s) && Settled(s) && Enabled(s, step) && Internal(step)
    ensures step.Loop? || step.SetAutoStop? || step.SetStopping?
    ensures step.Loop? ==> step.w < |s.workers| && (IsIdleStep(step.loop) || step.loop.IdleReport?)
  {
    if step.Loop? && step.w < |s.workers| {
      NoneBusy(s, step.w);
      assert EmptyHanded(s.workers[step.w]);
    }
    if step.Code? && step.w < |s.workers| { NoneBusy(s, step.w); }
    if step.Act? && step.actor.worker < |s.workers| { NoneBusy(s, step.actor.worker); }
  }

  /** Worker w gets empty hands, and nothing is produced. */
  lemma StillSettled(s: State, s': State, w: nat)
    requires Settled(s) && w < |s.workers| && w < |s'.workers|
    requires s'.workers == s.workers[w := s'.workers[w]] && EmptyHanded(s'.workers[w])
    requires s'.autoStop && s'.stopping && s'.queue == [] && s'.active == 0
    requires s'.timers.items == [] && s'.table.pending == 0
    ensures Settled(s')
  {
    forall v | v in s'.workers ensures EmptyHanded(v) {
      if v != s'.workers[w] { assert v in s.workers; }
    }
  }

  lemma SettledLoop(s: State, w: nat, step: LoopStep)
    requires Inv(s) && Settled(s) && CanLoop(s, w, step) && w < |s.workers|
    requires IsIdleStep(step)
    ensures Settled(DoLoop(s, w, step))
  {
    assert EmptyHanded(s.workers[w]);
    hide Inv;
    StillSettled(s, DoLoop(s, w, step), w);
  }

  lemma SettledReport(s: State, w: nat, report: ET.Report, ok: bool)
    requires Inv(s) && Settled(s) && CanDispatch(s, w, report, ok)
    ensures Dispatch(s, w, report, ok) == s
  {
    NothingArmed(s.table);
    if report.Ready? {
      assert !ET.IsArmed(s.table, report.fd, READ) && !ET.IsArmed(s.table, report.fd, WRITE);
    }
    ET.DispatchOneEffect(s.table, report, ok);
    assert Appended(s.queue, []) == s.queue;
  }

  /** Once settled, no step of any worker changes that: leaving is sound. */
  lemma SettledStays(s: State, step: Step)
    requires Inv(s) && Settled(s) && Enabled(s, step) && Internal(step)
    ensures Settled(Apply(s, step))
  {
    SettledSteps(s, step);
    if step.Loop? && step.loop.IdleReport? {
      SettledReport(s, step.w, step.loop.report, step.loop.ok);
    } else if step.Loop? {
      SettledLoop(s, step.w, step.loop);
    }
  }

  predicate AllInternal(steps: seq<Step>) {
    forall step <- steps :: Internal(step)
  }

  lemma {:induction false} RunStaysSettled(s: State, steps: seq<Step>)
    requires Inv(s) && Settled(s) && Feasible(s, steps) && AllInternal(steps)
    ensures Settled(Run(s, steps))
    decreases |steps|
  {
    if steps != [] {
      assert Internal(steps[0]);
      StepKeeps(s, steps[0]);
      SettledStays(s, steps[0]);
      hide Inv, Settled;
      RunStaysSettled(Apply(s, steps[0]), steps[1..]);
    }
  }

  /** Whatever the pool itself goes on to do, it stays quiescent. */
  ghost predicate StaysQuiescent(s: State) {
    forall steps :: Feasible(s, steps) && AllInternal(steps) ==> Quiescent(Run(s, steps))
  }

  /** How a worker gets rid of what it carries. */
  function Unloads(w: Worker): LoopStep {
    if w.phase.Requeue? then ScheduleReady else IdleSchedule
  }

  /** A worker with something in its hands schedules it next, and the queue fills up. */
  lemma CarriedWork(s: State, w: nat)
    requires Quiescent(s) && w < |s.workers| && !EmptyHanded(s.workers[w])
    ensures var steps := [Loop(w, Unloads(s.workers[w]))];
      Feasible(s, steps) && AllInternal(steps) && !Quiescent(Run(s, steps))
  {
    var steps := [Loop(w, Unloads(s.workers[w]))];
    assert steps[1..] == [];
    if s.workers[w].phase.Requeue? {
      assert Apply(s, steps[0]) == Reschedule(s, w);
    } else {
      assert Apply(s, steps[0]) == Flush(s, w);
    }
  }

  /** A quiescent moment lasts exactly if no worker carries callbacks, or a READY fiber it has
      counted off, that it has still to schedule: a check that flags and counters cannot make. */
  lemma StaysQuiescentExactly(s: State)
    requires Inv(s) && Quiescent(s)
    ensures StaysQuiescent(s) <==> Settled(s)
  {
    if Settled(s) {
      forall steps | Feasible(s, steps) && AllInternal(steps) ensures Quiescent(Run(s, steps)) {
        RunStaysSettled(s, steps);
      }
    } else {
      var x :| x in s.workers && !EmptyHanded(x);
      var w :| 0 <= w < |s.workers| && s.workers[w] == x;
      CarriedWork(s, w);
    }
  }

  /** And every worker that looks finds that it may leave. */
  lemma SettledLeaves(s: State, w: nat, now: TS.u64)
    requires Settled(s)
    ensures CanCheckStop(s, w, now) ==> InPhase(CheckStop(s, w, now), w, IdleEvents)
    ensures InPhase(s, w, IdleEvents) ==> InPhase(CheckEvents(s, w), w, IdleQueue)
    ensures InPhase(s, w, IdleQueue) ==> CheckQueue(s, w).workers[w].idleDone
    ensures w < |s.workers| && s.workers[w].phase == Scanning ==> CanTakeNone(s, w)
  {
  }

  // ----- The last worker leaves a settled state behind -----

  /** The idle fiber has ended, and the worker does nothing any more. */
  predicate Gone(w: Worker) {
    w.idleDone && (w.phase == Scanning || w.phase == Exited)
  }

  predicate PastTimers(w: Worker) {
    Gone(w) || w.phase == IdleEvents || w.phase == IdleQueue
  }

  predicate PastEvents(w: Worker) {
    Gone(w) || w.phase == IdleQueue
  }

  predicate AllPastTimers(s: State) {
    forall w :: 0 <= w < |s.workers| ==> PastTimers(s.workers[w])
  }

  predicate AllPastEvents(s: State) {
    forall w :: 0 <= w < |s.workers| ==> PastEvents(s.workers[w])
  }

  predicate AllGone(s: State) {
    forall w :: 0 <= w < |s.workers| ==> Gone(s.workers[w])
  }

  /** What the reads of a check found still holds once all workers have made them: with nobody
      left to change anything, each next read adds to the ones before. */
  predicate Checked(s: State) {
    && (forall w :: 0 <= w < |s.workers| && s.workers[w].idleDone ==> Gone(s.workers[w]))
    && (AllPastTimers(s) ==> s.timers.items == [])
    && (AllPastEvents(s) ==> s.table.pending == 0)
    && (AllGone(s) ==> Quiescent(s))
  }

  predicate Guarded(s: State) {
    s.late || s.revived || Checked(s)
  }

  /** The step is worker w's alone. */
  predicate OnlyWorker(s: State, s': State, w: nat) {
    w < |s.workers| && w < |s'.workers| && s'.workers == s.workers[w := s'.workers[w]]
  }

  lemma LoopOnlyWorker(s: State, w: nat, step: LoopStep)
    requires CanLoop(s, w, step)
    ensures OnlyWorker(s, DoLoop(s, w, step), w)
    ensures s.revived ==> DoLoop(s, w, step).revived
  {
    if step.SwapInFiber? || step.SwapInCallback? {
      SwapInFrame(s, w, step);
    } else if IsSwap(step) {
      SwapOutFrame(s, w, step);
    }
    hide TS.Expiry, TS.GetNextTimer, ET.DispatchOne, Candidate, NothingToDo;
  }

  /** What a worker may do that has read the timers. */
  lemma PastTimersStep(s: State, w: nat, step: LoopStep)
    requires CanLoop(s, w, step) && PastTimers(s.workers[w]) && !DoLoop(s, w, step).revived
    ensures var s' := DoLoop(s, w, step);
      && OnlyWorker(s, s', w) && s' == s.(workers := s'.workers, idle := s'.idle)
      && (Gone(s.workers[w]) ==> Gone(s'.workers[w]))
      && (s.workers[w].phase == IdleEvents && PastTimers(s'.workers[w]) ==> s.table.pending == 0)
      && (s.workers[w].phase == IdleQueue && Gone(s'.workers[w]) ==> NothingToDo(s))
  {
    hide TS.Expiry, TS.GetNextTimer, ET.DispatchOne, Candidate, NothingToDo;
  }

  lemma CheckedPast(s: State, w: nat, step: LoopStep)
    requires Checked(s) && CanLoop(s, w, step) && PastTimers(s.workers[w]) && !DoLoop(s, w, step).revived
    ensures Checked(DoLoop(s, w, step))
  {
    var s' := DoLoop(s, w, step);
    PastTimersStep(s, w, step);
    LoopLeaves(s, w, step, w);
    hide DoLoop, CanLoop;
    OthersPast(s, s', w);
  }

  /** With the other workers as they were, all are past a read after the step only if the
      others were before. */
  lemma OthersPast(s: State, s': State, w: nat)
    requires OnlyWorker(s, s', w)
    ensures AllPastTimers(s') && PastTimers(s.workers[w]) ==> AllPastTimers(s)
    ensures AllPastEvents(s') && PastEvents(s.workers[w]) ==> AllPastEvents(s)
    ensures AllGone(s') && PastEvents(s.workers[w]) ==> AllPastEvents(s)
    ensures AllGone(s') && Gone(s.workers[w]) ==> AllGone(s)
  {
    forall v | 0 <= v < |s.workers| && v != w ensures s'.workers[v] == s.workers[v] {
    }
    if AllPastTimers(s') {
      forall v | 0 <= v < |s.workers| && v != w ensures PastTimers(s.workers[v]) { assert PastTimers(s'.workers[v]); }
    }
    if AllPastEvents(s') {
      forall v | 0 <= v < |s.workers| && v != w ensures PastEvents(s.workers[v]) { assert PastEvents(s'.workers[v]); }
    }
    if AllGone(s') {
      forall v | 0 <= v < |s.workers| && v != w ensures Gone(s.workers[v]) { assert Gone(s'.workers[v]); }
    }
  }

  /** A worker that has not read the timers gets past that read at most, and finds none. */
  lemma CheckedBefore(s: State, w: nat, step: LoopStep)
    requires Checked(s) && CanLoop(s, w, step) && w < |s.workers| && !PastTimers(s.workers[w])
    ensures Checked(DoLoop(s, w, step))
  {
    var s' := DoLoop(s, w, step);
    LoopOnlyWorker(s, w, step);
    LoopLeaves(s, w, step, w);
    if step.IdleStop? { assert s'.timers.items == s.timers.items; }
    if s'.workers[w].phase == IdleEvents { ReadsTimers(s, w, step); }
    hide DoLoop, CanLoop, NothingToDo;
    assert !PastEvents(s'.workers[w]);
    forall v | 0 <= v < |s'.workers| && s'.workers[v].idleDone ensures Gone(s'.workers[v]) {
      assert v != w;
    }
  }

  lemma ReadsTimers(s: State, w: nat, step: LoopStep)
    requires CanLoop(s, w, step) && w < |s.workers| && !PastTimers(s.workers[w])
    requires DoLoop(s, w, step).workers[w].phase == IdleEvents
    ensures step.IdleStop?
  {
    if step.SwapInFiber? || step.SwapInCallback? {
      SwapInFrame(s, w, step);
    } else if IsSwap(step) {
      SwapOutFrame(s, w, step);
    }
    hide TS.Expiry, TS.GetNextTimer, ET.DispatchOne, Candidate, NothingToDo;
  }

  lemma LateStays(s: State, step: Step)
    requires Enabled(s, step) && s.late
    ensures Apply(s, step).late
  {
    hide DoLoop, DoCode, ApplyOp, CanLoop, CanCode, CanOp;
    match step
    case Loop(w, loop) => LoopFrame(s, w, loop);
    case Code(w, code) => CodeFrame(s, w, code);
    case Act(actor, op) => OpFrame(s, op);
    case SetAutoStop =>
    case SetStopping =>
  }

  lemma RevivedStays(s: State, step: Step)
    requires Enabled(s, step) && s.revived
    ensures Apply(s, step).revived
  {
    hide DoLoop, DoCode, ApplyOp, CanLoop, CanCode, CanOp;
    match step
    case Loop(w, loop) => LoopOnlyWorker(s, w, loop);
    case Code(w, code) => CodeFrame(s, w, code);
    case Act(actor, op) => OpFrame(s, op);
    case SetAutoStop =>
    case SetStopping =>
  }

  /** Somebody runs, and has not read anything: what the others have read does not matter. */
  lemma BusyGuards(s: State, s': State, w: nat)
    requires Checked(s) && w < |s.workers| && s.workers[w].phase.Running? && s'.workers == s.workers
    ensures Checked(s')
  {
    assert !PastTimers(s.workers[w]) && !PastEvents(s.workers[w]);
  }

  lemma OutsideGuards(s: State, s': State)
    requires Checked(s) && s'.workers == s.workers && Watching(s)
    ensures Checked(s')
  {
    var w :| 0 <= w < |s.workers| && Attentive(s.workers[w]);
    assert !PastTimers(s.workers[w]) && !PastEvents(s.workers[w]);
  }

  lemma CheckedStays(s: State, step: Step)
    requires Checked(s) && Enabled(s, step) && !Apply(s, step).late && !Apply(s, step).revived
    ensures Checked(Apply(s, step))
  {
    match step
    case Loop(w, loop) => CheckedLoop(s, w, loop);
    case Code(w, code) =>
      CodeFrame(s, w, code);
      hide DoCode, Checked;
      BusyGuards(s, DoCode(s, w, code), w);
    case Act(actor, op) =>
      OpFrame(s, op);
      hide ApplyOp, Checked;
      if actor.Inside? {
        BusyGuards(s, Apply(s, step), actor.worker);
      } else {
        OutsideGuards(s, Apply(s, step));
      }
    case SetAutoStop => FlagGuards(s, s.(autoStop := true));
    case SetStopping => FlagGuards(s, s.(stopping := true));
  }

  lemma CheckedLoop(s: State, w: nat, step: LoopStep)
    requires Checked(s) && CanLoop(s, w, step) && !DoLoop(s, w, step).revived
    ensures Checked(DoLoop(s, w, step))
  {
    LoopOnlyWorker(s, w, step);
    hide DoLoop, CanLoop, Checked, PastTimers;
    if PastTimers(s.workers[w]) { CheckedPast(s, w, step); } else { CheckedBefore(s, w, step); }
  }

  lemma FlagGuards(s: State, s': State)
    requires Checked(s) && (s' == s.(autoStop := true) || s' == s.(stopping := true))
    ensures Checked(s')
  {
    assert AllPastTimers(s') == AllPastTimers(s) && AllPastEvents(s') == AllPastEvents(s) && AllGone(s') == AllGone(s);
  }

  lemma GuardedStays(s: State, step: Step)
    requires Guarded(s) && Enabled(s, step)
    ensures Guarded(Apply(s, step))
  {
    hide Apply, Enabled, Checked;
    if s.late {
      LateStays(s, step);
    } else if s.revived {
      RevivedStays(s, step);
    } else if !Apply(s, step).late && !Apply(s, step).revived {
      CheckedStays(s, step);
    }
  }

  lemma {:induction false} RunGuarded(s: State, steps: seq<Step>)
    requires Guarded(s) && Feasible(s, steps)
    ensures Guarded(Run(s, steps))
    decreases |steps|
  {
    hide Guarded, Apply, Enabled;
    if steps != [] {
      GuardedStays(s, steps[0]);
      RunGuarded(Apply(s, steps[0]), steps[1..]);
    }
  }

  /** All idle fibers have ended. */
  predicate AllDone(s: State) {
    forall w :: 0 <= w < |s.workers| ==> s.workers[w].idleDone
  }

  lemma LastIsSettled(n: nat, steps: seq<Step>)
    requires n > 0 && Feasible(Start(n), steps)
    requires var s := Run(Start(n), steps); AllDone(s) && !s.late && !s.revived
    ensures var s := Run(Start(n), steps); Inv(s) && Settled(s)
  {
    StartInv(n);
    StartGuarded(n);
    hide Inv, Start, Run, Feasible, Quiescent;
    RunGuarded(Start(n), steps);
    RunKeeps(Start(n), steps);
    var s := Run(Start(n), steps);
    assert AllGone(s);
    forall w | w in s.workers ensures EmptyHanded(w) {
      var v :| 0 <= v < |s.workers| && s.workers[v] == w;
      assert Gone(s.workers[v]);
    }
  }

  lemma StartGuarded(n: nat)
    requires n > 0
    ensures Guarded(Start(n))
  {
    assert !PastTimers(Start(n).workers[0]) && !PastEvents(Start(n).workers[0]);
  }

  /** No work is abandoned: when the idle fibers of all workers have ended, nobody outside the
      pool handed in work when no worker was going to look for it, and no worker took work
      after its own idle fiber had ended, no task is outstanding anywhere and no fiber is left
      suspended that delEvent did not cut off. */
  lemma NoWorkAbandoned(n: nat, steps: seq<Step>, t: Task, f: FiberId)
    requires n > 0 && Feasible(Start(n), steps)
    requires var s := Run(Start(n), steps); AllDone(s) && !s.late && !s.revived
    ensures var s := Run(Start(n), steps);
      && Count(s, t) == 0
      && (f < |s.fibers| ==> Disposable(s.fibers[f].state) || (s.fibers[f].state == HOLD && f in s.dropped))
  {
    var s := Run(Start(n), steps);
    LastIsSettled(n, steps);
    SettledIsEmpty(s, t);
    if f < |s.fibers| { SettledFibers(s, f); }
    hide *;
  }
}
