/** What the steps of each kind leave alone. */
module ReactorFrames {
  import opened Base
  import opened RunQueue
  import opened Reactor
  import ET = EventTable
  import TS = TimerSet

  predicate IsSwap(step: LoopStep) {
    step.SwapInFiber? || step.SwapInCallback? || step.SwapOutReady? || step.SwapOutHold? || step.SwapOutEnded?
  }

  lemma SwapInFrame(s: State, w: nat, step: LoopStep)
    requires CanLoop(s, w, step) && (step.SwapInFiber? || step.SwapInCallback?)
    ensures var s' := DoLoop(s, w, step);
      && s'.calls == s.calls && s'.late == s.late && w < |s.workers| && w < |s'.workers|
      && s'.workers == s.workers[w := s'.workers[w]] && s'.workers[w].phase.Running?
      && s'.workers[w].idleDone == s.workers[w].idleDone
  {
  }

  lemma SwapOutFrame(s: State, w: nat, step: LoopStep)
    requires CanLoop(s, w, step) && (step.SwapOutReady? || step.SwapOutHold? || step.SwapOutEnded?)
    ensures var s' := DoLoop(s, w, step);
      && s'.calls == s.calls && s'.late == s.late && w < |s.workers| && w < |s'.workers|
      && s'.workers == s.workers[w := s'.workers[w]]
      && (s'.workers[w].phase == Scanning || s'.workers[w].phase.Requeue?)
      && s'.workers[w].idleDone == s.workers[w].idleDone
  {
  }

  lemma IdleFrame(s: State, w: nat, step: LoopStep)
    requires CanLoop(s, w, step) && !IsSwap(step)
    ensures Untouched(s, DoLoop(s, w, step)) && (!step.IdleReport? ==> DoLoop(s, w, step).table == s.table)
  {
    hide Untouched;
    match step
    case TakeEntry => QueueFrame(s, w, step);
    case ScheduleReady => QueueFrame(s, w, step);
    case IdleSchedule => QueueFrame(s, w, step);
    case IdleReport(_, _) => QueueFrame(s, w, step);
    case IdleStop(_) => TimerFrame(s, w, step);
    case IdleExpire(_, _) => TimerFrame(s, w, step);
    case _ => WorkerFrame(s, w, step);
  }

  /** Fibers and calls stay as they are. */
  predicate Untouched(s: State, s': State) {
    s'.calls == s.calls && s'.late == s.late && s'.fibers == s.fibers
  }

  lemma QueueFrame(s: State, w: nat, step: LoopStep)
    requires CanLoop(s, w, step) && (step.TakeEntry? || step.ScheduleReady? || step.IdleSchedule? || step.IdleReport?)
    ensures Untouched(s, DoLoop(s, w, step)) && (!step.IdleReport? ==> DoLoop(s, w, step).table == s.table)
  {
    hide ET.DispatchOne, Candidate, Appended, Without;
  }

  lemma TimerFrame(s: State, w: nat, step: LoopStep)
    requires CanLoop(s, w, step) && (step.IdleStop? || step.IdleExpire?)
    ensures Untouched(s, DoLoop(s, w, step)) && DoLoop(s, w, step).table == s.table
  {
    hide TS.Expiry, TS.GetNextTimer;
  }

  lemma WorkerFrame(s: State, w: nat, step: LoopStep)
    requires CanLoop(s, w, step)
    requires step.TakeNothing? || step.SwapInDead? || step.IdlePending? || step.IdleQuit? || step.IdleOut?
    ensures Untouched(s, DoLoop(s, w, step)) && DoLoop(s, w, step).table == s.table
  {
    hide Candidate;
  }

  /** The run loop begins no call, and no outside work. */
  lemma LoopFrame(s: State, w: nat, step: LoopStep)
    requires CanLoop(s, w, step)
    ensures DoLoop(s, w, step).calls == s.calls && DoLoop(s, w, step).late == s.late
  {
    if step.SwapInFiber? || step.SwapInCallback? {
      SwapInFrame(s, w, step);
    } else if IsSwap(step) {
      SwapOutFrame(s, w, step);
    } else {
      IdleFrame(s, w, step);
    }
    hide DoLoop, CanLoop;
  }

  /** The code of fibers leaves the workers alone. */
  lemma CodeFrame(s: State, w: nat, step: CodeStep)
    requires CanCode(s, w, step)
    ensures var s' := DoCode(s, w, step); s'.workers == s.workers && s'.late == s.late && s'.revived == s.revived
  {
    if step.RunFire? {
      FireFrame(s, w, step.ok);
      hide FireTimeout;
    } else {
      hide TS.AddTimer, CancelOwn, ET.AddEvent;
    }
  }

  lemma FireFrame(s: State, w: nat, ok: bool)
    requires CanFire(s, w)
    ensures var s' := FireTimeout(s, w, ok); s'.workers == s.workers && s'.late == s.late && s'.revived == s.revived
  {
    hide ET.CancelEvent, ET.Valid, StillWaiting, Firing, Appended;
  }

  /** So do users' operations, and they begin no call. */
  lemma OpFrame(s: State, op: UserOp)
    requires CanOp(s, op)
    ensures var s' := ApplyOp(s, op);
      s'.workers == s.workers && s'.late == s.late && s'.revived == s.revived && s'.calls == s.calls
  {
    hide ET.AddEvent, ET.DelEvent, ET.CancelEvent, ET.CancelAll, ET.Valid, Appended;
    hide TS.AddTimer, TS.Cancel, TS.Refresh, TS.Reset;
  }
}
