/** Which steps are possible in a reachable state: a worker's phase and its fiber's program counter
    decide, no assertion of swapIn or reset stands in the way, and no worker is ever stuck. */
module ReactorProgress {
  import opened Base
  import opened RunQueue
  import opened Reactor
  import opened Tokens
  import opened ReactorInv
  import opened LoopKeeps
  import opened ReactorRuns
  import opened ReactorOrder
  import ET = EventTable
  import TS = TimerSet

  /** Worker w executes a fiber that stands at this program counter. */
  predicate IsAt(s: State, w: nat, pc: Pc) {
    && w < |s.workers| && s.workers[w].phase.Running? && s.workers[w].phase.fiber < |s.fibers|
    && s.fibers[s.workers[w].phase.fiber].pc == pc
  }

  /** The run loop and the idle fiber: the phase decides. The scan takes an entry or goes idle as
      TakesExactly says; a popped fiber has never ended; an entry of epoll_wait's array that trips
      the assertion has no step. */
  lemma LoopPossible(s: State, w: nat, step: LoopStep)
    requires Reachable(s)
    ensures CanLoop(s, w, step) <==> w < |s.workers| && var phase := s.workers[w].phase;
      match step
      case TakeEntry => phase == Scanning && exists i: nat :: TakesAt(s, w, i)
      case TakeNothing => phase == Scanning && !exists i: nat :: TakesAt(s, w, i)
      case SwapInFiber => phase.Popped? && phase.task.Resume?
      case SwapInDead => false
      case SwapInCallback => phase.Popped? && phase.task.Call?
      case SwapOutReady => IsAt(s, w, Plain)
      case ScheduleReady => phase.Requeue?
      case SwapOutHold => IsAt(s, w, Asleep) || exists c: CallId, timer: Option<nat> :: IsAt(s, w, IoWait(c, timer))
      case SwapOutEnded(_) => IsAt(s, w, Plain) || IsAt(s, w, Done)
      case IdleStop(now) => phase == IdleCheck && now > 0
      case IdlePending => phase == IdleEvents
      case IdleQuit => phase == IdleQueue
      case IdleExpire(_, _) => phase == IdlePoll
      case IdleSchedule => phase.IdleFlush?
      case IdleReport(report, ok) =>
        && phase == IdleDispatch && (report.Ready? ==> report.fd < |s.table.rows|)
        && !ET.Trips(s.table, report, ok)
      case IdleOut => phase == IdleDispatch
  {
    ReachableInv(s);
    if w < |s.workers| {
      assert WorkerOk(s.workers[w], s.fibers);
      if step.TakeEntry? || step.TakeNothing? {
        if s.workers[w].phase == Scanning { TakesExactly(s, w); }
      } else if step.SwapInFiber? || step.SwapInDead? {
        if s.workers[w].phase.Popped? && s.workers[w].phase.task.Resume? { PoppedFiberStarts(s, w); }
      } else if step.IdleReport? {
        if step.report.Ready? ==> step.report.fd < |s.table.rows| { ET.DispatchAborts(s.table, step.report, step.ok); }
      }
    }
    hide Inv, WorkersOk, TakesAt, Candidate, ET.DispatchOne, ET.Trips, ET.Inv;
  }

  /** The hooked calls and the library's callbacks: the program counter decides. addEvent asserts that
      its event is not armed; a new timer has a new address. */
  lemma CodePossible(s: State, w: nat, step: CodeStep)
    requires Reachable(s)
    ensures CanCode(s, w, step) <==>
      match step
      case IoCall(_, _) => IsAt(s, w, Plain)
      case IoResult => exists c: CallId :: IsAt(s, w, IoTry(c))
      case IoTimeout(addr, _, _) => addr !in s.used && exists c: CallId :: IsAt(s, w, IoTry(c))
      case IoForever => exists c: CallId :: IsAt(s, w, IoTry(c))
      case IoRegister(_) =>
        && (exists c: CallId, timer: Option<nat> :: IsAt(s, w, IoArm(c, timer)))
        && !AtArmed(s, w)
      case IoResume => exists c: CallId, timer: Option<nat> :: IsAt(s, w, IoWoken(c, timer))
      case IoGiveUp => exists c: CallId, timer: Option<nat> :: IsAt(s, w, IoUndo(c, timer))
      case SleepFor(addr, _, _) => addr !in s.used && IsAt(s, w, Plain)
      case RunWake => exists f: FiberId :: IsAt(s, w, WakeBody(f))
      case RunTest => exists c: CallId :: IsAt(s, w, TimeoutBody(c))
      case RunSet => exists c: CallId :: IsAt(s, w, TimeoutSet(c))
      case RunFire(_) => exists c: CallId :: IsAt(s, w, TimeoutFire(c))
  {
    ReachableInv(s);
    if w < |s.workers| {
      assert WorkerOk(s.workers[w], s.fibers);
      if Runs(s, w) {
        assert PcAt(s, Self(s, w));
        assert IsAt(s, w, SelfPc(s, w));
      }
    }
    hide Inv, WorkersOk, ET.Inv;
  }

  /** What users owe: a fiber inside the pool acts while it runs user code; addEvent needs an event that
      is not armed, addTimer a new address, a timer's handle is one of a user's timer; and a
      fiber is handed in once, before it ever ran. All else anybody may do at any time. */
  lemma ActPossible(s: State, actor: Actor, op: UserOp)
    requires Reachable(s)
    ensures Enabled(s, Act(actor, op)) <==>
      && (actor.Inside? ==> IsAt(s, actor.worker, Plain))
      && match op
         case SubmitFiber(f, _) => f < |s.fibers| && s.fibers[f].state == INIT && TokensOf(s, f) == 0 && Held(s)[f] == 0
         case Watch(fd, ev, _, _) => !Armed(s, fd, ev)
         case TimerAdd(addr, _, _, _, _) => addr !in s.used
         case TimerCancel(addr) => UsersOnly(s, addr)
         case TimerRefresh(addr, _) => UsersOnly(s, addr)
         case TimerReset(addr, _, _, _) => UsersOnly(s, addr)
         case _ => true
  {
    ActsPlain(s, actor);
    ReachableInv(s);
    hide MayAct, IsAt;
    if op.TimerCancel? || op.TimerRefresh? || op.TimerReset? { UsersMeans(s, op.addr); }
    hide Inv, UsersTimer, UsersOnly, TokensOf, Held;
  }

  lemma ActsPlain(s: State, actor: Actor)
    requires Reachable(s)
    ensures MayAct(s, actor) <==> (actor.Inside? ==> IsAt(s, actor.worker, Plain))
  {
    ReachableInv(s);
    if actor.Inside? && actor.worker < |s.workers| { assert WorkerOk(s.workers[actor.worker], s.fibers); }
    hide Inv, WorkersOk;
  }

  predicate UsersOnly(s: State, addr: nat) {
    forall r <- s.timers.items :: r.addr == addr ==> r.cb.User?
  }

  lemma UsersMeans(s: State, addr: nat)
    requires TS.Valid(s.timers.items)
    ensures UsersTimer(s, addr) <==> UsersOnly(s, addr)
  {
    TS.HasMember(s.timers.items, addr);
    forall r | r in s.timers.items && r.addr == addr ensures r == TS.At(s.timers.items, addr) {
      TS.AddrUnique(s.timers.items, r, TS.At(s.timers.items, addr));
    }
  }

  /** Worker w is about to add an event that is armed already: addEvent's assertion would end the
      process. */
  ghost predicate AtArmed(s: State, w: nat) {
    exists c: CallId, timer: Option<nat> ::
      IsAt(s, w, IoArm(c, timer)) && c < |s.calls| && Armed(s, s.calls[c].fd, s.calls[c].ev)
  }

  predicate Armed(s: State, fd: nat, ev: Event) {
    fd < |s.table.rows| && if ev == READ then s.table.rows[fd].events.read else s.table.rows[fd].events.write
  }

  ghost predicate CanMove(s: State, w: nat) {
    (exists step: LoopStep :: CanLoop(s, w, step)) || exists step: CodeStep :: CanCode(s, w, step)
  }

  /** In every reachable state a worker has a step of its own exactly unless it has left, or is stopped
      by addEvent's assertion. */
  lemma NeverStuck(s: State, w: nat)
    requires Reachable(s) && w < |s.workers|
    ensures CanMove(s, w) <==> s.workers[w].phase != Exited && !AtArmed(s, w)
  {
    if s.workers[w].phase.Running? {
      RunningMoves(s, w);
    } else {
      NotRunningMoves(s, w);
    }
  }

  lemma NotRunningMoves(s: State, w: nat)
    requires Reachable(s) && w < |s.workers| && !s.workers[w].phase.Running?
    ensures CanMove(s, w) <==> s.workers[w].phase != Exited
    ensures !AtArmed(s, w)
  {
    var step := match s.workers[w].phase
      case Scanning => if exists i: nat :: TakesAt(s, w, i) then TakeEntry else TakeNothing
      case Popped(Resume(_)) => SwapInFiber
      case Popped(Call(_)) => SwapInCallback
      case Requeue(_) => ScheduleReady
      case IdleCheck => IdleStop(1)
      case IdleEvents => IdlePending
      case IdleQueue => IdleQuit
      case IdlePoll => IdleExpire(0, TS.AsWritten)
      case IdleFlush(_) => IdleSchedule
      case _ => IdleOut;
    LoopPossible(s, w, step);
    hide Reachable, CanLoop, TakesAt;
    if s.workers[w].phase != Exited { assert CanLoop(s, w, step); } else { ExitedStays(s, w); }
  }

  lemma ExitedStays(s: State, w: nat)
    requires w < |s.workers| && s.workers[w].phase == Exited
    ensures !CanMove(s, w)
  {
    hide Candidate, ET.DispatchOne;
  }

  lemma RunningMoves(s: State, w: nat)
    requires Reachable(s) && w < |s.workers| && s.workers[w].phase.Running?
    ensures CanMove(s, w) <==> !AtArmed(s, w)
  {
    ReachableInv(s);
    assert WorkerOk(s.workers[w], s.fibers);
    var pc := s.fibers[s.workers[w].phase.fiber].pc;
    assert IsAt(s, w, pc);
    hide Inv, WorkersOk, Reachable;
    if pc == Plain || pc == Done || pc.Suspending() {
      var step := if pc.Suspending() then SwapOutHold else SwapOutEnded(false);
      assert CanLoop(s, w, step);
    } else {
      MidCallMoves(s, w, pc);
    }
  }

  lemma MidCallMoves(s: State, w: nat, pc: Pc)
    requires Reachable(s) && IsAt(s, w, pc) && pc != Plain && pc != Done && !pc.Suspending()
    ensures CanMove(s, w) <==> !AtArmed(s, w)
  {
    var step := match pc
      case IoTry(_) => IoResult
      case IoArm(_, _) => IoRegister(true)
      case IoWoken(_, _) => IoResume
      case IoUndo(_, _) => IoGiveUp
      case WakeBody(_) => RunWake
      case TimeoutBody(_) => RunTest
      case TimeoutSet(_) => RunSet
      case _ => RunFire(true);
    CodePossible(s, w, step);
    if !AtArmed(s, w) {
      assert CanCode(s, w, step);
    } else {
      NoOtherMove(s, w);
    }
  }

  lemma NoOtherMove(s: State, w: nat)
    requires Reachable(s) && AtArmed(s, w)
    ensures !CanMove(s, w)
  {
    forall step: LoopStep ensures !CanLoop(s, w, step) {
      hide Candidate, ET.DispatchOne;
    }
    forall step: CodeStep ensures !CanCode(s, w, step) {
      CodePossible(s, w, step);
    }
    hide CanLoop, CanCode;
  }
}
