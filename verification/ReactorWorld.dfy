/** The reactor and the kernel around it: reports are made when epoll_wait returns and gone
    through later, connection attempts go on for a while, and the kernel drops a closed
    descriptor from epoll without a word to the event table. */
module ReactorWorld {
  import opened Base
  import opened RunQueue
  import opened Reactor
  import opened Tokens
  import opened CodeKeeps
  import opened ReactorInv
  import opened ReactorFrames
  import opened ReactorRuns
  import opened ReactorSafety
  import opened ReactorTimeout
  import opened ReactorMissed
  import RS = ReactorSteps
  import RW = ReactorWakes
  import ET = EventTable
  import TS = TimerSet

  /** A report, and when epoll_wait returned it. */
  datatype Stamped = Stamped(report: ET.Report, made: nat)

  /** What ended a call's wait: a report made after its addEvent, an older report, or somebody
      else. */
  datatype Cause = Fresh | Stale | Other

  datatype World = World(
    s: State,
    now: nat,                          // moves so far
    batches: map<nat, seq<Stamped>>,   // by worker: what its epoll_wait returned and is still to do
    begun: map<CallId, nat>,           // connects: when the raw call returned EINPROGRESS
    going: set<CallId>,                // those whose attempt goes on
    armed: map<CallId, nat>,           // when addEvent last succeeded for a call
    cause: map<CallId, Cause>,         // what last ended a call's wait
    forgotten: set<nat>)               // closed while armed: epoll does not know them any more

  datatype Move =
    | Pool(step: Step)                              // a step of the reactor
    | Connect(w: nat, code: CodeStep)               // the raw connect: EINPROGRESS, and on to addEvent
    | EpollWait(w: nat, reports: seq<ET.Report>)
    | Conclude(c: CallId)                           // the kernel finishes an attempt, one way or the other
    | Forget(fd: nat)                               // the kernel closes fd

  function Start(workers: nat): World {
    World(Reactor.Start(workers), 0, map[], map[], {}, map[], map[], {})
  }

  // ----- What can happen -----

  /** The descriptor on which the step's epoll_ctl is said to succeed. */
  function Succeeds(s: State, step: Step): Option<nat> {
    match step
    case Loop(_, IdleReport(report, ok)) => if ok && report.Ready? then Some(report.fd) else None
    case Code(w, IoRegister(ok)) => if ok && InCallAt(s, w) then Some(s.calls[SelfPc(s, w).call].fd) else None
    case Code(w, RunFire(ok)) =>
      if ok && Runs(s, w) && SelfPc(s, w).TimeoutFire? && SelfPc(s, w).call < |s.calls|
      then Some(s.calls[SelfPc(s, w).call].fd) else None
    case Act(_, Watch(fd, _, _, ok)) => if ok then Some(fd) else None
    case Act(_, Unwatch(fd, _, ok)) => if ok then Some(fd) else None
    case Act(_, CancelWatch(fd, _, ok)) => if ok then Some(fd) else None
    case Act(_, CloseFd(fd, ok)) => if ok then Some(fd) else None
    case _ => None
  }

  predicate InCallAt(s: State, w: nat) {
    Runs(s, w) && InCall(SelfPc(s, w)) && SelfPc(s, w).call < |s.calls|
  }

  /** epoll_ctl fails on what the kernel has forgotten. */
  predicate Honest(x: World, step: Step) {
    var fd := Succeeds(x.s, step);
    fd.Some? ==> fd.value !in x.forgotten
  }

  /** The idle fiber goes through its own reports, in order and once; a connect does not call
      the raw function again. */
  predicate Paced(x: World, step: Step) {
    match step
    case Loop(w, IdleExpire(_, _)) => w in x.batches
    case Loop(w, IdleReport(report, _)) => w in x.batches && x.batches[w] != [] && x.batches[w][0].report == report
    case Loop(w, IdleOut) => w in x.batches && x.batches[w] == []
    case Code(w, IoTimeout(_, _, _)) => InCallAt(x.s, w) ==> SelfPc(x.s, w).call !in x.begun
    case Code(w, IoForever) => InCallAt(x.s, w) ==> SelfPc(x.s, w).call !in x.begun
    case _ => true
  }

  predicate GoesOn(x: World, fd: nat) {
    exists c <- x.going :: c < |x.s.calls| && x.s.calls[c].fd == fd
  }

  /** What epoll may report: a registered descriptor, the events it is registered for, errors
      and hang-ups; and a connecting socket is neither writable nor in error nor hung up. */
  predicate Truthful(x: World, report: ET.Report) {
    report.Ready? ==>
      && report.fd in x.s.table.kernel && report.fd !in x.forgotten
      && (report.input ==> x.s.table.kernel[report.fd].read)
      && (report.output ==> x.s.table.kernel[report.fd].write)
      && (report.Events().write ==> !GoesOn(x, report.fd))
  }

  ghost predicate Can(x: World, m: Move) {
    match m
    case Pool(step) => Enabled(x.s, step) && Honest(x, step) && Paced(x, step)
    case Connect(w, code) =>
      && (code.IoTimeout? || code.IoForever?) && CanCode(x.s, w, code)
      && var c := SelfPc(x.s, w).call;
         && c !in x.begun && c !in x.armed && x.s.calls[c].ev == WRITE
         && !GoesOn(x, x.s.calls[c].fd)   // it would be EALREADY
    case EpollWait(w, reports) =>
      InPhase(x.s, w, IdlePoll) && w !in x.batches && forall r <- reports :: Truthful(x, r)
    case Conclude(c) => c in x.going
    case Forget(_) => true
  }

  function Stamp(reports: seq<ET.Report>, now: nat): seq<Stamped> {
    seq(|reports|, i requires 0 <= i < |reports| => Stamped(reports[i], now))
  }

  function Batches(x: World, step: Step): map<nat, seq<Stamped>> {
    match step
    case Loop(w, IdleReport(_, _)) =>
      if w in x.batches && x.batches[w] != [] then x.batches[w := x.batches[w][1..]] else x.batches
    case Loop(w, IdleOut) => x.batches - {w}
    case _ => x.batches
  }

  function Armings(x: World, step: Step): map<CallId, nat> {
    match step
    case Code(w, IoRegister(true)) => if InCallAt(x.s, w) then x.armed[SelfPc(x.s, w).call := x.now] else x.armed
    case _ => x.armed
  }

  ghost predicate Waiting(s: State, c: CallId) {
    c < |s.calls| && WaitsArmed(s, c)
  }

  function CauseOf(x: World, step: Step, c: CallId): Cause
    requires c in x.armed
  {
    match step
    case Loop(w, IdleReport(_, _)) =>
      if w in x.batches && x.batches[w] != [] && x.batches[w][0].made > x.armed[c] then Fresh else Stale
    case _ => Other
  }

  ghost function Causes(x: World, step: Step, s': State): map<CallId, Cause> {
    x.cause + map c | c in x.armed && Waiting(x.s, c) && !Waiting(s', c) :: CauseOf(x, step, c)
  }

  ghost function PoolNext(x: World, step: Step): World
    requires Enabled(x.s, step)
  {
    var s' := Apply(x.s, step);
    x.(s := s', now := x.now + 1, batches := Batches(x, step), armed := Armings(x, step), cause := Causes(x, step, s'))
  }

  ghost function Next(x: World, m: Move): World
    requires Can(x, m)
  {
    match m
    case Pool(step) => PoolNext(x, step)
    case Connect(w, code) =>
      var c := SelfPc(x.s, w).call;
      PoolNext(x, Code(w, code)).(begun := x.begun[c := x.now], going := x.going + {c})
    case EpollWait(w, reports) => x.(now := x.now + 1, batches := x.batches[w := Stamp(reports, x.now)])
    case Conclude(c) => x.(now := x.now + 1, going := x.going - {c})
    case Forget(fd) => x.(
      now := x.now + 1,
      going := (set c | c in x.going && !(c < |x.s.calls| && x.s.calls[c].fd == fd)),
      forgotten := if fd in x.s.table.kernel then x.forgotten + {fd} else x.forgotten)
  }

  ghost predicate Feasible(x: World, moves: seq<Move>)
    decreases |moves|
  {
    moves == [] || (Can(x, moves[0]) && Feasible(Next(x, moves[0]), moves[1..]))
  }

  ghost function Run(x: World, moves: seq<Move>): World
    requires Feasible(x, moves)
    decreases |moves|
  {
    if moves == [] then x else Run(Next(x, moves[0]), moves[1..])
  }

  ghost predicate Reachable(x: World) {
    exists n: nat, moves :: Feasible(Start(n), moves) && Run(Start(n), moves) == x
  }

  lemma {:induction false} RunAppend(x: World, moves: seq<Move>, m: Move)
    requires Feasible(x, moves) && Can(Run(x, moves), m)
    ensures Feasible(x, moves + [m]) && Run(x, moves + [m]) == Next(Run(x, moves), m)
    decreases |moves|
  {
    var more := moves + [m];
    hide Can, Next;
    if moves != [] {
      assert more[0] == moves[0] && more[1..] == moves[1..] + [m];
      RunAppend(Next(x, moves[0]), moves[1..], m);
    } else {
      assert more[1..] == [];
    }
  }

  lemma ReachableNext(x: World, m: Move)
    requires Reachable(x) && Can(x, m)
    ensures Reachable(Next(x, m))
  {
    var n: nat, moves :| Feasible(Start(n), moves) && Run(Start(n), moves) == x;
    hide Can, Next;
    RunAppend(Start(n), moves, m);
    assert Feasible(Start(n), moves + [m]);
  }

  // ----- What holds in every world -----

  predicate StampsOk(x: World) {
    && (forall c <- x.begun :: c < |x.s.calls| && x.begun[c] < x.now && x.s.calls[c].ev == WRITE)
    && (forall c <- x.armed :: c < |x.s.calls| && x.armed[c] < x.now)
    && x.going <= x.begun.Keys && x.cause.Keys <= x.armed.Keys
    && (forall c <- x.begun :: c in x.armed ==> x.begun[c] < x.armed[c])
  }

  /** A report of writability is older than every attempt on its descriptor that goes on. */
  predicate OlderThanGoing(x: World, st: Stamped) {
    st.report.Ready? && st.report.Events().write ==>
      forall c <- x.going :: c in x.begun && c < |x.s.calls| && x.s.calls[c].fd == st.report.fd ==> st.made < x.begun[c]
  }

  predicate BatchesOk(x: World) {
    forall w <- x.batches, st <- x.batches[w] :: st.made < x.now && OlderThanGoing(x, st)
  }

  /** Where a fiber stands in a call says what has happened in it. */
  ghost predicate PlaceAt(x: World, g: FiberId) {
    match PcOf(x.s, g)
    case IoWait(c, _) => c in x.armed && (Waiting(x.s, c) || c in x.cause)
    case IoWoken(c, _) => c in x.cause
    case IoTry(c) => c in x.begun ==> c in x.cause
    case _ => true
  }

  ghost predicate PlacesOk(x: World) {
    forall g: FiberId :: PlaceAt(x, g)
  }

  /** An attempt is over once a fresh report has ended the wait for it. */
  predicate FreshIsOver(x: World) {
    forall c <- x.cause :: x.cause[c] == Fresh && c in x.begun ==> c !in x.going
  }

  /** What the kernel has forgotten is armed in the table. */
  predicate ForgottenArmed(x: World) {
    forall fd <- x.forgotten :: fd < |x.s.table.rows| && x.s.table.rows[fd].events != NONE
  }

  ghost predicate WorldOk(x: World) {
    && ReactorRuns.Reachable(x.s)
    && StampsOk(x) && BatchesOk(x) && PlacesOk(x) && FreshIsOver(x) && ForgottenArmed(x)
  }

  lemma StartOk(n: nat)
    ensures WorldOk(Start(n))
  {
    StartReachable(n);
  }

  // ----- Steps of the reactor -----

  /** What the reactor's own theorems say of a step. */
  ghost predicate StepFacts(x: World, step: Step)
    requires Enabled(x.s, step)
  {
    var s' := Apply(x.s, step);
    && Inv(x.s) && ReactorRuns.Reachable(s') && Inv(s') && CallsKept(x.s, s')
    && RW.AllEdges(x.s, s', RW.Registrar(x.s, step))
  }

  lemma FactsOf(x: World, step: Step)
    requires ReactorRuns.Reachable(x.s) && Enabled(x.s, step)
    ensures StepFacts(x, step)
  {
    hide Inv, Apply, Enabled, RW.AllEdges, ReactorRuns.Reachable;
    ReactorRuns.ReachableStep(x.s, step);
    ReachableInv(x.s);
    ReachableInv(Apply(x.s, step));
    StepNoReentry(x.s, step);
    RW.StepEdges(x.s, step);
  }

  lemma PoolStamps(x: World, step: Step)
    requires StampsOk(x) && Enabled(x.s, step) && CallsKept(x.s, Apply(x.s, step))
    ensures StampsOk(PoolNext(x, step))
  {
    var s' := Apply(x.s, step);
    hide Apply, Enabled, WaitsArmed;
    forall c | c in x.begun ensures c < |s'.calls| && s'.calls[c].ev == WRITE {
      assert SameCall(x.s.calls[c], s'.calls[c]);
    }
  }

  lemma PoolBatches(x: World, step: Step)
    requires StampsOk(x) && BatchesOk(x) && Enabled(x.s, step) && CallsKept(x.s, Apply(x.s, step))
    ensures BatchesOk(PoolNext(x, step))
  {
    var x' := PoolNext(x, step);
    hide Apply, Enabled, WaitsArmed;
    forall w, st | w in x'.batches && st in x'.batches[w] ensures st.made < x'.now && OlderThanGoing(x', st) {
      assert w in x.batches && st in x.batches[w];
      assert OlderThanGoing(x, st);
      forall c | c in x.going ensures c < |x.s.calls| && x'.s.calls[c].fd == x.s.calls[c].fd {
        assert SameCall(x.s.calls[c], x'.s.calls[c]);
      }
    }
  }

  lemma CameToWait(x: World, step: Step, g: FiberId)
    requires Enabled(x.s, step) && Inv(x.s) && Inv(Apply(x.s, step))
    requires RW.Registrar(x.s, step) == Some(g) && PcOf(Apply(x.s, step), g).IoWait?
    ensures var c := PcOf(Apply(x.s, step), g).call;
      c in Armings(x, step) && Waiting(Apply(x.s, step), c)
  {
    var s', w := Apply(x.s, step), step.w;
    assert CanIoAdd(x.s, w) && s' == IoAdd(x.s, w, true);
    assert PcAt(s', g);
    IoAddArms(x.s, w);
    RegisteredPc(x.s, w);
    hide Inv, ET.Inv, ET.Armed, IoAdd;
  }

  lemma RegisteredPc(s: State, w: nat)
    requires CanIoAdd(s, w)
    ensures InCallAt(s, w)
    ensures var pc := PcOf(IoAdd(s, w, true), Self(s, w)); pc.IoWait? ==> pc.call == SelfPc(s, w).call
  {
    hide ET.AddEvent;
  }

  /** What of the world a step leaves alone or only adds to. */
  predicate Grows(x: World, x': World) {
    && x'.begun == x.begun && x.armed.Keys <= x'.armed.Keys && x.cause.Keys <= x'.cause.Keys
  }

  lemma PoolGrows(x: World, step: Step)
    requires Enabled(x.s, step)
    ensures Grows(x, PoolNext(x, step))
    ensures forall c <- x.armed :: Waiting(x.s, c) && !Waiting(PoolNext(x, step).s, c) ==> c in PoolNext(x, step).cause
  {
    hide Apply, Enabled, Waiting;
  }

  lemma WaitPlace(x: World, step: Step, g: FiberId)
    requires PlaceAt(x, g) && Enabled(x.s, step) && Inv(x.s) && Inv(Apply(x.s, step))
    requires RW.MovesOn(x.s, Apply(x.s, step), RW.Registrar(x.s, step), g) && PcOf(Apply(x.s, step), g).IoWait?
    ensures PlaceAt(PoolNext(x, step), g)
  {
    PoolGrows(x, step);
    if PcOf(x.s, g) != PcOf(Apply(x.s, step), g) { CameToWait(x, step, g); }
    hide Inv, Apply, Enabled, Waiting, Causes;
  }

  lemma WokenPlace(x: World, step: Step, g: FiberId)
    requires PlaceAt(x, g) && PcsOk(x.s) && Enabled(x.s, step) && CallsKept(x.s, Apply(x.s, step))
    requires RW.MovesOn(x.s, Apply(x.s, step), RW.Registrar(x.s, step), g) && PcOf(Apply(x.s, step), g).IoWoken?
    ensures PlaceAt(PoolNext(x, step), g)
  {
    PoolGrows(x, step);
    if PcOf(x.s, g).IoWait? { WokenIsOver(x.s, Apply(x.s, step), g); }
    hide Apply, Enabled, Waiting, Causes, PcsOk, CallsKept;
  }

  lemma TryPlace(x: World, step: Step, g: FiberId)
    requires PlaceAt(x, g) && StampsOk(x) && Enabled(x.s, step)
    requires RW.MovesOn(x.s, Apply(x.s, step), RW.Registrar(x.s, step), g) && PcOf(Apply(x.s, step), g).IoTry?
    ensures PlaceAt(PoolNext(x, step), g)
  {
    PoolGrows(x, step);
    hide Apply, Enabled, Waiting, Causes;
  }

  lemma PoolPlace(x: World, step: Step, g: FiberId)
    requires StampsOk(x) && PlacesOk(x) && Enabled(x.s, step) && StepFacts(x, step)
    ensures PlaceAt(PoolNext(x, step), g)
  {
    var b := PcOf(Apply(x.s, step), g);
    assert PlaceAt(x, g) && RW.MovesOn(x.s, Apply(x.s, step), RW.Registrar(x.s, step), g);
    assert PcsOk(x.s);
    hide Inv, Apply, Enabled, RW.AllEdges, RW.MovesOn, ReactorRuns.Reachable, PoolNext, PlacesOk, StampsOk;
    if b.IoWait? {
      WaitPlace(x, step, g);
    } else if b.IoWoken? {
      WokenPlace(x, step, g);
    } else if b.IoTry? {
      TryPlace(x, step, g);
    } else {
      OtherPlace(x, step, g);
    }
  }

  lemma OtherPlace(x: World, step: Step, g: FiberId)
    requires Enabled(x.s, step)
    requires var b := PcOf(Apply(x.s, step), g); !b.IoWait? && !b.IoWoken? && !b.IoTry?
    ensures PlaceAt(PoolNext(x, step), g)
  {
    hide Apply, Enabled, Causes;
  }

  lemma WokenIsOver(s: State, s': State, g: FiberId)
    requires PcsOk(s) && CallsKept(s, s') && PcOf(s, g).IoWait? && PcOf(s', g).IoWoken?
    ensures !Waiting(s', PcOf(s, g).call)
  {
    assert PcAt(s, g);
    var c := PcOf(s, g).call;
    assert SameCall(s.calls[c], s'.calls[c]);
  }

  lemma PoolPlaces(x: World, step: Step)
    requires StampsOk(x) && PlacesOk(x) && Enabled(x.s, step) && StepFacts(x, step)
    ensures PlacesOk(PoolNext(x, step))
  {
    hide PlacesOk, StampsOk, StepFacts, PlaceAt, PoolNext, Enabled;
    forall g: FiberId ensures PlaceAt(PoolNext(x, step), g) { PoolPlace(x, step, g); }
    PlacesAre(PoolNext(x, step));
  }

  lemma PlacesAre(x: World)
    requires forall g: FiberId :: PlaceAt(x, g)
    ensures PlacesOk(x)
  {
    hide PlaceAt;
  }

  /** A fresh report on a connecting socket was made when the attempt was over. */
  lemma FreshOver(x: World, step: Step, c: CallId)
    requires StampsOk(x) && BatchesOk(x) && Inv(x.s) && Enabled(x.s, step) && Paced(x, step)
    requires c in x.armed && c in x.begun && Waiting(x.s, c) && !Waiting(Apply(x.s, step), c)
    requires CauseOf(x, step, c) == Fresh
    ensures c !in x.going
  {
    RW.WokenExactly(x.s, c, step);
    var st := x.batches[step.w][0];
    hide Inv, Apply, Enabled, WaitsArmed;
    assert st in x.batches[step.w] && OlderThanGoing(x, st);
    assert RW.Takes(x.s, c, step);
  }

  lemma PoolFresh(x: World, step: Step)
    requires StampsOk(x) && BatchesOk(x) && FreshIsOver(x) && Inv(x.s) && Enabled(x.s, step) && Paced(x, step)
    ensures FreshIsOver(PoolNext(x, step))
  {
    var x' := PoolNext(x, step);
    hide Inv, Enabled, Apply, WaitsArmed, BatchesOk;
    forall c | c in x'.cause && x'.cause[c] == Fresh && c in x'.begun ensures c !in x'.going {
      if c in x.armed && Waiting(x.s, c) && !Waiting(x'.s, c) {
        FreshOver(x, step, c);
      }
    }
  }

  // ----- Rows that no successful epoll_ctl touches -----

  lemma AddRow(t: ET.Table, fd: nat, ev: Event, task: Task, ok: bool, g: nat)
    requires g < |t.rows| && |t.rows| >= 2 && (g != fd || !ok)
    ensures var t' := ET.AddEvent(t, fd, ev, task, ok).0; g < |t'.rows| && t'.rows[g] == t.rows[g]
  {
  }

  lemma DelRow(t: ET.Table, fd: nat, ev: Event, ok: bool, g: nat)
    requires g < |t.rows| && (g != fd || !ok)
    ensures var t' := ET.DelEvent(t, fd, ev, ok).0; g < |t'.rows| && t'.rows[g] == t.rows[g]
  {
  }

  lemma CancelRow(t: ET.Table, fd: nat, ev: Event, ok: bool, g: nat)
    requires ET.Inv(t) && g < |t.rows| && (g != fd || !ok)
    ensures var t' := ET.CancelEvent(t, fd, ev, ok).0; g < |t'.rows| && t'.rows[g] == t.rows[g]
  {
    ET.CancelEventEffect(t, fd, ev, ok);
    DelRow(t, fd, ev, ok, g);
    hide ET.Inv, ET.Armed, ET.DelEvent, ET.CancelEvent;
  }

  lemma CloseRow(t: ET.Table, fd: nat, ok: bool, g: nat)
    requires ET.Inv(t) && g < |t.rows| && (g != fd || !ok)
    ensures var t' := ET.CancelAll(t, fd, ok).0; g < |t'.rows| && t'.rows[g] == t.rows[g]
  {
    ET.CancelAllEffect(t, fd, ok);
    hide ET.Inv, ET.Armed, ET.Released, ET.CancelAll;
  }

  lemma ReportRow(t: ET.Table, report: ET.Report, ok: bool, g: nat)
    requires ET.Inv(t) && (report.Ready? ==> report.fd < |t.rows|) && ET.DispatchOne(t, report, ok).Running?
    requires g < |t.rows| && (report.Ready? && ok ==> g != report.fd)
    ensures var t' := ET.DispatchOne(t, report, ok).table; g < |t'.rows| && t'.rows[g] == t.rows[g]
  {
    ET.DispatchOneEffect(t, report, ok);
    hide ET.Inv, ET.Armed, ET.Released, ET.DispatchOne;
  }

  predicate SameRow(s: State, s': State, fd: nat) {
    fd < |s.table.rows| && fd < |s'.table.rows| && s'.table.rows[fd] == s.table.rows[fd]
  }

  lemma LoopRow(s: State, w: nat, step: LoopStep, fd: nat)
    requires ET.Inv(s.table) && CanLoop(s, w, step) && fd < |s.table.rows| && Succeeds(s, Loop(w, step)) != Some(fd)
    ensures SameRow(s, DoLoop(s, w, step), fd)
  {
    if step.IdleReport? {
      ReportRow(s.table, step.report, step.ok, fd);
    } else {
      LoopTable(s, w, step);
    }
    hide ET.Inv, ET.DispatchOne;
    if !step.IdleReport? { hide DoLoop; }
  }

  lemma LoopTable(s: State, w: nat, step: LoopStep)
    requires CanLoop(s, w, step) && !step.IdleReport?
    ensures DoLoop(s, w, step).table == s.table
  {
    if step.SwapInFiber? || step.SwapInCallback? {
    } else if IsSwap(step) {
      SwapOutOut(s, w, step);
      hide DoLoop;
    } else {
      IdleFrame(s, w, step);
      hide DoLoop;
    }
  }

  lemma CodeRow(s: State, w: nat, step: CodeStep, fd: nat)
    requires ET.Inv(s.table) && CanCode(s, w, step) && fd < |s.table.rows| && Succeeds(s, Code(w, step)) != Some(fd)
    ensures SameRow(s, DoCode(s, w, step), fd)
  {
    if step.IoRegister? {
      var call := s.calls[SelfPc(s, w).call];
      RW.RegisterTable(s, w, step.ok);
      AddRow(s.table, call.fd, call.ev, Resume(Self(s, w)), step.ok, fd);
      hide IoAdd, ET.AddEvent, ET.Inv;
    } else if step.RunFire? {
      var d := s.calls[SelfPc(s, w).call];
      CancelRow(s.table, d.fd, d.ev, step.ok, fd);
      FireIs(s, w, step.ok);
      ReleasedIs(s, w, step.ok);
      hide FireTimeout, ReactorTimeout.Released, ET.CancelEvent, ET.Inv;
    } else {
      CodeTable(s, w, step);
      hide DoCode, CanCode;
    }
  }

  lemma CodeTable(s: State, w: nat, step: CodeStep)
    requires CanCode(s, w, step) && !step.IoRegister? && !step.RunFire?
    ensures DoCode(s, w, step).table == s.table
  {
    hide TS.AddTimer, CancelOwn;
  }

  lemma OpRow(s: State, actor: Actor, op: UserOp, fd: nat)
    requires ET.Inv(s.table) && CanOp(s, op) && fd < |s.table.rows| && Succeeds(s, Act(actor, op)) != Some(fd)
    ensures SameRow(s, ApplyOp(s, op), fd)
  {
    RS.OpTable(s, op);
    match op {
      case Watch(f, ev, id, ok) => AddRow(s.table, f, ev, Call(User(id)), ok, fd);
      case Unwatch(f, ev, ok) => DelRow(s.table, f, ev, ok, fd);
      case CancelWatch(f, ev, ok) => CancelRow(s.table, f, ev, ok, fd);
      case CloseFd(f, ok) => CloseRow(s.table, f, ok, fd);
      case _ =>
    }
    hide ET.Inv, ET.AddEvent, ET.DelEvent, ET.CancelEvent, ET.CancelAll, ApplyOp, CanOp;
  }

  /** A context changes only by a step whose epoll_ctl on its descriptor succeeds. */
  lemma StepRow(s: State, step: Step, fd: nat)
    requires Inv(s) && Enabled(s, step) && fd < |s.table.rows| && Succeeds(s, step) != Some(fd)
    ensures SameRow(s, Apply(s, step), fd)
  {
    assert ET.Inv(s.table);
    hide Inv, ET.Inv, DoLoop, DoCode, ApplyOp, CanLoop, CanCode, CanOp;
    match step
    case Loop(w, loop) => LoopRow(s, w, loop, fd);
    case Code(w, code) => CodeRow(s, w, code, fd);
    case Act(actor, op) => OpRow(s, actor, op, fd);
    case _ =>
  }

  lemma PoolForgotten(x: World, step: Step)
    requires ForgottenArmed(x) && Inv(x.s) && Enabled(x.s, step) && Honest(x, step)
    ensures ForgottenArmed(PoolNext(x, step))
  {
    hide Inv, Enabled, Apply, Succeeds, WaitsArmed;
    forall fd | fd in x.forgotten ensures SameRow(x.s, Apply(x.s, step), fd) { StepRow(x.s, step, fd); }
  }

  // ----- All moves -----

  lemma PoolOk(x: World, step: Step)
    requires WorldOk(x) && Enabled(x.s, step) && Honest(x, step) && Paced(x, step)
    ensures WorldOk(PoolNext(x, step))
  {
    FactsOf(x, step);
    hide Enabled, Apply, Inv, CallsKept, StampsOk, BatchesOk, PlacesOk, FreshIsOver, ForgottenArmed;
    hide RW.AllEdges, ReactorRuns.Reachable, Honest, Paced;
    PoolStamps(x, step);
    PoolBatches(x, step);
    PoolPlaces(x, step);
    PoolFresh(x, step);
    PoolForgotten(x, step);
  }

  lemma ConnectPlaces(x: World, x1: World, c: CallId, f: FiberId, begun: map<CallId, nat>)
    requires PlacesOk(x1) && PcsOk(x1.s) && PcOf(x1.s, f).IoArm? && PcOf(x1.s, f).call == c
    requires forall d <- begun :: d == c || d in x1.begun
    ensures forall going :: PlacesOk(x1.(begun := begun, going := going))
  {
    forall going, g: FiberId ensures PlaceAt(x1.(begun := begun, going := going), g) {
      assert PlaceAt(x1, g) && PcAt(x1.s, g) && PcAt(x1.s, f);
    }
  }

  lemma ConnectShape(s: State, w: nat, code: CodeStep)
    requires CanCode(s, w, code) && (code.IoTimeout? || code.IoForever?)
    ensures var s' := DoCode(s, w, code);
      && PcOf(s', Self(s, w)).IoArm? && PcOf(s', Self(s, w)).call == SelfPc(s, w).call < |s.calls|
      && s'.calls == s.calls
  {
    hide TS.AddTimer;
  }

  lemma ConnectOk(x: World, w: nat, code: CodeStep)
    requires WorldOk(x) && Can(x, Connect(w, code))
    ensures WorldOk(Next(x, Connect(w, code)))
  {
    var c, f := SelfPc(x.s, w).call, Self(x.s, w);
    var x1 := PoolNext(x, Code(w, code));
    ConnectShape(x.s, w, code);
    PoolOk(x, Code(w, code));
    ReachableInv(x1.s);
    assert x1.armed == x.armed && x1.begun == x.begun && x1.going == x.going && x1.batches == x.batches;
    var begun, going := x.begun[c := x.now], x.going + {c};
    ConnectPlaces(x, x1, c, f, begun);
    hide DoCode, CanCode, PoolNext, ReactorRuns.Reachable, Inv, PlacesOk;
    ConnectStamps(x1, c, x.now);
    ConnectBatches(x, x1, c);
  }

  lemma ConnectStamps(x1: World, c: CallId, now: nat)
    requires StampsOk(x1) && FreshIsOver(x1) && now < x1.now
    requires c !in x1.armed && c < |x1.s.calls| && x1.s.calls[c].ev == WRITE
    ensures var x' := x1.(begun := x1.begun[c := now], going := x1.going + {c}); StampsOk(x') && FreshIsOver(x')
  {
  }

  lemma ConnectBatches(x: World, x1: World, c: CallId)
    requires BatchesOk(x) && BatchesOk(x1) && x1.batches == x.batches && c !in x1.begun
    ensures BatchesOk(x1.(begun := x1.begun[c := x.now], going := x1.going + {c}))
  {
    var x' := x1.(begun := x1.begun[c := x.now], going := x1.going + {c});
    forall w, st | w in x'.batches && st in x'.batches[w] ensures st.made < x'.now && OlderThanGoing(x', st) {
      assert st in x1.batches[w] && OlderThanGoing(x1, st) && st in x.batches[w];
    }
  }

  lemma WaitOk(x: World, w: nat, reports: seq<ET.Report>)
    requires WorldOk(x) && Can(x, EpollWait(w, reports))
    ensures WorldOk(Next(x, EpollWait(w, reports)))
  {
    var x' := Next(x, EpollWait(w, reports));
    hide ReactorRuns.Reachable, WaitsArmed;
    forall v, st | v in x'.batches && st in x'.batches[v] ensures st.made < x'.now && OlderThanGoing(x', st) {
      if v == w {
        assert st.report in reports && Truthful(x, st.report);
      } else {
        assert st in x.batches[v] && OlderThanGoing(x, st);
      }
    }
    forall g: FiberId ensures PlaceAt(x', g) { assert PlaceAt(x, g); }
  }

  lemma KernelMoveOk(x: World, x': World)
    requires WorldOk(x) && x' == x.(now := x'.now, going := x'.going, forgotten := x'.forgotten)
    requires x'.now > x.now && x'.going <= x.going && ForgottenArmed(x')
    ensures WorldOk(x')
  {
    hide ReactorRuns.Reachable, WaitsArmed, ForgottenArmed;
    forall w, st | w in x'.batches && st in x'.batches[w] ensures st.made < x'.now && OlderThanGoing(x', st) {
      assert st in x.batches[w] && OlderThanGoing(x, st);
    }
    forall g: FiberId ensures PlaceAt(x', g) { assert PlaceAt(x, g); }
  }

  lemma NextOk(x: World, m: Move)
    requires WorldOk(x) && Can(x, m)
    ensures WorldOk(Next(x, m))
  {
    match m
    case Pool(step) => PoolOk(x, step);
    case Connect(w, code) => ConnectOk(x, w, code);
    case EpollWait(w, reports) => WaitOk(x, w, reports);
    case Conclude(c) => KernelMoveOk(x, Next(x, m));
    case Forget(fd) =>
      ReachableInv(x.s);
      KernelKnows(x.s.table, fd);
      hide WorldOk, Inv;
      ForgetsArmed(x, fd);
      KernelMoveOk(x, Next(x, m));
  }

  lemma KernelKnows(t: ET.Table, fd: nat)
    requires ET.Valid(t)
    ensures fd in t.kernel <==> fd < |t.rows| && t.rows[fd].events != NONE
  {
  }

  lemma ForgetsArmed(x: World, fd: nat)
    requires WorldOk(x) && (fd in x.s.table.kernel ==> fd < |x.s.table.rows| && x.s.table.rows[fd].events != NONE)
    ensures ForgottenArmed(Next(x, Forget(fd)))
  {
    hide ReactorRuns.Reachable, StampsOk, BatchesOk, PlacesOk, FreshIsOver;
  }

  lemma {:induction false} RunOk(x: World, moves: seq<Move>)
    requires WorldOk(x) && Feasible(x, moves)
    ensures WorldOk(Run(x, moves))
    decreases |moves|
  {
    hide WorldOk, Can, Next;
    if moves != [] {
      NextOk(x, moves[0]);
      RunOk(Next(x, moves[0]), moves[1..]);
    }
  }

  /** Every world that can come about satisfies all of this; its reactor is in a reachable
      state, so what is proved of those holds here as well. */
  lemma ReachableOk(x: World)
    requires Reachable(x)
    ensures WorldOk(x)
  {
    var n: nat, moves :| Feasible(Start(n), moves) && Run(Start(n), moves) == x;
    StartOk(n);
    hide WorldOk, Can, Next;
    RunOk(Start(n), moves);
  }
}
