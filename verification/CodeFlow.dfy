/** What the hooked calls, the library's callbacks and user code do to tokens. */
module CodeFlow {
  import opened Base
  import opened Sums
  import opened RunQueue
  import opened Reactor
  import opened Tokens
  import opened LoopFlow
  import opened IdleFlow
  import ET = EventTable
  import TS = TimerSet

  /** A running fiber that is not suspending moves on: its own tokens become those its new
      program counter asks for, and no other fiber is touched. */
  lemma SelfFibers(s: State, w: nat, s': State, gained: multiset<Task>, lost: multiset<Task>)
    requires FibersOk(s) && WorkersOk(s) && Runs(s, w) && Flow(s, s', gained, lost)
    requires !SelfPc(s, w).Suspending()
    requires |s'.fibers| == |s.fibers| && s'.fibers == s.fibers[Self(s, w) := s'.fibers[Self(s, w)]]
    requires s'.fibers[Self(s, w)].state == EXEC
    requires s'.workers == s.workers && s'.dropped == s.dropped
    requires OnlyFor(gained, Self(s, w)) && OnlyFor(lost, Self(s, w))
    requires lost[Resume(Self(s, w))] == lost[Call(Wake(Self(s, w)))] == 0
    requires gained[Resume(Self(s, w))] + gained[Call(Wake(Self(s, w)))]
      == if s'.fibers[Self(s, w)].pc.Suspending() then 1 else 0
    ensures FibersOk(s')
  {
    var f := Self(s, w);
    RunnerAlone(s, w);
    assert TokensOf(s', f) == if s'.fibers[f].pc.Suspending() then 1 else 0 by {
      assert Count(s', Resume(f)) + lost[Resume(f)] == Count(s, Resume(f)) + gained[Resume(f)];
      assert Count(s', Call(Wake(f))) + lost[Call(Wake(f))] == Count(s, Call(Wake(f))) + gained[Call(Wake(f))];
    }
    FibersStep(s, s', Self(s, w), gained, lost);
  }

  /** The whole state but one program counter and what the caller says. */
  predicate SelfMoves(s: State, w: nat, s': State, pc: Pc)
    requires Runs(s, w)
  {
    s'.fibers == s.fibers[Self(s, w) := Fiber(EXEC, pc)] && s'.workers == s.workers && s'.dropped == s.dropped
  }

  /** No token moves. */
  lemma QuietMove(s: State, w: nat, s': State, pc: Pc)
    requires FibersOk(s) && WorkersOk(s) && Runs(s, w) && SelfMoves(s, w, s', pc)
    requires s'.queue == s.queue && s'.table == s.table && s'.timers == s.timers
    requires !SelfPc(s, w).Suspending() && !pc.Suspending()
    requires BodyTasks(Fiber(EXEC, pc)) == BodyTasks(s.fibers[Self(s, w)])
    ensures FibersOk(s') && Flow(s, s', NOTHING, NOTHING)
  {
    var f := Self(s, w);
    forall t ensures Count(s', t) == Count(s, t) { BodyShift(s, f, Fiber(EXEC, pc), s', t); }
    OnlyForTokens(f);
    SelfFibers(s, w, s', NOTHING, NOTHING);
  }

  // ----- Timers of the library -----

  /** A library timer is added. */
  lemma AddTimerMove(s: State, w: nat, s': State, pc: Pc, r: TS.Rec)
    requires FibersOk(s) && WorkersOk(s) && Runs(s, w) && SelfMoves(s, w, s', pc)
    requires s'.queue == s.queue && s'.table == s.table && s'.timers.items == TS.Insert(s.timers.items, r)
    requires !SelfPc(s, w).Suspending() && pc.Suspending() == (r.cb == Wake(Self(s, w)))
    requires BodyTasks(Fiber(EXEC, pc)) == BodyTasks(s.fibers[Self(s, w)])
    requires r.cb.Wake? ==> r.cb.sleeper == Self(s, w)
    ensures FibersOk(s') && Flow(s, s', multiset{Call(r.cb)}, NOTHING)
  {
    var f := Self(s, w);
    forall t ensures Count(s', t) == Count(s, t) + multiset{Call(r.cb)}[t] {
      BodyShift(s, f, Fiber(EXEC, pc), s', t);
      TimerPush(s, r, s', t);
    }
    OnlyForTokens(f);
    SelfFibers(s, w, s', multiset{Call(r.cb)}, NOTHING);
  }

  /** The timer of a hooked call, if it is still in the set, carries that call's timeout. */
  predicate OwnTimer(items: seq<TS.Rec>, timer: Option<nat>, c: CallId) {
    timer.Some? && TS.Has(items, timer.value) ==> TS.At(items, timer.value).cb == Timeout(c)
  }

  ghost function OwnTasks(items: seq<TS.Rec>, timer: Option<nat>): multiset<Task> {
    if timer.Some? then ErasedTasks(items, timer.value) else NOTHING
  }

  lemma CancelCount(s: State, timer: Option<nat>, s': State, t: Task)
    requires s'.timers == CancelOwn(s.timers, timer)
    ensures Timed(s)[t] == Timed(s')[t] + OwnTasks(s.timers.items, timer)[t]
  {
    if timer.Some? { TimerErase(s, timer.value, s', t); }
  }

  lemma CancelMove(s: State, w: nat, s': State, pc: Pc, timer: Option<nat>, c: CallId)
    requires FibersOk(s) && WorkersOk(s) && Runs(s, w) && SelfMoves(s, w, s', pc)
    requires s'.queue == s.queue && s'.table == s.table && s'.timers == CancelOwn(s.timers, timer)
    requires !SelfPc(s, w).Suspending() && !pc.Suspending()
    requires BodyTasks(Fiber(EXEC, pc)) == BodyTasks(s.fibers[Self(s, w)])
    requires OwnTimer(s.timers.items, timer, c)
    ensures FibersOk(s') && Flow(s, s', NOTHING, OwnTasks(s.timers.items, timer))
  {
    var f, lost := Self(s, w), OwnTasks(s.timers.items, timer);
    forall t ensures Count(s', t) + lost[t] == Count(s, t) {
      BodyShift(s, f, Fiber(EXEC, pc), s', t);
      CancelCount(s, timer, s', t);
    }
    OnlyForTokens(f);
    SelfFibers(s, w, s', NOTHING, lost);
  }

  // ----- addEvent for the running fiber -----

  lemma IoAddFibers(s: State, w: nat, ok: bool)
    requires FibersOk(s) && WorkersOk(s) && ET.Inv(s.table) && CanIoAdd(s, w)
    ensures FibersOk(IoAdd(s, w, ok)) && ET.Inv(IoAdd(s, w, ok).table)
    ensures Flow(s, IoAdd(s, w, ok), if ok then multiset{Resume(Self(s, w))} else NOTHING, NOTHING)
  {
    var s', f, pc := IoAdd(s, w, ok), Self(s, w), SelfPc(s, w);
    var gained := if ok then multiset{Resume(f)} else NOTHING;
    ET.AddEventEffect(s.table, s.calls[pc.call].fd, s.calls[pc.call].ev, Resume(f), ok);
    assert SelfMoves(s, w, s', if ok then IoWait(pc.call, pc.timer) else IoUndo(pc.call, pc.timer));
    assert ET.Armed(s'.table) == ET.Armed(s.table) + gained;
    assert s'.queue == s.queue && s'.timers == s.timers;
    hide IoAdd, ET.AddEvent, ET.Armed, ET.Inv;
    AddedMove(s, w, s', s'.fibers[f].pc, gained);
  }

  lemma AddedMove(s: State, w: nat, s': State, pc: Pc, gained: multiset<Task>)
    requires FibersOk(s) && WorkersOk(s) && Runs(s, w) && SelfMoves(s, w, s', pc)
    requires s'.queue == s.queue && s'.timers == s.timers && ET.Armed(s'.table) == ET.Armed(s.table) + gained
    requires !SelfPc(s, w).Suspending()
    requires BodyTasks(Fiber(EXEC, pc)) == BodyTasks(s.fibers[Self(s, w)])
    requires gained == if pc.Suspending() then multiset{Resume(Self(s, w))} else NOTHING
    ensures FibersOk(s') && Flow(s, s', gained, NOTHING)
  {
    var f := Self(s, w);
    forall t ensures Count(s', t) == Count(s, t) + gained[t] {
      BodyShift(s, f, Fiber(EXEC, pc), s', t);
      assert ET.Armed(s'.table)[t] == ET.Armed(s.table)[t] + gained[t];
    }
    OnlyForTokens(f);
    SelfFibers(s, w, s', gained, NOTHING);
  }

  // ----- The library's callbacks -----

  lemma WakeCount(s: State, w: nat, t: Task)
    requires CanWake(s, w)
    ensures var g := SelfPc(s, w).sleeper;
      Count(WakeSleeper(s, w), t) + multiset{Call(Wake(g))}[t] == Count(s, t) + multiset{Resume(g)}[t]
  {
    BodyShift(s, Self(s, w), Fiber(EXEC, Done), WakeSleeper(s, w), t);
    QueuePush(s, Resume(SelfPc(s, w).sleeper), ANY_THREAD, WakeSleeper(s, w), t);
  }

  lemma WakeTokens(s: State, w: nat, h: FiberId)
    requires CanWake(s, w)
    ensures TokensOf(WakeSleeper(s, w), h) == TokensOf(s, h)
  {
    WakeCount(s, w, Resume(h));
    WakeCount(s, w, Call(Wake(h)));
  }

  lemma WakeAt(s: State, w: nat)
    requires FibersOk(s) && WorkersOk(s) && CanWake(s, w)
    ensures var s' := WakeSleeper(s, w);
      |s'.fibers| == |s.fibers| && OkAt(s', Self(s, w)) && OnlyFiber(s, s', Self(s, w))
  {
    RunnerAlone(s, w);
    WakeTokens(s, w, Self(s, w));
    WakeShape(s, w);
    hide TokensOf, Count, WakeSleeper;
  }

  lemma WakeShape(s: State, w: nat)
    requires CanWake(s, w)
    ensures var s' := WakeSleeper(s, w);
      && OnlyFiber(s, s', Self(s, w)) && SelfMoves(s, w, s', Done) && s'.table == s.table && s'.timers == s.timers
  {
  }

  /** The sleeper's token changes its form: from the timer's callback to a queue entry. */
  lemma WakeFibers(s: State, w: nat)
    requires FibersOk(s) && WorkersOk(s) && CanWake(s, w)
    ensures FibersOk(WakeSleeper(s, w))
  {
    var s', f := WakeSleeper(s, w), Self(s, w);
    WakeAt(s, w);
    forall h ensures TokensOf(s', h) == TokensOf(s, h) { WakeTokens(s, w, h); }
    hide WakeSleeper;
    FibersFrame(s, s', f);
  }

  lemma WakeFlow(s: State, w: nat)
    requires CanWake(s, w)
    ensures var g := SelfPc(s, w).sleeper;
      Flow(s, WakeSleeper(s, w), multiset{Resume(g)}, multiset{Call(Wake(g))})
  {
    forall t { WakeCount(s, w, t); }
  }

  /** A timeout callback's step: from its test to setting `cancelled`, and on to cancelEvent. */
  predicate TimeoutMove(from: Pc, to: Pc, c: CallId) {
    (from == TimeoutBody(c) || from == TimeoutSet(c)) && (to == Done || to == TimeoutSet(c) || to == TimeoutFire(c))
  }

  /** The callback is used up when it gives up, or has set `cancelled`. */
  ghost function Spent(to: Pc, c: CallId): multiset<Task> {
    if to == TimeoutSet(c) then NOTHING else multiset{Call(Timeout(c))}
  }

  lemma ConsumedFlow(s: State, w: nat, s': State, pc: Pc, c: CallId)
    requires Runs(s, w) && SelfMoves(s, w, s', pc) && TimeoutMove(SelfPc(s, w), pc, c)
    requires s'.queue == s.queue && s'.table == s.table && s'.timers == s.timers
    ensures Flow(s, s', NOTHING, Spent(pc, c))
  {
    forall t ensures Count(s', t) + Spent(pc, c)[t] == Count(s, t) + NOTHING[t] { ConsumedCount(s, w, s', pc, c, t); }
    hide Count, Spent, SelfMoves, TimeoutMove;
  }

  lemma SpentBodies(from: Fiber, to: Pc, c: CallId, t: Task)
    requires TimeoutMove(from.pc, to, c)
    ensures BodyTasks(from)[t] == Spent(to, c)[t] + BodyTasks(Fiber(EXEC, to))[t]
  {
  }

  lemma ConsumedCount(s: State, w: nat, s': State, pc: Pc, c: CallId, t: Task)
    requires Runs(s, w) && SelfMoves(s, w, s', pc) && TimeoutMove(SelfPc(s, w), pc, c)
    requires s'.queue == s.queue && s'.table == s.table && s'.timers == s.timers
    ensures Count(s', t) + Spent(pc, c)[t] == Count(s, t)
  {
    SpentBodies(s.fibers[Self(s, w)], pc, c, t);
    BodyShift(s, Self(s, w), Fiber(EXEC, pc), s', t);
    hide BodyTasks, Spent, TimeoutMove;
  }

  /** A timeout callback is nobody's token. */
  lemma UsedTimeout(f: FiberId, pc: Pc, c: CallId)
    ensures var lost := Spent(pc, c);
      OnlyFor(NOTHING, f) && OnlyFor(lost, f) && lost[Resume(f)] == lost[Call(Wake(f))] == 0
  {
  }

  lemma ConsumedMove(s: State, w: nat, s': State, pc: Pc, c: CallId)
    requires FibersOk(s) && WorkersOk(s) && Runs(s, w) && SelfMoves(s, w, s', pc) && TimeoutMove(SelfPc(s, w), pc, c)
    requires s'.queue == s.queue && s'.table == s.table && s'.timers == s.timers
    ensures FibersOk(s') && Flow(s, s', NOTHING, Spent(pc, c))
  {
    ConsumedFlow(s, w, s', pc, c);
    UsedTimeout(Self(s, w), pc, c);
    hide Flow, FibersOk, WorkersOk, Count, OnlyFor, Spent;
    SelfFibers(s, w, s', NOTHING, Spent(pc, c));
  }

  lemma TestFibers(s: State, w: nat)
    requires FibersOk(s) && WorkersOk(s) && CanTest(s, w)
    ensures FibersOk(TestTimeout(s, w))
    ensures Flow(s, TestTimeout(s, w), NOTHING, Spent(TestTimeout(s, w).fibers[Self(s, w)].pc, SelfPc(s, w).call))
  {
    var s', c := TestTimeout(s, w), SelfPc(s, w).call;
    ConsumedMove(s, w, s', s'.fibers[Self(s, w)].pc, c);
  }

  lemma SetFibers(s: State, w: nat)
    requires FibersOk(s) && WorkersOk(s) && CanSet(s, w)
    ensures FibersOk(SetCancelled(s, w))
    ensures Flow(s, SetCancelled(s, w), NOTHING, multiset{Call(Timeout(SelfPc(s, w).call))})
  {
    ConsumedMove(s, w, SetCancelled(s, w), TimeoutFire(SelfPc(s, w).call), SelfPc(s, w).call);
  }

  lemma ReleasedCount(s: State, f: FiberId, fiber: Fiber, s': State, out: seq<Task>, t: Task)
    requires f < |s.fibers| && s'.fibers == s.fibers[f := fiber] && s'.workers == s.workers
    requires BodyTasks(s.fibers[f]) == BodyTasks(fiber) == NOTHING
    requires ET.Armed(s.table) == ET.Armed(s'.table) + multiset(out)
    requires s'.queue == Appended(s.queue, out) && s'.timers == s.timers
    ensures Count(s', t) == Count(s, t)
  {
    assert ET.Armed(s.table)[t] == ET.Armed(s'.table)[t] + multiset(out)[t];
    BodyShift(s, f, fiber, s', t);
    QueueAppend(s, out, s', t);
  }

  lemma ReleasedMove(s: State, w: nat, s': State, out: seq<Task>)
    requires FibersOk(s) && WorkersOk(s) && Runs(s, w) && SelfMoves(s, w, s', Done)
    requires !SelfPc(s, w).Suspending() && BodyTasks(s.fibers[Self(s, w)]) == NOTHING
    requires ET.Armed(s.table) == ET.Armed(s'.table) + multiset(out)
    requires s'.queue == Appended(s.queue, out) && s'.timers == s.timers
    ensures FibersOk(s') && Flow(s, s', NOTHING, NOTHING)
  {
    ReleasedFlow(s, w, s', out);
    OnlyForTokens(Self(s, w));
    hide Flow, FibersOk, WorkersOk, Count, OnlyFor, Appended, ET.Armed;
    SelfFibers(s, w, s', NOTHING, NOTHING);
  }

  lemma ReleasedFlow(s: State, w: nat, s': State, out: seq<Task>)
    requires Runs(s, w) && SelfMoves(s, w, s', Done) && BodyTasks(s.fibers[Self(s, w)]) == NOTHING
    requires ET.Armed(s.table) == ET.Armed(s'.table) + multiset(out)
    requires s'.queue == Appended(s.queue, out) && s'.timers == s.timers
    ensures Flow(s, s', NOTHING, NOTHING)
  {
    hide Count, Appended, ET.Armed;
    forall t ensures Count(s', t) == Count(s, t) {
      ReleasedCount(s, Self(s, w), Fiber(EXEC, Done), s', out, t);
    }
  }

  lemma FireFibers(s: State, w: nat, ok: bool)
    requires FibersOk(s) && WorkersOk(s) && ET.Inv(s.table) && CanFire(s, w)
    ensures FibersOk(FireTimeout(s, w, ok)) && Flow(s, FireTimeout(s, w, ok), NOTHING, NOTHING)
    ensures ET.Inv(FireTimeout(s, w, ok).table)
  {
    var call := s.calls[SelfPc(s, w).call];
    var out := ET.CancelEvent(s.table, call.fd, call.ev, ok).1;
    ET.CancelEventEffect(s.table, call.fd, call.ev, ok);
    ReleasedMove(s, w, FireTimeout(s, w, ok), out);
  }

  // ----- User operations -----

  lemma OnlyDropped(s: State, s': State, f: FiberId)
    requires s'.fibers == s.fibers && s'.workers == s.workers
    requires s'.dropped == s.dropped || s'.dropped == s.dropped + {f}
    ensures OnlyFiber(s, s', f)
  {
  }

  lemma UserTask(t: Task, f: FiberId)
    requires t.Call? && t.cb.User?
    ensures OnlyFor(multiset{t}, f)
  {
  }

  lemma PushFlow(s: State, task: Task, thread: int)
    ensures Flow(s, Push(s, task, thread), multiset{task}, NOTHING)
  {
    var s' := Push(s, task, thread);
    forall t ensures Count(s', t) == Count(s, t) + multiset{task}[t] { QueuePush(s, task, thread, s', t); }
  }

  lemma SubmitFibers(s: State, task: Task, thread: int)
    requires FibersOk(s) && task.Call? && task.cb.User?
    ensures FibersOk(Push(s, task, thread))
  {
    PushFlow(s, task, thread);
    UserTask(task, |s.fibers|);
    OnlyForTokens(|s.fibers|);
    StillFibers(s, Push(s, task, thread), multiset{task}, NOTHING);
  }

  lemma SubmitFiberAt(s: State, f: FiberId, thread: int)
    requires FibersOk(s) && CanOp(s, SubmitFiber(f, thread))
    ensures OkAt(Push(s, Resume(f), thread), f)
  {
    var s' := Push(s, Resume(f), thread);
    QueuePush(s, Resume(f), thread, s', Resume(f));
    QueuePush(s, Resume(f), thread, s', Call(Wake(f)));
    assert OkAt(s, f);
  }

  lemma SubmitFiberFibers(s: State, f: FiberId, thread: int)
    requires FibersOk(s) && CanOp(s, SubmitFiber(f, thread))
    ensures FibersOk(Push(s, Resume(f), thread))
  {
    PushFlow(s, Resume(f), thread);
    SubmitFiberAt(s, f, thread);
    OnlyForTokens(f);
    OnlyDropped(s, Push(s, Resume(f), thread), f);
    hide OnlyFor, OnlyFiber, OkAt, Flow, CanOp;
    FibersStep(s, Push(s, Resume(f), thread), f, multiset{Resume(f)}, NOTHING);
  }

  lemma NoTokens(s: State, g: FiberId)
    requires Known(s) && g >= |s.fibers|
    ensures Count(s, Resume(g)) == 0 && Count(s, Call(Wake(g))) == 0
  {
    assert !KnownTask(Resume(g), |s.fibers|, |s.calls|) && !KnownTask(Call(Wake(g)), |s.fibers|, |s.calls|);
  }

  lemma NewFiberAt(s: State, s': State)
    requires FibersOk(s) && WorkersOk(s) && Known(s) && s' == s.(fibers := s.fibers + [Fiber(INIT, Plain)])
    ensures Flow(s, s', NOTHING, NOTHING) && OkAt(s', |s.fibers|)
  {
    var g := |s.fibers|;
    forall t ensures Count(s', t) == Count(s, t) { BodyPush(s, Fiber(INIT, Plain), s', t); }
    if Held(s)[g] > 0 { HeldKnown(s, g); }
    NoTokens(s, g);
    assert Count(s', Resume(g)) == Count(s, Resume(g)) == 0;
    assert Count(s', Call(Wake(g))) == Count(s, Call(Wake(g))) == 0;
  }

  lemma NewFiberFibers(s: State)
    requires FibersOk(s) && WorkersOk(s) && Known(s)
    ensures var s' := s.(fibers := s.fibers + [Fiber(INIT, Plain)]); FibersOk(s') && Flow(s, s', NOTHING, NOTHING)
  {
    var s' := s.(fibers := s.fibers + [Fiber(INIT, Plain)]);
    NewFiberAt(s, s');
    OnlyForTokens(|s.fibers|);
    FibersStep(s, s', |s.fibers|, NOTHING, NOTHING);
  }

  lemma WatchedFibers(s: State, s': State, id: nat, gained: multiset<Task>)
    requires FibersOk(s) && s' == s.(table := s'.table)
    requires ET.Armed(s'.table) == ET.Armed(s.table) + gained
    requires gained == NOTHING || gained == multiset{Call(User(id))}
    ensures FibersOk(s') && Flow(s, s', gained, NOTHING)
  {
    forall t ensures Count(s', t) == Count(s, t) + gained[t] {
      assert ET.Armed(s'.table)[t] == (ET.Armed(s.table) + gained)[t];
    }
    UserTask(Call(User(id)), |s.fibers|);
    OnlyForTokens(|s.fibers|);
    StillFibers(s, s', gained, NOTHING);
  }

  lemma WatchFibers(s: State, fd: nat, ev: Event, id: nat, ok: bool)
    requires FibersOk(s) && ET.Inv(s.table) && ET.CanAdd(s.table, fd, ev)
    ensures var s' := s.(table := ET.AddEvent(s.table, fd, ev, Call(User(id)), ok).0);
      && FibersOk(s') && ET.Inv(s'.table)
      && Flow(s, s', if ok then multiset{Call(User(id))} else NOTHING, NOTHING)
  {
    ET.AddEventEffect(s.table, fd, ev, Call(User(id)), ok);
    hide ET.AddEvent, ET.Armed;
    WatchedFibers(s, s.(table := ET.AddEvent(s.table, fd, ev, Call(User(id)), ok).0), id,
                  if ok then multiset{Call(User(id))} else NOTHING);
  }

  /** The continuations of an armed slot are among the outstanding tasks. */
  lemma ArmedHas(s: State, fd: nat, ev: Event)
    requires ET.Valid(s.table) && ET.IsArmed(s.table, fd, ev)
    ensures s.table.rows[fd].Get(ev).Task() in ET.Armed(s.table)
    ensures Count(s, s.table.rows[fd].Get(ev).Task()) >= 1
  {
    GatherHas(s.table.rows, fd, ET.RowTasks);
    assert s.table.rows[fd].Valid();
  }

  lemma DeletedCount(s: State, s': State, task: Task, t: Task)
    requires s' == s.(table := s'.table, dropped := s'.dropped)
    requires ET.Armed(s.table) == ET.Armed(s'.table) + multiset{task}
    ensures Count(s', t) + multiset{task}[t] == Count(s, t)
  {
    assert ET.Armed(s.table)[t] == (ET.Armed(s'.table) + multiset{task})[t];
  }

  lemma DroppedAt(s: State, s': State, f: FiberId)
    requires FibersOk(s) && f < |s.fibers| && s.fibers[f].pc.Suspending()
    requires s' == s.(table := s'.table, dropped := s.dropped + {f})
    requires ET.Armed(s.table) == ET.Armed(s'.table) + multiset{Resume(f)}
    ensures OkAt(s', f)
  {
    DeletedCount(s, s', Resume(f), Resume(f));
    DeletedCount(s, s', Resume(f), Call(Wake(f)));
    assert OkAt(s, f);
  }

  lemma DeletedFlow(s: State, s': State, task: Task)
    requires s' == s.(table := s'.table, dropped := s'.dropped)
    requires ET.Armed(s.table) == ET.Armed(s'.table) + multiset{task}
    ensures Flow(s, s', NOTHING, multiset{task})
  {
    forall t { DeletedCount(s, s', task, t); }
  }

  /** delEvent on a slot that holds a fiber: its only token is gone for good. */
  lemma DroppedFibers(s: State, s': State, f: FiberId)
    requires FibersOk(s) && f < |s.fibers| && s.fibers[f].pc.Suspending()
    requires s' == s.(table := s'.table, dropped := s.dropped + {f})
    requires ET.Armed(s.table) == ET.Armed(s'.table) + multiset{Resume(f)}
    ensures FibersOk(s') && Flow(s, s', NOTHING, multiset{Resume(f)})
  {
    DeletedFlow(s, s', Resume(f));
    DroppedAt(s, s', f);
    OnlyForTokens(f);
    OnlyDropped(s, s', f);
    hide *;
    FibersStep(s, s', f, NOTHING, multiset{Resume(f)});
  }

  lemma DiscardedFibers(s: State, s': State, task: Task)
    requires FibersOk(s) && task.Call? && task.cb.User?
    requires s' == s.(table := s'.table)
    requires ET.Armed(s.table) == ET.Armed(s'.table) + multiset{task}
    ensures FibersOk(s') && Flow(s, s', NOTHING, multiset{task})
  {
    DeletedFlow(s, s', task);
    UserTask(task, |s.fibers|);
    OnlyForTokens(|s.fibers|);
    hide ET.Armed;
    StillFibers(s, s', NOTHING, multiset{task});
  }

  /** Timers of users come and go without touching a token. */
  lemma UserTimerFibers(s: State, s': State, gained: multiset<Task>, lost: multiset<Task>)
    requires FibersOk(s) && s' == s.(timers := s'.timers, used := s'.used)
    requires Gather(s'.timers.items, RecTasks) + lost == Gather(s.timers.items, RecTasks) + gained
    requires OnlyFor(gained, |s.fibers|) && OnlyFor(lost, |s.fibers|)
    ensures FibersOk(s') && Flow(s, s', gained, lost)
  {
    forall t ensures Count(s', t) + lost[t] == Count(s, t) + gained[t] {
      assert (Gather(s'.timers.items, RecTasks) + lost)[t] == (Gather(s.timers.items, RecTasks) + gained)[t];
    }
    StillFibers(s, s', gained, lost);
  }
}
