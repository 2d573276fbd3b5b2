/** The hooked calls, the library's callbacks and user code keep the invariant. */
module CodeKeeps {
  import opened Base
  import opened Sums
  import opened RunQueue
  import opened Reactor
  import opened Tokens
  import opened LoopFlow
  import opened IdleFlow
  import opened CodeFlow
  import opened ReactorInv
  import opened LoopKeeps
  import ET = EventTable
  import TS = TimerSet

  /** Only the running fiber's program counter and shared structures change. */
  ghost predicate SelfOnly(s: State, w: nat, s': State, pc: Pc)
    requires Runs(s, w)
  {
    && SelfMoves(s, w, s', pc) && s'.active == s.active && s'.idle == s.idle
  }

  lemma SelfWorkers(s: State, w: nat, s': State, pc: Pc)
    requires WorkersOk(s) && Runs(s, w) && SelfMoves(s, w, s', pc)
    ensures WorkersOk(s') && OthersSame(s, s', Self(s, w))
  {
    forall v | 0 <= v < |s'.workers| ensures WorkerOk(s'.workers[v], s'.fibers) {
      assert WorkerOk(s.workers[v], s.fibers);
    }
  }

  lemma SelfCensus(s: State, w: nat, s': State, pc: Pc)
    requires CensusOk(s) && Runs(s, w) && SelfOnly(s, w, s', pc)
    ensures CensusOk(s')
  {
  }

  /** The running fiber, not suspending, is in no slot and no sleep timer. */
  lemma SelfFree(s: State, w: nat, s': State, pc: Pc)
    requires Inv(s) && Runs(s, w) && !SelfPc(s, w).Suspending() && SelfMoves(s, w, s', pc)
    requires forall c, a :: SelfPc(s, w).HoldsTimer(c, a) ==> pc.HoldsTimer(c, a) || !TS.Has(s'.timers.items, a)
    ensures FreeToMove(s, s', Self(s, w), ET.Armed(s.table)) && FreeOfTimers(s, s', Self(s, w))
  {
  }

  /** A step of the running fiber that leaves table and timers alone. */
  lemma QuietKeeps(s: State, w: nat, s': State, pc: Pc)
    requires Inv(s) && Runs(s, w) && SelfOnly(s, w, s', pc)
    requires s'.queue == s.queue && s'.table == s.table && s'.timers == s.timers && s'.used == s.used
    requires CallsKept(s, s') && forall c :: |s.calls| <= c < |s'.calls| ==> s'.calls[c].owner < |s'.fibers|
    requires !SelfPc(s, w).Suspending() && !pc.Suspending()
    requires BodyTasks(Fiber(EXEC, pc)) == BodyTasks(s.fibers[Self(s, w)])
    requires PcAt(s', Self(s, w)) && OwnAt(s', Self(s, w))
    requires forall c, a :: SelfPc(s, w).HoldsTimer(c, a) ==> pc.HoldsTimer(c, a)
    ensures Inv(s')
  {
    QuietMove(s, w, s', pc);
    KnownFlow(s, s', NOTHING, NOTHING);
    SelfWorkers(s, w, s', pc);
    SelfCensus(s, w, s', pc);
    SelfFree(s, w, s', pc);
    ContextFrame(s, s', Self(s, w));
  }

  lemma IoBeginKeeps(s: State, w: nat, fd: nat, ev: Event)
    requires Inv(s) && CanIoBegin(s, w)
    ensures Inv(IoBegin(s, w, fd, ev))
  {
    QuietKeeps(s, w, IoBegin(s, w, fd, ev), IoTry(|s.calls|));
  }

  lemma IoReturnKeeps(s: State, w: nat)
    requires Inv(s) && AtTry(s, w)
    ensures Inv(IoReturn(s, w))
  {
    QuietKeeps(s, w, IoReturn(s, w), Plain);
  }

  lemma IoNoTimerKeeps(s: State, w: nat)
    requires Inv(s) && AtTry(s, w)
    ensures Inv(IoNoTimer(s, w))
  {
    assert PcAt(s, Self(s, w));
    QuietKeeps(s, w, IoNoTimer(s, w), IoArm(SelfPc(s, w).call, None));
  }

  // ----- Adding a library timer -----

  lemma FreshNotIn(s: State, addr: nat)
    requires TimersOk(s) && FreshAddr(s, addr)
    ensures !TS.Has(s.timers.items, addr)
  {
    TS.HasMember(s.timers.items, addr);
  }

  lemma AddedTimers(s: State, s': State, r: TS.Rec)
    requires TimersOk(s) && FreshAddr(s, r.addr) && RecOk(r, s')
    requires s'.timers == TS.AddTimer(s.timers, r).0 && s'.used == s.used + {r.addr}
    ensures TimersFrom(s, s')
  {
    FreshNotIn(s, r.addr);
    TS.AddTimerEffect(s.timers, r);
    TS.SelfWithin(s.timers.items);
  }

  /** The running fiber adds its sleep timer, or the timeout of its hooked call. */
  predicate Arming(before: Pc, after: Pc, f: FiberId, r: TS.Rec) {
    !r.recurring &&
    ((before == Plain && after == Asleep && r.cb == Wake(f)) ||
     (before.IoTry? && after == IoArm(before.call, Some(r.addr)) && r.cb == Timeout(before.call)))
  }

  lemma ArmingOk(s: State, w: nat, s': State, pc: Pc, r: TS.Rec)
    requires Inv(s) && Runs(s, w) && SelfMoves(s, w, s', pc) && s'.calls == s.calls
    requires Arming(SelfPc(s, w), pc, Self(s, w), r)
    ensures PcAt(s', Self(s, w)) && RecOk(r, s') && KnownTask(Call(r.cb), |s'.fibers|, |s'.calls|)
  {
    assert PcAt(s, Self(s, w));
  }

  lemma ArmTimerKeeps(s: State, w: nat, s': State, pc: Pc, r: TS.Rec)
    requires Inv(s) && Runs(s, w) && SelfOnly(s, w, s', pc) && FreshAddr(s, r.addr)
    requires s'.queue == s.queue && s'.table == s.table && s'.calls == s.calls
    requires s'.timers == TS.AddTimer(s.timers, r).0 && s'.used == s.used + {r.addr}
    requires Arming(SelfPc(s, w), pc, Self(s, w), r)
    ensures Inv(s')
  {
    AddTimerMove(s, w, s', pc, r);
    ArmingOk(s, w, s', pc, r);
    KnownFlow(s, s', multiset{Call(r.cb)}, NOTHING);
    SelfWorkers(s, w, s', pc);
    SelfCensus(s, w, s', pc);
    ArmTimerContext(s, w, s', pc, r);
  }

  lemma ArmTimerContext(s: State, w: nat, s': State, pc: Pc, r: TS.Rec)
    requires Inv(s) && Runs(s, w) && SelfMoves(s, w, s', pc) && OthersSame(s, s', Self(s, w)) && FreshAddr(s, r.addr)
    requires s'.table == s.table && s'.calls == s.calls
    requires s'.timers == TS.AddTimer(s.timers, r).0 && s'.used == s.used + {r.addr}
    requires Arming(SelfPc(s, w), pc, Self(s, w), r) && PcAt(s', Self(s, w)) && RecOk(r, s')
    ensures ET.Inv(s'.table) && PcsOk(s') && SlotsOk(s') && TimersOk(s') && OwnOk(s')
  {
    SelfFree(s, w, s', pc);
    AddedTimers(s, s', r);
    ArmedOwn(s, s', r, Self(s, w));
    hide Arming, SelfMoves;
    FreedContext(s, s', Self(s, w));
  }

  /** After an insertion the new timer is found at its address. */
  lemma ArmedOwn(s: State, s': State, r: TS.Rec, f: FiberId)
    requires TimersOk(s) && FreshAddr(s, r.addr)
    requires s'.timers == TS.AddTimer(s.timers, r).0 && s'.used == s.used + {r.addr}
    requires f < |s'.fibers|
    requires s'.fibers[f].pc == Asleep || (r.cb.Timeout? && s'.fibers[f].pc == IoArm(r.cb.call, Some(r.addr)))
    ensures OwnAt(s', f)
  {
    FreshNotIn(s, r.addr);
    TS.AddTimerEffect(s.timers, r);
    if TS.Has(s'.timers.items, r.addr) {
      TS.AddrUnique(s'.timers.items, r, TS.At(s'.timers.items, r.addr));
    }
  }

  /** The context after a step of fiber f that keeps the table. */
  lemma FreedContext(s: State, s': State, f: FiberId)
    requires Inv(s) && s'.table == s.table && TimersFrom(s, s')
    requires OthersSame(s, s', f) && CallsKept(s, s') && |s'.calls| == |s.calls|
    requires PcAt(s', f) && OwnAt(s', f)
    requires FreeToMove(s, s', f, ET.Armed(s.table)) && FreeOfTimers(s, s', f)
    ensures ET.Inv(s'.table) && PcsOk(s') && SlotsOk(s') && TimersOk(s') && OwnOk(s')
  {
    SlotsSame(s, s');
    PcsFrame(s, s', f);
    SlotsFrame(s, s', f);
    TimersFrame(s, s', f);
    OwnFrame(s, s', f);
  }

  lemma IoTimerKeeps(s: State, w: nat, addr: nat, ms: TS.u64, now: TS.u64)
    requires Inv(s) && AtTry(s, w) && FreshAddr(s, addr)
    ensures Inv(IoTimer(s, w, addr, ms, now))
  {
    var c := SelfPc(s, w).call;
    ArmTimerKeeps(s, w, IoTimer(s, w, addr, ms, now), IoArm(c, Some(addr)),
                  TS.Rec(addr, false, ms, TS.Plus(ms, now), Timeout(c)));
  }

  lemma SleepKeeps(s: State, w: nat, addr: nat, ms: TS.u64, now: TS.u64)
    requires Inv(s) && CanSleep(s, w, addr)
    ensures Inv(Sleep(s, w, addr, ms, now))
  {
    ArmTimerKeeps(s, w, Sleep(s, w, addr, ms, now), Asleep,
                  TS.Rec(addr, false, ms, TS.Plus(ms, now), Wake(Self(s, w))));
  }

  // ----- Cancelling the call's own timer -----

  lemma CancelledTimers(s: State, s': State, timer: Option<nat>)
    requires TimersOk(s) && s'.timers == CancelOwn(s.timers, timer) && s'.used == s.used
    ensures TimersFrom(s, s')
    ensures timer.Some? ==> !TS.Has(s'.timers.items, timer.value)
  {
    TS.SelfWithin(s.timers.items);
    if timer.Some? { TS.CancelEffect(s.timers, timer.value); }
  }

  lemma CancelKeeps(s: State, w: nat, s': State, pc: Pc)
    requires Inv(s) && Runs(s, w) && SelfOnly(s, w, s', pc)
    requires SelfPc(s, w).IoWoken? || SelfPc(s, w).IoUndo?
    requires pc == Plain || pc == IoTry(SelfPc(s, w).call)
    requires s'.queue == s.queue && s'.table == s.table && s'.calls == s.calls && s'.used == s.used
    requires s'.timers == CancelOwn(s.timers, SelfPc(s, w).timer)
    ensures Inv(s')
  {
    var f, timer, c := Self(s, w), SelfPc(s, w).timer, SelfPc(s, w).call;
    assert PcAt(s, f) && OwnAt(s, f);
    CancelMove(s, w, s', pc, timer, c);
    KnownFlow(s, s', NOTHING, OwnTasks(s.timers.items, timer));
    SelfWorkers(s, w, s', pc);
    SelfCensus(s, w, s', pc);
    CancelContext(s, w, s', pc);
    hide SelfOnly, Flow, FibersOk, WorkersOk, CensusOk, Known, ET.Inv, PcsOk, SlotsOk, TimersOk, OwnOk, OwnTasks;
  }

  lemma CancelContext(s: State, w: nat, s': State, pc: Pc)
    requires Inv(s) && Runs(s, w) && SelfOnly(s, w, s', pc)
    requires SelfPc(s, w).IoWoken? || SelfPc(s, w).IoUndo?
    requires pc == Plain || pc == IoTry(SelfPc(s, w).call)
    requires s'.table == s.table && s'.calls == s.calls && s'.used == s.used
    requires s'.timers == CancelOwn(s.timers, SelfPc(s, w).timer)
    ensures ET.Inv(s'.table) && PcsOk(s') && SlotsOk(s') && TimersOk(s') && OwnOk(s')
  {
    var f := Self(s, w);
    assert PcAt(s, f) && OwnAt(s, f);
    CancelledTimers(s, s', SelfPc(s, w).timer);
    assert PcAt(s', f) && OwnAt(s', f);
    SelfFree(s, w, s', pc);
    assert OthersSame(s, s', f) && CallsKept(s, s');
    hide *;
    FreedContext(s, s', f);
  }

  lemma IoCancelKeeps(s: State, w: nat)
    requires Inv(s) && CanIoCancel(s, w)
    ensures Inv(IoCancel(s, w))
  {
    CancelKeeps(s, w, IoCancel(s, w), IoCancel(s, w).fibers[Self(s, w)].pc);
  }

  lemma IoUndoKeeps(s: State, w: nat)
    requires Inv(s) && CanIoUndo(s, w)
    ensures Inv(IoUndone(s, w))
  {
    CancelKeeps(s, w, IoUndone(s, w), Plain);
  }

  // ----- addEvent by the running fiber -----

  /** The step arms at most the slot (fd, ev), for fiber f which now waits there. */
  lemma ArmedContext(s: State, s': State, f: FiberId, fd: nat, ev: Event)
    requires Inv(s) && ET.Inv(s'.table) && s'.timers == s.timers && s'.used == s.used && s'.calls == s.calls
    requires OthersSame(s, s', f) && PcAt(s', f) && OwnAt(s', f)
    requires FreeToMove(s, s', f, ET.Armed(s.table)) && FreeOfTimers(s, s', f)
    requires forall g: nat, e: Event :: (g, e) != (fd, ev) ==> ET.SlotKept(s'.table, s.table, g, e)
    requires SlotAt(s', fd, ev)
    ensures PcsOk(s') && SlotsOk(s') && TimersOk(s') && OwnOk(s')
  {
    TimersSame(s, s');
    PcsFrame(s, s', f);
    TimersFrame(s, s', f);
    OwnFrame(s, s', f);
    forall g: nat, e: Event ensures SlotAt(s', g, e) {
      if (g, e) != (fd, ev) {
        assert SlotAt(s, g, e) && ET.SlotKept(s'.table, s.table, g, e);
        SlotFrame(s, s', f, g, e);
      }
    }
  }

  lemma IoAddSlot(s: State, w: nat, ok: bool)
    requires Inv(s) && CanIoAdd(s, w)
    ensures var call := s.calls[SelfPc(s, w).call]; var s' := IoAdd(s, w, ok);
      && ET.Inv(s'.table) && SlotAt(s', call.fd, call.ev)
      && (forall g: nat, e: Event :: (g, e) != (call.fd, call.ev) ==> ET.SlotKept(s'.table, s.table, g, e))
  {
    var call, s', f := s.calls[SelfPc(s, w).call], IoAdd(s, w, ok), Self(s, w);
    ET.AddEventEffect(s.table, call.fd, call.ev, Resume(f), ok);
    ET.AddEventSlots(s.table, call.fd, call.ev, Resume(f), ok, call.fd, call.ev);
    forall g: nat, e: Event | (g, e) != (call.fd, call.ev) ensures ET.SlotKept(s'.table, s.table, g, e) {
      ET.AddEventSlots(s.table, call.fd, call.ev, Resume(f), ok, g, e);
    }
    hide ET.AddEvent, ET.Armed;
  }

  function AfterAdd(pc: Pc, ok: bool): Pc
    requires pc.IoArm?
  {
    if ok then IoWait(pc.call, pc.timer) else IoUndo(pc.call, pc.timer)
  }

  lemma IoAddShape(s: State, w: nat, ok: bool)
    requires ET.Inv(s.table) && CanIoAdd(s, w)
    ensures var s' := IoAdd(s, w, ok);
      && SelfOnly(s, w, s', AfterAdd(SelfPc(s, w), ok))
      && s'.timers == s.timers && s'.used == s.used && s'.calls == s.calls && s'.queue == s.queue
  {
    var call := s.calls[SelfPc(s, w).call];
    ET.AddEventEffect(s.table, call.fd, call.ev, Resume(Self(s, w)), ok);
    hide ET.AddEvent, ET.Armed, ET.Inv;
  }

  lemma IoAddPc(s: State, w: nat, s': State, ok: bool)
    requires Inv(s) && CanIoAdd(s, w) && SelfMoves(s, w, s', AfterAdd(SelfPc(s, w), ok))
    requires s'.timers == s.timers && s'.used == s.used && s'.calls == s.calls
    ensures PcAt(s', Self(s, w)) && OwnAt(s', Self(s, w))
  {
    assert PcAt(s, Self(s, w)) && OwnAt(s, Self(s, w));
  }

  lemma IoAddKeeps(s: State, w: nat, ok: bool)
    requires Inv(s) && CanIoAdd(s, w)
    ensures Inv(IoAdd(s, w, ok))
  {
    var s', call := IoAdd(s, w, ok), s.calls[SelfPc(s, w).call];
    var pc := AfterAdd(SelfPc(s, w), ok);
    IoAddFibers(s, w, ok);
    IoAddShape(s, w, ok);
    IoAddSlot(s, w, ok);
    hide IoAdd;
    KnownFlow(s, s', if ok then multiset{Resume(Self(s, w))} else NOTHING, NOTHING);
    IoAddPc(s, w, s', ok);
    SelfWorkers(s, w, s', pc);
    SelfCensus(s, w, s', pc);
    SelfFree(s, w, s', pc);
    ArmedContext(s, s', Self(s, w), call.fd, call.ev);
  }

  // ----- The library's callbacks -----

  lemma WakeKeeps(s: State, w: nat)
    requires Inv(s) && CanWake(s, w)
    ensures Inv(WakeSleeper(s, w))
  {
    var s', g := WakeSleeper(s, w), SelfPc(s, w).sleeper;
    assert PcAt(s, Self(s, w));
    WakeFibers(s, w);
    WakeFlow(s, w);
    KnownFlow(s, s', multiset{Resume(g)}, multiset{Call(Wake(g))});
    SelfWorkers(s, w, s', Done);
    SelfCensus(s, w, s', Done);
    SelfFree(s, w, s', Done);
    ContextFrame(s, s', Self(s, w));
  }

  lemma TestShape(s: State, w: nat)
    requires CanTest(s, w)
    ensures var s', pc := TestTimeout(s, w), TestTimeout(s, w).fibers[Self(s, w)].pc;
      && TimeoutMove(SelfPc(s, w), pc, SelfPc(s, w).call) && !pc.TimeoutFire?
      && (pc.TimeoutSet? ==> Alive(s, SelfPc(s, w).call) && !s.calls[SelfPc(s, w).call].cancelled)
      && SelfOnly(s, w, s', pc) && s'.calls == s.calls
      && s'.table == s.table && s'.timers == s.timers && s'.used == s.used
  {
  }

  lemma SetShape(s: State, w: nat)
    requires CanSet(s, w)
    ensures var s', c := SetCancelled(s, w), SelfPc(s, w).call;
      && SelfOnly(s, w, s', TimeoutFire(c)) && CallsKept(s, s') && |s'.calls| == |s.calls|
      && s'.calls == s.calls[c := s.calls[c].(cancelled := true)]
      && s'.table == s.table && s'.timers == s.timers && s'.used == s.used
  {
  }

  lemma TestPc(s: State, w: nat, s': State, pc: Pc, c: CallId)
    requires Inv(s) && Runs(s, w) && TimeoutMove(SelfPc(s, w), pc, c)
    requires SelfMoves(s, w, s', pc) && |s'.calls| == |s.calls|
    requires pc == TimeoutFire(c) && c < |s.calls| ==> s'.calls[c].cancelled
    ensures PcAt(s', Self(s, w)) && OwnAt(s', Self(s, w))
  {
    assert PcAt(s, Self(s, w));
  }

  lemma TestKeeps(s: State, w: nat)
    requires Inv(s) && CanTest(s, w)
    ensures Inv(TestTimeout(s, w))
  {
    var s' := TestTimeout(s, w);
    TestFibers(s, w);
    TestShape(s, w);
    hide TestTimeout, Inv, FibersOk, Flow;
    TestedKeeps(s, w, s', s'.fibers[Self(s, w)].pc, SelfPc(s, w).call);
  }

  lemma SetKeeps(s: State, w: nat)
    requires Inv(s) && CanSet(s, w)
    ensures Inv(SetCancelled(s, w))
  {
    var c := SelfPc(s, w).call;
    SetFibers(s, w);
    SetShape(s, w);
    hide SetCancelled, Inv, FibersOk, Flow;
    TestedKeeps(s, w, SetCancelled(s, w), TimeoutFire(c), c);
  }

  lemma TestedContext(s: State, w: nat, s': State, pc: Pc, c: CallId)
    requires Inv(s) && Runs(s, w) && TimeoutMove(SelfPc(s, w), pc, c) && SelfOnly(s, w, s', pc)
    requires s'.table == s.table && s'.timers == s.timers && s'.used == s.used
    requires CallsKept(s, s') && |s'.calls| == |s.calls|
    requires pc == TimeoutFire(c) && c < |s.calls| ==> s'.calls[c].cancelled
    ensures ET.Inv(s'.table) && PcsOk(s') && SlotsOk(s') && TimersOk(s') && OwnOk(s')
  {
    TestPc(s, w, s', pc, c);
    SelfFree(s, w, s', pc);
    ContextFrame(s, s', Self(s, w));
  }

  /** The running fiber goes on in its timeout callback, beside table and timers. */
  lemma TestedKeeps(s: State, w: nat, s': State, pc: Pc, c: CallId)
    requires Inv(s) && Runs(s, w) && TimeoutMove(SelfPc(s, w), pc, c) && SelfOnly(s, w, s', pc) && FibersOk(s')
    requires Flow(s, s', NOTHING, Spent(pc, c))
    requires s'.table == s.table && s'.timers == s.timers && s'.used == s.used
    requires CallsKept(s, s') && |s'.calls| == |s.calls|
    requires pc == TimeoutFire(c) && c < |s.calls| ==> s'.calls[c].cancelled
    ensures Inv(s')
  {
    KnownFlow(s, s', NOTHING, Spent(pc, c));
    SelfWorkers(s, w, s', pc);
    SelfCensus(s, w, s', pc);
    TestedContext(s, w, s', pc, c);
    hide SelfOnly, FibersOk, WorkersOk, CensusOk, ET.Inv, PcsOk, SlotsOk, TimersOk, OwnOk, Flow, Spent;
  }

  lemma FireSlots(s: State, w: nat, ok: bool)
    requires Inv(s) && CanFire(s, w)
    ensures forall g: nat, e: Event :: ET.SlotKept(FireTimeout(s, w, ok).table, s.table, g, e)
  {
    var call := s.calls[SelfPc(s, w).call];
    ET.CancelEventEffect(s.table, call.fd, call.ev, ok);
    forall g: nat, e: Event ensures ET.SlotKept(FireTimeout(s, w, ok).table, s.table, g, e) {
      ET.DelEventSlots(s.table, call.fd, call.ev, ok, g, e);
    }
  }

  lemma FireKeeps(s: State, w: nat, ok: bool)
    requires Inv(s) && CanFire(s, w)
    ensures Inv(FireTimeout(s, w, ok))
  {
    var s', f := FireTimeout(s, w, ok), Self(s, w);
    FireFibers(s, w, ok);
    FireSlots(s, w, ok);
    KnownFlow(s, s', NOTHING, NOTHING);
    assert SelfOnly(s, w, s', Done) && CallsKept(s, s') && |s'.calls| == |s.calls|;
    assert s'.timers == s.timers && s'.used == s.used;
    hide FireTimeout;
    SelfWorkers(s, w, s', Done);
    SelfCensus(s, w, s', Done);
    SelfFree(s, w, s', Done);
    TimersSame(s, s');
    PcsFrame(s, s', f);
    SlotsFrame(s, s', f);
    TimersFrame(s, s', f);
    OwnFrame(s, s', f);
  }
}
