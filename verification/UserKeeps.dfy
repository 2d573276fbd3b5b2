/** What user code and outside threads do keeps the invariant. */
module UserKeeps {
  import opened Base
  import opened Sums
  import opened RunQueue
  import opened Reactor
  import opened Tokens
  import opened LoopFlow
  import opened IdleFlow
  import opened CodeFlow
  import opened ReactorInv
  import opened LoopKeeps
  import opened CodeKeeps
  import ET = EventTable
  import TS = TimerSet

  // ----- The run queue and the flags -----

  /** Only the queue and the flags change. */
  lemma QueueKeeps(s: State, s': State)
    requires Inv(s) && FibersOk(s') && LoopFlow.Known(s')
    requires s' == s.(queue := s'.queue, autoStop := s'.autoStop, stopping := s'.stopping, late := s'.late)
    ensures Inv(s')
  {
    ContextStill(s, s');
  }

  lemma FlagsKeep(s: State, s': State)
    requires Inv(s)
    requires s' == s.(autoStop := s'.autoStop, stopping := s'.stopping, late := s'.late)
    ensures Inv(s')
  {
    StillFibers(s, s', NOTHING, NOTHING);
    KnownFlow(s, s', NOTHING, NOTHING);
    QueueKeeps(s, s');
  }

  lemma SubmitKeeps(s: State, id: nat, thread: int)
    requires Inv(s)
    ensures Inv(Push(s, Call(User(id)), thread))
  {
    var s' := Push(s, Call(User(id)), thread);
    SubmitFibers(s, Call(User(id)), thread);
    PushFlow(s, Call(User(id)), thread);
    KnownFlow(s, s', multiset{Call(User(id))}, NOTHING);
    QueueKeeps(s, s');
  }

  lemma SubmitFiberKeeps(s: State, f: FiberId, thread: int)
    requires Inv(s) && CanOp(s, SubmitFiber(f, thread))
    ensures Inv(Push(s, Resume(f), thread))
  {
    var s' := Push(s, Resume(f), thread);
    SubmitFiberFibers(s, f, thread);
    PushFlow(s, Resume(f), thread);
    KnownFlow(s, s', multiset{Resume(f)}, NOTHING);
    QueueKeeps(s, s');
  }

  lemma NewFiberKeeps(s: State)
    requires Inv(s)
    ensures Inv(s.(fibers := s.fibers + [Fiber(INIT, Plain)]))
  {
    var s' := s.(fibers := s.fibers + [Fiber(INIT, Plain)]);
    NewFiberFibers(s);
    KnownFlow(s, s', NOTHING, NOTHING);
    WorkersFrame(s, s', |s.workers|, |s.fibers|);
    ContextFrame(s, s', |s.fibers|);
  }

  // ----- Events -----

  lemma WatchKeeps(s: State, fd: nat, ev: Event, id: nat, ok: bool)
    requires Inv(s) && ET.CanAdd(s.table, fd, ev)
    ensures Inv(s.(table := ET.AddEvent(s.table, fd, ev, Call(User(id)), ok).0))
  {
    var task := Call(User(id));
    var s' := s.(table := ET.AddEvent(s.table, fd, ev, task, ok).0);
    WatchFibers(s, fd, ev, id, ok);
    KnownFlow(s, s', if ok then multiset{task} else NOTHING, NOTHING);
    WatchSlots(s, s', fd, ev, id, ok);
    ArmedContext(s, s', |s.fibers|, fd, ev);
  }

  lemma WatchSlots(s: State, s': State, fd: nat, ev: Event, id: nat, ok: bool)
    requires Inv(s) && ET.CanAdd(s.table, fd, ev)
    requires s' == s.(table := ET.AddEvent(s.table, fd, ev, Call(User(id)), ok).0)
    ensures ET.Inv(s'.table) && SlotAt(s', fd, ev)
    ensures forall g: nat, e: Event :: (g, e) != (fd, ev) ==> ET.SlotKept(s'.table, s.table, g, e)
  {
    ET.AddEventEffect(s.table, fd, ev, Call(User(id)), ok);
    ET.AddEventSlots(s.table, fd, ev, Call(User(id)), ok, fd, ev);
    forall g: nat, e: Event | (g, e) != (fd, ev) ensures ET.SlotKept(s'.table, s.table, g, e) {
      ET.AddEventSlots(s.table, fd, ev, Call(User(id)), ok, g, e);
    }
    hide ET.AddEvent, ET.Armed;
  }

  lemma DeletedSlots(s: State, table: ET.Table, fd: nat, ev: Event, ok: bool)
    requires ET.Inv(s.table) && table == ET.DelEvent(s.table, fd, ev, ok).0
    ensures forall g: nat, e: Event :: ET.SlotKept(table, s.table, g, e)
  {
    forall g: nat, e: Event ensures ET.SlotKept(table, s.table, g, e) {
      ET.DelEventSlots(s.table, fd, ev, ok, g, e);
    }
  }

  /** delEvent: the slot's continuation, a user's callback or a waiting fiber, is dropped. */
  lemma UnwatchKeeps(s: State, fd: nat, ev: Event, ok: bool)
    requires Inv(s) && CanOp(s, Unwatch(fd, ev, ok))
    ensures Inv(ApplyOp(s, Unwatch(fd, ev, ok)))
  {
    var s' := ApplyOp(s, Unwatch(fd, ev, ok));
    ET.DelEventEffect(s.table, fd, ev, ok);
    DeletedSlots(s, s'.table, fd, ev, ok);
    if ok && ET.IsArmed(s.table, fd, ev) {
      DeletedKeeps(s, s', fd, ev);
    } else {
      assert s' == s;
    }
  }

  lemma DeletedKeeps(s: State, s': State, fd: nat, ev: Event)
    requires Inv(s) && ET.Inv(s'.table) && ET.IsArmed(s.table, fd, ev)
    requires s' == s.(table := s'.table, dropped := s.dropped + SlotFiber(s.table, fd, ev))
    requires ET.Armed(s.table) == ET.Armed(s'.table) + multiset{s.table.rows[fd].Get(ev).Task()}
    requires forall g: nat, e: Event :: ET.SlotKept(s'.table, s.table, g, e)
    ensures Inv(s')
  {
    var task := s.table.rows[fd].Get(ev).Task();
    assert SlotAt(s, fd, ev);
    DeletedFibers(s, s', fd, ev, task);
    KnownFlow(s, s', NOTHING, multiset{task});
    ReleaseKeeps(s, s');
  }

  lemma DeletedFibers(s: State, s': State, fd: nat, ev: Event, task: Task)
    requires FibersOk(s) && ET.Valid(s.table) && ET.IsArmed(s.table, fd, ev) && task == s.table.rows[fd].Get(ev).Task()
    requires SlotOk(task, fd, ev, s)
    requires s' == s.(table := s'.table, dropped := s.dropped + SlotFiber(s.table, fd, ev))
    requires ET.Armed(s.table) == ET.Armed(s'.table) + multiset{task}
    ensures FibersOk(s') && Flow(s, s', NOTHING, multiset{task})
  {
    match task
    case Resume(f) => DroppedFibers(s, s', f);
    case Call(_) =>
      assert s'.dropped == s.dropped;
      DiscardedFibers(s, s', task);
  }

  /** Continuations move from slots to the queue: cancelEvent and cancelAll. */
  lemma MovedKeeps(s: State, table: ET.Table, out: seq<Task>)
    requires Inv(s) && ET.Inv(table) && ET.Armed(s.table) == ET.Armed(table) + multiset(out)
    requires forall g: nat, e: Event :: ET.SlotKept(table, s.table, g, e)
    ensures Inv(s.(table := table, queue := Appended(s.queue, out)))
  {
    var s' := s.(table := table, queue := Appended(s.queue, out));
    ReleasedFibers(s, s', out);
    KnownFlow(s, s', NOTHING, NOTHING);
    ReleaseKeeps(s, s');
  }

  lemma CancelWatchKeeps(s: State, fd: nat, ev: Event, ok: bool)
    requires Inv(s) && CanOp(s, CancelWatch(fd, ev, ok))
    ensures Inv(ApplyOp(s, CancelWatch(fd, ev, ok)))
  {
    var (table, out) := ET.CancelEvent(s.table, fd, ev, ok);
    ET.CancelEventEffect(s.table, fd, ev, ok);
    DeletedSlots(s, table, fd, ev, ok);
    MovedKeeps(s, table, out);
  }

  lemma CloseFdKeeps(s: State, fd: nat, ok: bool)
    requires Inv(s) && CanOp(s, CloseFd(fd, ok))
    ensures Inv(ApplyOp(s, CloseFd(fd, ok)))
  {
    var (table, out) := ET.CancelAll(s.table, fd, ok);
    ET.CancelAllEffect(s.table, fd, ok);
    forall g: nat, e: Event ensures ET.SlotKept(table, s.table, g, e) {
      ET.CancelAllSlots(s.table, fd, ok, g, e);
    }
    MovedKeeps(s, table, out);
  }

  // ----- Timers of users -----

  /** Timers change, and tasks of users with them; nothing else. */
  lemma TimerOpKeeps(s: State, s': State, gained: multiset<Task>, lost: multiset<Task>)
    requires Inv(s) && TimersFrom(s, s') && s' == s.(timers := s'.timers, used := s'.used)
    requires Gather(s'.timers.items, RecTasks) + lost == Gather(s.timers.items, RecTasks) + gained
    requires forall t <- gained + lost :: t.Call? && t.cb.User?
    ensures Inv(s')
  {
    TimerOpTokens(s, s', gained, lost);
    TimerOpContext(s, s');
    hide FibersOk, Flow, PcsOk, SlotsOk, TimersOk, OwnOk, LoopFlow.Known, ET.Inv, TimersFrom;
  }

  lemma TimerOpTokens(s: State, s': State, gained: multiset<Task>, lost: multiset<Task>)
    requires FibersOk(s) && LoopFlow.Known(s) && s' == s.(timers := s'.timers, used := s'.used)
    requires Gather(s'.timers.items, RecTasks) + lost == Gather(s.timers.items, RecTasks) + gained
    requires forall t <- gained + lost :: t.Call? && t.cb.User?
    ensures FibersOk(s') && LoopFlow.Known(s')
  {
    UsersOnly(gained, lost, |s.fibers|);
    UserTimerFibers(s, s', gained, lost);
    KnownUsers(s, s', gained, lost);
  }

  lemma TimerOpContext(s: State, s': State)
    requires Inv(s) && TimersFrom(s, s') && s' == s.(timers := s'.timers, used := s'.used)
    ensures ET.Inv(s'.table) && PcsOk(s') && SlotsOk(s') && TimersOk(s') && OwnOk(s')
  {
    FreedContext(s, s', |s.fibers|);
  }

  lemma UsersOnly(gained: multiset<Task>, lost: multiset<Task>, f: FiberId)
    requires forall t <- gained + lost :: t.Call? && t.cb.User?
    ensures OnlyFor(gained, f) && OnlyFor(lost, f)
  {
    forall t: Task | !(t.Call? && t.cb.User?) ensures gained[t] == 0 && lost[t] == 0 {
      assert t !in gained + lost;
    }
  }

  lemma KnownUsers(s: State, s': State, gained: multiset<Task>, lost: multiset<Task>)
    requires LoopFlow.Known(s) && Flow(s, s', gained, lost)
    requires s'.fibers == s.fibers && s'.calls == s.calls
    requires forall t <- gained + lost :: t.Call? && t.cb.User?
    ensures LoopFlow.Known(s')
  {
    forall t | gained[t] > 0 ensures KnownTask(t, |s'.fibers|, |s'.calls|) {
      assert t in gained + lost;
    }
    KnownFlow(s, s', gained, lost);
  }

  lemma TimerAddKeeps(s: State, op: UserOp)
    requires Inv(s) && op.TimerAdd? && CanOp(s, op)
    ensures Inv(ApplyOp(s, op))
  {
    var r := TS.Rec(op.addr, op.recurring, op.ms, TS.Plus(op.ms, op.now), User(op.id));
    var s' := ApplyOp(s, op);
    AddedTimers(s, s', r);
    TS.InsertGathers(s.timers.items, r, RecTasks);
    TimerOpKeeps(s, s', multiset{Call(User(op.id))}, NOTHING);
  }

  lemma TimerCancelKeeps(s: State, addr: nat)
    requires Inv(s) && UsersTimer(s, addr)
    ensures Inv(s.(timers := TS.Cancel(s.timers, addr).0))
  {
    var s' := s.(timers := TS.Cancel(s.timers, addr).0);
    CancelledTimers(s, s', Some(addr));
    TS.EraseGathers(s.timers.items, addr, RecTasks);
    TimerOpKeeps(s, s', NOTHING, ErasedTasks(s.timers.items, addr));
  }

  /** refresh and reset leave every callback where it is. */
  lemma ReplaceGathers(items: seq<TS.Rec>, r: TS.Rec)
    requires TS.Has(items, r.addr) && TS.At(items, r.addr).cb == r.cb
    ensures Gather(TS.Insert(TS.Erase(items, r.addr), r), RecTasks) == Gather(items, RecTasks)
  {
    TS.EraseGathers(items, r.addr, RecTasks);
    TS.InsertGathers(TS.Erase(items, r.addr), r, RecTasks);
  }

  lemma ReplacedKeeps(s: State, s': State)
    requires Inv(s) && s' == s.(timers := s'.timers)
    requires TS.Valid(s'.timers.items) && TS.Within(s'.timers.items, s.timers.items)
    requires Gather(s'.timers.items, RecTasks) == Gather(s.timers.items, RecTasks)
    ensures Inv(s')
  {
    TimerOpKeeps(s, s', NOTHING, NOTHING);
  }

  lemma TimerRefreshKeeps(s: State, addr: nat, now: TS.u64)
    requires Inv(s)
    ensures Inv(s.(timers := TS.Refresh(s.timers, addr, now).0))
  {
    var items := s.timers.items;
    TS.RefreshEffect(s.timers, addr, now);
    if TS.Has(items, addr) {
      ReplaceGathers(items, TS.At(items, addr).(next := TS.Plus(now, TS.At(items, addr).ms)));
    }
    ReplacedKeeps(s, s.(timers := TS.Refresh(s.timers, addr, now).0));
  }

  lemma TimerResetKeeps(s: State, addr: nat, ms: TS.u64, fromNow: bool, now: TS.u64)
    requires Inv(s)
    ensures Inv(s.(timers := TS.Reset(s.timers, addr, ms, fromNow, now).0))
  {
    var items := s.timers.items;
    TS.ResetEffect(s.timers, addr, ms, fromNow, now);
    if TS.Reset(s.timers, addr, ms, fromNow, now).1 {
      var r := TS.At(items, addr);
      var start := if fromNow then now else TS.Minus(r.next, r.ms);
      ReplaceGathers(items, r.(ms := ms, next := TS.Plus(start, ms)));
    }
    ReplacedKeeps(s, s.(timers := TS.Reset(s.timers, addr, ms, fromNow, now).0));
  }

  lemma OpKeeps(s: State, op: UserOp)
    requires Inv(s) && CanOp(s, op)
    ensures Inv(ApplyOp(s, op))
  {
    hide Inv;
    match op
    case Submit(id, thread) => SubmitKeeps(s, id, thread);
    case NewFiber => NewFiberKeeps(s);
    case SubmitFiber(f, thread) => SubmitFiberKeeps(s, f, thread);
    case Watch(fd, ev, id, ok) => WatchKeeps(s, fd, ev, id, ok);
    case Unwatch(fd, ev, ok) => UnwatchKeeps(s, fd, ev, ok);
    case CancelWatch(fd, ev, ok) => CancelWatchKeeps(s, fd, ev, ok);
    case CloseFd(fd, ok) => CloseFdKeeps(s, fd, ok);
    case TimerAdd(_, _, _, _, _) => TimerAddKeeps(s, op);
    case TimerCancel(addr) => TimerCancelKeeps(s, addr);
    case TimerRefresh(addr, now) => TimerRefreshKeeps(s, addr, now);
    case TimerReset(addr, ms, fromNow, now) => TimerResetKeeps(s, addr, ms, fromNow, now);
  }
}
