/** The inductive invariant of the reactor. */
module ReactorInv {
  import opened Base
  import opened Sums
  import opened RunQueue
  import opened Reactor
  import opened Tokens
  import opened LoopFlow
  import opened IdleFlow
  import opened CodeFlow
  import ET = EventTable
  import TS = TimerSet

  // ----- Counters -----

  datatype Unit = Busy | Resting

  ghost function UnitOf(w: Worker): multiset<Unit> {
    if w.phase.Popped? || w.phase.Running? then multiset{Busy}
    else if w.phase.IsIdle() then multiset{Resting}
    else multiset{}
  }

  ghost function Census(s: State): multiset<Unit> { Gather(s.workers, UnitOf) }

  /** m_activeThreadCount counts the workers that hold a popped task, m_idleThreadCount
      those inside the idle fiber. */
  ghost predicate CensusOk(s: State) {
    s.active == Census(s)[Busy] && s.idle == Census(s)[Resting]
  }

  // ----- Program counters, slots and timers -----

  predicate PcOk(f: FiberId, pc: Pc, fibers: nat, calls: seq<CallInfo>) {
    match pc
    case Plain => true
    case Asleep => true
    case Done => true
    case WakeBody(g) => g < fibers
    case TimeoutBody(c) => c < |calls|
    case TimeoutSet(c) => c < |calls|
    case TimeoutFire(c) => c < |calls| && calls[c].cancelled
    case _ => pc.call < |calls| && calls[pc.call].owner == f
  }

  predicate PcAt(s: State, f: FiberId) {
    f < |s.fibers| ==> PcOk(f, s.fibers[f].pc, |s.fibers|, s.calls)
  }

  ghost predicate PcsOk(s: State) {
    && (forall f: FiberId :: PcAt(s, f))
    && (forall c :: 0 <= c < |s.calls| ==> s.calls[c].owner < |s.fibers|)
  }

  /** What an armed slot may hold: a user's callback, or the fiber whose hooked call waits
      for exactly this event. */
  predicate SlotOk(task: Task, fd: nat, ev: Event, s: State) {
    match task
    case Call(cb) => cb.User?
    case Resume(f) =>
      && f < |s.fibers| && s.fibers[f].pc.IoWait?
      && var c := s.fibers[f].pc.call;
         c < |s.calls| && s.calls[c].fd == fd && s.calls[c].ev == ev
  }

  ghost predicate SlotAt(s: State, fd: nat, ev: Event)
    requires ET.Valid(s.table)
  {
    ET.IsArmed(s.table, fd, ev) ==> SlotOk(s.table.rows[fd].Get(ev).Task(), fd, ev, s)
  }

  ghost predicate SlotsOk(s: State)
    requires ET.Valid(s.table)
  {
    forall fd: nat, ev: Event :: SlotAt(s, fd, ev)
  }

  /** What a timer in the set may carry: a user's callback, or one shot of the library for
      the fiber that is at this very timer. */
  predicate RecOk(r: TS.Rec, s: State) {
    match r.cb
    case User(_) => true
    case Wake(g) => !r.recurring && g < |s.fibers| && s.fibers[g].pc == Asleep
    case Timeout(c) =>
      && !r.recurring && c < |s.calls| && s.calls[c].owner < |s.fibers|
      && s.fibers[s.calls[c].owner].pc.HoldsTimer(c, r.addr)
  }

  ghost predicate TimersOk(s: State) {
    && TS.Valid(s.timers.items)
    && (forall r <- s.timers.items :: r.addr in s.used && RecOk(r, s))
  }

  /** The timer a hooked call remembers, if still in the set, is its own. */
  predicate OwnAt(s: State, f: FiberId) {
    f < |s.fibers| && s.fibers[f].pc.HasTimer() ==>
      && (s.fibers[f].pc.timer.Some? ==> s.fibers[f].pc.timer.value in s.used)
      && OwnTimer(s.timers.items, s.fibers[f].pc.timer, s.fibers[f].pc.call)
  }

  ghost predicate OwnOk(s: State) {
    forall f: FiberId :: OwnAt(s, f)
  }

  // ----- The whole -----

  ghost predicate Inv(s: State) {
    && ET.Inv(s.table)
    && CensusOk(s) && FibersOk(s) && WorkersOk(s) && Known(s)
    && PcsOk(s) && SlotsOk(s) && TimersOk(s) && OwnOk(s)
  }

  // ----- Frames: what a step leaves alone -----

  lemma CensusShift(s: State, w: nat, wk: Worker, s': State)
    requires CensusOk(s) && w < |s.workers| && s'.workers == s.workers[w := wk]
    requires s'.active + UnitOf(s.workers[w])[Busy] == s.active + UnitOf(wk)[Busy]
    requires s'.idle + UnitOf(s.workers[w])[Resting] == s.idle + UnitOf(wk)[Resting]
    ensures CensusOk(s')
  {
    GatherUpdate(s.workers, w, wk, UnitOf);
    assert (Census(s') + UnitOf(s.workers[w]))[Busy] == (Census(s) + UnitOf(wk))[Busy];
    assert (Census(s') + UnitOf(s.workers[w]))[Resting] == (Census(s) + UnitOf(wk))[Resting];
  }

  /** Workers other than w look at fibers that did not change. */
  ghost predicate OthersKept(s: State, s': State, w: nat) {
    && |s'.workers| == |s.workers| && (forall v :: 0 <= v < |s.workers| && v != w ==> s'.workers[v] == s.workers[v])
    && |s.fibers| <= |s'.fibers|
  }

  /** The fiber a worker names. */
  predicate Names(w: Worker, f: FiberId) {
    w.phase == Running(f) || w.cbFiber == Some(f) || w.phase == Popped(Resume(f)) || w.phase == Requeue(f)
  }

  lemma WorkersFrame(s: State, s': State, w: nat, f: FiberId)
    requires WorkersOk(s) && OthersKept(s, s', w)
    requires forall g :: 0 <= g < |s.fibers| && g != f ==> s'.fibers[g].state == s.fibers[g].state
    requires f < |s.fibers| && s'.fibers[f].state != s.fibers[f].state ==>
      forall v :: 0 <= v < |s.workers| && v != w ==> !Names(s.workers[v], f)
    requires w < |s.workers| ==> WorkerOk(s'.workers[w], s'.fibers)
    ensures WorkersOk(s')
  {
    forall v | 0 <= v < |s'.workers| ensures WorkerOk(s'.workers[v], s'.fibers) {
      if v != w { assert WorkerOk(s.workers[v], s.fibers); }
    }
  }

  lemma TwoWorkers(s: State, w: nat, v: nat, f: FiberId)
    requires w < |s.workers| && v < |s.workers| && w != v
    ensures Held(s)[f] >= Holds(s.workers[w])[f] + Holds(s.workers[v])[f]
    ensures Count(s, Resume(f)) >= WorkerTasks(s.workers[w])[Resume(f)] + WorkerTasks(s.workers[v])[Resume(f)]
  {
    var a, b := if w < v then w else v, if w < v then v else w;
    GatherHasTwo(s.workers, a, b, Holds);
    GatherHasTwo(s.workers, a, b, WorkerTasks);
  }

  /** Naming a fiber means holding it, or holding its token while it is not executing. */
  lemma NamesHow(w: Worker, f: FiberId, fibers: seq<Fiber>)
    requires WorkerOk(w, fibers)
    ensures Names(w, f) ==> f < |fibers|
    ensures Names(w, f) ==> Holds(w)[f] >= 1 || (WorkerTasks(w)[Resume(f)] >= 1 && AtRest(fibers[f].state))
  {
  }

  /** A fiber that one worker names is named by no other. */
  lemma NamedOnce(s: State, w: nat, v: nat, f: FiberId)
    requires FibersOk(s) && WorkersOk(s) && w < |s.workers| && v < |s.workers| && w != v
    requires Names(s.workers[w], f)
    ensures !Names(s.workers[v], f)
  {
    TwoWorkers(s, w, v, f);
    NamesHow(s.workers[w], f, s.fibers);
    NamesHow(s.workers[v], f, s.fibers);
    assert OkAt(s, f);
    InHandHas(s, w, Resume(f));
    InHandHas(s, v, Resume(f));
    HeldHas(s, w, f);
    HeldHas(s, v, f);
    hide Names, WorkerOk, WorkersOk, FibersOk, Held, Holds, WorkerTasks, InHand;
  }

  /** Fibers other than f are unchanged, and none disappears. */
  ghost predicate OthersSame(s: State, s': State, f: FiberId) {
    |s.fibers| <= |s'.fibers| && forall g: FiberId :: g != f ==> SameFiber(s, s', g)
  }

  /** Calls keep their fiber and event, and `cancelled` once it is set. */
  predicate CallsKept(s: State, s': State) {
    && |s.calls| <= |s'.calls|
    && (forall c :: 0 <= c < |s.calls| ==> SameCall(s.calls[c], s'.calls[c]))
  }

  predicate SameCall(a: CallInfo, b: CallInfo) {
    a.owner == b.owner && a.fd == b.fd && a.ev == b.ev && (a.cancelled ==> b.cancelled)
  }

  lemma PcsFrame(s: State, s': State, f: FiberId)
    requires PcsOk(s) && OthersSame(s, s', f) && CallsKept(s, s')
    requires PcAt(s', f)
    requires forall c :: |s.calls| <= c < |s'.calls| ==> s'.calls[c].owner < |s'.fibers|
    ensures PcsOk(s')
  {
    forall g: FiberId ensures PcAt(s', g) {
      if g != f {
        assert SameFiber(s, s', g) && PcAt(s, g);
      }
    }
    forall c | 0 <= c < |s'.calls| ensures s'.calls[c].owner < |s'.fibers| {
      if c < |s.calls| { assert SameCall(s.calls[c], s'.calls[c]); }
    }
  }

  /** Fiber f may leave the state in which an armed slot refers to it: none does. */
  predicate FreeToMove(s: State, s': State, f: FiberId, slots: multiset<Task>) {
    f < |s.fibers| && f < |s'.fibers| && s.fibers[f].pc.IoWait? && s'.fibers[f].pc != s.fibers[f].pc ==>
      Resume(f) !in slots
  }

  lemma SlotFrame(s: State, s': State, f: FiberId, fd: nat, ev: Event)
    requires ET.Valid(s.table) && ET.Valid(s'.table) && SlotAt(s, fd, ev)
    requires OthersSame(s, s', f) && CallsKept(s, s') && FreeToMove(s, s', f, ET.Armed(s.table))
    requires ET.SlotKept(s'.table, s.table, fd, ev)
    ensures SlotAt(s', fd, ev)
  {
    if ET.IsArmed(s'.table, fd, ev) {
      var task := s.table.rows[fd].Get(ev).Task();
      ArmedHas(s, fd, ev);
      if task.Resume? {
        assert task.fiber != f ==> SameFiber(s, s', task.fiber);
        assert SameCall(s.calls[s.fibers[task.fiber].pc.call], s'.calls[s.fibers[task.fiber].pc.call]);
      }
    }
  }

  lemma SlotsFrame(s: State, s': State, f: FiberId)
    requires ET.Valid(s.table) && ET.Valid(s'.table) && SlotsOk(s)
    requires OthersSame(s, s', f) && CallsKept(s, s') && FreeToMove(s, s', f, ET.Armed(s.table))
    requires forall fd: nat, ev: Event :: ET.SlotKept(s'.table, s.table, fd, ev)
    ensures SlotsOk(s')
  {
    forall fd: nat, ev: Event ensures SlotAt(s', fd, ev) {
      assert SlotAt(s, fd, ev);
      SlotFrame(s, s', f, fd, ev);
    }
  }

  /** The timers of s' are timers of s, or new. */
  ghost predicate TimersFrom(s: State, s': State) {
    && TS.Valid(s'.timers.items) && s.used <= s'.used
    && (forall r <- s'.timers.items ::
          TS.Known(s.timers.items, r) || (r.addr !in s.used && r.addr in s'.used && RecOk(r, s')))
  }

  /** Fiber f may change its program counter: no timer in s' relies on the old one. */
  ghost predicate FreeOfTimers(s: State, s': State, f: FiberId) {
    f < |s.fibers| && f < |s'.fibers| ==>
      && (s.fibers[f].pc == Asleep ==> s'.fibers[f].pc == Asleep || Call(Wake(f)) !in Timed(s))
      && (forall c, a :: s.fibers[f].pc.HoldsTimer(c, a) ==>
            s'.fibers[f].pc.HoldsTimer(c, a) || !TS.Has(s'.timers.items, a))
  }

  lemma TimedHas(s: State, r: TS.Rec)
    requires r in s.timers.items
    ensures Call(r.cb) in Timed(s)
  {
    var i :| 0 <= i < |s.timers.items| && s.timers.items[i] == r;
    GatherHas(s.timers.items, i, RecTasks);
  }

  lemma RecFrame(s: State, s': State, f: FiberId, x: TS.Rec, r: TS.Rec)
    requires x in s.timers.items && RecOk(x, s) && TS.SameTimer(x, r) && r in s'.timers.items
    requires OthersSame(s, s', f) && CallsKept(s, s') && FreeOfTimers(s, s', f)
    ensures RecOk(r, s')
  {
    TimedHas(s, x);
    TS.HasMember(s'.timers.items, r.addr);
    match x.cb
    case User(_) =>
    case Wake(g) => assert g != f ==> SameFiber(s, s', g);
    case Timeout(c) =>
      assert SameCall(s.calls[c], s'.calls[c]);
      assert s.calls[c].owner != f ==> SameFiber(s, s', s.calls[c].owner);
  }

  lemma TimersFrame(s: State, s': State, f: FiberId)
    requires TimersOk(s) && TimersFrom(s, s')
    requires OthersSame(s, s', f) && CallsKept(s, s') && FreeOfTimers(s, s', f)
    ensures TimersOk(s')
  {
    forall r | r in s'.timers.items ensures r.addr in s'.used && RecOk(r, s') {
      if TS.Known(s.timers.items, r) {
        var x :| x in s.timers.items && TS.SameTimer(x, r);
        RecFrame(s, s', f, x, r);
      }
    }
  }

  lemma OwnKept(s: State, s': State, timer: Option<nat>, c: CallId)
    requires TS.Valid(s.timers.items) && TimersFrom(s, s')
    requires OwnTimer(s.timers.items, timer, c) && (timer.Some? ==> timer.value in s.used)
    ensures OwnTimer(s'.timers.items, timer, c)
  {
    if timer.Some? && TS.Has(s'.timers.items, timer.value) {
      var r := TS.At(s'.timers.items, timer.value);
      var x :| x in s.timers.items && TS.SameTimer(x, r);
      TS.HasMember(s.timers.items, x.addr);
      TS.AddrUnique(s.timers.items, x, TS.At(s.timers.items, x.addr));
    }
  }

  lemma OwnFrame(s: State, s': State, f: FiberId)
    requires OwnOk(s) && TS.Valid(s.timers.items) && TimersFrom(s, s')
    requires OthersSame(s, s', f) && OwnAt(s', f)
    ensures OwnOk(s')
  {
    forall g: FiberId ensures OwnAt(s', g) {
      if g != f && g < |s'.fibers| {
        assert SameFiber(s, s', g) && OwnAt(s, g);
        var pc := s.fibers[g].pc;
        if pc.IoArm? || pc.IoWait? || pc.IoWoken? || pc.IoUndo? {
          OwnKept(s, s', pc.timer, pc.call);
        }
      }
    }
  }

  lemma TimersSame(s: State, s': State)
    requires TS.Valid(s.timers.items) && s'.timers.items == s.timers.items && s.used <= s'.used
    ensures TimersFrom(s, s')
  {
    TS.SelfWithin(s.timers.items);
  }

  lemma SlotsSame(s: State, s': State)
    requires s'.table == s.table
    ensures forall fd: nat, ev: Event :: ET.SlotKept(s'.table, s.table, fd, ev)
  {
  }

  /** Everything that program counters, slots and timers say survives when table and timer
      set stay and fiber f's program counter leaves nothing behind. */
  lemma ContextFrame(s: State, s': State, f: FiberId)
    requires Inv(s) && s'.table == s.table && s'.timers.items == s.timers.items && s.used <= s'.used
    requires OthersSame(s, s', f) && CallsKept(s, s')
    requires forall c :: |s.calls| <= c < |s'.calls| ==> s'.calls[c].owner < |s'.fibers|
    requires PcAt(s', f) && OwnAt(s', f)
    requires FreeToMove(s, s', f, ET.Armed(s.table)) && FreeOfTimers(s, s', f)
    ensures ET.Inv(s'.table) && PcsOk(s') && SlotsOk(s') && TimersOk(s') && OwnOk(s')
  {
    TimersSame(s, s');
    SlotsSame(s, s');
    PcsFrame(s, s', f);
    SlotsFrame(s, s', f);
    TimersFrame(s, s', f);
    OwnFrame(s, s', f);
  }

  /** The same with no program counter changed at all. */
  lemma ContextStill(s: State, s': State)
    requires Inv(s) && s'.table == s.table && s'.timers.items == s.timers.items && s'.used == s.used
    requires s'.fibers == s.fibers && s'.calls == s.calls
    ensures ET.Inv(s'.table) && PcsOk(s') && SlotsOk(s') && TimersOk(s') && OwnOk(s')
  {
    ContextFrame(s, s', |s.fibers|);
  }
}
