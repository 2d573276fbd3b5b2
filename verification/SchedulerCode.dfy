/** Fiber and Scheduler as objects that are changed in place: schedule, the batch schedule,
    the scan, and one worker's run loop with the assertions of the fibers it handles. */
module SchedulerCode {
  import opened Base
  import opened RunQueue

  /** How a fiber comes back from swapIn. */
  datatype Outcome =
    | Yields    // YieldToReady
    | Holds     // YieldToHold
    | Leaves    // a bare swapOut, as the idle fiber does
    | Returns   // the callback returned
    | Throws    // the callback threw

  class Fiber {
    const id: FiberId
    const stack: bool   // m_stack is not null: not a thread's main fiber
    var state: FiberState
    var cb: Option<Callback>

    constructor (id: FiberId, cb: Option<Callback>)
      ensures this.id == id && stack && state == INIT && this.cb == cb
    {
      this.id, stack, state, this.cb := id, true, INIT, cb;
    }

    /** The main fiber of a thread: it runs already, on the thread's own stack. */
    constructor OfThread(id: FiberId)
      ensures this.id == id && !stack && state == EXEC && cb == None
    {
      this.id, stack, state, cb := id, false, EXEC, None;
    }

    /** reset, with its assertions. */
    method Reset(cb: Option<Callback>)
      requires stack && (state == TERM || state == INIT || state == EXCEPT)
      modifies this
      ensures state == INIT && this.cb == cb
    {
      this.cb := cb;
      state := INIT;
    }

    /** swapIn, with its assertion, until the fiber swaps out again. MainFunc drops the
        callback when it returns, and keeps it when it throws. */
    method SwapIn(outcome: Outcome)
      requires state != EXEC
      modifies this
      ensures match outcome
        case Yields => state == READY
        case Holds => state == HOLD
        case Leaves => state == EXEC
        case Returns => state == TERM
        case Throws => state == EXCEPT
      ensures cb == if outcome == Returns then None else old(cb)
    {
      state := EXEC;
      match outcome
      case Yields => state := READY;
      case Holds => state := HOLD;
      case Leaves =>
      case Returns =>
        cb := None;
        state := TERM;
      case Throws => state := EXCEPT;
    }

    method SetState(s: FiberState)
      modifies this`state
      ensures state == s
    {
      state := s;
    }

    /** The destructor's assertions. */
    method Destroy()
      requires if stack then state == TERM || state == INIT || state == EXCEPT else cb == None && state == EXEC
    {
    }
  }

  /** FiberAndThread: an entry has a fiber, a callback, or (after a swap with an empty
      source) neither. */
  datatype Pending = Pending(fiber: Fiber?, cb: Option<Callback>, thread: int) {
    predicate Filled() {
      fiber != null || cb.Some?
    }

    predicate OneKind() {
      fiber != null <==> cb.None?
    }

    /** The entry as the queue of RunQueue knows it. */
    function Show(): Entry
      requires OneKind()
    {
      Entry(if fiber != null then Resume(fiber.id) else Call(cb.value), thread)
    }
  }

  const NOTHING := Pending(null, None, ANY_THREAD)

  class Scheduler {
    var fibers: seq<Pending>
    var active: int
    var idle: int
    var nextId: nat    // the global fiber counter

    ghost predicate Valid()
      reads this
    {
      WellFormed(fibers)
    }

    constructor ()
      ensures fibers == [] && active == 0 && idle == 0
    {
      fibers, active, idle, nextId := [], 0, 0, 0;
    }

    /** scheduleNoLock: an empty entry is not appended. */
    method ScheduleNoLock(e: Pending) returns (needTickle: bool)
      modifies this`fibers
      ensures fibers == if e.Filled() then old(fibers) + [e] else old(fibers)
      ensures needTickle == (old(fibers) == [])
    {
      needTickle := fibers == [];
      if e.Filled() {
        fibers := fibers + [e];
      }
    }

    /** schedule(begin, end): the pointer constructors swap every source out, and no
        insertion is short-circuited. */
    method ScheduleBatch(cbs: array<Option<Callback>>) returns (needTickle: bool)
      modifies this`fibers, cbs
      ensures fibers == old(fibers) + Entries(old(cbs[..]))
      ensures forall i :: 0 <= i < cbs.Length ==> cbs[i] == None
      ensures needTickle <==> old(fibers) == [] && cbs.Length > 0
    {
      needTickle := false;
      var i := 0;
      ghost var source := cbs[..];
      assert Entries(source[..0]) == [];
      hide Entries;
      while i < cbs.Length
        invariant 0 <= i <= cbs.Length && |source| == cbs.Length
        invariant fibers == old(fibers) + Entries(source[..i])
        invariant forall j :: 0 <= j < i ==> cbs[j] == None
        invariant forall j :: i <= j < cbs.Length ==> cbs[j] == source[j]
        invariant needTickle <==> old(fibers) == [] && i > 0
      {
        EntriesPush(source, i);
        var cb := cbs[i];
        cbs[i] := None;
        var first := ScheduleNoLock(Pending(null, cb, ANY_THREAD));
        needTickle := first || needTickle;
        i := i + 1;
      }
      assert source[..i] == source;
    }

    /** The loop of the scan: it passes over what is pinned to other workers or executing, and
        stops at the first entry that is neither. `passed` says whether it met one of another
        worker. */
    method FindEligible(thread: nat) returns (it: nat, passed: bool)
      requires Valid()
      ensures it == FirstEligible(Shown(fibers), thread, ExecutingIn(fibers)) <= |fibers|
      ensures forall j :: 0 <= j < it ==>
        || (fibers[j].thread != -1 && fibers[j].thread != thread)
        || (fibers[j].fiber != null && fibers[j].fiber.state == EXEC)
      ensures it < |fibers| ==> fibers[it].thread == -1 || fibers[it].thread == thread
      ensures it < |fibers| && fibers[it].fiber != null ==> fibers[it].fiber.state != EXEC
      ensures passed <==> exists j :: 0 <= j < it && fibers[j].thread != -1 && fibers[j].thread != thread
    {
      it, passed := 0, false;
      ghost var q, executing := Shown(fibers), ExecutingIn(fibers);
      while it < |fibers|
        invariant 0 <= it <= FirstEligible(q, thread, executing) <= |fibers|
        invariant forall j :: 0 <= j < it ==>
          || (fibers[j].thread != -1 && fibers[j].thread != thread)
          || (fibers[j].fiber != null && fibers[j].fiber.state == EXEC)
        invariant passed <==> exists j :: 0 <= j < it && fibers[j].thread != -1 && fibers[j].thread != thread
        decreases |fibers| - it
      {
        var e := fibers[it];
        assert q[it] == e.Show();
        if e.thread != ANY_THREAD && e.thread != thread {
          it := it + 1;
          passed := true;
          continue;
        }
        if e.fiber != null && e.fiber.state == EXEC {
          assert e.fiber.id in executing;
          it := it + 1;
          continue;
        }
        NotExecuting(fibers, it);
        return;
      }
    }

    /** The scan under the lock: take the first entry that is unpinned or pinned to this worker
        and no executing fiber; all before it, `at` many, are pinned to other workers or
        executing. The flag says whether other workers are to be woken. */
    method Scan(thread: nat) returns (ft: Pending, tickle: bool, ghost at: nat)
      requires Valid()
      modifies this`fibers, this`active
      ensures Valid()
      ensures at == FirstEligible(Shown(old(fibers)), thread, old(ExecutingIn(fibers))) <= |old(fibers)|
      ensures forall j :: 0 <= j < at ==>
        || (old(fibers)[j].thread != -1 && old(fibers)[j].thread != thread)
        || (old(fibers)[j].fiber != null && old(fibers)[j].fiber.state == EXEC)
      ensures at < |old(fibers)| ==>
        && ft == old(fibers)[at] && (ft.thread == -1 || ft.thread == thread)
        && fibers == old(fibers)[..at] + old(fibers)[at + 1..] && active == old(active) + 1
      ensures at == |old(fibers)| ==> ft == NOTHING && fibers == old(fibers) && active == old(active)
      ensures tickle <==> fibers != []
      ensures ft.fiber != null ==> ft.fiber.state != EXEC
    {
      var it, passed := FindEligible(thread);
      at := it;
      ft, tickle := NOTHING, passed;
      hide FirstEligible;
      if it < |fibers| {
        ft := fibers[it];
        fibers := fibers[..it] + fibers[it + 1..];
        active := active + 1;
      }
      tickle := tickle || fibers != [];
    }

    // ----- run -----

    /** What the other threads do between two scans: some entries go, others come, and
        fibers that were queued while executing come to rest. */
    method Others(turn: Turn, ghost world: set<Fiber>)
      requires forall f <- turn.rested :: f in world
      modifies this`fibers, world
      ensures fibers == Surviving(old(fibers), turn.gone) + turn.arrivals
      ensures forall f <- world :: f.state != old(f.state) ==> old(f.state) == EXEC && f.state == HOLD
    {
      fibers := Surviving(fibers, turn.gone) + turn.arrivals;
      var k := 0;
      while k < |turn.rested|
        invariant 0 <= k <= |turn.rested|
        invariant fibers == Surviving(old(fibers), turn.gone) + turn.arrivals
        invariant forall f <- world :: f.state != old(f.state) ==> old(f.state) == EXEC && f.state == HOLD
      {
        if turn.rested[k].state == EXEC {
          turn.rested[k].SetState(HOLD);
        }
        k := k + 1;
      }
    }

    /** A popped fiber that has not ended is run. */
    method RunFiber(f: Fiber, outcome: Outcome)
      requires f.state != EXEC && !Finished(f.state)
      modifies this`active, this`fibers, f
      ensures active == old(active) - 1 && f.state == Settled(outcome)
      ensures fibers == if outcome == Yields then old(fibers) + [Pending(f, None, ANY_THREAD)] else old(fibers)
    {
      f.SwapIn(outcome);
      active := active - 1;
      if f.state == READY {
        var _ := ScheduleNoLock(Pending(f, None, ANY_THREAD));
      } else if !Finished(f.state) {
        f.SetState(HOLD);
      }
    }

    /** A popped callback is run in cb_fiber, which is reset or made; what is returned is
        cb_fiber at the next loop head. */
    method RunCallback(cb: Callback, cbFiber: Fiber?, outcome: Outcome) returns (kept: Fiber?, ran: Fiber)
      requires cbFiber != null ==> cbFiber.stack && Disposable(cbFiber.state)
      modifies this`active, this`fibers, this`nextId, cbFiber
      ensures ran == cbFiber || (cbFiber == null && fresh(ran) && ran.id == old(nextId))
      ensures ran.stack && nextId == old(nextId) + if cbFiber == null then 1 else 0
      ensures Finished(Settled(outcome)) ==> kept == ran && ran.state == INIT && ran.cb == None
      ensures !Finished(Settled(outcome)) ==> kept == null && ran.state == Settled(outcome)
      ensures active == old(active) - 1
      ensures fibers == if outcome == Yields then old(fibers) + [Pending(ran, None, ANY_THREAD)] else old(fibers)
    {
      if cbFiber != null {
        cbFiber.Reset(Some(cb));
        ran := cbFiber;
      } else {
        ran := new Fiber(nextId, Some(cb));
        nextId := nextId + 1;
      }
      ran.SwapIn(outcome);
      active := active - 1;
      if ran.state == READY {
        var _ := ScheduleNoLock(Pending(ran, None, ANY_THREAD));
        kept := null;
      } else if Finished(ran.state) {
        ran.Reset(None);
        kept := ran;
      } else {
        ran.SetState(HOLD);
        kept := null;
      }
    }

    /** What holds at a loop head: cb_fiber is null or INIT, the idle fiber is not running,
        and both are the worker's own: no entry that is queued or will come refers to them. */
    ghost predicate AtHead(rest: seq<Turn>, idleFiber: Fiber, cbFiber: Fiber?, world: set<Fiber>)
      reads this, idleFiber, cbFiber
    {
      && (idleFiber.state == INIT || idleFiber.state == HOLD || idleFiber.state == TERM)
      && (cbFiber != null ==> cbFiber.stack && cbFiber.state == INIT && cbFiber.id < nextId && cbFiber !in world)
      && idleFiber !in world && cbFiber != idleFiber
      && Apart(fibers + Arriving(rest), world, cbFiber)
      && (forall t <- rest, f <- t.rested :: f in world)
    }

    ghost predicate Apart(es: seq<Pending>, world: set<Fiber>, cbFiber: Fiber?)
      reads this`nextId
    {
      && WellFormed(es)
      && (forall e <- es :: e.fiber != null ==>
            e.fiber in world && e.fiber.id < nextId && (cbFiber != null ==> e.fiber.id != cbFiber.id))
    }

    /** One round of the loop. `dead` is the popped fiber if that had ended. */
    method Round(thread: nat, turn: Turn, cbFiber: Fiber?, idleFiber: Fiber,
                 ghost rest: seq<Turn>, ghost world: set<Fiber>)
      returns (left: bool, kept: Fiber?, ghost dead: seq<Fiber>, ghost world': set<Fiber>)
      requires AtHead([turn] + rest, idleFiber, cbFiber, world)
      modifies this, world, idleFiber, cbFiber
      ensures AtHead(rest, idleFiber, kept, world')
      ensures world <= world' && forall f <- world' - world :: f == cbFiber || fresh(f)
      ensures kept == null || kept == cbFiber || fresh(kept)
      ensures left ==> idleFiber.state == TERM
      ensures active == old(active) + |dead| && idle == old(idle)
      ensures forall f <- dead :: f in world && Finished(f.state)
      ensures forall f <- world :: old(Finished(f.state)) ==> Finished(f.state)
    {
      ghost var known;
      var ft;
      ft, known := Fetch(thread, turn, cbFiber, rest, world);
      hide WellFormed;
      left, kept, dead, world' := Serve(ft, turn, cbFiber, idleFiber, rest, world, known);
    }

    /** The others' doings and the scan. */
    method Fetch(thread: nat, turn: Turn, cbFiber: Fiber?, ghost rest: seq<Turn>, ghost world: set<Fiber>)
      returns (ft: Pending, ghost known: seq<Pending>)
      requires Apart(fibers + Arriving([turn] + rest), world, cbFiber) && forall f <- turn.rested :: f in world
      modifies this`fibers, this`active, world
      ensures Apart(known, world, cbFiber) && (forall e <- fibers + Arriving(rest) :: e in known)
      ensures ft == NOTHING || (ft in known && ft.OneKind())
      ensures ft.fiber != null ==> ft.fiber.state != EXEC
      ensures active == old(active) + if ft == NOTHING then 0 else 1
      ensures forall f <- world :: old(Finished(f.state)) ==> Finished(f.state)
    {
      Others(turn, world);
      Arrived(old(fibers), turn, rest, world, cbFiber);
      known := fibers + Arriving(rest);
      var tickle;
      ghost var at;
      ft, tickle, at := Scan(thread);
    }

    /** What run does with what the scan found. */
    method Serve(ft: Pending, turn: Turn, cbFiber: Fiber?, idleFiber: Fiber,
                 ghost rest: seq<Turn>, ghost world: set<Fiber>, ghost known: seq<Pending>)
      returns (left: bool, kept: Fiber?, ghost dead: seq<Fiber>, ghost world': set<Fiber>)
      requires Apart(known, world, cbFiber) && (forall e <- fibers + Arriving(rest) :: e in known)
      requires ft == NOTHING || (ft in known && ft.OneKind())
      requires ft.fiber != null ==> ft.fiber.state != EXEC
      requires idleFiber.state == INIT || idleFiber.state == HOLD || idleFiber.state == TERM
      requires cbFiber != null ==> cbFiber.stack && cbFiber.state == INIT && cbFiber.id < nextId && cbFiber !in world
      requires idleFiber !in world && cbFiber != idleFiber && forall t <- rest, f <- t.rested :: f in world
      modifies this, world, idleFiber, cbFiber
      ensures AtHead(rest, idleFiber, kept, world')
      ensures world <= world' && forall f <- world' - world :: f == cbFiber || fresh(f)
      ensures kept == null || kept == cbFiber || fresh(kept)
      ensures left ==> idleFiber.state == TERM
      ensures active == old(active) + |dead| - (if ft == NOTHING then 0 else 1) && idle == old(idle)
      ensures forall f <- dead :: f in world && Finished(f.state)
      ensures forall f <- world :: old(Finished(f.state)) ==> Finished(f.state)
    {
      left, kept, dead, world' := false, cbFiber, [], world;
      if ft.fiber != null && !Finished(ft.fiber.state) {
        RunFiber(ft.fiber, turn.outcome);
        GrownApart(known, fibers + Arriving(rest), ft.fiber, world, world, cbFiber, cbFiber);
      } else if ft.cb.Some? {
        var ran;
        kept, ran := RunCallback(ft.cb.value, cbFiber, turn.outcome);
        world' := if kept == null then world + {ran} else world;
        RanApart(known, fibers + Arriving(rest), ran, world, world', cbFiber, kept);
      } else {
        dead := if ft.fiber != null then [ft.fiber] else [];
        left := IdleBranch(idleFiber, turn.stops);
        SubApart(known, fibers + Arriving(rest), world, cbFiber);
      }
    }

    /** The idle branch: leave if the idle fiber has ended, else run it. */
    method IdleBranch(idleFiber: Fiber, stops: bool) returns (left: bool)
      requires idleFiber.state == INIT || idleFiber.state == HOLD || idleFiber.state == TERM
      modifies this`idle, idleFiber
      ensures idle == old(idle) && left == (old(idleFiber.state) == TERM)
      ensures idleFiber.state == if left || stops then TERM else HOLD
    {
      if idleFiber.state == TERM {
        return true;
      }
      idle := idle + 1;
      idleFiber.SwapIn(if stops then Returns else Leaves);
      if !Finished(idleFiber.state) {
        idleFiber.SetState(HOLD);
      }
      idle := idle - 1;
      left := false;
    }

    /** One worker's run loop, for any sequence of outcomes: the assertions of reset, swapIn
        and the destructors hold, cb_fiber is null or INIT at every loop head, the idle
        count comes back, and the active count is off by exactly one for every popped fiber
        that had ended. */
    method Run(thread: nat, turns: seq<Turn>, ghost world: set<Fiber>) returns (left: bool, ghost leaked: seq<Fiber>)
      requires Apart(fibers + Arriving(turns), world, null) && forall t <- turns, f <- t.rested :: f in world
      modifies this, world
      ensures active == old(active) + |leaked| && idle == old(idle)
      ensures forall f <- leaked :: Finished(f.state)
    {
      var idleFiber := new Fiber(nextId, None);
      nextId := nextId + 1;
      var cbFiber: Fiber? := null;
      var i := 0;
      left, leaked := false, [];
      ghost var all := world;
      assert turns[0..] == turns;
      assert AtHead(turns[0..], idleFiber, cbFiber, all);
      hide Apart, Arriving, WellFormed;
      while i < |turns| && !left
        invariant 0 <= i <= |turns| && forall f <- leaked :: f in all && Finished(f.state)
        invariant AtHead(turns[i..], idleFiber, cbFiber, all)
        invariant fresh(idleFiber) && (cbFiber != null ==> fresh(cbFiber))
        invariant world <= all && forall f <- all :: f in world || fresh(f)
        invariant left ==> idleFiber.state == TERM
        invariant active == old(active) + |leaked| && idle == old(idle)
        decreases |turns| - i
      {
        ghost var dead;
        ghost var before := all;
        assert turns[i..] == [turns[i]] + turns[i + 1..];
        left, cbFiber, dead, all := Round(thread, turns[i], cbFiber, idleFiber, turns[i + 1..], all);
        forall f | f in all ensures f in world || fresh(f) { assert f in before || f in all - before; }
        leaked := leaked + dead;
        i := i + 1;
      }
      if left {
        idleFiber.Destroy();
        if cbFiber != null {
          cbFiber.Destroy();
        }
      }
    }

    lemma Arrived(before: seq<Pending>, turn: Turn, rest: seq<Turn>, world: set<Fiber>, cbFiber: Fiber?)
      requires fibers == Surviving(before, turn.gone) + turn.arrivals
      requires Apart(before + Arriving([turn] + rest), world, cbFiber)
      ensures Apart(fibers + Arriving(rest), world, cbFiber) && Valid()
    {
      assert ([turn] + rest)[1..] == rest;
      assert Arriving([turn] + rest) == turn.arrivals + Arriving(rest);
      forall e | e in fibers + Arriving(rest) ensures e in before + Arriving([turn] + rest) {
      }
      SubApart(before + Arriving([turn] + rest), fibers + Arriving(rest), world, cbFiber);
      SubApart(before + Arriving([turn] + rest), fibers, world, cbFiber);
    }

    /** At most fiber f is pushed again. */
    lemma GrownApart(known: seq<Pending>, es: seq<Pending>, f: Fiber, world: set<Fiber>, world': set<Fiber>,
                     cb: Fiber?, cb': Fiber?)
      requires Apart(known, world, cb) && world <= world' && f.id < nextId
      requires forall e <- es :: e in known || (e == Pending(f, None, ANY_THREAD) && f in world')
      requires forall e <- known :: e.fiber != null && e.fiber.id == f.id ==> e.fiber == f
      requires cb' != null ==>
        (cb' == cb && cb'.id != f.id) || forall e <- es :: e.fiber != null ==> e.fiber.id != cb'.id
      ensures Apart(es, world', cb')
    {
    }

    /** The callback's fiber is pushed at most, and then no longer kept. */
    lemma RanApart(known: seq<Pending>, es: seq<Pending>, ran: Fiber, world: set<Fiber>, world': set<Fiber>,
                   cb: Fiber?, kept: Fiber?)
      requires Apart(known, world, cb) && world <= world' && ran.id < nextId
      requires forall e <- es :: e in known || (kept == null && e == Pending(ran, None, ANY_THREAD) && ran in world')
      requires forall e <- known :: e.fiber != null ==> e.fiber.id != ran.id
      requires kept == null || kept == ran
      ensures Apart(es, world', kept)
    {
    }

    lemma SubApart(es: seq<Pending>, es': seq<Pending>, world: set<Fiber>, cbFiber: Fiber?)
      requires Apart(es, world, cbFiber) && forall e <- es' :: e in es
      ensures Apart(es', world, cbFiber)
    {
    }
  }

  /** A fiber's state once run has looked at it: what is neither READY nor over is HOLD. */
  function Settled(outcome: Outcome): (s: FiberState)
    ensures s == READY <==> outcome == Yields
    ensures s == TERM <==> outcome == Returns
    ensures s == EXCEPT <==> outcome == Throws
    ensures s != INIT && s != EXEC
  {
    match outcome
    case Yields => READY
    case Holds => HOLD
    case Leaves => HOLD
    case Returns => TERM
    case Throws => EXCEPT
  }

  /** One round of the loop, as seen by the worker: what the others did before its scan, how
      the fiber it runs comes back, and whether the idle fiber ends. */
  datatype Turn = Turn(gone: set<nat>, arrivals: seq<Pending>, rested: seq<Fiber>, outcome: Outcome, stops: bool)

  function Surviving(es: seq<Pending>, gone: set<nat>): (r: seq<Pending>)
    ensures forall e <- r :: e in es
  {
    if es == [] then []
    else Surviving(es[..|es| - 1], gone) + (if |es| - 1 in gone then [] else [es[|es| - 1]])
  }

  function Arriving(turns: seq<Turn>): seq<Pending> {
    if turns == [] then [] else turns[0].arrivals + Arriving(turns[1..])
  }

  /** Every entry has one kind of task, and different fibers have different ids, as the
      global counter sees to. */
  ghost predicate WellFormed(es: seq<Pending>) {
    && (forall e <- es :: e.OneKind())
    && (forall e <- es, f <- es ::
          e.fiber != null && f.fiber != null && e.fiber.id == f.fiber.id ==> e.fiber == f.fiber)
  }

  /** m_fibers as a queue of entries. */
  ghost function Shown(es: seq<Pending>): (q: seq<Entry>)
    requires WellFormed(es)
    ensures |q| == |es| && forall i :: 0 <= i < |q| ==> es[i].OneKind() && q[i] == es[i].Show()
  {
    seq(|es|, i requires 0 <= i < |es| && es[i].OneKind() => es[i].Show())
  }

  lemma NotExecuting(es: seq<Pending>, it: nat)
    requires WellFormed(es) && it < |es|
    requires es[it].fiber != null ==> es[it].fiber.state != EXEC
    ensures es[it].fiber != null ==> es[it].fiber.id !in ExecutingIn(es)
  {
  }

  /** The ids of the executing fibers among the entries. */
  ghost function ExecutingIn(es: seq<Pending>): set<FiberId>
    reads set e <- es | e.fiber != null :: e.fiber
  {
    set e <- es | e.fiber != null && e.fiber.state == EXEC :: e.fiber.id
  }

  function Entries(cbs: seq<Option<Callback>>): seq<Pending> {
    if cbs == [] then []
    else Entries(cbs[..|cbs| - 1]) + (if cbs[|cbs| - 1].Some? then [Pending(null, cbs[|cbs| - 1], ANY_THREAD)] else [])
  }

  lemma EntriesPush(cbs: seq<Option<Callback>>, i: nat)
    requires i < |cbs|
    ensures Entries(cbs[..i + 1])
      == Entries(cbs[..i]) + if cbs[i].Some? then [Pending(null, cbs[i], ANY_THREAD)] else []
  {
    assert cbs[..i + 1][..i] == cbs[..i];
  }
}
