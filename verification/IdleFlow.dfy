/** What the steps of the idle fiber do to tokens and holders. */
module IdleFlow {
  import opened Base
  import opened Sums
  import opened RunQueue
  import opened Reactor
  import opened Tokens
  import opened LoopFlow
  import ET = EventTable
  import TS = TimerSet

  /** A step that neither touches a fiber nor changes who holds one. */
  lemma StillFibers(s: State, s': State, gained: multiset<Task>, lost: multiset<Task>)
    requires FibersOk(s) && Flow(s, s', gained, lost)
    requires s'.fibers == s.fibers && s'.dropped == s.dropped
    requires forall f :: Held(s')[f] == Held(s)[f]
    requires OnlyFor(gained, |s.fibers|) && OnlyFor(lost, |s.fibers|)
    ensures FibersOk(s')
  {
    FibersStep(s, s', |s.fibers|, gained, lost);
  }

  lemma {:induction false} CallsOf(cbs: seq<Callback>)
    ensures Gather(cbs, CbTasks) == multiset(Calls(cbs))
  {
    if cbs != [] {
      CallsOf(cbs[1..]);
      assert Calls(cbs) == [Call(cbs[0])] + Calls(cbs[1..]);
    }
  }

  lemma FlushCount(s: State, w: nat, t: Task)
    requires CanFlush(s, w)
    ensures Count(Flush(s, w), t) == Count(s, t)
  {
    var s', cbs := Flush(s, w), s.workers[w].phase.cbs;
    CallsOf(cbs);
    FlushShape(s, w);
    HandShift(s, w, s.workers[w].(phase := IdleDispatch), s', t);
    QueueAppend(s, Calls(cbs), s', t);
    assert WorkerTasks(s.workers[w]) == multiset(Calls(cbs));
    assert WorkerTasks(s.workers[w].(phase := IdleDispatch)) == NOTHING;
    hide Flush, Calls, Appended, InHand, Queued, Timed, InBody, ET.Armed, WorkerTasks;
  }

  lemma FlushShape(s: State, w: nat)
    requires CanFlush(s, w)
    ensures var s' := Flush(s, w);
      s' == s.(workers := s.workers[w := s.workers[w].(phase := IdleDispatch)],
               queue := Appended(s.queue, Calls(s.workers[w].phase.cbs)))
  {
  }

  lemma FlushFibers(s: State, w: nat)
    requires FibersOk(s) && CanFlush(s, w)
    ensures FibersOk(Flush(s, w)) && Flow(s, Flush(s, w), NOTHING, NOTHING)
  {
    var s' := Flush(s, w);
    forall t ensures Count(s', t) == Count(s, t) { FlushCount(s, w, t); }
    forall f ensures Held(s')[f] == Held(s)[f] { HoldShift(s, w, s'.workers[w], s', f); }
    StillFibers(s, s', NOTHING, NOTHING);
  }

  /** Continuations move from armed slots to the run queue. */
  lemma ReleasedFibers(s: State, s': State, out: seq<Task>)
    requires FibersOk(s) && ET.Armed(s.table) == ET.Armed(s'.table) + multiset(out)
    requires s'.queue == Appended(s.queue, out) && s'.timers == s.timers && s'.workers == s.workers
    requires s'.fibers == s.fibers && s'.dropped == s.dropped
    ensures FibersOk(s') && Flow(s, s', NOTHING, NOTHING)
  {
    forall t ensures Count(s', t) == Count(s, t) {
      QueueAppend(s, out, s', t);
      assert ET.Armed(s.table)[t] == ET.Armed(s'.table)[t] + multiset(out)[t];
    }
    StillFibers(s, s', NOTHING, NOTHING);
  }

  lemma DispatchFibers(s: State, w: nat, report: ET.Report, ok: bool)
    requires FibersOk(s) && ET.Inv(s.table) && CanDispatch(s, w, report, ok)
    ensures FibersOk(Dispatch(s, w, report, ok)) && Flow(s, Dispatch(s, w, report, ok), NOTHING, NOTHING)
    ensures ET.Inv(Dispatch(s, w, report, ok).table)
  {
    ET.DispatchOneEffect(s.table, report, ok);
    ReleasedFibers(s, Dispatch(s, w, report, ok), ET.DispatchOne(s.table, report, ok).released);
  }

  // ----- Expired timers -----

  /** A recurring timer that is handed out stays outstanding in the set as well. */
  ghost function RecurringTasks(r: TS.Rec): multiset<Task> {
    if r.recurring then multiset{Call(r.cb)} else multiset{}
  }

  lemma {:induction false} RearmGathers(s: seq<TS.Rec>, taken: seq<TS.Rec>, now: TS.u64)
    ensures Gather(TS.Rearm(s, taken, now), RecTasks) == Gather(s, RecTasks) + Gather(taken, RecurringTasks)
    decreases |taken|
  {
    if taken != [] {
      if taken[0].recurring {
        var r := taken[0].(next := TS.Plus(now, taken[0].ms));
        TS.InsertGathers(s, r, RecTasks);
        RearmGathers(TS.Insert(s, r), taken[1..], now);
      } else {
        RearmGathers(s, taken[1..], now);
      }
    }
  }

  lemma {:induction false} TakenGathers(taken: seq<TS.Rec>)
    ensures Gather(taken, RecTasks) == Gather(TS.Callbacks(taken), CbTasks)
  {
    if taken != [] {
      TakenGathers(taken[1..]);
      assert TS.Callbacks(taken)[1..] == TS.Callbacks(taken[1..]);
    }
  }

  /** The hand-out splits the set: what is taken, less what comes back, is gone from it. */
  lemma ExpireGathers(t: TS.Timers, now: TS.u64, guard: TS.Guard)
    ensures var (t', taken) := TS.Expiry(t, now, guard);
      && taken <= t.items
      && Gather(t'.items, RecTasks) + Gather(TS.Callbacks(taken), CbTasks)
         == Gather(t.items, RecTasks) + Gather(taken, RecurringTasks)
  {
    var (t', taken) := TS.Expiry(t, now, guard);
    if t.items != [] {
      var rest := t.items[|taken|..];
      assert t.items == taken + rest;
      GatherAppend(taken, rest, RecTasks);
      RearmGathers(rest, taken, now);
      TakenGathers(taken);
    }
  }

  /** Recurring timers belong to users; the library's own are one-shot. */
  predicate RecurringIsUsers(items: seq<TS.Rec>) {
    forall r <- items :: r.recurring ==> r.cb.User?
  }

  lemma RecurringOnlyUser(taken: seq<TS.Rec>, t: Task)
    requires RecurringIsUsers(taken) && t in Gather(taken, RecurringTasks)
    ensures t.Call? && t.cb.User?
  {
    var i := GatherFrom(taken, t, RecurringTasks);
    assert taken[i] in taken;
  }

  ghost function Recurring(s: State, now: TS.u64, guard: TS.Guard): multiset<Task> {
    Gather(TS.Expiry(s.timers, now, guard).1, RecurringTasks)
  }

  lemma ExpireCount(s: State, w: nat, now: TS.u64, guard: TS.Guard, t: Task)
    requires CanExpire(s, w)
    ensures Count(Expire(s, w, now, guard), t) == Count(s, t) + Recurring(s, now, guard)[t]
  {
    ExpireHand(s, w, now, guard, t);
    ExpireTimed(s, w, now, guard, t);
    hide TS.Expiry, Recurring, HandedOut;
  }

  ghost function HandedOut(s: State, now: TS.u64, guard: TS.Guard): multiset<Task> {
    Gather(TS.Callbacks(TS.Expiry(s.timers, now, guard).1), CbTasks)
  }

  lemma ExpireHand(s: State, w: nat, now: TS.u64, guard: TS.Guard, t: Task)
    requires CanExpire(s, w)
    ensures InHand(Expire(s, w, now, guard))[t] == InHand(s)[t] + HandedOut(s, now, guard)[t]
  {
    hide TS.Expiry;
    var wk := s.workers[w].(phase := IdleFlush(TS.Callbacks(TS.Expiry(s.timers, now, guard).1)));
    assert WorkerTasks(wk) == HandedOut(s, now, guard) && WorkerTasks(s.workers[w]) == NOTHING;
    HandShift(s, w, wk, Expire(s, w, now, guard), t);
  }

  lemma ExpireTimed(s: State, w: nat, now: TS.u64, guard: TS.Guard, t: Task)
    requires CanExpire(s, w)
    ensures Timed(Expire(s, w, now, guard))[t] + HandedOut(s, now, guard)[t]
      == Timed(s)[t] + Recurring(s, now, guard)[t]
  {
    var timers := TS.Expiry(s.timers, now, guard).0;
    ExpireGathers(s.timers, now, guard);
    hide TS.Expiry;
    assert (Gather(timers.items, RecTasks) + HandedOut(s, now, guard))[t] == (Timed(s) + Recurring(s, now, guard))[t];
  }

  lemma RecurringOfUsers(s: State, now: TS.u64, guard: TS.Guard)
    requires RecurringIsUsers(s.timers.items)
    ensures forall t :: t in Recurring(s, now, guard) ==> t.Call? && t.cb.User?
  {
    ExpireGathers(s.timers, now, guard);
    var taken := TS.Expiry(s.timers, now, guard).1;
    hide TS.Expiry;
    forall t | t in Recurring(s, now, guard) ensures t.Call? && t.cb.User? {
      assert forall r <- taken :: r in s.timers.items;
      RecurringOnlyUser(taken, t);
    }
  }

  lemma ExpireFibers(s: State, w: nat, now: TS.u64, guard: TS.Guard)
    requires FibersOk(s) && CanExpire(s, w) && RecurringIsUsers(s.timers.items)
    ensures FibersOk(Expire(s, w, now, guard)) && Flow(s, Expire(s, w, now, guard), Recurring(s, now, guard), NOTHING)
  {
    var s' := Expire(s, w, now, guard);
    forall t ensures Count(s', t) == Count(s, t) + Recurring(s, now, guard)[t] { ExpireCount(s, w, now, guard, t); }
    RecurringOfUsers(s, now, guard);
    forall f ensures Held(s')[f] == Held(s)[f] { HoldShift(s, w, s'.workers[w], s', f); }
    StillFibers(s, s', Recurring(s, now, guard), NOTHING);
  }
}
