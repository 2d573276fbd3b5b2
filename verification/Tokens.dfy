/** Resume tokens. A fiber is brought back only by a task that names it: a queue entry, an
    armed slot, a sleep timer, its callback on the way to the queue. This module counts
    them over the whole state and says how many each fiber may have. */
module Tokens {
  import opened Base
  import opened Sums
  import opened RunQueue
  import opened Reactor
  import ET = EventTable
  import TS = TimerSet

  // ----- Flows -----

  /** From s to s', these tasks appeared and those went away. */
  ghost predicate Flow(s: State, s': State, gained: multiset<Task>, lost: multiset<Task>) {
    forall t :: Count(s', t) + lost[t] == Count(s, t) + gained[t]
  }

  // ----- How many of each -----

  /** Tokens and holders that go with a fiber's state. */
  predicate FiberOk(fiber: Fiber, tokens: nat, held: nat, dropped: bool) {
    match fiber.state
    case INIT => tokens + held <= 1 && fiber.pc == Plain && !dropped
    case READY => tokens == 1 && held == 0 && fiber.pc == Plain && !dropped
    case HOLD => tokens == (if dropped then 0 else 1) && held == 0 && fiber.pc.Suspending()
    case EXEC =>
      && held == 1 && tokens == (if fiber.pc.Suspending() && !dropped then 1 else 0)
      && (dropped ==> fiber.pc.Suspending())
    case _ => tokens == 0 && held == 0 && !dropped && fiber.pc == Plain
  }

  ghost predicate OkAt(s: State, f: FiberId)
    requires f < |s.fibers|
  {
    FiberOk(s.fibers[f], TokensOf(s, f), Held(s)[f], f in s.dropped)
  }

  ghost predicate FibersOk(s: State) {
    && (forall f :: 0 <= f < |s.fibers| ==> OkAt(s, f))
    && (forall f <- s.dropped :: f < |s.fibers|)
  }

  /** A worker's phase agrees with the fibers it names. */
  predicate WorkerOk(w: Worker, fibers: seq<Fiber>) {
    && (w.phase.Running? ==> w.phase.fiber < |fibers| && fibers[w.phase.fiber].state == EXEC)
    && (w.cbFiber.Some? && w.phase != Running(w.cbFiber.value) ==>
          w.cbFiber.value < |fibers| && fibers[w.cbFiber.value].state == INIT)
    && (w.phase.Popped? && w.phase.task.Resume? ==>
          && w.phase.task.fiber < |fibers|
          && AtRest(fibers[w.phase.task.fiber].state))
    && (w.phase.Requeue? ==> w.phase.fiber < |fibers| && AtRest(fibers[w.phase.fiber].state))
  }

  predicate WorkersOk(s: State) {
    forall w :: 0 <= w < |s.workers| ==> WorkerOk(s.workers[w], s.fibers)
  }

  // ----- Frames -----

  /** A multiset that names no fiber but f. */
  ghost predicate OnlyFor(m: multiset<Task>, f: FiberId) {
    forall g :: g != f ==> m[Resume(g)] == 0 && m[Call(Wake(g))] == 0
  }

  lemma OnlyForTokens(f: FiberId)
    ensures OnlyFor(multiset{}, f) && OnlyFor(multiset{Resume(f)}, f) && OnlyFor(multiset{Call(Wake(f))}, f)
  {
  }

  predicate SameFiber(s: State, s': State, g: FiberId) {
    g < |s'.fibers| ==> g < |s.fibers| && s'.fibers[g] == s.fibers[g]
  }

  /** Nothing but fiber f changed in a way that matters to fibers. */
  ghost predicate OnlyFiber(s: State, s': State, f: FiberId) {
    && (forall g: FiberId :: g != f ==> SameFiber(s, s', g))
    && (forall g :: g != f ==> Held(s')[g] == Held(s)[g])
    && (forall g :: g != f ==> (g in s'.dropped <==> g in s.dropped))
  }

  lemma FibersFrame(s: State, s': State, f: FiberId)
    requires FibersOk(s) && OnlyFiber(s, s', f)
    requires forall g :: g != f ==> TokensOf(s', g) == TokensOf(s, g)
    requires |s.fibers| <= |s'.fibers|
    requires if f < |s'.fibers| then OkAt(s', f) else f !in s'.dropped
    ensures FibersOk(s')
  {
    forall g | 0 <= g < |s'.fibers| ensures OkAt(s', g) {
      if g != f {
        assert SameFiber(s, s', g);
        assert OkAt(s, g);
        assert TokensOf(s', g) == TokensOf(s, g);
        assert Held(s')[g] == Held(s)[g];
      }
    }
  }

  lemma FibersStep(s: State, s': State, f: FiberId, gained: multiset<Task>, lost: multiset<Task>)
    requires FibersOk(s) && Flow(s, s', gained, lost) && OnlyFiber(s, s', f)
    requires OnlyFor(gained, f) && OnlyFor(lost, f)
    requires |s.fibers| <= |s'.fibers|
    requires if f < |s'.fibers| then OkAt(s', f) else f !in s'.dropped
    ensures FibersOk(s')
  {
    forall g | g != f ensures TokensOf(s', g) == TokensOf(s, g) {
      assert Count(s', Resume(g)) == Count(s, Resume(g));
      assert Count(s', Call(Wake(g))) == Count(s, Call(Wake(g)));
    }
    FibersFrame(s, s', f);
  }

  // ----- Changing one place: the effect on one task or one fiber -----

  lemma HandShift(s: State, w: nat, wk: Worker, s': State, t: Task)
    requires w < |s.workers| && s'.workers == s.workers[w := wk]
    ensures InHand(s')[t] + WorkerTasks(s.workers[w])[t] == InHand(s)[t] + WorkerTasks(wk)[t]
  {
    GatherUpdate(s.workers, w, wk, WorkerTasks);
    assert (InHand(s') + WorkerTasks(s.workers[w]))[t] == (InHand(s) + WorkerTasks(wk))[t];
  }

  lemma HoldShift(s: State, w: nat, wk: Worker, s': State, f: FiberId)
    requires w < |s.workers| && s'.workers == s.workers[w := wk]
    ensures Held(s')[f] + Holds(s.workers[w])[f] == Held(s)[f] + Holds(wk)[f]
  {
    GatherUpdate(s.workers, w, wk, Holds);
    assert (Held(s') + Holds(s.workers[w]))[f] == (Held(s) + Holds(wk))[f];
  }

  lemma BodyShift(s: State, f: FiberId, fiber: Fiber, s': State, t: Task)
    requires f < |s.fibers| && s'.fibers == s.fibers[f := fiber]
    ensures InBody(s')[t] + BodyTasks(s.fibers[f])[t] == InBody(s)[t] + BodyTasks(fiber)[t]
  {
    GatherUpdate(s.fibers, f, fiber, BodyTasks);
    assert (InBody(s') + BodyTasks(s.fibers[f]))[t] == (InBody(s) + BodyTasks(fiber))[t];
  }

  lemma BodyPush(s: State, fiber: Fiber, s': State, t: Task)
    requires s'.fibers == s.fibers + [fiber]
    ensures InBody(s')[t] == InBody(s)[t] + BodyTasks(fiber)[t]
  {
    GatherPush(s.fibers, fiber, BodyTasks);
  }

  lemma QueuePush(s: State, task: Task, thread: int, s': State, t: Task)
    requires s'.queue == s.queue + [Entry(task, thread)]
    ensures Queued(s')[t] == Queued(s)[t] + multiset{task}[t]
  {
    GatherPush(s.queue, Entry(task, thread), EntryTasks);
  }

  lemma QueueTake(s: State, i: nat, s': State, t: Task)
    requires i < |s.queue| && s'.queue == Without(s.queue, i)
    ensures Queued(s)[t] == Queued(s')[t] + multiset{s.queue[i].task}[t]
  {
    GatherRemove(s.queue, i, EntryTasks);
  }

  lemma {:induction false} EntriesOf(tasks: seq<Task>, es: seq<Entry>)
    requires |es| == |tasks| && forall i :: 0 <= i < |es| ==> es[i].task == tasks[i]
    ensures Gather(es, EntryTasks) == multiset(tasks)
    decreases |es|
  {
    if es != [] {
      EntriesOf(tasks[1..], es[1..]);
      assert tasks == [tasks[0]] + tasks[1..];
    }
  }

  lemma QueueAppend(s: State, tasks: seq<Task>, s': State, t: Task)
    requires s'.queue == Appended(s.queue, tasks)
    ensures Queued(s')[t] == Queued(s)[t] + multiset(tasks)[t]
  {
    var es := s'.queue[|s.queue|..];
    assert s'.queue == s.queue + es;
    forall i | 0 <= i < |es| ensures es[i].task == tasks[i] {
      assert es[i] == s'.queue[|s.queue| + i];
    }
    EntriesOf(tasks, es);
    GatherAppend(s.queue, es, EntryTasks);
  }

  lemma TimerPush(s: State, r: TS.Rec, s': State, t: Task)
    requires s'.timers.items == TS.Insert(s.timers.items, r)
    ensures Timed(s')[t] == Timed(s)[t] + multiset{Call(r.cb)}[t]
  {
    TS.InsertGathers(s.timers.items, r, RecTasks);
  }

  lemma TimerErase(s: State, addr: nat, s': State, t: Task)
    requires s'.timers.items == TS.Erase(s.timers.items, addr)
    ensures Timed(s)[t] == Timed(s')[t] + ErasedTasks(s.timers.items, addr)[t]
  {
    TS.EraseGathers(s.timers.items, addr, RecTasks);
  }

  ghost function ErasedTasks(items: seq<TS.Rec>, addr: nat): multiset<Task> {
    if TS.Has(items, addr) then multiset{Call(TS.At(items, addr).cb)} else multiset{}
  }

  lemma InHandHas(s: State, w: nat, t: Task)
    requires w < |s.workers|
    ensures WorkerTasks(s.workers[w])[t] <= InHand(s)[t] <= Count(s, t)
  {
    GatherHas(s.workers, w, WorkerTasks);
  }

  lemma HeldHas(s: State, w: nat, f: FiberId)
    requires w < |s.workers|
    ensures Holds(s.workers[w])[f] <= Held(s)[f]
  {
    GatherHas(s.workers, w, Holds);
  }
}
