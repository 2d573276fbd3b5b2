/** What the steps of the run loop do to tokens and holders. */
module LoopFlow {
  import opened Base
  import opened Sums
  import opened RunQueue
  import opened Reactor
  import opened Tokens
  import ET = EventTable
  import TS = TimerSet

  ghost const NOTHING: multiset<Task> := multiset{}

  lemma TakeFlow(s: State, w: nat)
    requires CanTake(s, w)
    ensures Flow(s, Take(s, w), NOTHING, NOTHING)
  {
    var s', i := Take(s, w), Candidate(s, w);
    forall t ensures Count(s', t) == Count(s, t) {
      QueueTake(s, i, s', t);
      HandShift(s, w, s.workers[w].(phase := Popped(s.queue[i].task)), s', t);
    }
  }

  lemma TakeFibers(s: State, w: nat)
    requires FibersOk(s) && CanTake(s, w)
    ensures FibersOk(Take(s, w))
  {
    var s', i := Take(s, w), Candidate(s, w);
    TakeFlow(s, w);
    forall f ensures Held(s')[f] == Held(s)[f] {
      HoldShift(s, w, s.workers[w].(phase := Popped(s.queue[i].task)), s', f);
    }
    FibersStep(s, s', |s.fibers|, NOTHING, NOTHING);
  }

  /** A worker moves between phases in which it has no task and runs no fiber. */
  lemma MoveFibers(s: State, w: nat, wk: Worker, s': State)
    requires w < |s.workers| && s'.workers == s.workers[w := wk] && s'.dropped == s.dropped
    requires s'.queue == s.queue && s'.table == s.table && s'.timers.items == s.timers.items && s'.fibers == s.fibers
    requires WorkerTasks(wk) == WorkerTasks(s.workers[w]) && Holds(wk) == Holds(s.workers[w])
    requires FibersOk(s)
    ensures FibersOk(s') && Flow(s, s', NOTHING, NOTHING)
  {
    forall t ensures Count(s', t) == Count(s, t) { HandShift(s, w, wk, s', t); }
    forall f ensures Held(s')[f] == Held(s)[f] { HoldShift(s, w, wk, s', f); }
    FibersStep(s, s', |s.fibers|, NOTHING, NOTHING);
  }

  lemma StartFiberFlow(s: State, w: nat)
    requires CanStartFiber(s, w) && WorkersOk(s)
    ensures Flow(s, StartFiber(s, w), NOTHING, multiset{Resume(s.workers[w].phase.task.fiber)})
  {
    var s', f := StartFiber(s, w), s.workers[w].phase.task.fiber;
    forall t ensures Count(s', t) + multiset{Resume(f)}[t] == Count(s, t) {
      assert BodyTasks(s'.fibers[f]) == BodyTasks(s.fibers[f]);
      HandShift(s, w, s.workers[w].(phase := Running(f)), s', t);
      BodyShift(s, f, s'.fibers[f], s', t);
    }
  }

  /** A popped fiber is at rest: it has a token, the one in the worker's hand. */
  lemma PoppedAtRest(s: State, w: nat)
    requires FibersOk(s) && WorkersOk(s) && w < |s.workers|
    requires s.workers[w].phase.Popped? && s.workers[w].phase.task.Resume?
    ensures CanStartFiber(s, w)
    ensures var f := s.workers[w].phase.task.fiber; TokensOf(s, f) == 1 && Held(s)[f] == 0
  {
    var f := s.workers[w].phase.task.fiber;
    assert WorkerOk(s.workers[w], s.fibers);
    InHandHas(s, w, Resume(f));
    assert OkAt(s, f);
  }

  lemma StartFiberHeld(s: State, w: nat, g: FiberId)
    requires FibersOk(s) && WorkersOk(s) && CanStartFiber(s, w)
    ensures Held(StartFiber(s, w))[g] == Held(s)[g] + (if g == s.workers[w].phase.task.fiber then 1 else 0)
  {
    var f := s.workers[w].phase.task.fiber;
    PoppedAtRest(s, w);
    HeldHas(s, w, f);
    HoldShift(s, w, s.workers[w].(phase := Running(f)), StartFiber(s, w), g);
  }

  lemma StartFiberAt(s: State, w: nat)
    requires FibersOk(s) && WorkersOk(s) && CanStartFiber(s, w)
    ensures OkAt(StartFiber(s, w), s.workers[w].phase.task.fiber)
  {
    var s', f := StartFiber(s, w), s.workers[w].phase.task.fiber;
    PoppedAtRest(s, w);
    StartFiberFlow(s, w);
    StartFiberHeld(s, w, f);
    assert OkAt(s, f);
    assert Count(s', Resume(f)) + multiset{Resume(f)}[Resume(f)] == Count(s, Resume(f));
    assert Count(s', Call(Wake(f))) + multiset{Resume(f)}[Call(Wake(f))] == Count(s, Call(Wake(f)));
  }

  lemma StartFiberFibers(s: State, w: nat)
    requires FibersOk(s) && WorkersOk(s) && CanStartFiber(s, w)
    ensures FibersOk(StartFiber(s, w))
  {
    var f := s.workers[w].phase.task.fiber;
    StartFiberFlow(s, w);
    StartFiberAt(s, w);
    forall g | g != f ensures Held(StartFiber(s, w))[g] == Held(s)[g] { StartFiberHeld(s, w, g); }
    OnlyForTokens(f);
    FibersStep(s, StartFiber(s, w), f, NOTHING, multiset{Resume(f)});
  }

  /** The part of a callback that is over as soon as its fiber starts: a user's callback
      is consumed, a library callback still has its work to do. */
  ghost function Consumed(cb: Callback): multiset<Task> {
    if cb.User? then multiset{Call(cb)} else multiset{}
  }

  lemma EnteredTasks(cb: Callback, t: Task)
    ensures BodyTasks(Fiber(EXEC, Entered(cb)))[t] + Consumed(cb)[t] == multiset{Call(cb)}[t]
  {
  }

  lemma ReuseCount(s: State, w: nat, t: Task)
    requires CanStartCall(s, w) && s.workers[w].cbFiber.Some? && s.fibers[s.workers[w].cbFiber.value].pc == Plain
    ensures Count(StartCall(s, w), t) + Consumed(s.workers[w].phase.task.cb)[t] == Count(s, t)
  {
    var s', wk := StartCall(s, w), s.workers[w];
    var g := wk.cbFiber.value;
    HandShift(s, w, wk.(phase := Running(g)), s', t);
    BodyShift(s, g, s'.fibers[g], s', t);
    EnteredTasks(wk.phase.task.cb, t);
  }

  lemma ReuseFlow(s: State, w: nat)
    requires FibersOk(s) && WorkersOk(s) && CanStartCall(s, w) && s.workers[w].cbFiber.Some?
    ensures Flow(s, StartCall(s, w), NOTHING, Consumed(s.workers[w].phase.task.cb))
  {
    var g := s.workers[w].cbFiber.value;
    assert WorkerOk(s.workers[w], s.fibers);
    assert OkAt(s, g);
    hide OkAt;
    forall t { ReuseCount(s, w, t); }
  }

  /** Tasks that do not name fiber f leave its tokens alone. */
  lemma SameTokens(s: State, s': State, gained: multiset<Task>, lost: multiset<Task>, f: FiberId)
    requires Flow(s, s', gained, lost)
    requires gained[Resume(f)] == gained[Call(Wake(f))] == lost[Resume(f)] == lost[Call(Wake(f))] == 0
    ensures TokensOf(s', f) == TokensOf(s, f)
  {
    assert Count(s', Resume(f)) + lost[Resume(f)] == Count(s, Resume(f)) + gained[Resume(f)];
    assert Count(s', Call(Wake(f))) + lost[Call(Wake(f))] == Count(s, Call(Wake(f))) + gained[Call(Wake(f))];
  }

  lemma ReusedOnce(s: State, w: nat)
    requires FibersOk(s) && WorkersOk(s) && CanStartCall(s, w) && s.workers[w].cbFiber.Some?
    ensures var g := s.workers[w].cbFiber.value;
      Held(StartCall(s, w))[g] == 1 && TokensOf(s, g) == 0 && g !in s.dropped
  {
    var g := s.workers[w].cbFiber.value;
    assert WorkerOk(s.workers[w], s.fibers);
    ReuseHeld(s, w, g);
    HeldHas(s, w, g);
    assert OkAt(s, g);
  }

  lemma ReuseAt(s: State, w: nat)
    requires FibersOk(s) && WorkersOk(s) && CanStartCall(s, w) && s.workers[w].cbFiber.Some?
    ensures OkAt(StartCall(s, w), s.workers[w].cbFiber.value)
  {
    var s', g := StartCall(s, w), s.workers[w].cbFiber.value;
    ReuseFlow(s, w);
    ReusedOnce(s, w);
    ConsumesNoToken(s.workers[w].phase.task.cb, g);
    SameTokens(s, s', NOTHING, Consumed(s.workers[w].phase.task.cb), g);
    assert s'.fibers[g] == Fiber(EXEC, Entered(s.workers[w].phase.task.cb)) && s'.dropped == s.dropped;
    hide StartCall, TokensOf, Held;
  }

  lemma ConsumesNoToken(cb: Callback, f: FiberId)
    ensures Consumed(cb)[Resume(f)] == 0 && Consumed(cb)[Call(Wake(f))] == 0
    ensures OnlyFor(Consumed(cb), f)
  {
  }

  lemma ReuseHeld(s: State, w: nat, f: FiberId)
    requires CanStartCall(s, w) && s.workers[w].cbFiber.Some?
    ensures Held(StartCall(s, w))[f] == Held(s)[f]
  {
    var wk := s.workers[w];
    HoldShift(s, w, wk.(phase := Running(wk.cbFiber.value)), StartCall(s, w), f);
  }

  lemma ReuseFibers(s: State, w: nat)
    requires FibersOk(s) && WorkersOk(s) && CanStartCall(s, w) && s.workers[w].cbFiber.Some?
    ensures FibersOk(StartCall(s, w))
  {
    var g, cb := s.workers[w].cbFiber.value, s.workers[w].phase.task.cb;
    ReuseFlow(s, w);
    ReuseAt(s, w);
    forall f ensures Held(StartCall(s, w))[f] == Held(s)[f] { ReuseHeld(s, w, f); }
    ConsumesNoToken(cb, g);
    FibersStep(s, StartCall(s, w), g, NOTHING, Consumed(cb));
  }

  /** Every outstanding task names existing fibers and calls. */
  predicate KnownTask(t: Task, fibers: nat, calls: nat) {
    match t
    case Resume(f) => f < fibers
    case Call(Wake(f)) => f < fibers
    case Call(Timeout(c)) => c < calls
    case Call(User(_)) => true
  }

  ghost predicate Known(s: State) {
    forall t :: Count(s, t) > 0 ==> KnownTask(t, |s.fibers|, |s.calls|)
  }

  lemma KnownFlow(s: State, s': State, gained: multiset<Task>, lost: multiset<Task>)
    requires Known(s) && Flow(s, s', gained, lost)
    requires |s.fibers| <= |s'.fibers| && |s.calls| <= |s'.calls|
    requires forall t :: gained[t] > 0 ==> KnownTask(t, |s'.fibers|, |s'.calls|)
    ensures Known(s')
  {
    forall t | Count(s', t) > 0 ensures KnownTask(t, |s'.fibers|, |s'.calls|) {
      if gained[t] == 0 { assert Count(s, t) > 0; }
    }
  }

  lemma HeldKnown(s: State, f: FiberId)
    requires WorkersOk(s) && Held(s)[f] > 0
    ensures f < |s.fibers|
  {
    var w := GatherFrom(s.workers, f, Holds);
    assert WorkerOk(s.workers[w], s.fibers);
  }

  lemma CreateFlow(s: State, w: nat)
    requires CanStartCall(s, w) && s.workers[w].cbFiber.None?
    ensures Flow(s, StartCall(s, w), NOTHING, Consumed(s.workers[w].phase.task.cb))
  {
    var s', wk, g := StartCall(s, w), s.workers[w], |s.fibers|;
    var cb := wk.phase.task.cb;
    forall t ensures Count(s', t) + Consumed(cb)[t] == Count(s, t) {
      HandShift(s, w, wk.(phase := Running(g), cbFiber := Some(g)), s', t);
      BodyPush(s, Fiber(EXEC, Entered(cb)), s', t);
      EnteredTasks(cb, t);
    }
  }

  lemma CreateHeld(s: State, w: nat, f: FiberId)
    requires WorkersOk(s) && CanStartCall(s, w) && s.workers[w].cbFiber.None?
    ensures Held(StartCall(s, w))[f] == Held(s)[f] + (if f == |s.fibers| then 1 else 0)
    ensures Held(s)[|s.fibers|] == 0
  {
    HoldShift(s, w, s.workers[w].(phase := Running(|s.fibers|), cbFiber := Some(|s.fibers|)), StartCall(s, w), f);
    if Held(s)[|s.fibers|] > 0 { HeldKnown(s, |s.fibers|); }
  }

  lemma CreateAt(s: State, w: nat)
    requires FibersOk(s) && WorkersOk(s) && Known(s) && CanStartCall(s, w) && s.workers[w].cbFiber.None?
    ensures |StartCall(s, w).fibers| == |s.fibers| + 1 && OkAt(StartCall(s, w), |s.fibers|)
  {
    var s', g, cb := StartCall(s, w), |s.fibers|, s.workers[w].phase.task.cb;
    CreateFlow(s, w);
    CreateHeld(s, w, g);
    assert !KnownTask(Resume(g), g, |s.calls|) && !KnownTask(Call(Wake(g)), g, |s.calls|);
    assert Count(s, Resume(g)) == 0 && Count(s, Call(Wake(g))) == 0;
    assert Count(s', Resume(g)) + Consumed(cb)[Resume(g)] == Count(s, Resume(g));
    assert Count(s', Call(Wake(g))) + Consumed(cb)[Call(Wake(g))] == Count(s, Call(Wake(g)));
  }

  lemma CreateFibers(s: State, w: nat)
    requires FibersOk(s) && WorkersOk(s) && Known(s) && CanStartCall(s, w) && s.workers[w].cbFiber.None?
    ensures FibersOk(StartCall(s, w))
  {
    var cb := s.workers[w].phase.task.cb;
    CreateFlow(s, w);
    CreateAt(s, w);
    forall f | f != |s.fibers| ensures Held(StartCall(s, w))[f] == Held(s)[f] { CreateHeld(s, w, f); }
    ConsumesNoToken(cb, |s.fibers|);
    FibersStep(s, StartCall(s, w), |s.fibers|, NOTHING, Consumed(cb));
  }

  // ----- Leaving a fiber -----

  /** A running fiber: one worker holds it, and it has no token unless it is suspending. */
  lemma RunnerAlone(s: State, w: nat)
    requires FibersOk(s) && WorkersOk(s) && Runs(s, w)
    ensures Held(s)[Self(s, w)] == 1 && Holds(s.workers[w])[Self(s, w)] == 1
    ensures WorkerTasks(s.workers[w]) == NOTHING
    ensures !SelfPc(s, w).Suspending() ==> TokensOf(s, Self(s, w)) == 0 && Self(s, w) !in s.dropped
  {
    assert WorkerOk(s.workers[w], s.fibers);
    assert OkAt(s, Self(s, w));
  }

  lemma ReleaseHeld(s: State, w: nat, s': State, g: FiberId)
    requires FibersOk(s) && WorkersOk(s) && Runs(s, w)
    requires s'.workers == Release(s, w).workers
    ensures Held(s')[g] == if g == Self(s, w) then 0 else Held(s)[g]
  {
    RunnerAlone(s, w);
    assert WorkerOk(s.workers[w], s.fibers);
    HoldShift(s, w, Release(s, w).workers[w], s', g);
  }

  /** Worker w goes back to the loop head, or has its READY fiber still to schedule, and the
      fiber becomes `fiber`. */
  ghost predicate SwapsOut(s: State, w: nat, s': State, fiber: Fiber, issued: seq<Task>)
    requires Runs(s, w)
  {
    && w < |s'.workers| && s'.workers == s.workers[w := s'.workers[w]]
    && s'.workers[w].phase == (if issued == [] then Scanning else Requeue(Self(s, w)))
    && WorkerTasks(s'.workers[w]) == multiset(issued)
    && s'.fibers == s.fibers[Self(s, w) := fiber] && s'.dropped == s.dropped
    && BodyTasks(fiber) == NOTHING && BodyTasks(s.fibers[Self(s, w)]) == NOTHING
    && s'.queue == s.queue && s'.table == s.table && s'.timers == s.timers
  }

  /** Swapping out issues what the worker has to schedule, nothing else. */
  lemma SwapOutFlow(s: State, w: nat, s': State, fiber: Fiber, issued: seq<Task>)
    requires FibersOk(s) && WorkersOk(s) && Runs(s, w) && SwapsOut(s, w, s', fiber, issued)
    ensures Flow(s, s', multiset(issued), NOTHING)
  {
    RunnerAlone(s, w);
    forall t ensures Count(s', t) == Count(s, t) + multiset(issued)[t] {
      HandShift(s, w, s'.workers[w], s', t);
      BodyShift(s, Self(s, w), fiber, s', t);
    }
  }

  lemma SwapOutFibers(s: State, w: nat, s': State, fiber: Fiber, issued: seq<Task>, held: nat)
    requires FibersOk(s) && WorkersOk(s) && Runs(s, w) && SwapsOut(s, w, s', fiber, issued)
    requires forall g :: Held(s')[g] == if g == Self(s, w) then held else Held(s)[g]
    requires issued == [] || issued == [Resume(Self(s, w))]
    requires FiberOk(fiber, TokensOf(s, Self(s, w)) + |issued|, held, Self(s, w) in s.dropped)
    ensures FibersOk(s') && Flow(s, s', multiset(issued), NOTHING)
  {
    var f := Self(s, w);
    SwapOutFlow(s, w, s', fiber, issued);
    SwapOutTokens(s, w, s', issued);
    hide Flow, TokensOf, Count, Held;
    SwappedFibers(s, w, s', fiber, issued);
  }

  lemma SwappedFibers(s: State, w: nat, s': State, fiber: Fiber, issued: seq<Task>)
    requires FibersOk(s) && Runs(s, w) && SwapsOut(s, w, s', fiber, issued) && Flow(s, s', multiset(issued), NOTHING)
    requires forall g :: g != Self(s, w) ==> Held(s')[g] == Held(s)[g]
    requires issued == [] || issued == [Resume(Self(s, w))]
    requires OkAt(s', Self(s, w))
    ensures FibersOk(s')
  {
    var f := Self(s, w);
    assert multiset(issued) == if issued == [] then NOTHING else multiset{Resume(f)};
    OnlyForTokens(f);
    hide Flow, TokensOf, Count, Held, OkAt;
    FibersStep(s, s', f, multiset(issued), NOTHING);
  }

  lemma SwapOutTokens(s: State, w: nat, s': State, issued: seq<Task>)
    requires Runs(s, w) && Flow(s, s', multiset(issued), NOTHING)
    requires issued == [] || issued == [Resume(Self(s, w))]
    ensures TokensOf(s', Self(s, w)) == TokensOf(s, Self(s, w)) + |issued|
  {
    var f := Self(s, w);
    assert multiset(issued) == if issued == [] then NOTHING else multiset{Resume(f)};
    assert Count(s', Resume(f)) + NOTHING[Resume(f)] == Count(s, Resume(f)) + multiset(issued)[Resume(f)];
    assert Count(s', Call(Wake(f))) + NOTHING[Call(Wake(f))]
      == Count(s, Call(Wake(f))) + multiset(issued)[Call(Wake(f))];
    hide Count, Flow;
  }

  lemma YieldReadySwaps(s: State, w: nat)
    requires CanYieldReady(s, w)
    ensures SwapsOut(s, w, YieldReady(s, w), Fiber(READY, Plain), [Resume(Self(s, w))])
    ensures var freed := Release(s, w).workers;
      YieldReady(s, w).workers == freed[w := freed[w].(phase := Requeue(Self(s, w)))]
  {
    assert multiset([Resume(Self(s, w))]) == multiset{Resume(Self(s, w))};
  }

  lemma YieldReadyHeld(s: State, w: nat, s': State, g: FiberId)
    requires FibersOk(s) && WorkersOk(s) && Runs(s, w)
    requires s'.workers == Release(s, w).workers[w := Release(s, w).workers[w].(phase := Requeue(Self(s, w)))]
    ensures Held(s')[g] == if g == Self(s, w) then 0 else Held(s)[g]
  {
    RunnerAlone(s, w);
    assert WorkerOk(s.workers[w], s.fibers);
    HoldShift(s, w, s'.workers[w], s', g);
  }

  lemma YieldReadyFibers(s: State, w: nat)
    requires FibersOk(s) && WorkersOk(s) && CanYieldReady(s, w)
    ensures FibersOk(YieldReady(s, w)) && Flow(s, YieldReady(s, w), multiset([Resume(Self(s, w))]), NOTHING)
  {
    var s', f := YieldReady(s, w), Self(s, w);
    var issued := [Resume(f)];
    RunnerAlone(s, w);
    YieldReadySwaps(s, w);
    YieldReadyFree(s, w);
    assert FiberOk(Fiber(READY, Plain), TokensOf(s, f) + |issued|, 0, f in s.dropped);
    hide *;
    SwapOutFibers(s, w, s', Fiber(READY, Plain), issued, 0);
  }

  lemma YieldReadyFree(s: State, w: nat)
    requires FibersOk(s) && WorkersOk(s) && CanYieldReady(s, w)
    ensures forall g :: Held(YieldReady(s, w))[g] == if g == Self(s, w) then 0 else Held(s)[g]
  {
    var s', f := YieldReady(s, w), Self(s, w);
    YieldReadySwaps(s, w);
    hide SwapsOut, YieldReady, Held, FibersOk, WorkersOk;
    forall g ensures Held(s')[g] == if g == f then 0 else Held(s)[g] { YieldReadyHeld(s, w, s', g); }
  }

  lemma RescheduleFlow(s: State, w: nat)
    requires CanReschedule(s, w)
    ensures Flow(s, Reschedule(s, w), NOTHING, NOTHING)
  {
    forall t ensures Count(Reschedule(s, w), t) == Count(s, t) { RescheduleCount(s, w, t); }
    hide Count, Reschedule;
  }

  lemma RescheduleCount(s: State, w: nat, t: Task)
    requires CanReschedule(s, w)
    ensures Count(Reschedule(s, w), t) == Count(s, t)
  {
    var s', f := Reschedule(s, w), s.workers[w].phase.fiber;
    HandShift(s, w, s.workers[w].(phase := Scanning), s', t);
    QueuePush(s, Resume(f), ANY_THREAD, s', t);
  }

  lemma RescheduleFibers(s: State, w: nat)
    requires FibersOk(s) && CanReschedule(s, w)
    ensures FibersOk(Reschedule(s, w)) && Flow(s, Reschedule(s, w), NOTHING, NOTHING)
  {
    var s' := Reschedule(s, w);
    RescheduleFlow(s, w);
    forall f ensures Held(s')[f] == Held(s)[f] { HoldShift(s, w, s'.workers[w], s', f); }
    hide Flow;
    FibersStep(s, s', |s.fibers|, NOTHING, NOTHING);
  }

  lemma YieldHoldSwaps(s: State, w: nat)
    requires CanYieldHold(s, w)
    ensures SwapsOut(s, w, YieldHold(s, w), Fiber(HOLD, SelfPc(s, w)), [])
    ensures YieldHold(s, w).workers == Release(s, w).workers
  {
  }

  lemma YieldHoldFibers(s: State, w: nat)
    requires FibersOk(s) && WorkersOk(s) && CanYieldHold(s, w)
    ensures FibersOk(YieldHold(s, w)) && Flow(s, YieldHold(s, w), multiset([]), NOTHING)
  {
    var s', f := YieldHold(s, w), Self(s, w);
    var fiber := Fiber(HOLD, s.fibers[f].pc);
    assert OkAt(s, f);
    YieldHoldSwaps(s, w);
    YieldHoldFree(s, w);
    assert FiberOk(fiber, TokensOf(s, f), 0, f in s.dropped);
    hide *;
    EndedFibers(s, w, s', fiber, 0);
  }

  lemma YieldHoldFree(s: State, w: nat)
    requires FibersOk(s) && WorkersOk(s) && CanYieldHold(s, w)
    ensures forall g :: Held(YieldHold(s, w))[g] == if g == Self(s, w) then 0 else Held(s)[g]
  {
    var s', f := YieldHold(s, w), Self(s, w);
    YieldHoldSwaps(s, w);
    hide SwapsOut, YieldHold, Held, FibersOk, WorkersOk;
    forall g ensures Held(s')[g] == if g == f then 0 else Held(s)[g] { ReleaseHeld(s, w, s', g); }
  }

  lemma FinishHeld(s: State, w: nat, threw: bool, g: FiberId)
    requires FibersOk(s) && WorkersOk(s) && CanFinish(s, w)
    ensures Held(Finish(s, w, threw))[g] ==
      if g == Self(s, w) then (if s.workers[w].cbFiber == Some(g) then 1 else 0) else Held(s)[g]
  {
    RunnerAlone(s, w);
    if s.workers[w].cbFiber == Some(Self(s, w)) {
      HoldShift(s, w, s.workers[w].(phase := Scanning), Finish(s, w, threw), g);
    } else {
      ReleaseHeld(s, w, Finish(s, w, threw), g);
    }
  }

  lemma FinishSwapsOut(s: State, w: nat, threw: bool)
    requires FibersOk(s) && WorkersOk(s) && CanFinish(s, w)
    ensures var s', f := Finish(s, w, threw), Self(s, w);
      && |s'.fibers| == |s.fibers| && SwapsOut(s, w, s', s'.fibers[f], [])
      && FiberOk(s'.fibers[f], TokensOf(s, f), if s.workers[w].cbFiber == Some(f) then 1 else 0, f in s.dropped)
  {
    RunnerAlone(s, w);
    FinishShape(s, w, threw);
    hide FibersOk, WorkersOk, SwapsOut, Finish, TokensOf;
  }

  lemma FinishShape(s: State, w: nat, threw: bool)
    requires CanFinish(s, w)
    ensures var s', f := Finish(s, w, threw), Self(s, w);
      && |s'.fibers| == |s.fibers| && SwapsOut(s, w, s', s'.fibers[f], [])
      && s'.fibers[f].pc == Plain
      && (if s.workers[w].cbFiber == Some(f) then s'.fibers[f].state == INIT else Finished(s'.fibers[f].state))
  {
    if s.workers[w].cbFiber == Some(Self(s, w)) { FinishKept(s, w, threw); } else { FinishFreed(s, w, threw); }
    hide SwapsOut, Finish;
  }

  lemma FinishKept(s: State, w: nat, threw: bool)
    requires CanFinish(s, w) && s.workers[w].cbFiber == Some(Self(s, w))
    ensures var s', f := Finish(s, w, threw), Self(s, w);
      |s'.fibers| == |s.fibers| && s'.fibers[f] == Fiber(INIT, Plain) && SwapsOut(s, w, s', s'.fibers[f], [])
  {
  }

  lemma FinishFreed(s: State, w: nat, threw: bool)
    requires CanFinish(s, w) && s.workers[w].cbFiber != Some(Self(s, w))
    ensures var s', f := Finish(s, w, threw), Self(s, w);
      && |s'.fibers| == |s.fibers| && s'.fibers[f] == Fiber(if threw then EXCEPT else TERM, Plain)
      && SwapsOut(s, w, s', s'.fibers[f], [])
  {
  }

  lemma FinishFibers(s: State, w: nat, threw: bool)
    requires FibersOk(s) && WorkersOk(s) && CanFinish(s, w)
    ensures FibersOk(Finish(s, w, threw)) && Flow(s, Finish(s, w, threw), multiset([]), NOTHING)
  {
    var held := if s.workers[w].cbFiber == Some(Self(s, w)) then 1 else 0;
    FinishSwapsOut(s, w, threw);
    AllFinishHeld(s, w, threw, held);
    var s', fiber := Finish(s, w, threw), Finish(s, w, threw).fibers[Self(s, w)];
    hide *;
    EndedFibers(s, w, s', fiber, held);
  }

  lemma EndedFibers(s: State, w: nat, s': State, fiber: Fiber, held: nat)
    requires FibersOk(s) && WorkersOk(s) && Runs(s, w) && SwapsOut(s, w, s', fiber, [])
    requires forall g :: Held(s')[g] == if g == Self(s, w) then held else Held(s)[g]
    requires FiberOk(fiber, TokensOf(s, Self(s, w)), held, Self(s, w) in s.dropped)
    ensures FibersOk(s') && Flow(s, s', multiset([]), NOTHING)
  {
    var none: seq<Task> := [];
    assert TokensOf(s, Self(s, w)) + |none| == TokensOf(s, Self(s, w));
    hide *;
    SwapOutFibers(s, w, s', fiber, none, held);
  }

  lemma AllFinishHeld(s: State, w: nat, threw: bool, held: nat)
    requires FibersOk(s) && WorkersOk(s) && CanFinish(s, w)
    requires held == if s.workers[w].cbFiber == Some(Self(s, w)) then 1 else 0
    ensures forall g :: Held(Finish(s, w, threw))[g] == if g == Self(s, w) then held else Held(s)[g]
  {
    hide Finish, FibersOk, WorkersOk, Held;
    forall g ensures Held(Finish(s, w, threw))[g] == if g == Self(s, w) then held else Held(s)[g] {
      FinishHeld(s, w, threw, g);
    }
  }
}
