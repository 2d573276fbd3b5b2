/** The order in which the reactor starts callbacks, in all of its runs: the events, timers,
    fibers, users and other threads that fill the queue, and the workers that empty it. */
module ReactorOrder {
  import opened Base
  import opened RunQueue
  import opened Reactor
  import opened ReactorFrames
  import opened ReactorRuns
  import ET = EventTable
  import TS = TimerSet
  import QR = QueueRuns

  predicate Takes(step: Step) {
    step.Loop? && step.loop.TakeEntry?
  }

  // ----- Which worker takes what -----

  /** Worker w may take the entry at i of the queue: it is unpinned or pinned to w, and its
      fiber is not executing; and every entry before it is pinned to another worker, or its
      fiber is executing. */
  predicate TakesAt(s: State, w: nat, i: nat) {
    && i < |s.queue|
    && (s.queue[i].thread == -1 || s.queue[i].thread == w)
    && (s.queue[i].task.Resume? && s.queue[i].task.fiber < |s.fibers| ==>
          s.fibers[s.queue[i].task.fiber].state != EXEC)
    && (forall j :: 0 <= j < i ==>
          || (s.queue[j].thread != -1 && s.queue[j].thread != w)
          || (s.queue[j].task.Resume? && s.queue[j].task.fiber < |s.fibers|
              && s.fibers[s.queue[j].task.fiber].state == EXEC))
  }

  /** A scanning worker takes an entry exactly if there is one that it may take, and goes idle
      exactly if there is none. The entry leaves the queue, the others keep their order. */
  lemma TakesExactly(s: State, w: nat)
    requires w < |s.workers| && s.workers[w].phase == Scanning
    ensures Enabled(s, Loop(w, TakeEntry)) <==> exists i: nat :: TakesAt(s, w, i)
    ensures Enabled(s, Loop(w, TakeNothing)) <==> !exists i: nat :: TakesAt(s, w, i)
    ensures forall i: nat :: TakesAt(s, w, i) ==>
      var s' := Apply(s, Loop(w, TakeEntry));
      && s'.workers == s.workers[w := s.workers[w].(phase := Popped(s.queue[i].task))]
      && s'.queue == s.queue[..i] + s.queue[i + 1..]
      && s'.active == s.active + 1
  {
    StopsExactly(s.queue, w, Executing(s), Candidate(s, w));
    assert Candidate(s, w) < |s.queue| ==> TakesAt(s, w, Candidate(s, w));
    forall i: nat | TakesAt(s, w, i) ensures Candidate(s, w) == i {
      StopsExactly(s.queue, w, Executing(s), i);
    }
    hide TakesAt, FirstEligible, Executing;
  }

  /** What a step brings into the queue. */
  ghost function BroughtBy(s: State, step: Step): multiset<Entry>
    requires Enabled(s, step)
  {
    multiset(Apply(s, step).queue) - multiset(s.queue)
  }

  /** What worker k takes out of it. */
  ghost function TakenBy(s: State, step: Step, k: int): multiset<Entry>
    requires Enabled(s, step)
  {
    if step.Loop? && step.w == k then multiset(s.queue) - multiset(Apply(s, step).queue) else multiset{}
  }

  ghost function Brought(s: State, steps: seq<Step>): multiset<Entry>
    requires Feasible(s, steps)
    decreases |steps|
  {
    if steps == [] then multiset{} else BroughtBy(s, steps[0]) + Brought(Apply(s, steps[0]), steps[1..])
  }

  ghost function Taken(s: State, steps: seq<Step>, k: int): multiset<Entry>
    requires Feasible(s, steps)
    decreases |steps|
  {
    if steps == [] then multiset{} else TakenBy(s, steps[0], k) + Taken(Apply(s, steps[0]), steps[1..], k)
  }

  lemma TakenOne(q: seq<Entry>, i: nat)
    requires i < |q|
    ensures multiset(q) == multiset(Without(q, i)) + multiset{q[i]}
  {
    assert q == q[..i] + [q[i]] + q[i + 1..];
  }

  /** One step of anyone: an entry that is pinned to a worker goes to that worker only. */
  lemma StepPinned(s: State, step: Step, e: Entry)
    requires Enabled(s, step) && e.thread != -1
    ensures multiset(s.queue)[e] + BroughtBy(s, step)[e]
      == TakenBy(s, step, e.thread)[e] + multiset(Apply(s, step).queue)[e]
  {
    if Takes(step) {
      var i := Candidate(s, step.w);
      StopsExactly(s.queue, step.w, Executing(s), i);
      TakenOne(s.queue, i);
      assert Apply(s, step).queue == Without(s.queue, i);
      hide Candidate, Executing, Without, Enabled, Apply;
    } else {
      StepAppends(s, step);
      var q' := Apply(s, step).queue;
      assert q' == s.queue + q'[|s.queue|..];
      hide Enabled, Apply;
    }
  }

  lemma {:induction false} RunPinned(s: State, steps: seq<Step>, e: Entry)
    requires Feasible(s, steps) && e.thread != -1
    ensures multiset(s.queue)[e] + Brought(s, steps)[e]
      == Taken(s, steps, e.thread)[e] + multiset(Run(s, steps).queue)[e]
    decreases |steps|
  {
    if steps != [] {
      StepPinned(s, steps[0], e);
      RunPinned(Apply(s, steps[0]), steps[1..], e);
      hide Enabled, Apply, BroughtBy, TakenBy;
    }
  }

  /** Over any run of the reactor an entry that is pinned to worker k is taken by worker k and by
      nobody else: as often as it came into the queue, k took it or it is still there. */
  lemma PinnedToItsWorker(n: nat, steps: seq<Step>, task: Task, k: int)
    requires Feasible(Start(n), steps) && k != -1
    ensures Brought(Start(n), steps)[Entry(task, k)]
      == Taken(Start(n), steps, k)[Entry(task, k)] + multiset(Run(Start(n), steps).queue)[Entry(task, k)]
  {
    RunPinned(Start(n), steps, Entry(task, k));
  }

  // ----- The queue grows at its end only -----

  lemma LoopAppends(s: State, w: nat, step: LoopStep)
    requires CanLoop(s, w, step) && !step.TakeEntry?
    ensures s.queue <= DoLoop(s, w, step).queue
  {
    if IsSwap(step) {
      SwapAppends(s, w, step);
    } else {
      hide TS.Expiry, TS.GetNextTimer, ET.DispatchOne, Candidate;
    }
  }

  lemma SwapAppends(s: State, w: nat, step: LoopStep)
    requires CanLoop(s, w, step) && IsSwap(step)
    ensures s.queue <= DoLoop(s, w, step).queue
  {
  }

  lemma CodeAppends(s: State, w: nat, step: CodeStep)
    requires CanCode(s, w, step)
    ensures s.queue <= DoCode(s, w, step).queue
  {
    if step.RunFire? {
      FireAppends(s, w, step.ok);
      hide FireTimeout;
    } else {
      hide TS.AddTimer, CancelOwn, ET.AddEvent;
    }
  }

  lemma FireAppends(s: State, w: nat, ok: bool)
    requires CanFire(s, w)
    ensures s.queue <= FireTimeout(s, w, ok).queue
  {
    hide ET.CancelEvent, ET.Valid, StillWaiting, Firing;
  }

  lemma OpAppends(s: State, op: UserOp)
    requires CanOp(s, op)
    ensures s.queue <= ApplyOp(s, op).queue
  {
    hide ET.AddEvent, ET.DelEvent, ET.CancelEvent, ET.CancelAll, ET.Valid;
    hide TS.AddTimer, TS.Cancel, TS.Refresh, TS.Reset;
  }

  lemma StepAppends(s: State, step: Step)
    requires Enabled(s, step) && !Takes(step)
    ensures s.queue <= Apply(s, step).queue
  {
    match step
    case Loop(w, loop) => LoopAppends(s, w, loop);
    case Code(w, code) => CodeAppends(s, w, code);
    case Act(actor, op) => OpAppends(s, op);
    case _ =>
  }

  // ----- Whole runs -----

  /** The unpinned callbacks that a step puts into the queue. */
  ghost function SubmittedBy(s: State, step: Step): seq<Callback>
    requires Enabled(s, step)
  {
    if Takes(step) then []
    else
      StepAppends(s, step);
      QR.Unpinned(Apply(s, step).queue[|s.queue|..])
  }

  /** The unpinned callback that a worker takes out of it. */
  ghost function StartedBy(s: State, step: Step): seq<Callback>
    requires Enabled(s, step)
  {
    if Takes(step) then QR.Unpinned([s.queue[Candidate(s, step.w)]]) else []
  }

  ghost function Submitted(s: State, steps: seq<Step>): seq<Callback>
    requires Feasible(s, steps)
    decreases |steps|
  {
    if steps == [] then [] else SubmittedBy(s, steps[0]) + Submitted(Apply(s, steps[0]), steps[1..])
  }

  ghost function Started(s: State, steps: seq<Step>): seq<Callback>
    requires Feasible(s, steps)
    decreases |steps|
  {
    if steps == [] then [] else StartedBy(s, steps[0]) + Started(Apply(s, steps[0]), steps[1..])
  }

  /** One step: what waited and what is added is what is taken and what waits then. */
  lemma StepInOrder(s: State, step: Step)
    requires Enabled(s, step)
    ensures QR.Unpinned(s.queue) + SubmittedBy(s, step) == StartedBy(s, step) + QR.Unpinned(Apply(s, step).queue)
  {
    if Takes(step) {
      TakesFirst(s, step.w);
    } else {
      StepAppends(s, step);
      hide QR.Unpinned, Apply, Enabled;
      Appends(s.queue, Apply(s, step).queue);
    }
  }

  lemma Appends(q: seq<Entry>, q': seq<Entry>)
    requires q <= q'
    ensures QR.Unpinned(q) + QR.Unpinned(q'[|q|..]) == [] + QR.Unpinned(q')
  {
    assert q' == q + q'[|q|..];
    QR.UnpinnedAppend(q, q'[|q|..]);
    hide QR.Unpinned;
  }

  lemma TakesFirst(s: State, w: nat)
    requires CanTake(s, w)
    ensures QR.Unpinned(s.queue) == QR.Unpinned([s.queue[Candidate(s, w)]]) + QR.Unpinned(Take(s, w).queue)
    ensures QR.Unpinned(s.queue) + [] == QR.Unpinned(s.queue)
  {
    var i := Candidate(s, w);
    QR.NothingUnpinnedBefore(s.queue, w, Executing(s));
    QR.TakenFirst(s.queue, i);
    assert Take(s, w).queue == Without(s.queue, i);
    hide QR.Unpinned;
  }

  lemma Rotated(a: seq<Callback>, b: seq<Callback>, c: seq<Callback>, d: seq<Callback>, e: seq<Callback>,
                f: seq<Callback>, g: seq<Callback>)
    requires a + b == c + d && d + e == f + g
    ensures a + (b + e) == (c + f) + g
  {
    assert a + (b + e) == (a + b) + e;
    assert (c + d) + e == c + (d + e);
    assert c + (f + g) == (c + f) + g;
  }

  lemma {:induction false} RunInOrder(s: State, steps: seq<Step>)
    requires Feasible(s, steps)
    ensures QR.Unpinned(s.queue) + Submitted(s, steps) == Started(s, steps) + QR.Unpinned(Run(s, steps).queue)
    decreases |steps|
  {
    if steps == [] {
      var q := QR.Unpinned(s.queue);
      assert q + [] == [] + q;
    } else {
      var s1, rest := Apply(s, steps[0]), steps[1..];
      StepInOrder(s, steps[0]);
      RunInOrder(s1, rest);
      hide QR.Unpinned, Apply, Enabled, SubmittedBy, StartedBy;
      Rotated(QR.Unpinned(s.queue), SubmittedBy(s, steps[0]), StartedBy(s, steps[0]), QR.Unpinned(s1.queue),
              Submitted(s1, rest), Started(s1, rest), QR.Unpinned(Run(s1, rest).queue));
    }
  }

  /** In every run of the reactor, unpinned callbacks start in the order in which they came
      into the queue, whoever brought them and whichever worker takes them: those started are
      a front part of those submitted, and the others are in the queue, in that order. */
  lemma StartedInOrder(n: nat, steps: seq<Step>)
    requires Feasible(Start(n), steps)
    ensures Submitted(Start(n), steps) == Started(Start(n), steps) + QR.Unpinned(Run(Start(n), steps).queue)
    ensures Started(Start(n), steps) <= Submitted(Start(n), steps)
  {
    RunInOrder(Start(n), steps);
    var all := Submitted(Start(n), steps);
    assert [] + all == all;
  }
}
