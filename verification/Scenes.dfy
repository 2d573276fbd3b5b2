/** States of two workers, written out: the ground for runs that end in a given state. */
module Scenes {
  import opened Base
  import opened RunQueue
  import opened Reactor
  import opened ReactorInv
  import opened ReactorRuns
  import ET = EventTable
  import TS = TimerSet

  const SCAN := Worker(Scanning, None, false)

  function InFiber(f: FiberId): Worker { Worker(Running(f), Some(f), false) }

  /** Two workers over an event table in which nothing is armed. */
  function Scene(fibers: seq<Fiber>, calls: seq<CallInfo>, queue: seq<Entry>, timers: TS.Timers, used: set<nat>,
                 w0: Worker, w1: Worker, active: int, idle: int): State {
    State(fibers, calls, queue, Start(2).table, timers, used, [w0, w1], active, idle, false, false, {}, false, false)
  }

  const NO_TIMERS := TS.Timers([], false, 0)

  lemma SceneStart()
    ensures Start(2) == Scene([], [], [], NO_TIMERS, {}, SCAN, SCAN, 0, 0)
  {
    assert Start(2).workers == [SCAN, SCAN];
    hide ET.Resize;
  }

  lemma Submitted()
    ensures Reachable(Scene([], [], [Entry(Call(User(7)), ANY_THREAD)], NO_TIMERS, {}, SCAN, SCAN, 0, 0))
  {
    StartReachable(2);
    StartRow(3);
    SceneStart();
    SubmitsOne();
    hide *;
    ReachableStep(Start(2), Act(Outside, Submit(7, ANY_THREAD)));
  }

  lemma SubmitsOne()
    requires ET.Valid(Start(2).table)
    ensures var s, step := Scene([], [], [], NO_TIMERS, {}, SCAN, SCAN, 0, 0), Act(Outside, Submit(7, ANY_THREAD));
      && Enabled(s, step)
      && Apply(s, step) == Scene([], [], [Entry(Call(User(7)), ANY_THREAD)], NO_TIMERS, {}, SCAN, SCAN, 0, 0)
  {
    var s := Scene([], [], [], NO_TIMERS, {}, SCAN, SCAN, 0, 0);
    assert !s.workers[0].idleDone;
    hide ET.Valid, Start;
  }

  lemma StartRow(fd: nat)
    requires fd < 32
    ensures ET.Inv(Start(2).table) && ET.Valid(Start(2).table)
    ensures fd < |Start(2).table.rows| && Start(2).table.rows[fd] == ET.Fresh(fd)
  {
    StartInv(2);
  }

  /** Worker w takes the only entry. */
  lemma TakesOne(s: State, w: nat, cb: Callback)
    requires w < |s.workers| && s.workers[w].phase == Scanning && s.queue == [Entry(Call(cb), ANY_THREAD)]
    requires Reachable(s)
    ensures Reachable(At(s, w, Popped(Call(cb))).(
      queue := [], active := s.active + 1, revived := s.revived || s.workers[w].idleDone))
  {
    TakeIs(s, w, Call(cb));
    ReachableStep(s, Loop(w, TakeEntry));
  }

  lemma TakeIs(s: State, w: nat, task: Task)
    requires w < |s.workers| && s.workers[w].phase == Scanning && s.queue == [Entry(task, ANY_THREAD)]
    requires task.Resume? ==> task.fiber < |s.fibers| && s.fibers[task.fiber].state != EXEC
    ensures Enabled(s, Loop(w, TakeEntry))
    ensures Apply(s, Loop(w, TakeEntry)) == At(s, w, Popped(task)).(
      queue := [], active := s.active + 1, revived := s.revived || s.workers[w].idleDone)
  {
    assert Candidate(s, w) == 0;
    assert Without(s.queue, 0) == [];
  }

  lemma Started()
    ensures Reachable(Scene([Fiber(EXEC, Plain)], [], [], NO_TIMERS, {}, InFiber(0), SCAN, 1, 0))
  {
    Submitted();
    var s := Scene([], [], [Entry(Call(User(7)), ANY_THREAD)], NO_TIMERS, {}, SCAN, SCAN, 0, 0);
    TakesOne(s, 0, User(7));
    var s1 := Scene([], [], [], NO_TIMERS, {}, Worker(Popped(Call(User(7))), None, false), SCAN, 1, 0);
    assert s1 == At(s, 0, Popped(Call(User(7)))).(queue := [], active := 1);
    hide Reachable, Start;
    ReachableStep(s1, Loop(0, SwapInCallback));
  }
}
