/** The order in which the run queue is served. */
module QueueRuns {
  import opened Base
  import opened RunQueue

  /** The callbacks in q that any worker may take, in order. */
  function Unpinned(q: seq<Entry>): seq<Callback> {
    if q == [] then []
    else (if q[0].task.Call? && q[0].thread == ANY_THREAD then [q[0].task.cb] else []) + Unpinned(q[1..])
  }

  lemma {:induction false} UnpinnedAppend(a: seq<Entry>, b: seq<Entry>)
    ensures Unpinned(a + b) == Unpinned(a) + Unpinned(b)
  {
    if a == [] {
      assert a + b == b;
    } else {
      assert (a + b)[1..] == a[1..] + b;
      UnpinnedAppend(a[1..], b);
    }
  }

  /** Nobody passes over an unpinned callback. */
  lemma {:induction false} NothingUnpinnedBefore(q: seq<Entry>, thread: nat, executing: set<FiberId>)
    ensures Unpinned(q[..FirstEligible(q, thread, executing)]) == []
  {
    if q != [] && !Eligible(q[0], thread, executing) {
      NothingUnpinnedBefore(q[1..], thread, executing);
      assert q[..FirstEligible(q, thread, executing)] == [q[0]] + q[1..][..FirstEligible(q[1..], thread, executing)];
      UnpinnedAppend([q[0]], q[1..][..FirstEligible(q[1..], thread, executing)]);
      assert [q[0]][1..] == [];
    }
  }

  /** The queue, the unpinned callbacks submitted so far, and those taken so far. */
  datatype Log = Log(queue: seq<Entry>, submitted: seq<Callback>, started: seq<Callback>)

  datatype Op =
    | Submit(entries: seq<Entry>)                          // schedule, single or batch
    | Scan(thread: nat, executing: set<FiberId>)           // by any worker, in any situation

  function Step(l: Log, op: Op): Log {
    match op
    case Submit(entries) => l.(queue := l.queue + entries, submitted := l.submitted + Unpinned(entries))
    case Scan(thread, executing) =>
      var i := FirstEligible(l.queue, thread, executing);
      if i == |l.queue| then l
      else l.(queue := Without(l.queue, i), started := l.started + Unpinned([l.queue[i]]))
  }

  function Run(l: Log, ops: seq<Op>): Log
    decreases |ops|
  {
    if ops == [] then l else Run(Step(l, ops[0]), ops[1..])
  }

  predicate InOrder(l: Log) {
    l.submitted == l.started + Unpinned(l.queue)
  }

  lemma ScanInOrder(l: Log, thread: nat, executing: set<FiberId>)
    requires InOrder(l)
    ensures InOrder(Step(l, Scan(thread, executing)))
  {
    var q, i := l.queue, FirstEligible(l.queue, thread, executing);
    if i < |q| {
      NothingUnpinnedBefore(q, thread, executing);
      TakenFirst(q, i);
      var one, rest := Unpinned([q[i]]), Unpinned(Without(q, i));
      assert l.started + (one + rest) == l.started + one + rest;
    }
  }

  lemma TakenFirst(q: seq<Entry>, i: nat)
    requires i < |q| && Unpinned(q[..i]) == []
    ensures Unpinned(q) == Unpinned([q[i]]) + Unpinned(Without(q, i))
  {
    hide Unpinned;
    Parts(q, i);
    PassedOver(q[..i], [q[i]], q[i + 1..]);
  }

  lemma Parts(q: seq<Entry>, i: nat)
    requires i < |q|
    ensures q == q[..i] + ([q[i]] + q[i + 1..])
  {
  }

  lemma PassedOver(a: seq<Entry>, x: seq<Entry>, b: seq<Entry>)
    requires Unpinned(a) == []
    ensures Unpinned(a + (x + b)) == Unpinned(x) + Unpinned(a + b)
  {
    UnpinnedAppend(a, x + b);
    UnpinnedAppend(x, b);
    UnpinnedAppend(a, b);
    hide Unpinned;
    assert [] + Unpinned(b) == Unpinned(b) && [] + (Unpinned(x) + Unpinned(b)) == Unpinned(x) + Unpinned(b);
  }

  lemma SubmitInOrder(l: Log, entries: seq<Entry>)
    requires InOrder(l)
    ensures InOrder(Step(l, Submit(entries)))
  {
    UnpinnedAppend(l.queue, entries);
    assert l.started + (Unpinned(l.queue) + Unpinned(entries)) == l.started + Unpinned(l.queue) + Unpinned(entries);
  }

  /** Unpinned callbacks start in the order in which they were submitted, whichever workers
      scan in whatever order: those taken so far are a front part of those submitted. */
  lemma {:induction false} StartInSubmissionOrder(l: Log, ops: seq<Op>)
    requires InOrder(l)
    ensures InOrder(Run(l, ops)) && Run(l, ops).started <= Run(l, ops).submitted
    decreases |ops|
  {
    if ops != [] {
      match ops[0] {
        case Submit(entries) => SubmitInOrder(l, entries);
        case Scan(thread, executing) => ScanInOrder(l, thread, executing);
      }
      StartInSubmissionOrder(Step(l, ops[0]), ops[1..]);
    }
  }
}
