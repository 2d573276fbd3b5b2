/** The run queue as a value: append on schedule, first eligible entry on a scan. */
module RunQueue {
  import opened Base

  const ANY_THREAD := -1

  /** An entry that worker `thread` may take: not pinned elsewhere, not a fiber that is executing. */
  predicate Eligible(e: Entry, thread: nat, executing: set<FiberId>) {
    && (e.thread == ANY_THREAD || e.thread == thread)
    && (e.task.Resume? ==> e.task.fiber !in executing)
  }

  /** The index at which the scan stops, or |q|. */
  function FirstEligible(q: seq<Entry>, thread: nat, executing: set<FiberId>): (i: nat)
    ensures i <= |q|
    ensures forall j :: 0 <= j < i ==> !Eligible(q[j], thread, executing)
    ensures i < |q| ==> Eligible(q[i], thread, executing)
  {
    if q == [] || Eligible(q[0], thread, executing) then 0
    else 1 + FirstEligible(q[1..], thread, executing)
  }

  /** The scan of worker `thread` stops at i exactly if nothing before i is for it: each of those
      entries is pinned to another worker, or its fiber is executing; and the one at i is
      unpinned or pinned to this worker, and its fiber is not executing. */
  lemma StopsExactly(q: seq<Entry>, thread: nat, executing: set<FiberId>, i: nat)
    ensures FirstEligible(q, thread, executing) == i <==>
      && i <= |q|
      && (i < |q| ==> q[i].thread == -1 || q[i].thread == thread)
      && (i < |q| && q[i].task.Resume? ==> q[i].task.fiber !in executing)
      && (forall j :: 0 <= j < i ==>
            || (q[j].thread != -1 && q[j].thread != thread)
            || (q[j].task.Resume? && q[j].task.fiber in executing))
  {
    var f := FirstEligible(q, thread, executing);
    if i < f { assert !Eligible(q[i], thread, executing); }
    if f < i <= |q| { assert Eligible(q[f], thread, executing); }
  }

  function Without(q: seq<Entry>, i: nat): seq<Entry>
    requires i < |q|
  {
    q[..i] + q[i + 1..]
  }

  /** The others keep their order. */
  lemma WithoutKeepsOrder(q: seq<Entry>, i: nat)
    requires i < |q|
    ensures |Without(q, i)| == |q| - 1
    ensures forall j :: 0 <= j < i ==> Without(q, i)[j] == q[j]
    ensures forall j :: i <= j < |q| - 1 ==> Without(q, i)[j] == q[j + 1]
  {
  }

  /** schedule(begin, end): every element is appended, in order, for any thread. */
  function Appended(q: seq<Entry>, tasks: seq<Task>): (q': seq<Entry>)
    ensures |q'| == |q| + |tasks| && q <= q'
    ensures forall i :: 0 <= i < |tasks| ==> q'[|q| + i] == Entry(tasks[i], ANY_THREAD)
  {
    q + seq(|tasks|, i requires 0 <= i < |tasks| => Entry(tasks[i], ANY_THREAD))
  }
}
