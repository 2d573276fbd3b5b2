/** Whole histories of the event table: where every continuation that addEvent
    accepted is, after any sequence of operations by any callers. */
module EventRuns {
  import opened Base
  import opened Sums
  import opened EventTable

  datatype Op =
    | OpAdd(fd: nat, ev: Event, task: Task, ok: bool)
    | OpDel(fd: nat, ev: Event, ok: bool)
    | OpCancel(fd: nat, ev: Event, ok: bool)
    | OpCancelAll(fd: nat, ok: bool)
    | OpDispatch(report: Report, ok: bool)

  /** The table, and what happened to the continuations so far: accepted by addEvent,
      appended to the run queue (in order), dropped by delEvent. */
  datatype Ledger = Ledger(table: Table, accepted: multiset<Task>, queued: seq<Task>, dropped: multiset<Task>)

  /** What the callers owe: addEvent asserts that the event is not armed, epoll reports
      registered fds only, and a report that trips an assertion has no next state. */
  predicate Allowed(t: Table, op: Op)
    requires Valid(t)
  {
    match op
    case OpAdd(fd, ev, _, _) => CanAdd(t, fd, ev)
    case OpDispatch(report, ok) => (report.Ready? ==> report.fd < |t.rows|) && DispatchOne(t, report, ok).Running?
    case _ => true
  }

  function Step(l: Ledger, op: Op): Ledger
    requires Valid(l.table) && Allowed(l.table, op)
  {
    var t := l.table;
    match op
    case OpAdd(fd, ev, task, ok) =>
      var (t', added) := AddEvent(t, fd, ev, task, ok);
      l.(table := t', accepted := if added then l.accepted + multiset{task} else l.accepted)
    case OpDel(fd, ev, ok) =>
      var (t', deleted) := DelEvent(t, fd, ev, ok);
      l.(table := t', dropped := if deleted then l.dropped + multiset{t.rows[fd].Get(ev).Task()} else l.dropped)
    case OpCancel(fd, ev, ok) =>
      var (t', out) := CancelEvent(t, fd, ev, ok);
      l.(table := t', queued := l.queued + out)
    case OpCancelAll(fd, ok) =>
      var (t', out) := CancelAll(t, fd, ok);
      l.(table := t', queued := l.queued + out)
    case OpDispatch(report, ok) =>
      var Running(t', out) := DispatchOne(t, report, ok);
      l.(table := t', queued := l.queued + out)
  }

  /** Every accepted continuation is armed, queued or dropped, exactly as often as it
      was accepted. */
  ghost predicate Balanced(l: Ledger) {
    Inv(l.table) && l.accepted == Armed(l.table) + multiset(l.queued) + l.dropped
  }

  lemma AddBalances(l: Ledger, fd: nat, ev: Event, task: Task, ok: bool)
    requires Balanced(l) && CanAdd(l.table, fd, ev)
    ensures Balanced(Step(l, OpAdd(fd, ev, task, ok)))
  {
    AddEventEffect(l.table, fd, ev, task, ok);
    hide Inv, Armed, AddEvent, CanAdd;
  }

  lemma DelBalances(l: Ledger, fd: nat, ev: Event, ok: bool)
    requires Balanced(l)
    ensures Balanced(Step(l, OpDel(fd, ev, ok)))
  {
    DelEventEffect(l.table, fd, ev, ok);
  }

  lemma StepBalances(l: Ledger, op: Op)
    requires Balanced(l) && Allowed(l.table, op)
    ensures Balanced(Step(l, op))
    ensures l.queued <= Step(l, op).queued
  {
    match op
    case OpAdd(fd, ev, task, ok) => AddBalances(l, fd, ev, task, ok);
    case OpDel(fd, ev, ok) => DelBalances(l, fd, ev, ok);
    case OpCancel(fd, ev, ok) =>
      CancelEventEffect(l.table, fd, ev, ok);
      var (t', out) := CancelEvent(l.table, fd, ev, ok);
      Requeued(l, t', out);
    case OpCancelAll(fd, ok) =>
      CancelAllEffect(l.table, fd, ok);
      var (t', out) := CancelAll(l.table, fd, ok);
      Requeued(l, t', out);
    case OpDispatch(report, ok) =>
      DispatchOneEffect(l.table, report, ok);
      var Running(t', out) := DispatchOne(l.table, report, ok);
      Requeued(l, t', out);
  }

  lemma Requeued(l: Ledger, t': Table, out: seq<Task>)
    requires Balanced(l) && Inv(t')
    requires Armed(l.table) == Armed(t') + multiset(out)
    ensures Balanced(l.(table := t', queued := l.queued + out))
  {
    assert multiset(l.queued + out) == multiset(l.queued) + multiset(out);
  }

  ghost predicate Feasible(l: Ledger, ops: seq<Op>)
    decreases |ops|
  {
    ops == [] || (Valid(l.table) && Allowed(l.table, ops[0]) && Feasible(Step(l, ops[0]), ops[1..]))
  }

  ghost function Run(l: Ledger, ops: seq<Op>): Ledger
    requires Feasible(l, ops)
    decreases |ops|
  {
    if ops == [] then l else Run(Step(l, ops[0]), ops[1..])
  }

  /** After any history, failed epoll_ctl calls included: the pending counter is the
      number of armed bits, the kernel's masks are the table's, slots are occupied iff
      armed, and no continuation was lost or duplicated. */
  lemma {:induction false} RunBalances(l: Ledger, ops: seq<Op>)
    requires Balanced(l) && Feasible(l, ops)
    ensures Balanced(Run(l, ops))
    ensures l.queued <= Run(l, ops).queued
    decreases |ops|
  {
    if ops != [] {
      StepBalances(l, ops[0]);
      RunBalances(Step(l, ops[0]), ops[1..]);
    }
  }

  /** The table that the constructor leaves behind: 32 empty contexts. */
  function Start(): Ledger {
    Ledger(Table(Resize([], 32), map[], 0), multiset{}, [], multiset{})
  }

  lemma FreshTable(rows: seq<Row>)
    requires |rows| >= 2
    requires forall i :: 0 <= i < |rows| ==> rows[i] == Fresh(i)
    ensures Inv(Table(rows, map[], 0)) && Armed(Table(rows, map[], 0)) == multiset{}
  {
    GatherNone(rows, RowTasks);
    GatherNone(rows, RowBits);
  }

  lemma StartBalanced()
    ensures Balanced(Start())
  {
    FreshTable(Start().table.rows);
  }

  lemma StartsEmpty()
    ensures |Start().table.rows| == 32
    ensures forall i :: 0 <= i < 32 ==> Start().table.rows[i].events == Mask(false, false)
    ensures Start().table.kernel == map[] && Start().table.pending == 0
    ensures Start().accepted == Start().dropped == multiset{} && Start().queued == []
  {
    ResizeExactly([], 32);
    hide Resize;
  }

  /** Competing wakers (epoll, a timeout's cancelEvent, close's cancelAll) queue a
      continuation once in total: one that was accepted once is in exactly one of the
      armed slots, the queue history and the dropped ones. */
  lemma AcceptedOnceQueuedAtMostOnce(ops: seq<Op>, task: Task)
    requires Feasible(Start(), ops)
    requires Run(Start(), ops).accepted[task] == 1
    ensures var l := Run(Start(), ops);
      Armed(l.table)[task] + multiset(l.queued)[task] + l.dropped[task] == 1
  {
    StartBalanced();
    RunBalances(Start(), ops);
  }

  // ----- One wake-up of the dispatch loop -----

  /** The loop as a fold over the reports; an assertion failure ends it. */
  function DispatchAll(t: Table, reports: seq<Report>, oks: seq<bool>): Dispatched
    requires Valid(t) && |oks| == |reports|
    requires Known(t, reports)
    decreases |reports|
  {
    if reports == [] then Running(t, [])
    else
      match DispatchOne(t, reports[0], oks[0])
      case AssertionFailed => AssertionFailed
      case Running(t1, out1) =>
        DispatchKeepsValid(t, reports[0], oks[0]);
        match DispatchAll(t1, reports[1..], oks[1..])
        case AssertionFailed => AssertionFailed
        case Running(t2, out2) => Running(t2, out1 + out2)
  }

  lemma SameButCount(t: Table, counted: Table, report: Report, ok: bool)
    requires Valid(t) && Valid(counted) && (report.Ready? ==> report.fd < |t.rows|)
    requires counted == t.(pending := counted.pending)
    requires DispatchOne(t, report, ok).Running?
    ensures DispatchOne(counted, report, ok).Running?
    ensures DispatchOne(counted, report, ok).table.rows == DispatchOne(t, report, ok).table.rows
    ensures DispatchOne(counted, report, ok).table.kernel == DispatchOne(t, report, ok).table.kernel
  {
  }

  lemma DispatchKeepsValid(t: Table, report: Report, ok: bool)
    requires Valid(t) && (report.Ready? ==> report.fd < |t.rows|)
    requires DispatchOne(t, report, ok).Running?
    ensures var t' := DispatchOne(t, report, ok).table;
      Valid(t') && |t'.rows| == |t.rows|
  {
    var counted := t.(pending := |Bits(t)|);
    SameButCount(t, counted, report, ok);
    DispatchOneEffect(counted, report, ok);
    hide DispatchOne, Released, Effective;
  }

  /** epoll reports registered fds, and those have a context. */
  predicate Known(t: Table, reports: seq<Report>) {
    forall r <- reports :: r.Ready? ==> r.fd < |t.rows|
  }

  /** epoll_wait reports a fd at most once. */
  predicate OnceEach(reports: seq<Report>) {
    forall i, j :: 0 <= i < j < |reports| && reports[i].Ready? && reports[j].Ready? ==> reports[i].fd != reports[j].fd
  }

  /** No entry trips the assertion on the table as it is before the loop. */
  predicate Harmless(t: Table, reports: seq<Report>, oks: seq<bool>)
    requires |oks| == |reports| && Known(t, reports)
  {
    forall i :: 0 <= i < |reports| ==> !Trips(t, reports[i], oks[i])
  }

  /** What one entry releases, read off table t: the continuation of READ if it is armed and
      EPOLLIN, an error or a hang-up is reported, then that of WRITE likewise. */
  function ReleasedByOne(t: Table, report: Report, ok: bool): seq<Task>
    requires Valid(t) && (report.Ready? ==> report.fd < |t.rows|)
  {
    if ok && report.Ready? then
      Holding(t.rows[report.fd], report.input || report.errorOrHangup, report.output || report.errorOrHangup)
    else []
  }

  /** What the entries release, all read off the table as it is before the loop. */
  function ReleasedBy(t: Table, reports: seq<Report>, oks: seq<bool>): seq<Task>
    requires Valid(t) && |oks| == |reports| && Known(t, reports)
    decreases |reports|
  {
    if reports == [] then []
    else ReleasedByOne(t, reports[0], oks[0]) + ReleasedBy(t, reports[1..], oks[1..])
  }

  lemma HarmlessTail(t: Table, reports: seq<Report>, oks: seq<bool>)
    requires |oks| == |reports| > 0 && Known(t, reports)
    ensures Known(t, reports[1..])
    ensures Harmless(t, reports, oks) <==> !Trips(t, reports[0], oks[0]) && Harmless(t, reports[1..], oks[1..])
  {
    forall i | 0 < i < |reports| ensures reports[i] == reports[1..][i - 1] && oks[i] == oks[1..][i - 1] {
    }
    if !Harmless(t, reports, oks) {
      var i :| 0 <= i < |reports| && Trips(t, reports[i], oks[i]);
      assert i > 0 ==> Trips(t, reports[1..][i - 1], oks[1..][i - 1]);
    }
  }

  predicate Untouched(t: Table, t': Table, reports: seq<Report>) {
    |t'.rows| == |t.rows| && forall r <- reports :: r.Ready? && r.fd < |t.rows| ==> t'.rows[r.fd] == t.rows[r.fd]
  }

  lemma SameHarmless(t: Table, t': Table, reports: seq<Report>, oks: seq<bool>)
    requires |oks| == |reports| && Known(t, reports) && Untouched(t, t', reports)
    ensures Known(t', reports) && (Harmless(t', reports, oks) <==> Harmless(t, reports, oks))
  {
    forall i | 0 <= i < |reports| ensures Trips(t', reports[i], oks[i]) == Trips(t, reports[i], oks[i]) {
      assert reports[i] in reports;
    }
  }

  lemma {:induction false} SameReleased(t: Table, t': Table, reports: seq<Report>, oks: seq<bool>)
    requires Valid(t) && Valid(t') && |oks| == |reports| && Known(t, reports) && Untouched(t, t', reports)
    ensures Known(t', reports) && ReleasedBy(t', reports, oks) == ReleasedBy(t, reports, oks)
    decreases |reports|
  {
    if reports != [] {
      assert reports[0] in reports;
      SameReleased(t, t', reports[1..], oks[1..]);
    }
  }

  lemma FirstSparesRest(t: Table, t1: Table, reports: seq<Report>)
    requires |reports| > 0 && Known(t, reports) && OnceEach(reports) && |t1.rows| == |t.rows|
    requires reports[0].Ready? ==> OnlyRow(t, t1, reports[0].fd)
    requires reports[0].Tickle? ==> t1 == t
    ensures Untouched(t, t1, reports[1..]) && Known(t1, reports[1..]) && OnceEach(reports[1..])
  {
    forall r | r in reports[1..] && r.Ready? ensures r.fd < |t.rows| && t1.rows[r.fd] == t.rows[r.fd] {
      var j :| 0 <= j < |reports[1..]| && reports[1..][j] == r;
      assert reports[j + 1] == r;
    }
  }

  lemma OneEntry(t: Table, report: Report, ok: bool)
    requires Inv(t) && (report.Ready? ==> report.fd < |t.rows|) && !Trips(t, report, ok)
    ensures DispatchOne(t, report, ok).Running?
    ensures var t1 := DispatchOne(t, report, ok).table;
      && Inv(t1) && |t1.rows| == |t.rows|
      && (report.Ready? ==> OnlyRow(t, t1, report.fd))
      && (report.Tickle? ==> t1 == t)
  {
    DispatchAborts(t, report, ok);
    DispatchOneEffect(t, report, ok);
    if report.Ready? { DispatchOneExactly(t, report, ok); }
    hide *;
    if report.Tickle? { TickleEntry(t, report, ok); }
  }

  lemma TickleEntry(t: Table, report: Report, ok: bool)
    requires Valid(t) && report.Tickle?
    ensures DispatchOne(t, report, ok) == Running(t, [])
  {
  }

  /** An entry that does not end the process leaves the other entries as they were. */
  lemma FirstEntry(t: Table, reports: seq<Report>, oks: seq<bool>)
    requires Inv(t) && |oks| == |reports| > 0 && Known(t, reports) && OnceEach(reports)
    requires !Trips(t, reports[0], oks[0])
    ensures DispatchOne(t, reports[0], oks[0]).Running?
    ensures var t1 := DispatchOne(t, reports[0], oks[0]).table;
      && Inv(t1) && |t1.rows| == |t.rows| && Untouched(t, t1, reports[1..])
      && Known(t1, reports[1..]) && OnceEach(reports[1..])
      && (Harmless(t1, reports[1..], oks[1..]) <==> Harmless(t, reports, oks))
  {
    assert reports[0] in reports;
    OneEntry(t, reports[0], oks[0]);
    var t1 := DispatchOne(t, reports[0], oks[0]).table;
    hide Inv, DispatchOne, Trips, OnlyRow;
    FirstSparesRest(t, t1, reports);
    hide Untouched, OnceEach, Harmless, Known;
    HarmlessTail(t, reports, oks);
    SameHarmless(t, t1, reports[1..], oks[1..]);
  }

  lemma {:induction false} AbortsUnlessHarmless(t: Table, reports: seq<Report>, oks: seq<bool>)
    requires Inv(t) && |oks| == |reports| && Known(t, reports) && OnceEach(reports)
    ensures DispatchAll(t, reports, oks).AssertionFailed? <==> !Harmless(t, reports, oks)
    decreases |reports|
  {
    if reports != [] {
      assert reports[0] in reports;
      DispatchAborts(t, reports[0], oks[0]);
      HarmlessTail(t, reports, oks);
      if !Trips(t, reports[0], oks[0]) {
        FirstEntry(t, reports, oks);
        hide Inv, DispatchOne, Trips, Untouched, OnceEach, Known, Harmless;
        AbortsUnlessHarmless(DispatchOne(t, reports[0], oks[0]).table, reports[1..], oks[1..]);
      }
    }
  }

  /** The loop of one wake-up ends the process exactly when one of its entries trips the
      assertion on the table as it is before the loop. */
  lemma DispatchAbortsExactly(t: Table, reports: seq<Report>, oks: seq<bool>)
    requires Inv(t) && |oks| == |reports| && Known(t, reports) && OnceEach(reports)
    ensures DispatchAll(t, reports, oks).AssertionFailed?
      <==> exists i :: 0 <= i < |reports| && Trips(t, reports[i], oks[i])
  {
    AbortsUnlessHarmless(t, reports, oks);
  }

  lemma Joined(a: multiset<Task>, b: multiset<Task>, c: multiset<Task>, out1: seq<Task>, out2: seq<Task>)
    requires a == b + multiset(out1) && b == c + multiset(out2)
    ensures a == c + multiset(out1 + out2)
  {
    assert multiset(out1 + out2) == multiset(out1) + multiset(out2);
  }

  lemma FirstReleases(t: Table, report: Report, ok: bool)
    requires Valid(t) && (report.Ready? ==> report.fd < |t.rows|) && !Trips(t, report, ok)
    ensures DispatchOne(t, report, ok).Running? && DispatchOne(t, report, ok).released == ReleasedByOne(t, report, ok)
  {
    if report.Ready? { DispatchOneExactly(t, report, ok); }
    hide Valid;
  }

  /** The loop over one wake-up in which no entry trips the assertion: the continuations
      come out entry by entry, READ before WRITE, as the table held them before the loop;
      stale entries release nothing. */
  lemma {:induction false} DispatchReleases(t: Table, reports: seq<Report>, oks: seq<bool>)
    requires Inv(t) && |oks| == |reports| && Known(t, reports) && OnceEach(reports) && Harmless(t, reports, oks)
    ensures DispatchAll(t, reports, oks).Running?
    ensures var Running(t', out) := DispatchAll(t, reports, oks);
      Inv(t') && |t'.rows| == |t.rows| && out == ReleasedBy(t, reports, oks) && Armed(t) == Armed(t') + multiset(out)
    decreases |reports|
  {
    if reports != [] {
      HarmlessTail(t, reports, oks);
      FirstEntry(t, reports, oks);
      DispatchOneEffect(t, reports[0], oks[0]);
      FirstReleases(t, reports[0], oks[0]);
      var Running(t1, out1) := DispatchOne(t, reports[0], oks[0]);
      SameReleased(t, t1, reports[1..], oks[1..]);
      hide Inv, Armed, DispatchOne, Effective, Untouched, OnceEach, Known, Harmless, Trips, Released, ReleasedByOne;
      DispatchReleases(t1, reports[1..], oks[1..]);
      var Running(t2, out2) := DispatchAll(t1, reports[1..], oks[1..]);
      Joined(Armed(t), Armed(t1), Armed(t2), out1, out2);
    }
  }

  /** A fd that no entry takes events from keeps its row. */
  lemma {:induction false} DispatchSpares(t: Table, reports: seq<Report>, oks: seq<bool>, fd: nat)
    requires Inv(t) && |oks| == |reports| && Known(t, reports) && OnceEach(reports) && Harmless(t, reports, oks)
    requires fd < |t.rows|
    requires forall i :: 0 <= i < |reports| && reports[i].Ready? && oks[i] ==> reports[i].fd != fd
    ensures DispatchAll(t, reports, oks).Running?
    ensures var t' := DispatchAll(t, reports, oks).table; |t'.rows| == |t.rows| && t'.rows[fd] == t.rows[fd]
    decreases |reports|
  {
    if reports != [] {
      HarmlessTail(t, reports, oks);
      FirstEntry(t, reports, oks);
      DispatchOneEffect(t, reports[0], oks[0]);
      var t1 := DispatchOne(t, reports[0], oks[0]).table;
      assert t1.rows[fd] == t.rows[fd];
      hide Inv, Armed, DispatchOne, Effective, Untouched, OnceEach, Known, Harmless, Trips;
      DispatchSpares(t1, reports[1..], oks[1..], fd);
    }
  }

  /** The loop takes an event off a fd exactly if it is armed, the entry of this fd reports it, or
      an error or a hang-up, and epoll_ctl succeeds. */
  lemma {:induction false} DispatchTakes(t: Table, reports: seq<Report>, oks: seq<bool>, i: nat)
    requires Inv(t) && |oks| == |reports| && Known(t, reports) && OnceEach(reports) && Harmless(t, reports, oks)
    requires i < |reports| && reports[i].Ready?
    ensures DispatchAll(t, reports, oks).Running?
    ensures var t', report := DispatchAll(t, reports, oks).table, reports[i];
      && report.fd < |t.rows| == |t'.rows|
      && var armed, left := t.rows[report.fd].events, t'.rows[report.fd].events;
      && (left.read <==> armed.read && !(oks[i] && (report.input || report.errorOrHangup)))
      && (left.write <==> armed.write && !(oks[i] && (report.output || report.errorOrHangup)))
    decreases |reports|
  {
    HarmlessTail(t, reports, oks);
    FirstEntry(t, reports, oks);
    var t1 := DispatchOne(t, reports[0], oks[0]).table;
    assert reports[i] in reports;
    if i == 0 {
      DispatchOneExactly(t, reports[0], oks[0]);
      hide Inv, Armed, DispatchOne, Known, Harmless, Trips;
      DispatchSpares(t1, reports[1..], oks[1..], reports[0].fd);
    } else {
      assert reports[1..][i - 1] == reports[i] && reports[i] in reports[1..];
      assert t1.rows[reports[i].fd] == t.rows[reports[i].fd];
      hide Inv, Armed, DispatchOne, Effective, OnceEach, Known, Harmless, Trips, Untouched;
      DispatchTakes(t1, reports[1..], oks[1..], i - 1);
    }
  }
}
