/** FdContext and IOManager as objects that are changed in place, proved against
    EventTable: every method does to contexts, kernel and counter what its function there
    says, and hands to the scheduler what that function returns. */
module EventCode {
  import opened Base
  import opened EventTable
  import opened EventRuns

  class FdContext {
    const fd: nat
    var events: Mask
    var read: Slot
    var write: Slot

    constructor (fd: nat)
      ensures Show() == Fresh(fd)
    {
      this.fd, events, read, write := fd, NONE, EMPTY, EMPTY;
    }

    function Show(): Row
      reads this
    {
      Row(fd, events, read, write)
    }

    /** getContext. */
    function GetContext(ev: Event): Slot
      reads this
    {
      match ev case READ => read case WRITE => write
    }

    method SetContext(ev: Event, slot: Slot)
      modifies this
      ensures Show() == old(Show()).Put(ev, slot)
    {
      match ev
      case READ => read := slot;
      case WRITE => write := slot;
    }

    /** triggerEvent: its assertion is the precondition. schedule swaps the continuation out
        of the slot. */
    method TriggerEvent(ev: Event) returns (task: Task)
      requires events.Has(ev) && GetContext(ev).Occupied()
      modifies this
      ensures (Show(), task) == Trigger(old(Show()), ev)
    {
      events := events.Without(ev);
      var ctx := GetContext(ev);
      task := if ctx.cb.Some? then Call(ctx.cb.value) else Resume(ctx.fiber.value);
      SetContext(ev, EMPTY);
    }
  }

  class IOManager {
    var contexts: seq<FdContext>
    var kernel: map<nat, Mask>     // the epoll instance
    var pending: int
    var scheduled: seq<Task>       // what went to the scheduler so far

    ghost predicate Indexed()
      reads this, contexts
    {
      forall i :: 0 <= i < |contexts| ==> contexts[i].fd == i
    }

    ghost function Rows(): (rows: seq<Row>)
      reads this, contexts
      ensures |rows| == |contexts|
    {
      seq(|contexts|, i requires 0 <= i < |contexts| reads this, contexts => contexts[i].Show())
    }

    ghost function View(): Table
      reads this, contexts
    {
      Table(Rows(), kernel, pending)
    }

    ghost predicate Valid()
      reads this, contexts
    {
      Inv(View())
    }

    /** One row of the view changes when its context does. */
    twostate lemma RowChanged(fd: nat)
      requires fd < |contexts| && contexts == old(contexts) && old(Indexed())
      requires forall c <- contexts :: c != contexts[fd] ==> unchanged(c)
      ensures Rows() == old(Rows())[fd := contexts[fd].Show()]
    {
      forall i | 0 <= i < |contexts| ensures Rows()[i] == old(Rows())[fd := contexts[fd].Show()][i] {
        assert old(contexts[i].fd) == i;
        if i != fd { assert contexts[i] in contexts && contexts[i] != contexts[fd]; }
      }
    }

    lemma ValidIsIndexed()
      requires Valid()
      ensures Indexed() && |contexts| >= 2
    {
      forall i | 0 <= i < |contexts| ensures contexts[i].fd == i { assert Rows()[i].fd == i; }
    }

    /** contextResize(32) by the constructor. */
    constructor ()
      ensures Valid() && View() == EventRuns.Start().table && scheduled == []
      ensures forall c <- contexts :: fresh(c)
    {
      contexts, kernel, pending, scheduled := [], map[], 0, [];
      new;
      assert Rows() == [];
      hide *;
      ContextResize(32);
      StartIs(View());
    }

    lemma StartIs(t: Table)
      requires t == Table(Resize([], 32), map[], 0)
      ensures t == EventRuns.Start().table && Inv(t)
    {
      StartBalanced();
      hide Resize;
    }

    /** contextResize: truncate or extend, and make a context for every new position. */
    method ContextResize(size: nat)
      requires Indexed()
      modifies this`contexts
      ensures Indexed() && Rows() == Resize(old(Rows()), size)
      ensures forall c <- contexts :: c in old(contexts) || fresh(c)
    {
      ghost var before := Rows();
      if size <= |contexts| {
        contexts := contexts[..size];
        return;
      }
      ghost var n := |contexts|;
      while |contexts| < size
        invariant n <= |contexts| <= size && Indexed()
        invariant contexts[..n] == old(contexts)
        invariant forall c <- contexts :: c in old(contexts) || fresh(c)
        invariant forall i :: 0 <= i < |contexts| ==> Rows()[i] == if i < n then before[i] else Fresh(i)
        decreases size - |contexts|
      {
        var c := new FdContext(|contexts|);
        contexts := contexts + [c];
      }
    }

    /** addEvent; the running fiber's continuation stands for a missing callback. */
    method AddEvent(fd: nat, ev: Event, task: Task, ok: bool) returns (added: bool)
      requires Valid() && CanAdd(View(), fd, ev)
      modifies this, contexts
      ensures Valid() && (View(), added) == EventTable.AddEvent(old(View()), fd, ev, task, ok)
      ensures scheduled == old(scheduled)
    {
      ValidIsIndexed();
      AddKeepsValid(fd, ev, task, ok);
      hide Inv, CanAdd, EventTable.Arm, RowsFor;
      FindContext(fd);
      added := Arm(fd, ev, task, ok);
    }

    lemma AddKeepsValid(fd: nat, ev: Event, task: Task, ok: bool)
      requires Valid() && CanAdd(View(), fd, ev)
      ensures Inv(EventTable.AddEvent(View(), fd, ev, task, ok).0)
      ensures fd >= |contexts| ==> fd < fd * 3 / 2
    {
      AddEventEffect(View(), fd, ev, task, ok);
      hide Inv;
    }

    /** The first part of addEvent: the vector grows when fd is out of range. */
    method FindContext(fd: nat)
      requires Indexed() && (fd >= |contexts| ==> fd < fd * 3 / 2)
      modifies this`contexts
      ensures Indexed() && View() == old(View()).(rows := RowsFor(old(Rows()), fd))
      ensures fd < |contexts| && (contexts[fd] in old(contexts) || fresh(contexts[fd]))
    {
      if fd >= |contexts| {
        ContextResize(fd * 3 / 2);
      }
      assert contexts[fd] in contexts;
    }

    /** addEvent once the context is found. */
    method Arm(fd: nat, ev: Event, task: Task, ok: bool) returns (added: bool)
      requires Indexed() && fd < |contexts|
      modifies this`kernel, this`pending, contexts[fd]
      ensures (View(), added) == EventTable.Arm(old(View()), fd, ev, task, ok)
    {
      var ctx := contexts[fd];
      assert Rows()[fd] == ctx.Show();
      var op := if ctx.events != NONE then MOD else ADD;
      var (kernel', done) := EpollCtl(kernel, op, fd, ctx.events.With(ev), ok);
      if !done {
        return false;
      }
      kernel := kernel';
      pending := pending + 1;
      ctx.events := ctx.events.With(ev);
      ctx.SetContext(ev, Bind(task));
      RowChanged(fd);
      return true;
    }

    lemma RowAt(fd: nat)
      requires Valid() && fd < |contexts|
      ensures Rows()[fd] == contexts[fd].Show() && contexts[fd].Show().Valid()
    {
    }

    /** delEvent: the slot is reset, and nothing is scheduled. */
    method DelEvent(fd: nat, ev: Event, ok: bool) returns (deleted: bool)
      requires Valid()
      modifies this, contexts
      ensures Valid() && (View(), deleted) == EventTable.DelEvent(old(View()), fd, ev, ok)
      ensures scheduled == old(scheduled) && contexts == old(contexts)
    {
      DelEventEffect(View(), fd, ev, ok);
      ValidIsIndexed();
      if fd >= |contexts| {
        return false;
      }
      RowAt(fd);
      hide Inv, EventTable.DelEvent;
      deleted := Drop(fd, ev, ok);
    }

    /** delEvent once the context is found. */
    method Drop(fd: nat, ev: Event, ok: bool) returns (deleted: bool)
      requires Indexed() && fd < |contexts| && Rows()[fd] == contexts[fd].Show()
      modifies this`kernel, this`pending, contexts[fd]
      ensures (View(), deleted) == EventTable.DelEvent(old(View()), fd, ev, ok)
    {
      var ctx := contexts[fd];
      if !ctx.events.Has(ev) {
        return false;
      }
      var left := ctx.events.Without(ev);
      var op := if left != NONE then MOD else DEL;
      var (kernel', done) := EpollCtl(kernel, op, fd, left, ok);
      if !done {
        return false;
      }
      kernel := kernel';
      pending := pending - 1;
      ctx.events := left;
      ctx.SetContext(ev, EMPTY);
      RowChanged(fd);
      return true;
    }

    /** cancelEvent. */
    method CancelEvent(fd: nat, ev: Event, ok: bool) returns (cancelled: bool)
      requires Valid()
      modifies this, contexts
      ensures Valid() && contexts == old(contexts)
      ensures View() == EventTable.CancelEvent(old(View()), fd, ev, ok).0
      ensures scheduled == old(scheduled) + EventTable.CancelEvent(old(View()), fd, ev, ok).1
      ensures cancelled <==> EventTable.CancelEvent(old(View()), fd, ev, ok).1 != []
    {
      CancelEventEffect(View(), fd, ev, ok);
      ValidIsIndexed();
      if fd >= |contexts| {
        return false;
      }
      RowAt(fd);
      hide Inv, EventTable.Valid, EventTable.CancelEvent;
      cancelled := Release(fd, ev, ok);
    }

    /** cancelEvent once the context is found. */
    method Release(fd: nat, ev: Event, ok: bool) returns (cancelled: bool)
      requires Indexed() && EventTable.Valid(View()) && fd < |contexts|
      requires Rows()[fd] == contexts[fd].Show() && contexts[fd].Show().Valid()
      modifies this`kernel, this`pending, this`scheduled, contexts[fd]
      ensures View() == EventTable.CancelEvent(old(View()), fd, ev, ok).0
      ensures scheduled == old(scheduled) + EventTable.CancelEvent(old(View()), fd, ev, ok).1
      ensures cancelled <==> EventTable.CancelEvent(old(View()), fd, ev, ok).1 != []
    {
      var ctx := contexts[fd];
      assert ctx.events.Has(ev) ==> ctx.GetContext(ev).Occupied();
      hide EventTable.Valid;
      if !ctx.events.Has(ev) {
        return false;
      }
      var left := ctx.events.Without(ev);
      var op := if left != NONE then MOD else DEL;
      var (kernel', done) := EpollCtl(kernel, op, fd, left, ok);
      if !done {
        return false;
      }
      kernel := kernel';
      pending := pending - 1;
      var task := ctx.TriggerEvent(ev);
      scheduled := scheduled + [task];
      RowChanged(fd);
      return true;
    }

    /** Trigger ev if `wanted` and armed, and count it off. */
    method TriggerIf(ctx: FdContext, wanted: bool, ev: Event)
      requires ctx.Show().Valid()
      modifies this`pending, this`scheduled, ctx
      ensures ctx.Show().Valid()
      ensures var (row, out) := EventTable.TriggerIf(old(ctx.Show()), if wanted then Mask(true, true) else NONE, ev);
        ctx.Show() == row && scheduled == old(scheduled) + out && pending == old(pending) - |out|
    {
      TriggerIfEffect(ctx.Show(), if wanted then Mask(true, true) else NONE, ev);
      if wanted && ctx.events.Has(ev) {
        var task := ctx.TriggerEvent(ev);
        scheduled := scheduled + [task];
        pending := pending - 1;
      }
    }

    /** READ before WRITE, each if it is in `evs` and armed. */
    method TriggerEach(ctx: FdContext, evs: Mask)
      requires ctx.Show().Valid()
      modifies this`pending, this`scheduled, ctx
      ensures var (row, out) := EventTable.TriggerEach(old(ctx.Show()), evs);
        ctx.Show() == row && scheduled == old(scheduled) + out && pending == old(pending) - |out|
    {
      TriggerIf(ctx, evs.read, READ);
      TriggerIf(ctx, evs.write, WRITE);
    }

    /** cancelAll: it succeeds exactly on a context with an armed event whose epoll_ctl does. */
    method CancelAll(fd: nat, ok: bool) returns (cancelled: bool)
      requires Valid()
      modifies this, contexts
      ensures Valid() && contexts == old(contexts)
      ensures cancelled <==>
        ok && fd < |contexts| && old(contexts[fd].events.read || contexts[fd].events.write)
      ensures View() == EventTable.CancelAll(old(View()), fd, ok).0
      ensures scheduled == old(scheduled) + EventTable.CancelAll(old(View()), fd, ok).1
    {
      CancelAllEffect(View(), fd, ok);
      ValidIsIndexed();
      if fd >= |contexts| {
        return false;
      }
      RowAt(fd);
      hide Inv, EventTable.Valid, EventTable.CancelAll;
      cancelled := ReleaseAll(fd, ok);
    }

    lemma KernelHas(fd: nat)
      requires EventTable.Valid(View()) && fd < |contexts| && Rows()[fd].events != NONE
      ensures fd in kernel
    {
    }

    /** cancelAll once the context is found; its last assertion holds. */
    method ReleaseAll(fd: nat, ok: bool) returns (cancelled: bool)
      requires Indexed() && EventTable.Valid(View()) && fd < |contexts|
      requires Rows()[fd] == contexts[fd].Show() && contexts[fd].Show().Valid()
      modifies this`kernel, this`pending, this`scheduled, contexts[fd]
      ensures contexts == old(contexts)
      ensures cancelled <==> ok && old(contexts[fd].events.read || contexts[fd].events.write)
      ensures View() == EventTable.CancelAll(old(View()), fd, ok).0
      ensures scheduled == old(scheduled) + EventTable.CancelAll(old(View()), fd, ok).1
    {
      hide EventTable.Valid, EventTable.TriggerEach;
      var ctx := contexts[fd];
      if ctx.events == NONE {
        return false;
      }
      var (kernel', done) := EpollCtl(kernel, DEL, fd, NONE, ok);
      assert done <==> ok by { KernelHas(fd); }
      if !done {
        return false;
      }
      TriggerEachEffect(ctx.Show(), Mask(true, true));
      TakeOff(fd, Mask(true, true), kernel');
      assert ctx.Show().events == NONE;
      return true;
    }

    /** After epoll_ctl: trigger what is armed of `evs` on one context. */
    method TakeOff(fd: nat, evs: Mask, kernel': map<nat, Mask>)
      requires Indexed() && fd < |contexts| && contexts[fd].Show().Valid()
      modifies this`kernel, this`pending, this`scheduled, contexts[fd]
      ensures contexts == old(contexts)
      ensures var (row, out) := EventTable.TriggerEach(old(contexts[fd].Show()), evs);
        && View() == Table(old(Rows())[fd := row], kernel', old(pending) - |out|) && contexts[fd].Show() == row
        && scheduled == old(scheduled) + out
    {
      kernel := kernel';
      TriggerEach(contexts[fd], evs);
      RowChanged(fd);
    }

    /** One turn of the dispatch loop; `aborted` when triggerEvent's assertion fails. READ leaves
        the context, and its continuation goes to the scheduler, exactly if it is armed, EPOLLIN,
        an error or a hang-up is reported, and epoll_ctl succeeds; WRITE likewise. */
    method DispatchOne(report: Report, ok: bool) returns (aborted: bool)
      requires Valid() && (report.Ready? ==> report.fd < |contexts|)
      modifies this, contexts
      ensures contexts == old(contexts)
      ensures aborted <==> EventTable.DispatchOne(old(View()), report, ok).AssertionFailed?
      ensures !aborted ==> Valid()
      ensures !aborted ==> View() == EventTable.DispatchOne(old(View()), report, ok).table
      ensures !aborted ==> scheduled == old(scheduled) + EventTable.DispatchOne(old(View()), report, ok).released
      ensures aborted <==>
        && ok && report.Ready? && ((report.input && report.output) || report.errorOrHangup)
        && old(contexts[report.fd].events.read) != old(contexts[report.fd].events.write)
      ensures !aborted && report.Ready? ==>
        && (contexts[report.fd].events.read
            <==> old(contexts[report.fd].events.read) && !(ok && (report.input || report.errorOrHangup)))
        && (contexts[report.fd].events.write
            <==> old(contexts[report.fd].events.write) && !(ok && (report.output || report.errorOrHangup)))
      ensures !aborted ==> scheduled == old(scheduled) + ReleasedByOne(old(View()), report, ok)
    {
      if report.Tickle? {
        return false;
      }
      ValidIsIndexed();
      RowAt(report.fd);
      KeepsInv(View(), report, ok);
      OneTurn(View(), report, ok);
      hide Inv, EventTable.Valid, EventTable.DispatchOne, ReleasedByOne;
      aborted := DispatchReady(report, ok);
      assert !aborted ==> Rows()[report.fd] == contexts[report.fd].Show();
    }

    lemma OneTurn(t: Table, report: Report, ok: bool)
      requires EventTable.Valid(t) && report.Ready? && report.fd < |t.rows|
      ensures EventTable.DispatchOne(t, report, ok).AssertionFailed? <==> Trips(t, report, ok)
      ensures !Trips(t, report, ok) ==>
        && EventTable.DispatchOne(t, report, ok).released == ReleasedByOne(t, report, ok)
        && report.fd < |EventTable.DispatchOne(t, report, ok).table.rows|
        && var row, left := t.rows[report.fd], EventTable.DispatchOne(t, report, ok).table.rows[report.fd].events;
        && (left.read <==> row.events.read && !(ok && (report.input || report.errorOrHangup)))
        && (left.write <==> row.events.write && !(ok && (report.output || report.errorOrHangup)))
    {
      DispatchAborts(t, report, ok);
      if !Trips(t, report, ok) {
        FirstReleases(t, report, ok);
        DispatchOneExactly(t, report, ok);
      }
      hide EventTable.Valid, EventTable.DispatchOne, ReleasedByOne;
    }

    lemma KeepsInv(t: Table, report: Report, ok: bool)
      requires Inv(t) && (report.Ready? ==> report.fd < |t.rows|)
      ensures EventTable.DispatchOne(t, report, ok).Running? ==> Inv(EventTable.DispatchOne(t, report, ok).table)
    {
      if EventTable.DispatchOne(t, report, ok).Running? { DispatchOneEffect(t, report, ok); }
    }

    method DispatchReady(report: Report, ok: bool) returns (aborted: bool)
      requires Indexed() && EventTable.Valid(View()) && report.Ready? && report.fd < |contexts|
      requires Rows()[report.fd] == contexts[report.fd].Show() && contexts[report.fd].Show().Valid()
      modifies this`kernel, this`pending, this`scheduled, contexts[report.fd]
      ensures contexts == old(contexts)
      ensures aborted <==> EventTable.DispatchOne(old(View()), report, ok).AssertionFailed?
      ensures !aborted ==> View() == EventTable.DispatchOne(old(View()), report, ok).table
      ensures !aborted ==> scheduled == old(scheduled) + EventTable.DispatchOne(old(View()), report, ok).released
    {
      hide EventTable.Valid, EventTable.TriggerEach;
      var ctx, hit := contexts[report.fd], report.Events();
      if !ctx.events.Meets(hit) {
        return false;
      }
      var left := ctx.events.Minus(hit);
      var op := if left != NONE then MOD else DEL;
      var (kernel', done) := EpollCtl(kernel, op, ctx.fd, left, ok);
      if !done {
        return false;
      }
      if !hit.Within(ctx.events) {
        return true;
      }
      TakeOff(report.fd, hit, kernel');
      return false;
    }

    lemma SoundView()
      requires Valid()
      ensures EventTable.Valid(View())
    {
    }

    /** The loop stands before entry i of a dispatch whose result is d. */
    ghost predicate Doing(before: seq<Task>, d: Dispatched, reports: seq<Report>, oks: seq<bool>, i: nat)
      reads this, contexts
    {
      && Valid() && EventTable.Valid(View()) && i <= |reports| == |oks| && before <= scheduled
      && (forall r <- reports[i..] :: r.Ready? ==> r.fd < |View().rows|)
      && d == Since(scheduled[|before|..], DispatchAll(View(), reports[i..], oks[i..]))
    }

    lemma DoingStarts(reports: seq<Report>, oks: seq<bool>)
      requires Valid() && |oks| == |reports| && forall r <- reports :: r.Ready? ==> r.fd < |View().rows|
      ensures EventTable.Valid(View()) && Doing(scheduled, DispatchAll(View(), reports, oks), reports, oks, 0)
    {
      SoundView();
      assert reports[0..] == reports && oks[0..] == oks && scheduled[|scheduled|..] == [];
      var d := DispatchAll(View(), reports, oks);
      if d.Running? { assert [] + d.released == d.released; }
      hide Inv, EventTable.Valid, DispatchAll;
    }

    lemma DoingEnds(before: seq<Task>, d: Dispatched, reports: seq<Report>, oks: seq<bool>)
      requires Doing(before, d, reports, oks, |reports|)
      ensures d == Running(View(), scheduled[|before|..]) && scheduled == before + scheduled[|before|..]
    {
      assert reports[|reports|..] == [];
      assert scheduled[|before|..] + [] == scheduled[|before|..];
      hide Inv, EventTable.Valid;
    }

    /** One entry. */
    method Turn(reports: seq<Report>, oks: seq<bool>, i: nat, ghost before: seq<Task>, ghost d: Dispatched)
      returns (aborted: bool)
      requires Doing(before, d, reports, oks, i) && i < |reports|
      modifies this, contexts
      ensures contexts == old(contexts)
      ensures aborted ==> d.AssertionFailed?
      ensures !aborted ==> Doing(before, d, reports, oks, i + 1)
    {
      ghost var t, was := View(), scheduled;
      ghost var one := EventTable.DispatchOne(t, reports[i], oks[i]);
      Unrolled(t, reports, oks, i, scheduled[|before|..]);
      hide Inv, EventTable.Valid, DispatchAll, EventTable.DispatchOne, Rows;
      aborted := DispatchOne(reports[i], oks[i]);
      if !aborted {
        assert scheduled[|before|..] == was[|before|..] + one.released;
      }
    }

    /** The dispatch loop over the entries that epoll_wait filled in. */
    method DispatchLoop(reports: seq<Report>, oks: seq<bool>) returns (aborted: bool)
      requires Valid() && |oks| == |reports| && forall r <- reports :: r.Ready? ==> r.fd < |View().rows|
      modifies this, contexts
      ensures contexts == old(contexts) && EventTable.Valid(old(View()))
      ensures aborted <==> DispatchAll(old(View()), reports, oks).AssertionFailed?
      ensures !aborted ==> Valid() && View() == DispatchAll(old(View()), reports, oks).table
      ensures !aborted ==> scheduled == old(scheduled) + DispatchAll(old(View()), reports, oks).released
    {
      DoingStarts(reports, oks);
      ghost var before, d := scheduled, DispatchAll(View(), reports, oks);
      var i := 0;
      aborted := false;
      hide Inv, EventTable.Valid, DispatchAll, Rows, Since;
      while i < |reports|
        invariant 0 <= i <= |reports| && contexts == old(contexts) && Doing(before, d, reports, oks, i)
      {
        aborted := Turn(reports, oks, i, before, d);
        if aborted {
          return true;
        }
        i := i + 1;
      }
      DoingEnds(before, d, reports, oks);
    }

    /** The same, for one entry per fd as epoll_wait fills them in: it aborts exactly if some entry
        trips the assertion; else it releases what the contexts held before it, and takes off
        each reported fd the events that are reported (all, for an error or a hang-up) and whose
        epoll_ctl succeeds. */
    method Dispatch(reports: seq<Report>, oks: seq<bool>) returns (aborted: bool)
      requires Valid() && |oks| == |reports| && Known(View(), reports) && OnceEach(reports)
      modifies this, contexts
      ensures contexts == old(contexts) && EventTable.Valid(old(View()))
      ensures aborted <==> DispatchAll(old(View()), reports, oks).AssertionFailed?
      ensures !aborted ==> Valid() && View() == DispatchAll(old(View()), reports, oks).table
      ensures aborted <==> exists i :: 0 <= i < |reports| && Trips(old(View()), reports[i], oks[i])
      ensures !aborted ==> scheduled == old(scheduled) + ReleasedBy(old(View()), reports, oks)
      ensures !aborted ==> forall i :: 0 <= i < |reports| && reports[i].Ready? ==>
        Answered(old(View().rows), View().rows, reports[i], oks[i])
    {
      SoundView();
      WholeLoop(View(), reports, oks);
      hide Inv, EventTable.Valid, DispatchAll, Rows, Trips, ReleasedBy, Answered, OnceEach;
      aborted := DispatchLoop(reports, oks);
    }
  }

  /** Between `rows` and `rows'` an event has left the context that the entry is about exactly if
      it was armed, the entry reports it, an error or a hang-up, and epoll_ctl succeeded. */
  predicate Answered(rows: seq<Row>, rows': seq<Row>, report: Report, ok: bool)
    requires report.Ready?
  {
    && report.fd < |rows| == |rows'|
    && var armed, left := rows[report.fd].events, rows'[report.fd].events;
    && (left.read <==> armed.read && !(ok && (report.input || report.errorOrHangup)))
    && (left.write <==> armed.write && !(ok && (report.output || report.errorOrHangup)))
  }

  lemma WholeLoop(t: Table, reports: seq<Report>, oks: seq<bool>)
    requires Inv(t) && |oks| == |reports| && Known(t, reports) && OnceEach(reports)
    ensures DispatchAll(t, reports, oks).AssertionFailed?
      <==> exists i :: 0 <= i < |reports| && Trips(t, reports[i], oks[i])
    ensures var d := DispatchAll(t, reports, oks);
      d.Running? ==>
        && d.released == ReleasedBy(t, reports, oks)
        && forall i :: 0 <= i < |reports| && reports[i].Ready? ==> Answered(t.rows, d.table.rows, reports[i], oks[i])
  {
    DispatchAbortsExactly(t, reports, oks);
    if Harmless(t, reports, oks) {
      DispatchReleases(t, reports, oks);
      forall i | 0 <= i < |reports| && reports[i].Ready?
        ensures Answered(t.rows, DispatchAll(t, reports, oks).table.rows, reports[i], oks[i])
      {
        DispatchTakes(t, reports, oks, i);
      }
    }
    hide Inv, DispatchAll, Trips, ReleasedBy, Armed, Answered;
  }

  /** The rest of a dispatch, after `done` has been released. */
  function Since(done: seq<Task>, d: Dispatched): Dispatched {
    match d
    case AssertionFailed => AssertionFailed
    case Running(t, out) => Running(t, done + out)
  }

  lemma Unrolled(t: Table, reports: seq<Report>, oks: seq<bool>, i: nat, done: seq<Task>)
    requires EventTable.Valid(t) && |oks| == |reports| && i < |reports|
    requires forall r <- reports[i..] :: r.Ready? ==> r.fd < |t.rows|
    ensures reports[i].Ready? ==> reports[i].fd < |t.rows|
    ensures forall r <- reports[i + 1..] :: r.Ready? ==> r.fd < |t.rows|
    ensures var d := EventTable.DispatchOne(t, reports[i], oks[i]);
      if d.Running? then
        && EventTable.Valid(d.table) && |d.table.rows| == |t.rows|
        && Since(done, DispatchAll(t, reports[i..], oks[i..]))
           == Since(done + d.released, DispatchAll(d.table, reports[i + 1..], oks[i + 1..]))
      else
        DispatchAll(t, reports[i..], oks[i..]).AssertionFailed?
  {
    var rest := reports[i..];
    assert rest[0] == reports[i] && rest[0] in rest && rest[1..] == reports[i + 1..] && oks[i..][1..] == oks[i + 1..];
    assert forall r <- reports[i + 1..] :: r in rest;
    var d := EventTable.DispatchOne(t, reports[i], oks[i]);
    if d.Running? {
      DispatchKeepsValid(t, reports[i], oks[i]);
      match DispatchAll(d.table, reports[i + 1..], oks[i + 1..])
      case AssertionFailed =>
      case Running(_, out) => assert done + (d.released + out) == done + d.released + out;
    }
  }
}
