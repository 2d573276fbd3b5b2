/** What IOManager's event operations do, as functions on values: the fd contexts,
    the interest masks the kernel's epoll instance holds, and the pending counter.
    Every function takes the branches of its C++ counterpart in order; the epoll_ctl
    results that do not follow from the kernel's own table come in as `ok`. */
module EventTable {
  import opened Base
  import opened Sums

  /** FdContext::EventContext; `bound` says that `scheduler` is not null. */
  datatype Slot = Slot(bound: bool, fiber: Option<FiberId>, cb: Option<Callback>) {
    /** A bound slot holds exactly one continuation. */
    predicate Occupied() {
      bound && (fiber.Some? <==> cb.None?)
    }

    /** The continuation that triggerEvent would hand to the scheduler. */
    function Task(): Task
      requires Occupied()
    {
      if cb.Some? then Call(cb.value) else Resume(fiber.value)
    }
  }

  const EMPTY := Slot(false, None, None)

  function Bind(task: Task): (s: Slot)
    ensures s.Occupied() && s.Task() == task
  {
    match task
    case Resume(f) => Slot(true, Some(f), None)
    case Call(cb) => Slot(true, None, Some(cb))
  }

  /** FdContext. */
  datatype Row = Row(fd: nat, events: Mask, read: Slot, write: Slot) {
    function Get(ev: Event): Slot {
      match ev case READ => read case WRITE => write
    }

    function Put(ev: Event, slot: Slot): Row {
      match ev case READ => this.(read := slot) case WRITE => this.(write := slot)
    }

    /** A slot is occupied while its bit is armed, and wholly empty otherwise. */
    predicate Valid() {
      Matches(READ) && Matches(WRITE)
    }

    predicate Matches(ev: Event) {
      if events.Has(ev) then Get(ev).Occupied() else Get(ev) == EMPTY
    }
  }

  datatype Table = Table(rows: seq<Row>, kernel: map<nat, Mask>, pending: int)

  datatype Ctl = ADD | MOD | DEL

  /** epoll_ctl: ADD of a registered fd and MOD or DEL of an unregistered one are
      refused by the kernel; `ok` is false for any other failure. */
  function EpollCtl(kernel: map<nat, Mask>, op: Ctl, fd: nat, mask: Mask, ok: bool)
    : (r: (map<nat, Mask>, bool))
  {
    if !ok || (op == ADD <==> fd in kernel) then (kernel, false)
    else if op == DEL then (kernel - {fd}, true)
    else (kernel[fd := mask], true)
  }

  function Fresh(fd: nat): Row {
    Row(fd, NONE, EMPTY, EMPTY)
  }

  /** contextResize: `resize` truncates or extends; new positions get a new context. */
  function Resize(rows: seq<Row>, size: nat): seq<Row> {
    if size <= |rows| then rows[..size]
    else rows + seq(size - |rows|, i requires 0 <= i < size - |rows| => Fresh(|rows| + i))
  }

  /** The vector addEvent works on: grown to 1.5 times the fd when that is out of range. */
  function RowsFor(rows: seq<Row>, fd: nat): seq<Row> {
    if fd < |rows| then rows else Resize(rows, fd * 3 / 2)
  }

  /** addEvent once the context is found. */
  function Arm(t: Table, fd: nat, ev: Event, task: Task, ok: bool): (Table, bool)
    requires fd < |t.rows|
  {
    var row := t.rows[fd];
    var (kernel, done) := EpollCtl(t.kernel, if row.events != NONE then MOD else ADD, fd, row.events.With(ev), ok);
    if !done then (t, false)
    else
      var row' := row.(events := row.events.With(ev)).Put(ev, Bind(task));
      (Table(t.rows[fd := row'], kernel, t.pending + 1), true)
  }

  function AddEvent(t: Table, fd: nat, ev: Event, task: Task, ok: bool): (Table, bool)
    requires |t.rows| >= 2
  {
    Arm(t.(rows := RowsFor(t.rows, fd)), fd, ev, task, ok)
  }

  function DelEvent(t: Table, fd: nat, ev: Event, ok: bool): (Table, bool) {
    if fd >= |t.rows| || !t.rows[fd].events.Has(ev) then (t, false)
    else
      var left := t.rows[fd].events.Without(ev);
      var (kernel, done) := EpollCtl(t.kernel, if left != NONE then MOD else DEL, fd, left, ok);
      if !done then (t, false)
      else
        var row := t.rows[fd].(events := left).Put(ev, EMPTY);
        (Table(t.rows[fd := row], kernel, t.pending - 1), true)
  }

  /** triggerEvent on one context: the bit is cleared and the slot is moved out. */
  function Trigger(row: Row, ev: Event): (Row, Task)
    requires row.Get(ev).Occupied()
  {
    (row.(events := row.events.Without(ev)).Put(ev, EMPTY), row.Get(ev).Task())
  }

  /** cancelEvent: the result, and the continuations it appended to the run queue. */
  function CancelEvent(t: Table, fd: nat, ev: Event, ok: bool): (Table, seq<Task>)
    requires Valid(t)
  {
    if fd >= |t.rows| || !t.rows[fd].events.Has(ev) then (t, [])
    else
      var left := t.rows[fd].events.Without(ev);
      var (kernel, done) := EpollCtl(t.kernel, if left != NONE then MOD else DEL, fd, left, ok);
      if !done then (t, [])
      else
        var (row, task) := Trigger(t.rows[fd], ev);
        (Table(t.rows[fd := row], kernel, t.pending - 1), [task])
  }

  function TriggerIf(row: Row, evs: Mask, ev: Event): (Row, seq<Task>)
    requires row.Valid()
  {
    if evs.Has(ev) && row.events.Has(ev) then
      var (row', task) := Trigger(row, ev); (row', [task])
    else (row, [])
  }

  /** Trigger the events of `evs` that are armed, READ before WRITE. */
  function TriggerEach(row: Row, evs: Mask): (Row, seq<Task>)
    requires row.Valid()
  {
    var (row1, out1) := TriggerIf(row, evs, READ);
    var (row2, out2) := TriggerIf(row1, evs, WRITE);
    (row2, out1 + out2)
  }

  function CancelAll(t: Table, fd: nat, ok: bool): (Table, seq<Task>)
    requires Valid(t)
  {
    if fd >= |t.rows| || t.rows[fd].events == NONE then (t, [])
    else
      var (kernel, done) := EpollCtl(t.kernel, DEL, fd, NONE, ok);
      if !done then (t, [])
      else
        var (row, tasks) := TriggerEach(t.rows[fd], Mask(true, true));
        (Table(t.rows[fd := row], kernel, t.pending - |tasks|), tasks)
  }

  /** One element of the array epoll_wait filled. */
  datatype Report = Tickle | Ready(fd: nat, input: bool, output: bool, errorOrHangup: bool) {
    /** The events the loop acts on: an error or a hang-up counts as both. */
    function Events(): Mask
      requires Ready?
    {
      Mask(input || errorOrHangup, output || errorOrHangup)
    }
  }

  datatype Dispatched = Running(table: Table, released: seq<Task>) | AssertionFailed

  /** One turn of the dispatch loop. triggerEvent asserts that its bit is armed, so a
      report that is wider than the armed set ends the process. */
  function DispatchOne(t: Table, report: Report, ok: bool): Dispatched
    requires Valid(t)
    requires report.Ready? ==> report.fd < |t.rows|
  {
    if report.Tickle? then Running(t, [])
    else
      var row := t.rows[report.fd];
      var hit := report.Events();
      if !row.events.Meets(hit) then Running(t, [])
      else
        var left := row.events.Minus(hit);
        var (kernel, done) := EpollCtl(t.kernel, if left != NONE then MOD else DEL, report.fd, left, ok);
        if !done then Running(t, [])
        else if !hit.Within(row.events) then AssertionFailed
        else
          var (row', tasks) := TriggerEach(row, hit);
          Running(Table(t.rows[report.fd := row'], kernel, t.pending - |tasks|), tasks)
  }

  // ----- The invariant -----

  ghost function RowTasks(row: Row): multiset<Task> {
    SlotTasks(row.read) + SlotTasks(row.write)
  }

  ghost function SlotTasks(slot: Slot): multiset<Task> {
    if slot.Occupied() then multiset{slot.Task()} else multiset{}
  }

  /** Every continuation that is waiting in an armed slot. */
  ghost function Armed(t: Table): multiset<Task> {
    Gather(t.rows, RowTasks)
  }

  ghost function RowBits(row: Row): multiset<Event> {
    (if row.events.read then multiset{READ} else multiset{}) +
    (if row.events.write then multiset{WRITE} else multiset{})
  }

  ghost function Bits(t: Table): multiset<Event> {
    Gather(t.rows, RowBits)
  }

  predicate RowsValid(rows: seq<Row>) {
    && |rows| >= 2
    && (forall i :: 0 <= i < |rows| ==> rows[i].fd == i && rows[i].Valid())
  }

  /** The kernel's mask of every fd is its `events`, and absent exactly when that is NONE. */
  predicate KernelAgrees(rows: seq<Row>, kernel: map<nat, Mask>) {
    && (forall fd | fd in kernel :: fd < |rows| && rows[fd].events != NONE)
    && (forall fd :: 0 <= fd < |rows| && rows[fd].events != NONE ==> fd in kernel && kernel[fd] == rows[fd].events)
  }

  ghost predicate Counted(t: Table) {
    t.pending == |Bits(t)|
  }

  predicate Valid(t: Table) {
    RowsValid(t.rows) && KernelAgrees(t.rows, t.kernel)
  }

  ghost predicate Inv(t: Table) {
    Valid(t) && Counted(t)
  }

  // ----- Changing one row -----

  /** Two kernel maps that differ at most on one fd. */
  predicate SameElsewhere(k: map<nat, Mask>, k': map<nat, Mask>, fd: nat) {
    && (forall g | g in k :: g != fd ==> g in k' && k'[g] == k[g])
    && (forall g | g in k' :: g != fd ==> g in k)
  }

  lemma SetRowKernel(t: Table, fd: nat, row: Row, kernel: map<nat, Mask>)
    requires Valid(t) && fd < |t.rows|
    requires row.fd == fd && row.Valid()
    requires SameElsewhere(t.kernel, kernel, fd)
    requires if row.events != NONE then fd in kernel && kernel[fd] == row.events else fd !in kernel
    ensures Valid(Table(t.rows[fd := row], kernel, t.pending))
  {
    var rows := t.rows[fd := row];
    assert RowsValid(rows);
    forall g | 0 <= g < |rows| && rows[g].events != NONE
      ensures g in kernel && kernel[g] == rows[g].events
    {
      if g != fd { assert g in t.kernel; }
    }
  }

  lemma SetRowCount(t: Table, fd: nat, row: Row)
    requires fd < |t.rows|
    ensures |Gather(t.rows[fd := row], RowBits)| + t.rows[fd].events.Size() == |Bits(t)| + row.events.Size()
  {
    GatherUpdate(t.rows, fd, row, RowBits);
    assert |Gather(t.rows[fd := row], RowBits) + RowBits(t.rows[fd])| == |Bits(t) + RowBits(row)|;
  }

  /** Replace a row after a successful epoll_ctl: the invariant survives, and the
      armed continuations change by those of that row. */
  lemma SetRow(t: Table, fd: nat, row: Row, op: Ctl, pending: int, gained: multiset<Task>, lost: multiset<Task>)
    requires Inv(t) && fd < |t.rows|
    requires RowTasks(row) + lost == RowTasks(t.rows[fd]) + gained
    requires row.fd == fd && row.Valid()
    requires op == ADD <==> t.rows[fd].events == NONE
    requires op == DEL <==> row.events == NONE
    requires pending == t.pending + row.events.Size() - t.rows[fd].events.Size()
    ensures EpollCtl(t.kernel, op, fd, row.events, true).1
    ensures var t' := Table(t.rows[fd := row], EpollCtl(t.kernel, op, fd, row.events, true).0, pending);
      Inv(t') && Armed(t') + lost == Armed(t) + gained
  {
    var kernel := EpollCtl(t.kernel, op, fd, row.events, true).0;
    KernelAfter(t, fd, row, op);
    SetRowInv(t, fd, row, kernel, pending);
    SetRowArmed(t, fd, row, kernel, pending, gained, lost);
    hide *;
  }

  lemma SetRowInv(t: Table, fd: nat, row: Row, kernel: map<nat, Mask>, pending: int)
    requires Inv(t) && fd < |t.rows| && row.fd == fd && row.Valid()
    requires SameElsewhere(t.kernel, kernel, fd)
    requires if row.events != NONE then fd in kernel && kernel[fd] == row.events else fd !in kernel
    requires pending == t.pending + row.events.Size() - t.rows[fd].events.Size()
    ensures Inv(Table(t.rows[fd := row], kernel, pending))
  {
    SetRowKernel(t, fd, row, kernel);
    SetRowCount(t, fd, row);
    hide Valid, RowBits, Gather;
  }

  lemma SetRowArmed(t: Table, fd: nat, row: Row, kernel: map<nat, Mask>, pending: int,
                    gained: multiset<Task>, lost: multiset<Task>)
    requires fd < |t.rows| && RowTasks(row) + lost == RowTasks(t.rows[fd]) + gained
    ensures Armed(Table(t.rows[fd := row], kernel, pending)) + lost == Armed(t) + gained
  {
    GatherShift(t.rows, fd, row, RowTasks, gained, lost);
    hide RowTasks, Gather;
  }

  lemma KernelAfter(t: Table, fd: nat, row: Row, op: Ctl)
    requires Valid(t) && fd < |t.rows|
    requires op == ADD <==> t.rows[fd].events == NONE
    requires op == DEL <==> row.events == NONE
    ensures var (kernel, done) := EpollCtl(t.kernel, op, fd, row.events, true);
      && done && SameElsewhere(t.kernel, kernel, fd)
      && if row.events != NONE then fd in kernel && kernel[fd] == row.events else fd !in kernel
  {
  }

  // ----- addEvent -----

  lemma GrownRows(rows: seq<Row>, fd: nat)
    requires RowsValid(rows)
    ensures var rows' := RowsFor(rows, fd);
      && fd < |rows'| && RowsValid(rows') && rows <= rows'
      && (forall i :: |rows| <= i < |rows'| ==> rows'[i] == Fresh(i))
  {
    var rows' := RowsFor(rows, fd);
    forall i | 0 <= i < |rows'| ensures rows'[i].fd == i && rows'[i].Valid() {
      assert rows'[i] == if i < |rows| then rows[i] else Fresh(i);
    }
  }

  lemma GatherGrown<X>(rows: seq<Row>, rows': seq<Row>, f: Row -> multiset<X>)
    requires rows <= rows'
    requires forall i :: |rows| <= i < |rows'| ==> f(rows'[i]) == multiset{}
    ensures Gather(rows', f) == Gather(rows, f)
  {
    var added := rows'[|rows|..];
    assert rows' == rows + added;
    GatherNone(added, f);
    GatherAppend(rows, added, f);
  }

  /** Growing the vector arms nothing and keeps the invariant. */
  lemma GrowKeeps(t: Table, fd: nat)
    requires Inv(t)
    ensures fd < |RowsFor(t.rows, fd)|
    ensures Inv(t.(rows := RowsFor(t.rows, fd)))
    ensures Armed(t.(rows := RowsFor(t.rows, fd))) == Armed(t)
  {
    GrownRows(t.rows, fd);
    GrownGathers(t.rows, fd);
    GrownKernel(t, RowsFor(t.rows, fd));
    hide RowsFor, RowsValid, KernelAgrees;
  }

  lemma GrownGathers(rows: seq<Row>, fd: nat)
    requires RowsValid(rows)
    ensures Gather(RowsFor(rows, fd), RowTasks) == Gather(rows, RowTasks)
    ensures Gather(RowsFor(rows, fd), RowBits) == Gather(rows, RowBits)
  {
    GrownRows(rows, fd);
    GatherGrown(rows, RowsFor(rows, fd), RowTasks);
    GatherGrown(rows, RowsFor(rows, fd), RowBits);
    hide RowsFor, RowsValid;
  }

  lemma GrownKernel(t: Table, rows: seq<Row>)
    requires KernelAgrees(t.rows, t.kernel) && t.rows <= rows
    requires forall i :: |t.rows| <= i < |rows| ==> rows[i] == Fresh(i)
    ensures KernelAgrees(rows, t.kernel)
  {
  }

  predicate CanAdd(t: Table, fd: nat, ev: Event) {
    fd < |t.rows| ==> !t.rows[fd].events.Has(ev)
  }

  lemma ArmEffect(t: Table, fd: nat, ev: Event, task: Task, ok: bool)
    requires Inv(t) && fd < |t.rows| && !t.rows[fd].events.Has(ev)
    ensures var (t', added) := Arm(t, fd, ev, task, ok);
      && Inv(t') && added == ok && |t'.rows| == |t.rows|
      && Armed(t') == Armed(t) + (if ok then multiset{task} else multiset{})
      && (ok ==> t'.rows[fd].events.Has(ev) && t'.rows[fd].Get(ev) == Bind(task))
  {
    if ok {
      ArmedRow(t, fd, ev, task);
      hide Inv, Armed;
    }
  }

  lemma ArmedRow(t: Table, fd: nat, ev: Event, task: Task)
    requires Inv(t) && fd < |t.rows| && !t.rows[fd].events.Has(ev)
    ensures var row := t.rows[fd];
      var row', op := row.(events := row.events.With(ev)).Put(ev, Bind(task)), if row.events != NONE then MOD else ADD;
      var (kernel, done) := EpollCtl(t.kernel, op, fd, row.events.With(ev), true);
      var t' := Table(t.rows[fd := row'], kernel, t.pending + 1);
      done && Inv(t') && Armed(t') == Armed(t) + multiset{task}
  {
    var row := t.rows[fd];
    AddBit(row, ev, task);
    var row' := row.(events := row.events.With(ev)).Put(ev, Bind(task));
    SetRow(t, fd, row', if row.events != NONE then MOD else ADD, t.pending + 1, multiset{task}, multiset{});
    hide Inv, Armed, RowTasks;
  }

  /** addEvent on an event that is not armed: it fails exactly when the kernel does,
      and then arms nothing; otherwise the continuation is held by its slot, which was
      empty. The invariant survives both. */
  lemma AddEventEffect(t: Table, fd: nat, ev: Event, task: Task, ok: bool)
    requires Inv(t) && CanAdd(t, fd, ev)
    ensures fd < |RowsFor(t.rows, fd)| && RowsFor(t.rows, fd)[fd].Get(ev) == EMPTY
    ensures var (t', added) := AddEvent(t, fd, ev, task, ok);
      && Inv(t') && added == ok && fd < |t'.rows|
      && Armed(t') == Armed(t) + (if ok then multiset{task} else multiset{})
      && (ok ==> t'.rows[fd].events.Has(ev) && t'.rows[fd].Get(ev) == Bind(task))
  {
    GrowKeeps(t, fd);
    GrownRows(t.rows, fd);
    ArmEffect(t.(rows := RowsFor(t.rows, fd)), fd, ev, task, ok);
  }

  lemma AddBit(row: Row, ev: Event, task: Task)
    requires row.Valid() && !row.events.Has(ev)
    ensures row.Get(ev) == EMPTY
    ensures var row' := row.(events := row.events.With(ev)).Put(ev, Bind(task));
      row'.Valid() && row'.events.Size() == row.events.Size() + 1 && RowTasks(row') == RowTasks(row) + multiset{task}
  {
  }

  // ----- delEvent, cancelEvent, cancelAll -----

  lemma ClearBit(row: Row, ev: Event)
    requires row.Valid() && row.events.Has(ev)
    ensures var row' := row.(events := row.events.Without(ev)).Put(ev, EMPTY);
      && row'.Valid() && row'.events.Size() == row.events.Size() - 1
      && RowTasks(row) == RowTasks(row') + multiset{row.Get(ev).Task()}
  {
  }

  predicate IsArmed(t: Table, fd: nat, ev: Event) {
    fd < |t.rows| && t.rows[fd].events.Has(ev)
  }

  /** delEvent succeeds exactly on an armed event whose epoll_ctl succeeds; the
      continuation then leaves the table and goes nowhere. */
  lemma DelEventEffect(t: Table, fd: nat, ev: Event, ok: bool)
    requires Inv(t)
    ensures var (t', deleted) := DelEvent(t, fd, ev, ok);
      && Inv(t') && deleted == (ok && IsArmed(t, fd, ev))
      && (deleted ==> Armed(t) == Armed(t') + multiset{t.rows[fd].Get(ev).Task()} && !IsArmed(t', fd, ev))
      && (!deleted ==> t' == t)
  {
    if IsArmed(t, fd, ev) && ok {
      ClearBit(t.rows[fd], ev);
      var row := t.rows[fd].(events := t.rows[fd].events.Without(ev)).Put(ev, EMPTY);
      Lost(t, fd, row, if row.events != NONE then MOD else DEL, multiset{t.rows[fd].Get(ev).Task()}, t.pending - 1);
    }
  }

  /** cancelEvent succeeds exactly when delEvent would, and moves the continuation
      to the run queue. */
  lemma CancelEventEffect(t: Table, fd: nat, ev: Event, ok: bool)
    requires Inv(t)
    ensures var (t', out) := CancelEvent(t, fd, ev, ok);
      && Inv(t') && Armed(t) == Armed(t') + multiset(out)
      && t' == DelEvent(t, fd, ev, ok).0
      && out == if ok && IsArmed(t, fd, ev) then [t.rows[fd].Get(ev).Task()] else []
  {
    DelEventEffect(t, fd, ev, ok);
  }

  lemma TriggerIfEffect(row: Row, evs: Mask, ev: Event)
    requires row.Valid()
    ensures var (row', out) := TriggerIf(row, evs, ev);
      && row'.Valid() && row'.fd == row.fd
      && row'.events == (if evs.Has(ev) then row.events.Without(ev) else row.events)
      && RowTasks(row) == RowTasks(row') + multiset(out)
      && row'.events.Size() == row.events.Size() - |out|
  {
    if evs.Has(ev) && row.events.Has(ev) {
      ClearBit(row, ev);
    }
  }

  lemma TriggerEachEffect(row: Row, evs: Mask)
    requires row.Valid()
    ensures var (row', out) := TriggerEach(row, evs);
      && row'.Valid() && row'.fd == row.fd && row'.events == row.events.Minus(evs)
      && RowTasks(row) == RowTasks(row') + multiset(out)
      && row'.events.Size() == row.events.Size() - |out|
  {
    hide RowTasks;
    TriggerIfEffect(row, evs, READ);
    var (row1, out1) := TriggerIf(row, evs, READ);
    TriggerIfEffect(row1, evs, WRITE);
    var (row2, out2) := TriggerIf(row1, evs, WRITE);
    assert multiset(out1 + out2) == multiset(out1) + multiset(out2);
  }

  /** The continuations a row gives up when `hit` is triggered, READ before WRITE. */
  function Released(row: Row, hit: Mask): seq<Task>
    requires row.Valid() && hit.Within(row.events)
  {
    (if hit.read then [row.read.Task()] else []) + (if hit.write then [row.write.Task()] else [])
  }

  /** Nothing but the row of `fd` differs. */
  predicate OnlyRow(t: Table, t': Table, fd: nat) {
    |t'.rows| == |t.rows| && forall g :: 0 <= g < |t.rows| && g != fd ==> t'.rows[g] == t.rows[g]
  }

  /** cancelAll on a fd the table knows releases this fd's armed continuations, READ before
      WRITE, and leaves its context as new; on one that is out of range, or when epoll_ctl
      fails, it does nothing. Other contexts keep what they hold. */
  lemma CancelAllEffect(t: Table, fd: nat, ok: bool)
    requires Inv(t)
    ensures var (t', out) := CancelAll(t, fd, ok);
      && Inv(t') && Armed(t) == Armed(t') + multiset(out) && OnlyRow(t, t', fd)
      && (ok && fd < |t.rows| ==> t'.rows[fd] == Fresh(fd) && out == Released(t.rows[fd], t.rows[fd].events))
      && (!ok || fd >= |t.rows| ==> t' == t && out == [])
      && (ok ==> forall ev :: !IsArmed(t', fd, ev))
  {
    if fd < |t.rows| && t.rows[fd].events != NONE && ok {
      CancelledRow(t, fd);
      CancelAllArmed(t, fd);
    } else {
      NothingCancelled(t, fd, ok);
    }
    hide *;
  }

  lemma NothingCancelled(t: Table, fd: nat, ok: bool)
    requires Valid(t) && (fd >= |t.rows| || t.rows[fd].events == NONE || !ok)
    ensures CancelAll(t, fd, ok) == (t, []) && OnlyRow(t, t, fd)
    ensures fd < |t.rows| && ok ==> t.rows[fd] == Fresh(fd) && Released(t.rows[fd], t.rows[fd].events) == []
    ensures ok ==> forall ev :: !IsArmed(t, fd, ev)
  {
  }

  lemma CancelAllArmed(t: Table, fd: nat)
    requires Inv(t) && fd < |t.rows| && t.rows[fd].events != NONE
    ensures var (t', out) := CancelAll(t, fd, true);
      Inv(t') && Armed(t) == Armed(t') + multiset(out)
  {
    CancelAllIs(t, fd);
    Emptied(t, fd);
    hide *;
  }

  /** A row that loses all it holds. */
  lemma Emptied(t: Table, fd: nat)
    requires Inv(t) && fd < |t.rows| && t.rows[fd].events != NONE
    ensures var out := Released(t.rows[fd], t.rows[fd].events);
      var t' := Table(t.rows[fd := Fresh(fd)], EpollCtl(t.kernel, DEL, fd, NONE, true).0, t.pending - |out|);
      Inv(t') && Armed(t) == Armed(t') + multiset(out)
  {
    RowIs(t, fd);
    FreshIs(fd);
    hide *;
    ReleasesAll(t.rows[fd]);
    var out := Released(t.rows[fd], t.rows[fd].events);
    Lost(t, fd, Fresh(fd), DEL, multiset(out), t.pending - |out|);
  }

  lemma RowIs(t: Table, fd: nat)
    requires Inv(t) && fd < |t.rows|
    ensures t.rows[fd].fd == fd && t.rows[fd].Valid()
  {
    hide Counted;
  }

  lemma FreshIs(fd: nat)
    ensures Fresh(fd).fd == fd && Fresh(fd).Valid() && Fresh(fd).events == NONE && Fresh(fd).events.Size() == 0
  {
  }

  lemma ReleasesAll(row: Row)
    requires row.Valid()
    ensures |Released(row, row.events)| == row.events.Size()
    ensures RowTasks(row) == RowTasks(Fresh(row.fd)) + multiset(Released(row, row.events))
  {
  }

  lemma CancelAllIs(t: Table, fd: nat)
    requires Valid(t) && fd < |t.rows| && t.rows[fd].events != NONE
    ensures var out := Released(t.rows[fd], t.rows[fd].events);
      var kernel := EpollCtl(t.kernel, DEL, fd, NONE, true).0;
      CancelAll(t, fd, true) == (Table(t.rows[fd := Fresh(fd)], kernel, t.pending - |out|), out)
  {
    TriggeredAll(t.rows[fd]);
    hide TriggerEach, Released;
  }

  /** cancelAll once epoll_ctl has succeeded. */
  lemma CancelledRow(t: Table, fd: nat)
    requires Valid(t) && fd < |t.rows| && t.rows[fd].events != NONE
    ensures var (t', out) := CancelAll(t, fd, true);
      && OnlyRow(t, t', fd) && t'.rows[fd] == Fresh(fd) && out == Released(t.rows[fd], t.rows[fd].events)
      && forall ev :: !IsArmed(t', fd, ev)
  {
    CancelAllIs(t, fd);
    hide CancelAll, Released, EpollCtl;
  }

  lemma TriggeredAll(row: Row)
    requires row.Valid()
    ensures TriggerEach(row, Mask(true, true)) == (Fresh(row.fd), Released(row, row.events))
  {
  }

  // ----- The dispatch loop -----

  /** The entry says that the fd is readable and writable, or has an error or a hang-up, while
      only one of the two events is armed, and its epoll_ctl succeeds. */
  predicate Trips(t: Table, report: Report, ok: bool)
    requires report.Ready? ==> report.fd < |t.rows|
  {
    && ok && report.Ready? && ((report.input && report.output) || report.errorOrHangup)
    && t.rows[report.fd].events.read != t.rows[report.fd].events.write
  }

  /** Exactly such an entry trips triggerEvent's assertion: it overlaps what is armed and
      reaches beyond it. */
  lemma DispatchAborts(t: Table, report: Report, ok: bool)
    requires Valid(t) && (report.Ready? ==> report.fd < |t.rows|)
    ensures DispatchOne(t, report, ok).AssertionFailed? <==> Trips(t, report, ok)
  {
  }

  /** A hang-up on a fd that is armed for READ only ends the process: widening it to
      both directions ignores what is armed. */
  lemma HangUpOnReader(reader: FiberId)
    ensures var row := Row(1, Mask(true, false), Bind(Resume(reader)), EMPTY);
      var t := Table([Fresh(0), row], map[1 := Mask(true, false)], 1);
      Inv(t) && DispatchOne(t, Ready(1, false, false, true), true) == AssertionFailed
  {
    var row := Row(1, Mask(true, false), Bind(Resume(reader)), EMPTY);
    var t := Table([Fresh(0), row], map[1 := Mask(true, false)], 1);
    assert t.rows == [Fresh(0)] + [row];
    GatherPush([Fresh(0)], row, RowBits);
    GatherOne(Fresh(0), RowBits);
  }

  lemma TriggerExact(row: Row, hit: Mask)
    requires row.Valid() && hit.Within(row.events)
    ensures TriggerEach(row, hit).1 == Released(row, hit)
  {
  }

  /** The entry changes something: its epoll_ctl succeeds and it overlaps the armed set. */
  predicate Effective(t: Table, report: Report, ok: bool)
    requires report.Ready? ==> report.fd < |t.rows|
  {
    ok && report.Ready? && t.rows[report.fd].events.Meets(report.Events())
  }

  /** What one entry does when it does not end the process: the reported bits leave the
      table and the kernel's mask, and exactly their continuations are released. */
  lemma DispatchOneEffect(t: Table, report: Report, ok: bool)
    requires Inv(t) && (report.Ready? ==> report.fd < |t.rows|)
    requires DispatchOne(t, report, ok).Running?
    ensures var Running(t', out) := DispatchOne(t, report, ok);
      && Inv(t') && |t'.rows| == |t.rows| && Armed(t) == Armed(t') + multiset(out)
      && (!Effective(t, report, ok) ==> t' == t && out == [])
      && (Effective(t, report, ok) ==>
            && report.Events().Within(t.rows[report.fd].events)
            && t'.rows == t.rows[report.fd := t'.rows[report.fd]]
            && t'.rows[report.fd].events == t.rows[report.fd].events.Minus(report.Events())
            && out == Released(t.rows[report.fd], report.Events()))
  {
    if Effective(t, report, ok) {
      EffectiveEntry(t, report, ok);
      TakenRow(t, report.fd, report.Events());
      hide *;
    } else {
      IdleEntry(t, report, ok);
      hide *;
    }
  }

  /** The table after `hit` is triggered on one row, and what that releases. */
  function TakenOff(t: Table, fd: nat, hit: Mask): (Table, seq<Task>)
    requires fd < |t.rows| && t.rows[fd].Valid()
  {
    var (row', tasks) := TriggerEach(t.rows[fd], hit);
    var kernel := EpollCtl(t.kernel, if row'.events != NONE then MOD else DEL, fd, row'.events, true).0;
    (Table(t.rows[fd := row'], kernel, t.pending - |tasks|), tasks)
  }

  lemma TakenRow(t: Table, fd: nat, hit: Mask)
    requires Inv(t) && fd < |t.rows| && t.rows[fd].events.Meets(hit)
    ensures var (t', tasks) := TakenOff(t, fd, hit); Inv(t') && Armed(t) == Armed(t') + multiset(tasks)
  {
    var row := t.rows[fd];
    var (row', tasks) := TriggerEach(row, hit);
    var op := if row'.events != NONE then MOD else DEL;
    TriggerEachEffect(row, hit);
    assert row.fd == fd && row.events != NONE;
    assert TakenOff(t, fd, hit)
      == (Table(t.rows[fd := row'], EpollCtl(t.kernel, op, fd, row'.events, true).0, t.pending - |tasks|), tasks);
    hide *;
    Lost(t, fd, row', op, multiset(tasks), t.pending - |tasks|);
  }

  /** SetRow for a row that only loses. */
  lemma Lost(t: Table, fd: nat, row: Row, op: Ctl, lost: multiset<Task>, pending: int)
    requires Inv(t) && fd < |t.rows| && row.fd == fd && row.Valid()
    requires RowTasks(t.rows[fd]) == RowTasks(row) + lost
    requires op == ADD <==> t.rows[fd].events == NONE
    requires op == DEL <==> row.events == NONE
    requires pending == t.pending + row.events.Size() - t.rows[fd].events.Size()
    ensures var t' := Table(t.rows[fd := row], EpollCtl(t.kernel, op, fd, row.events, true).0, pending);
      Inv(t') && Armed(t) == Armed(t') + lost
  {
    hide *;
    SetRow(t, fd, row, op, pending, multiset{}, lost);
  }

  lemma EffectiveEntry(t: Table, report: Report, ok: bool)
    requires Valid(t) && (report.Ready? ==> report.fd < |t.rows|)
    requires Effective(t, report, ok) && DispatchOne(t, report, ok).Running?
    ensures report.Events().Within(t.rows[report.fd].events) && t.rows[report.fd].events.Meets(report.Events())
    ensures var (t', tasks) := TakenOff(t, report.fd, report.Events());
      && DispatchOne(t, report, ok) == Running(t', tasks)
      && t'.rows == t.rows[report.fd := t'.rows[report.fd]]
      && t'.rows[report.fd].events == t.rows[report.fd].events.Minus(report.Events())
      && tasks == Released(t.rows[report.fd], report.Events())
  {
    var row, hit := t.rows[report.fd], report.Events();
    TriggerLeaves(row, hit);
    assert row.Valid();
    OneEntryTakes(t, report, ok);
    TriggerExact(row, hit);
    hide *;
  }

  lemma OneEntryTakes(t: Table, report: Report, ok: bool)
    requires Valid(t) && (report.Ready? ==> report.fd < |t.rows|)
    requires Effective(t, report, ok) && DispatchOne(t, report, ok).Running?
    ensures report.Events().Within(t.rows[report.fd].events) && t.rows[report.fd].events.Meets(report.Events())
    ensures var (t', tasks) := TakenOff(t, report.fd, report.Events());
      && DispatchOne(t, report, ok) == Running(t', tasks)
      && t'.rows == t.rows[report.fd := TriggerEach(t.rows[report.fd], report.Events()).0]
      && tasks == TriggerEach(t.rows[report.fd], report.Events()).1
  {
    TriggerLeaves(t.rows[report.fd], report.Events());
    hide TriggerEach, EpollCtl;
  }

  lemma TriggerLeaves(row: Row, evs: Mask)
    requires row.Valid()
    ensures TriggerEach(row, evs).0.events == row.events.Minus(evs)
  {
  }

  lemma IdleEntry(t: Table, report: Report, ok: bool)
    requires Valid(t) && (report.Ready? ==> report.fd < |t.rows|) && !Effective(t, report, ok)
    ensures DispatchOne(t, report, ok) == Running(t, [])
  {
  }

  /** The continuations that `row` holds for the events named, READ before WRITE. */
  function Holding(row: Row, reading: bool, writing: bool): seq<Task>
    requires row.Valid()
  {
    (if row.events.read && reading then [HeldBy(row, READ)] else []) +
    (if row.events.write && writing then [HeldBy(row, WRITE)] else [])
  }

  /** What one entry does, event by event: READ leaves the row, and its continuation is
      released, exactly if it is armed, EPOLLIN, an error or a hang-up is reported, and epoll_ctl
      succeeds; WRITE likewise with EPOLLOUT. No other row changes. */
  lemma DispatchOneExactly(t: Table, report: Report, ok: bool)
    requires Valid(t) && report.Ready? && report.fd < |t.rows| && !Trips(t, report, ok)
    ensures DispatchOne(t, report, ok).Running?
    ensures var Running(t', out) := DispatchOne(t, report, ok);
      var row := t.rows[report.fd];
      && OnlyRow(t, t', report.fd) && t'.pending == t.pending - |out|
      && out == Holding(
           row, ok && (report.input || report.errorOrHangup), ok && (report.output || report.errorOrHangup))
      && var row' := t'.rows[report.fd];
      && (row'.events.read <==> row.events.read && !(ok && (report.input || report.errorOrHangup)))
      && (row'.events.write <==> row.events.write && !(ok && (report.output || report.errorOrHangup)))
      && row'.read == (if row'.events.read then row.read else EMPTY)
      && row'.write == (if row'.events.write then row.write else EMPTY)
  {
  }

  // ----- Every operation, field by field -----

  /** The kernel takes ADD for a fd it does not know, MOD and DEL for one it does. */
  lemma EpollCtlExactly(kernel: map<nat, Mask>, op: Ctl, fd: nat, mask: Mask, ok: bool)
    ensures var (kernel', done) := EpollCtl(kernel, op, fd, mask, ok);
      && (done <==> ok && if op.ADD? then fd !in kernel else fd in kernel)
      && (!done ==> kernel' == kernel)
      && (done ==> kernel' == if op.DEL? then kernel - {fd} else kernel[fd := mask])
  {
  }

  /** Truncated, or extended by empty contexts that carry their own fd. */
  lemma ResizeExactly(rows: seq<Row>, size: nat)
    ensures |Resize(rows, size)| == size
    ensures forall i :: 0 <= i < size ==>
      Resize(rows, size)[i] ==
        if i < |rows| then rows[i] else Row(i, Mask(false, false), Slot(false, None, None), Slot(false, None, None))
  {
    forall i | 0 <= i < size ensures Resize(rows, size)[i] == if i < |rows| then rows[i] else Fresh(i) {
    }
  }

  /** The row at fd, or the one that it would get. */
  function RowAt(t: Table, fd: nat): Row {
    if fd < |t.rows| then t.rows[fd] else Row(fd, Mask(false, false), Slot(false, None, None), Slot(false, None, None))
  }

  /** addEvent grows the vector to 1.5 times the fd, be it that epoll_ctl fails then. On success
      the one bit is set, in the kernel too, its slot gets the continuation, the counter goes up
      by one; nothing else changes. */
  lemma AddEventExactly(t: Table, fd: nat, ev: Event, task: Task, ok: bool)
    requires Valid(t) && CanAdd(t, fd, ev)
    ensures var (t', added) := AddEvent(t, fd, ev, task, ok);
      && added == ok && t'.pending == t.pending + (if ok then 1 else 0)
      && fd < |t'.rows| == (if fd < |t.rows| then |t.rows| else fd + fd / 2)
      && (forall g :: 0 <= g < |t'.rows| && (g != fd || !ok) ==> t'.rows[g] == RowAt(t, g))
      && t'.kernel == (if ok then t.kernel[fd := t'.rows[fd].events] else t.kernel)
      && (ok ==> RowGains(RowAt(t, fd), t'.rows[fd], ev, task))
  {
    GrownRows(t.rows, fd);
    GrownAt(t, fd);
    GrownKernel(t, RowsFor(t.rows, fd));
    hide RowsFor, RowsValid;
    ArmExactly(t.(rows := RowsFor(t.rows, fd)), fd, ev, task, ok);
    hide Arm, KernelAgrees;
  }

  predicate RowGains(row: Row, row': Row, ev: Event, task: Task) {
    && row'.fd == row.fd
    && row'.events == Mask(row.events.read || ev == READ, row.events.write || ev == WRITE)
    && row'.read == (if ev == READ then SlotOf(task) else row.read)
    && row'.write == (if ev == WRITE then SlotOf(task) else row.write)
  }

  /** A slot with this continuation, and no other. */
  function SlotOf(task: Task): Slot {
    Slot(true, if task.Resume? then Some(task.fiber) else None, if task.Call? then Some(task.cb) else None)
  }

  lemma GrownAt(t: Table, fd: nat)
    requires RowsValid(t.rows)
    ensures var rows' := RowsFor(t.rows, fd);
      && fd < |rows'| == (if fd < |t.rows| then |t.rows| else fd + fd / 2)
      && forall g :: 0 <= g < |rows'| ==> rows'[g] == RowAt(t, g)
  {
    ResizeExactly(t.rows, fd * 3 / 2);
    hide Resize;
  }

  lemma ArmExactly(t: Table, fd: nat, ev: Event, task: Task, ok: bool)
    requires KernelAgrees(t.rows, t.kernel) && fd < |t.rows|
    ensures var (t', added) := Arm(t, fd, ev, task, ok);
      && added == ok && t'.pending == t.pending + (if ok then 1 else 0) && OnlyRow(t, t', fd)
      && (!ok ==> t' == t)
      && (ok ==> RowGains(t.rows[fd], t'.rows[fd], ev, task) && t'.kernel == t.kernel[fd := t'.rows[fd].events])
  {
  }

  /** delEvent and cancelEvent do the same to the table: on success the one bit is cleared, in the
      kernel too, which drops a fd that has none left; the slot is emptied, the counter goes down
      by one; nothing else changes. cancelEvent hands out what the slot held. */
  lemma RemovedExactly(t: Table, fd: nat, ev: Event, ok: bool)
    requires Valid(t)
    ensures var (t', deleted) := DelEvent(t, fd, ev, ok);
      && (deleted <==> ok && if ev == READ then RowAt(t, fd).events.read else RowAt(t, fd).events.write)
      && (!deleted ==> t' == t)
      && (deleted ==>
            && fd < |t.rows| && OnlyRow(t, t', fd) && t'.pending == t.pending - 1
            && RowLoses(t.rows[fd], t'.rows[fd], ev)
            && KernelFollows(t.kernel, t'.kernel, fd, t'.rows[fd].events))
      && CancelEvent(t, fd, ev, ok) == (t', if deleted then [HeldBy(t.rows[fd], ev)] else [])
  {
  }

  predicate RowLoses(row: Row, row': Row, ev: Event) {
    && row'.fd == row.fd
    && row'.events == Mask(row.events.read && ev != READ, row.events.write && ev != WRITE)
    && row'.read == (if ev == READ then Slot(false, None, None) else row.read)
    && row'.write == (if ev == WRITE then Slot(false, None, None) else row.write)
  }

  predicate KernelFollows(kernel: map<nat, Mask>, kernel': map<nat, Mask>, fd: nat, left: Mask) {
    kernel' == if left.read || left.write then kernel[fd := left] else kernel - {fd}
  }

  /** The continuation in the slot of an armed event. */
  function HeldBy(row: Row, ev: Event): Task
    requires row.Valid() && row.events.Has(ev)
  {
    var slot := if ev == READ then row.read else row.write;
    if slot.fiber.Some? then Resume(slot.fiber.value) else Call(slot.cb.value)
  }

  /** Triggering hands out what the events named hold, and clears them. */
  lemma TriggerEachExactly(row: Row, evs: Mask)
    requires row.Valid()
    ensures var (row', out) := TriggerEach(row, evs);
      && out == Holding(row, evs.read, evs.write)
      && row'.events == Mask(row.events.read && !evs.read, row.events.write && !evs.write)
      && row'.read == (if row'.events.read then row.read else Slot(false, None, None))
      && row'.write == (if row'.events.write then row.write else Slot(false, None, None))
  {
  }

  // ----- Which slots an operation leaves armed -----

  /** Slot (fd, ev) is armed in t' only if it was in t, with the same continuation. */
  predicate SlotKept(t': Table, t: Table, fd: nat, ev: Event) {
    IsArmed(t', fd, ev) ==> IsArmed(t, fd, ev) && t'.rows[fd].Get(ev) == t.rows[fd].Get(ev)
  }

  lemma AddEventSlots(t: Table, fd: nat, ev: Event, task: Task, ok: bool, g: nat, e: Event)
    requires Inv(t) && CanAdd(t, fd, ev)
    ensures (g, e) != (fd, ev) || !ok ==> SlotKept(AddEvent(t, fd, ev, task, ok).0, t, g, e)
  {
    var grown := t.(rows := RowsFor(t.rows, fd));
    GrownRows(t.rows, fd);
    GrownSlots(t, grown, g, e);
    hide RowsFor, RowsValid;
    ArmSlots(grown, fd, ev, task, ok, g, e);
    hide Inv, Arm;
  }

  lemma GrownSlots(t: Table, t': Table, g: nat, e: Event)
    requires t.rows <= t'.rows && forall i :: |t.rows| <= i < |t'.rows| ==> t'.rows[i] == Fresh(i)
    ensures SlotKept(t', t, g, e)
  {
  }

  lemma ArmSlots(t: Table, fd: nat, ev: Event, task: Task, ok: bool, g: nat, e: Event)
    requires fd < |t.rows|
    ensures (g, e) != (fd, ev) || !ok ==> SlotKept(Arm(t, fd, ev, task, ok).0, t, g, e)
  {
  }

  lemma DelEventSlots(t: Table, fd: nat, ev: Event, ok: bool, g: nat, e: Event)
    requires Inv(t)
    ensures SlotKept(DelEvent(t, fd, ev, ok).0, t, g, e)
  {
  }

  lemma TriggerEachSlots(row: Row, evs: Mask, e: Event)
    requires row.Valid()
    ensures TriggerEach(row, evs).0.events.Has(e) ==>
      row.events.Has(e) && TriggerEach(row, evs).0.Get(e) == row.Get(e)
  {
  }

  lemma CancelAllSlots(t: Table, fd: nat, ok: bool, g: nat, e: Event)
    requires Inv(t)
    ensures SlotKept(CancelAll(t, fd, ok).0, t, g, e)
  {
    if fd < |t.rows| { TriggerEachSlots(t.rows[fd], Mask(true, true), e); }
  }

  lemma DispatchSlots(t: Table, report: Report, ok: bool, g: nat, e: Event)
    requires Inv(t) && (report.Ready? ==> report.fd < |t.rows|)
    requires DispatchOne(t, report, ok).Running?
    ensures SlotKept(DispatchOne(t, report, ok).table, t, g, e)
  {
    if report.Ready? { TriggerEachSlots(t.rows[report.fd], report.Events(), e); }
  }
}
