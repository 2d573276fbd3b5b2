/** What the timer set promises: which callbacks listExpiredCb hands out, how often a timer
    is handed out over a whole run, and that no wake-up of the idle worker is lost. */
module TimerRuns {
  import opened Base
  import opened Sums
  import opened TimerSet

  // ----- The order -----

  /** Timer::Comparator, null pointers included; a key is (m_next, address). */
  predicate Comparator(lhs: Option<(u64, nat)>, rhs: Option<(u64, nat)>) {
    if lhs.None? && rhs.None? then false
    else if lhs.None? then true
    else if rhs.None? then false
    else if lhs.value.0 < rhs.value.0 then true
    else if lhs.value.0 == rhs.value.0 then lhs.value.1 < rhs.value.1
    else false
  }

  /** A strict total order, as std::set needs. */
  lemma ComparatorTotal(a: Option<(u64, nat)>, b: Option<(u64, nat)>, c: Option<(u64, nat)>)
    ensures !(Comparator(a, b) && Comparator(b, a))
    ensures Comparator(a, b) && Comparator(b, c) ==> Comparator(a, c)
    ensures Comparator(a, b) || Comparator(b, a) || a == b
  {
  }

  /** Null comes first; then the earlier deadline; then, of equal deadlines, the lower address. So
      the set of non-null timers is ordered. */
  lemma ComparatorMeans(a: Rec, b: Rec)
    ensures Comparator(None, Some((a.next, a.addr))) && !Comparator(Some((a.next, a.addr)), None)
    ensures Comparator(Some((a.next, a.addr)), Some((b.next, b.addr)))
      <==> a.next < b.next || (a.next == b.next && a.addr < b.addr)
    ensures Less(a, b) <==> Comparator(Some((a.next, a.addr)), Some((b.next, b.addr)))
  {
  }

  // ----- One operation -----

  /** uint64_t. */
  lemma WrapsAround(a: u64, b: u64)
    ensures Plus(a, b) == if a + b < 0x1_0000_0000_0000_0000 then a + b else a + b - 0x1_0000_0000_0000_0000
    ensures Minus(a, b) == if a >= b then a - b else a - b + 0x1_0000_0000_0000_0000
  {
    if a + b >= U64 { assert Plus(a, b) == a + b - U64; }
    if a < b { assert Minus(a, b) == a - b + U64; }
  }

  /** r comes before all of s, leaving `but` aside. */
  predicate ComesFirst(r: Rec, s: seq<Rec>, but: Rec) {
    forall x <- s :: x == but || r.next < x.next || (r.next == x.next && r.addr < x.addr)
  }

  /** The timer is added, and the idle worker is notified exactly if the timer comes before all
      others and no notification is out yet; then one is. */
  lemma AddTimerExactly(t: Timers, r: Rec)
    requires Valid(t.items) && forall x <- t.items :: x.addr != r.addr
    ensures var (t', notified) := AddTimer(t, r);
      && Valid(t'.items) && (forall x :: x in t'.items <==> x in t.items || x == r)
      && (notified <==> !t.tickled && ComesFirst(r, t.items, r))
      && t'.tickled == (t.tickled || notified) && t'.previous == t.previous
  {
    HasMember(t.items, r.addr);
    AddTimerEffect(t, r);
    if t.items != [] {
      assert t.items[0] in t.items;
      assert forall i :: 0 < i < |t.items| ==> Less(t.items[0], t.items[i]);
    }
  }

  lemma CancelExactly(t: Timers, addr: nat)
    requires Valid(t.items)
    ensures var (t', done) := Cancel(t, addr);
      && (done <==> exists r :: r in t.items && r.addr == addr)
      && Valid(t'.items) && (forall x :: x in t'.items <==> x in t.items && x.addr != addr)
      && t'.tickled == t.tickled && t'.previous == t.previous && (!done ==> t' == t)
  {
    HasMember(t.items, addr);
    EraseKeeps(t.items, addr);
  }

  /** Timer r has become r': the others are as they were, and the notification is the one of
      adding r' to them. */
  ghost predicate Rekeyed(t: Timers, r: Rec, r': Rec, t': Timers, notified: bool) {
    && Valid(t'.items)
    && (forall x :: x in t'.items <==> x == r' || (x in t.items && x != r))
    && (notified <==> !t.tickled && ComesFirst(r', t.items, r))
    && t'.tickled == (t.tickled || notified) && t'.previous == t.previous
  }

  lemma RekeyExactly(t: Timers, r: Rec, r': Rec)
    requires Valid(t.items) && r in t.items && r'.addr == r.addr
    ensures Has(t.items, r.addr) && At(t.items, r.addr) == r
    ensures var (t', notified) := AddTimer(t.(items := Erase(t.items, r.addr)), r'); Rekeyed(t, r, r', t', notified)
  {
    OthersLeft(t.items, r);
    var rest := Erase(t.items, r.addr);
    AddTimerExactly(t.(items := rest), r');
    FirstOfRest(t.items, rest, r, r');
    hide Valid, Erase, AddTimer, ComesFirst, Has, At;
  }

  lemma FirstOfRest(s: seq<Rec>, rest: seq<Rec>, r: Rec, r': Rec)
    requires (forall x :: x in rest <==> x in s && x != r) && r' !in rest
    ensures ComesFirst(r', rest, r') <==> ComesFirst(r', s, r)
  {
  }

  lemma OthersLeft(s: seq<Rec>, r: Rec)
    requires Valid(s) && r in s
    ensures Has(s, r.addr) && At(s, r.addr) == r
    ensures Valid(Erase(s, r.addr)) && forall x :: x in Erase(s, r.addr) <==> x in s && x != r
    ensures forall x <- Erase(s, r.addr) :: x.addr != r.addr
  {
    HasMember(s, r.addr);
    AddrUnique(s, r, At(s, r.addr));
    EraseKeeps(s, r.addr);
    forall x | x in s && x.addr == r.addr ensures x == r { AddrUnique(s, r, x); }
    hide *;
  }

  /** refresh finds every timer that is in the set, and starts it anew: its deadline is one period
      from now. */
  lemma RefreshExactly(t: Timers, r: Rec, now: u64)
    requires Valid(t.items) && r in t.items
    ensures var (t', done, notified) := Refresh(t, r.addr, now);
      done && Rekeyed(t, r, r.(next := (now + r.ms) % 0x1_0000_0000_0000_0000), t', notified)
  {
    var r' := r.(next := Plus(now, r.ms));
    assert r'.next == (now + r.ms) % 0x1_0000_0000_0000_0000;
    RekeyExactly(t, r, r');
    hide Plus, Rekeyed, AddTimer, Valid, Has, At, Erase;
  }

  /** reset does so with another period; from the last start on if it is not to count from now. It
      has nothing to do for the same period and the same start. */
  lemma ResetExactly(t: Timers, r: Rec, ms: u64, fromNow: bool, now: u64)
    requires Valid(t.items) && r in t.items
    ensures var (t', done, notified) := Reset(t, r.addr, ms, fromNow, now);
      if ms == r.ms && !fromNow then
        t' == t && !done && !notified
      else
        var next := (if fromNow then now + ms else r.next - r.ms + ms) % 0x1_0000_0000_0000_0000;
        done && Rekeyed(t, r, r.(ms := ms, next := next), t', notified)
  {
    WrapsAround(r.next, r.ms);
    WrapsAround(Minus(r.next, r.ms), ms);
    var next := (if fromNow then now + ms else r.next - r.ms + ms) % 0x1_0000_0000_0000_0000;
    assert next == Plus(if fromNow then now else Minus(r.next, r.ms), ms);
    RekeyExactly(t, r, r.(ms := ms, next := next));
    hide Rekeyed, AddTimer, Valid, Plus, Minus;
  }

  /** And a timer that is not in the set, handed out or cancelled, is left alone. */
  lemma SpentIsLeftAlone(t: Timers, addr: nat, ms: u64, fromNow: bool, now: u64)
    requires forall x <- t.items :: x.addr != addr
    ensures Refresh(t, addr, now) == (t, false, false) && Reset(t, addr, ms, fromNow, now) == (t, false, false)
  {
    HasMember(t.items, addr);
  }

  /** getNextTimer forgets the notification and says how long to wait: not at all if some timer is
      due, until the earliest deadline if there are timers, for ever (~0) if there are none. */
  lemma NextTimerExactly(t: Timers, now: u64)
    requires Valid(t.items)
    ensures var (t', wait) := GetNextTimer(t, now);
      && t' == t.(tickled := false)
      && (t.items == [] ==> wait == 0xFFFF_FFFF_FFFF_FFFF)
      && (wait == 0 <==> exists r :: r in t.items && r.next <= now)
      && (t.items != [] && wait > 0 ==>
            (exists r :: r in t.items && r.next == now + wait) && forall r <- t.items :: r.next >= now + wait)
  {
    if t.items != [] {
      assert t.items[0] in t.items;
      EarliestFirst(t.items, t.items[0].next);
    }
  }

  // ----- One expiry -----

  /** The earliest deadline; U64 when there is none. */
  function Earliest(s: seq<Rec>): nat {
    if s == [] then U64 else s[0].next
  }

  lemma EarliestFirst(s: seq<Rec>, floor: nat)
    requires Valid(s) && (s == [] ==> floor <= U64)
    ensures Earliest(s) >= floor <==> forall r <- s :: r.next >= floor
  {
    if s != [] {
      assert s[0] in s;
      assert forall i :: 0 < i < |s| ==> Less(s[0], s[i]);
    }
  }

  /** In a sorted set the due timers are exactly those with a deadline that has come. */
  lemma DueExactly(s: seq<Rec>, now: u64)
    requires Valid(s)
    ensures forall r :: r in s[..DuePrefix(s, now)] <==> r in s && r.next <= now
  {
    var k := DuePrefix(s, now);
    forall r | r in s && r.next <= now ensures r in s[..k] {
      var i :| 0 <= i < |s| && s[i] == r;
      assert k < i ==> Less(s[k], s[i]);
      assert s[..k][i] == r;
    }
  }

  /** Where the set ends up: what was not taken, and the recurring ones of what was. */
  predicate LeftBehind(s: seq<Rec>, taken: seq<Rec>, now: u64, x: Rec) {
    (x in s && x !in taken) || exists r :: r in taken && r.recurring && x == r.(next := Plus(now, r.ms))
  }

  lemma HandOutLeaves(t: Timers, k: nat, now: u64, x: Rec)
    requires Valid(t.items) && k <= |t.items|
    ensures var (t', taken) := HandOut(t, k, now);
      Valid(t'.items) && (x in t'.items <==> LeftBehind(t.items, taken, now, x))
  {
    var rest, taken := t.items[k..], t.items[..k];
    SplitApart(t.items, k);
    RearmKeeps(rest, taken, now);
    assert t.items == taken + rest;
    if x in rest && x in taken {
      HasMember(rest, x.addr);
    }
  }

  /** The clock was set back by more than an hour; or, while its last reading was within the first
      hour, by any amount. */
  predicate SetBack(previous: u64, now: u64) {
    now < previous && (previous < 3_600_000 || now + 3_600_000 < previous)
  }

  /** This is what the unsigned test for a rollover says. */
  lemma RolloverMeans(previous: u64, now: u64)
    ensures Rollover(previous, now) <==> SetBack(previous, now)
  {
    if previous < ROLLOVER_MS { assert Minus(previous, ROLLOVER_MS) == previous - ROLLOVER_MS + U64; }
  }

  /** With the intended test: exactly the timers that are due are handed out, in deadline
      order; later ones and the rearmed ones remain. After a rollover all are handed out. */
  lemma ExpiryExact(t: Timers, now: u64, x: Rec)
    requires Valid(t.items)
    ensures var (t', taken) := ListExpiredIntended(t, now);
      && taken <= t.items && Valid(taken)
      && (x in taken <==> x in t.items && (x.next <= now || SetBack(t.previous, now)))
      && Valid(t'.items) && (x in t'.items <==> LeftBehind(t.items, taken, now, x))
  {
    if t.items != [] {
      var k := TakenAsIntended(t.items, t.previous, now);
      HandOutLeaves(t, k, now, x);
      SplitApart(t.items, k);
      RolloverMeans(t.previous, now);
      if !SetBack(t.previous, now) { DueExactly(t.items, now); } else { assert t.items[..k] == t.items; }
    }
  }

  /** And something is handed out exactly when getNextTimer says that no time is left. */
  lemma ExpiryIffDue(t: Timers, now: u64)
    requires Valid(t.items) && !SetBack(t.previous, now)
    ensures ListExpiredIntended(t, now).1 != [] <==> GetNextTimer(t, now).1 == 0
  {
    RolloverMeans(t.previous, now);
  }

  /** The source's test makes an overdue timer block the expiry: without a rollover the
      timers with deadline `now` are handed out if none is overdue, else none at all. */
  lemma ExpiryAsWritten(t: Timers, now: u64, x: Rec)
    requires Valid(t.items) && !SetBack(t.previous, now)
    ensures var (t', taken) := ListExpired(t, now);
      && (x in taken <==> x in t.items && x.next == now && t.items[0].next >= now)
      && Valid(t'.items) && (x in t'.items <==> LeftBehind(t.items, taken, now, x))
  {
    RolloverMeans(t.previous, now);
    if t.items != [] {
      var k := TakenAsWritten(t.items, t.previous, now);
      HandOutLeaves(t, k, now, x);
      if t.items[0].next >= now {
        DueExactly(t.items, now);
        assert forall i :: 0 < i < |t.items| ==> Less(t.items[0], t.items[i]);
      }
    }
  }

  /** The two agree exactly when nothing is overdue or the clock was set back. */
  lemma WrittenMeetsIntended(t: Timers, now: u64)
    requires Valid(t.items)
    ensures ListExpired(t, now) == ListExpiredIntended(t, now)
      <==> t.items == [] || SetBack(t.previous, now) || t.items[0].next >= now
  {
    RolloverMeans(t.previous, now);
  }

  /** Which timers an expiry takes, with either test. */
  lemma TakenExactly(t: Timers, now: u64, guard: Guard, x: Rec)
    requires Valid(t.items)
    ensures x in Expiry(t, now, guard).1 <==>
      && x in t.items
      && (SetBack(t.previous, now) || (x.next <= now && (guard.Intended? || t.items[0].next >= now)))
  {
    EarliestFirst(t.items, if t.items == [] then 0 else t.items[0].next);
    RolloverMeans(t.previous, now);
    if guard.Intended? {
      ExpiryExact(t, now, x);
    } else if !SetBack(t.previous, now) {
      ExpiryAsWritten(t, now, x);
    } else {
      assert t.items[..|t.items|] == t.items;
    }
  }

  /** As written, an expiry hands out something only after a rollover, or in the very
      millisecond of the earliest deadline. That ends a stall: the clock reads this deadline
      again, or the timer that holds it is cancelled or gets a later one. */
  lemma HandsOutExactly(t: Timers, now: u64)
    requires Valid(t.items)
    ensures ListExpired(t, now).1 != [] <==> t.items != [] && (SetBack(t.previous, now) || t.items[0].next == now)
  {
    if t.items != [] {
      TakenExactly(t, now, AsWritten, t.items[0]);
      var taken := ListExpired(t, now).1;
      if taken != [] {
        TakenExactly(t, now, AsWritten, taken[0]);
        EarliestFirst(t.items, t.items[0].next);
      }
    }
  }

  /** The callbacks come out in the order of their deadlines, those of one deadline by address. */
  lemma HandedOutInOrder(t: Timers, now: u64, guard: Guard)
    requires Valid(t.items)
    ensures var taken := Expiry(t, now, guard).1;
      && |Callbacks(taken)| == |taken|
      && forall i, j :: 0 <= i < j < |taken| ==>
           && Callbacks(taken)[i] == taken[i].cb
           && (taken[i].next < taken[j].next || (taken[i].next == taken[j].next && taken[i].addr < taken[j].addr))
  {
    ExpiryIs(t, now, guard);
    var taken := Expiry(t, now, guard).1;
    assert taken <= t.items;
    forall i, j | 0 <= i < j < |taken| ensures Less(taken[i], taken[j]) {
      assert taken[i] == t.items[i] && taken[j] == t.items[j];
    }
  }

  /** A timer that is not due yet is handed out only if the clock was set back: from a reading of
      an hour or later by more than an hour, from an earlier one by any amount, since the bound
      wraps there. */
  lemma NotYetDue(t: Timers, now: u64, guard: Guard, r: Rec)
    requires Valid(t.items) && r in t.items && r.next > now
    ensures t.previous <= now ==> r !in Expiry(t, now, guard).1
    ensures t.previous >= 3_600_000 ==> (r in Expiry(t, now, guard).1 <==> now + 3_600_000 < t.previous)
    ensures t.previous < 3_600_000 ==> (r in Expiry(t, now, guard).1 <==> now < t.previous)
  {
    TakenExactly(t, now, guard, r);
    hide Expiry;
  }

  /** An expiry of a set that is not empty remembers its clock reading, and the next one measures
      against that; on an empty set it returns before it looks at the clock. */
  lemma MeasuredAgainstLast(t: Timers, now: u64, guard: Guard, now': u64, guard': Guard, r: Rec)
    requires Valid(t.items)
    ensures t.items == [] ==> Expiry(t, now, guard) == (t, [])
    ensures var t' := Expiry(t, now, guard).0;
      && t'.tickled == t.tickled
      && (t.items != [] && r in t'.items && r.next > now' ==>
            (r in Expiry(t', now', guard').1 <==> now' < now && (now < 3_600_000 || now' + 3_600_000 < now)))
  {
    ExpiryIs(t, now, guard);
    ExpiryEffect(t, now, guard);
    var t' := Expiry(t, now, guard).0;
    assert t.items != [] ==> t'.previous == now;
    if r in t'.items && r.next > now' { NotYetDue(t', now', guard', r); }
    hide Expiry, Taken;
  }

  /** The clock readings never go back. */
  predicate Forward(previous: u64, nows: seq<u64>) {
    (nows != [] ==> previous <= nows[0]) && forall i, j :: 0 <= i < j < |nows| ==> nows[i] <= nows[j]
  }

  function ExpireAll(t: Timers, nows: seq<u64>): (Timers, seq<Rec>)
    decreases |nows|
  {
    if nows == [] then (t, [])
    else
      var (t1, taken1) := ListExpired(t, nows[0]);
      var (t2, taken2) := ExpireAll(t1, nows[1..]);
      (t2, taken1 + taken2)
  }

  /** So one overdue timer stalls the whole set: as long as the clock does not go back, no
      number of wake-ups hands out anything. */
  lemma {:induction false} OverdueStalls(t: Timers, nows: seq<u64>)
    requires t.items != [] && Forward(t.previous, nows)
    requires nows != [] ==> t.items[0].next < nows[0]
    ensures ExpireAll(t, nows).0.items == t.items && ExpireAll(t, nows).1 == []
    decreases |nows|
  {
    if nows != [] {
      var t1 := ListExpired(t, nows[0]).0;
      assert t1 == t.(previous := nows[0]) by {
        assert t.items[0..] == t.items && t.items[..0] == [];
      }
      assert |nows| > 1 ==> nows[1..][0] == nows[1];
      OverdueStalls(t1, nows[1..]);
    }
  }

  // ----- The probe timer -----

  /** Skip the timers whose deadline equals `now`. */
  function SkipEqual(s: seq<Rec>, i: nat, now: u64): (k: nat)
    requires i <= |s|
    ensures i <= k <= |s| && forall j :: i <= j < k ==> s[j].next == now
    ensures k < |s| ==> s[k].next != now
    decreases |s| - i
  {
    if i < |s| && s[i].next == now then SkipEqual(s, i + 1, now) else i
  }

  lemma {:induction false} SkipToDue(s: seq<Rec>, i: nat, now: u64)
    requires Valid(s) && i <= DuePrefix(s, now)
    requires i < |s| ==> s[i].next >= now
    ensures SkipEqual(s, i, now) == DuePrefix(s, now)
    decreases |s| - i
  {
    if i < |s| && s[i].next == now {
      assert i + 1 < |s| ==> Less(s[i], s[i + 1]);
      SkipToDue(s, i + 1, now);
    }
  }

  /** lower_bound with a probe of deadline `now` at any address, then skipping equal ones,
      ends behind exactly the due timers: the probe's address does not matter. */
  lemma ProbeAddressIrrelevant(s: seq<Rec>, probe: Rec)
    requires Valid(s)
    ensures SkipEqual(s, Position(s, probe), probe.next) == DuePrefix(s, probe.next)
  {
    var i := Position(s, probe);
    assert forall j :: 0 <= j < i ==> s[j].next <= probe.next by {
      assert forall j :: 0 <= j < i ==> Less(s[j], probe);
    }
    SkipToDue(s, i, probe.next);
  }

  // ----- Whole runs: who gets what -----

  datatype Op =
    | OpAdd(addr: nat, ms: u64, now: u64, recurring: bool, cb: Callback)
    | OpCancel(addr: nat)
    | OpRefresh(addr: nat, now: u64)
    | OpReset(addr: nat, ms: u64, fromNow: bool, now: u64)
    | OpNext(now: u64)
    | OpExpire(now: u64, guard: Guard)
  {
    /** The timer that addTimer constructs. */
    function New(): Rec
      requires OpAdd?
    {
      Rec(addr, recurring, ms, Plus(ms, now), cb)
    }
  }

  /** When a timer was last started, and the period last asked for. */
  datatype Stamp = Stamp(start: u64, ms: u64)

  /** The timers ever added, by address, how often each was handed out or cancelled with
      success, and its stamp. */
  datatype Ledger = Ledger(
    timers: Timers, added: map<nat, Rec>, handed: multiset<nat>, cancelled: multiset<nat>, stamps: map<nat, Stamp>)

  predicate Allowed(l: Ledger, op: Op) {
    op.OpAdd? ==> op.addr !in l.added
  }

  /** What starts a timer: adding it, refreshing it, a reset from now, and the expiry that
      rearms it. A plain reset changes the period and leaves the start. */
  function Restamp(l: Ledger, op: Op): map<nat, Stamp> {
    match op
    case OpAdd(addr, ms, now, _, _) => l.stamps[addr := Stamp(now, ms)]
    case OpRefresh(addr, now) =>
      if Has(l.timers.items, addr) && addr in l.stamps then l.stamps[addr := l.stamps[addr].(start := now)]
      else l.stamps
    case OpReset(addr, ms, fromNow, now) =>
      if Has(l.timers.items, addr) && addr in l.stamps
      then l.stamps[addr := Stamp(if fromNow then now else l.stamps[addr].start, ms)]
      else l.stamps
    case OpExpire(now, guard) => l.stamps + Rearmed(Expiry(l.timers, now, guard).1, now, l.stamps)
    case _ => l.stamps
  }

  function Rearmed(taken: seq<Rec>, now: u64, stamps: map<nat, Stamp>): map<nat, Stamp> {
    map addr | addr in stamps && exists r :: r in taken && r.recurring && r.addr == addr :: stamps[addr].(start := now)
  }

  function Addrs(taken: seq<Rec>): seq<nat> {
    seq(|taken|, i requires 0 <= i < |taken| => taken[i].addr)
  }

  function Step(l: Ledger, op: Op): Ledger {
    Counted(l, op).(stamps := Restamp(l, op))
  }

  function Counted(l: Ledger, op: Op): Ledger {
    match op
    case OpAdd(addr, _, _, _, _) => l.(timers := AddTimer(l.timers, op.New()).0, added := l.added[addr := op.New()])
    case OpCancel(addr) =>
      var (t, done) := Cancel(l.timers, addr);
      l.(timers := t, cancelled := if done then l.cancelled + multiset{addr} else l.cancelled)
    case OpRefresh(addr, now) => l.(timers := Refresh(l.timers, addr, now).0)
    case OpReset(addr, ms, fromNow, now) => l.(timers := Reset(l.timers, addr, ms, fromNow, now).0)
    case OpNext(now) => l.(timers := GetNextTimer(l.timers, now).0)
    case OpExpire(now, guard) =>
      var (t, taken) := Expiry(l.timers, now, guard);
      l.(timers := t, handed := l.handed + multiset(Addrs(taken)))
  }

  function InSet(l: Ledger, addr: nat): nat {
    if Has(l.timers.items, addr) then 1 else 0
  }

  /** A one-shot timer is in the set, was handed out, or was cancelled: one of the three,
      once. A recurring one is in the set until it is cancelled. */
  ghost predicate Settled(l: Ledger, addr: nat) {
    if addr !in l.added then InSet(l, addr) == l.handed[addr] == l.cancelled[addr] == 0
    else if l.added[addr].recurring then InSet(l, addr) + l.cancelled[addr] == 1
    else InSet(l, addr) + l.handed[addr] + l.cancelled[addr] == 1
  }

  ghost predicate Consistent(l: Ledger) {
    && Valid(l.timers.items)
    && (forall r <- l.timers.items :: r.addr in l.added && SameTimer(l.added[r.addr], r))
    && (forall addr: nat :: Settled(l, addr))
  }

  lemma SameAddrs(s: seq<Rec>, s': seq<Rec>, addr: nat)
    requires Within(s', s) && Within(s, s')
    ensures Has(s', addr) <==> Has(s, addr)
  {
    HasMember(s, addr);
    HasMember(s', addr);
    if Has(s, addr) { assert Known(s', At(s, addr)); }
    if Has(s', addr) { assert Known(s, At(s', addr)); }
  }

  /** refresh, reset and getNextTimer change keys and flags only. */
  lemma RekeyKeeps(l: Ledger, l': Ledger)
    requires Consistent(l) && l' == l.(timers := l'.timers, stamps := l'.stamps)
    requires Valid(l'.timers.items)
    requires Within(l'.timers.items, l.timers.items) && Within(l.timers.items, l'.timers.items)
    ensures Consistent(l')
  {
    forall r | r in l'.timers.items ensures r.addr in l'.added && SameTimer(l'.added[r.addr], r) {
      assert Known(l.timers.items, r);
    }
    forall addr: nat ensures Settled(l', addr) {
      assert Settled(l, addr);
      SameAddrs(l.timers.items, l'.timers.items, addr);
    }
  }

  lemma AddKeeps(l: Ledger, op: Op)
    requires Consistent(l) && op.OpAdd? && Allowed(l, op)
    ensures Consistent(Step(l, op))
  {
    var l', r := Step(l, op), op.New();
    assert Settled(l, r.addr);
    AddTimerEffect(l.timers, r);
    forall addr: nat ensures Settled(l', addr) {
      assert Settled(l, addr);
      HasMember(l.timers.items, addr);
      HasMember(l'.timers.items, addr);
    }
  }

  lemma CancelKeeps(l: Ledger, addr: nat)
    requires Consistent(l)
    ensures Consistent(Step(l, OpCancel(addr)))
  {
    var l' := Step(l, OpCancel(addr));
    CancelEffect(l.timers, addr);
    HasMember(l.timers.items, addr);
    assert Has(l.timers.items, addr) ==> addr in l.added;
    forall a: nat ensures Settled(l', a) {
      assert Settled(l, a);
      HasMember(l.timers.items, a);
      HasMember(l'.timers.items, a);
    }
  }

  lemma ReplaceKeeps(l: Ledger, l': Ledger, r: Rec)
    requires Consistent(l) && Has(l.timers.items, r.addr) && SameTimer(At(l.timers.items, r.addr), r)
    requires l' == l.(timers := l'.timers, stamps := l'.stamps)
    requires l'.timers.items == Insert(Erase(l.timers.items, r.addr), r)
    ensures Consistent(l')
  {
    ReplaceEffect(l.timers.items, r);
    RekeyKeeps(l, l');
  }

  lemma RekeyStepKeeps(l: Ledger, op: Op)
    requires Consistent(l) && (op.OpRefresh? || op.OpReset? || op.OpNext?)
    ensures Consistent(Step(l, op))
  {
    var items := l.timers.items;
    if op.OpRefresh? && Has(items, op.addr) {
      ReplaceKeeps(l, Step(l, op), At(items, op.addr).(next := Plus(op.now, At(items, op.addr).ms)));
    } else if op.OpReset? && Reset(l.timers, op.addr, op.ms, op.fromNow, op.now).1 {
      var r := At(items, op.addr);
      var start := if op.fromNow then op.now else Minus(r.next, r.ms);
      ReplaceKeeps(l, Step(l, op), r.(ms := op.ms, next := Plus(start, op.ms)));
    } else {
      SelfWithin(items);
      RekeyKeeps(l, Step(l, op));
    }
  }

  /** How an expiry moves a timer that is in the set. */
  lemma ExpireMoves(t: Timers, now: u64, guard: Guard, addr: nat)
    requires Valid(t.items)
    ensures var (t', taken) := Expiry(t, now, guard);
      && Valid(t'.items) && Within(t'.items, t.items)
      && multiset(Addrs(taken))[addr] <= 1
      && (!Has(t.items, addr) ==> !Has(t'.items, addr) && multiset(Addrs(taken))[addr] == 0)
      && (Has(t.items, addr) && At(t.items, addr).recurring ==> Has(t'.items, addr))
      && (Has(t.items, addr) && !At(t.items, addr).recurring ==>
            (Has(t'.items, addr) <==> multiset(Addrs(taken))[addr] == 0))
  {
    ExpiryEffect(t, now, guard);
    ExpiryIs(t, now, guard);
    if t.items != [] {
      var k := Taken(t, now, guard);
      TakenOnce(t.items, k, addr);
      if Has(t.items, addr) { TakenOrLeft(t, k, now, addr); } else { NoneLeft(t, now, guard, addr); }
    }
  }

  lemma {:induction false} CountAddr(s: seq<Rec>, addr: nat)
    requires DistinctAddrs(s)
    ensures multiset(Addrs(s))[addr] == if Has(s, addr) then 1 else 0
  {
    if s != [] {
      CountAddr(s[1..], addr);
      assert Addrs(s) == [s[0].addr] + Addrs(s[1..]);
      assert forall j :: 0 <= j < |s[1..]| ==> s[1..][j].addr != s[0].addr;
    }
  }

  lemma TakenOnce(s: seq<Rec>, k: nat, addr: nat)
    requires Valid(s) && k <= |s|
    ensures multiset(Addrs(s[..k]))[addr] == if Has(s[..k], addr) then 1 else 0
    ensures Has(s[..k], addr) ==> Has(s, addr)
  {
    CountAddr(s[..k], addr);
    HasMember(s[..k], addr);
    HasMember(s, addr);
  }

  lemma NoneLeft(t: Timers, now: u64, guard: Guard, addr: nat)
    requires Valid(t.items) && !Has(t.items, addr)
    ensures !Has(Expiry(t, now, guard).0.items, addr)
  {
    ExpiryEffect(t, now, guard);
    ExpiryIs(t, now, guard);
    var items := Expiry(t, now, guard).0.items;
    if Has(items, addr) {
      assert Known(t.items, At(items, addr));
      HasMember(t.items, addr);
    }
  }

  lemma TakenOrLeft(t: Timers, k: nat, now: u64, addr: nat)
    requires Valid(t.items) && k <= |t.items| && Has(t.items, addr)
    ensures var (t', taken) := HandOut(t, k, now);
      && (At(t.items, addr).recurring ==> Has(t'.items, addr))
      && (!At(t.items, addr).recurring ==> (Has(t'.items, addr) <==> !Has(taken, addr)))
  {
    var (t', taken) := HandOut(t, k, now);
    var r := At(t.items, addr);
    HandOutLeaves(t, k, now, r);
    HandOutLeaves(t, k, now, r.(next := Plus(now, r.ms)));
    HasMember(t'.items, addr);
    HasMember(taken, addr);
    forall y | y in taken && y.addr == addr ensures y == r { AddrUnique(t.items, r, y); }
    if r in taken {
      if r.recurring { assert r.(next := Plus(now, r.ms)) in t'.items; }
      if !r.recurring && Has(t'.items, addr) { OneShotGone(t, k, now, r, At(t'.items, addr)); }
    }
  }

  lemma OneShotGone(t: Timers, k: nat, now: u64, r: Rec, x: Rec)
    requires Valid(t.items) && k <= |t.items| && r in t.items[..k] && !r.recurring
    requires x.addr == r.addr
    ensures x !in HandOut(t, k, now).0.items
  {
    HandOutLeaves(t, k, now, x);
    if LeftBehind(t.items, t.items[..k], now, x) {
      if x in t.items && x !in t.items[..k] {
        AddrUnique(t.items, x, r);
      } else {
        var y :| y in t.items[..k] && y.recurring && x == y.(next := Plus(now, y.ms));
        AddrUnique(t.items, y, r);
      }
    }
  }

  lemma ExpireKeeps(l: Ledger, now: u64, guard: Guard)
    requires Consistent(l)
    ensures Consistent(Step(l, OpExpire(now, guard)))
  {
    var l' := Step(l, OpExpire(now, guard));
    ExpiryEffect(l.timers, now, guard);
    ExpiryIs(l.timers, now, guard);
    forall r | r in l'.timers.items ensures r.addr in l'.added && SameTimer(l'.added[r.addr], r) {
      assert Known(l.timers.items, r);
    }
    forall addr: nat ensures Settled(l', addr) {
      assert Settled(l, addr);
      ExpireMoves(l.timers, now, guard, addr);
      if Has(l.timers.items, addr) { assert SameTimer(l.added[addr], At(l.timers.items, addr)); }
    }
  }

  lemma StepKeeps(l: Ledger, op: Op)
    requires Consistent(l) && Allowed(l, op)
    ensures Consistent(Step(l, op))
  {
    hide Consistent;
    match op
    case OpAdd(_, _, _, _, _) => AddKeeps(l, op);
    case OpCancel(addr) => CancelKeeps(l, addr);
    case OpExpire(now, guard) => ExpireKeeps(l, now, guard);
    case _ => RekeyStepKeeps(l, op);
  }

  ghost predicate Feasible(l: Ledger, ops: seq<Op>)
    decreases |ops|
  {
    ops == [] || (Allowed(l, ops[0]) && Feasible(Step(l, ops[0]), ops[1..]))
  }

  ghost function Run(l: Ledger, ops: seq<Op>): Ledger
    requires Feasible(l, ops)
    decreases |ops|
  {
    if ops == [] then l else Run(Step(l, ops[0]), ops[1..])
  }

  /** Counts only grow, and what is known of a timer stays. */
  predicate Later(l: Ledger, l': Ledger) {
    && l.handed <= l'.handed && l.cancelled <= l'.cancelled
    && (forall addr <- l.added :: addr in l'.added && l'.added[addr] == l.added[addr])
  }

  lemma {:induction false} RunKeeps(l: Ledger, ops: seq<Op>)
    requires Consistent(l) && Feasible(l, ops)
    ensures Consistent(Run(l, ops)) && Later(l, Run(l, ops))
    decreases |ops|
  {
    if ops != [] {
      StepKeeps(l, ops[0]);
      assert Later(l, Step(l, ops[0]));
      RunKeeps(Step(l, ops[0]), ops[1..]);
    }
  }

  function Start(previous: u64): Ledger {
    Ledger(Timers([], false, previous), map[], multiset{}, multiset{}, map[])
  }

  /** Over any run: the set stays ordered, a one-shot callback is handed out at most once,
      never both handed out and cancelled, and a recurring timer stays in the set until it
      is cancelled. */
  lemma HandedOutOnce(previous: u64, ops: seq<Op>, addr: nat)
    requires Feasible(Start(previous), ops) && addr in Run(Start(previous), ops).added
    ensures var l := Run(Start(previous), ops);
      && Valid(l.timers.items) && l.cancelled[addr] <= 1
      && (!l.added[addr].recurring ==>
            && l.handed[addr] + l.cancelled[addr] <= 1
            && (Has(l.timers.items, addr) <==> l.handed[addr] + l.cancelled[addr] == 0))
      && (l.added[addr].recurring ==> (Has(l.timers.items, addr) <==> l.cancelled[addr] == 0))
  {
    RunKeeps(Start(previous), ops);
    assert Settled(Run(Start(previous), ops), addr);
  }

  /** After a successful cancel nothing is handed out for that timer any more. */
  lemma {:induction false} NothingAfterCancel(l: Ledger, ops: seq<Op>, addr: nat)
    requires Consistent(l) && Feasible(l, ops) && addr in l.added && l.cancelled[addr] >= 1
    ensures Run(l, ops).handed[addr] == l.handed[addr]
    decreases |ops|
  {
    if ops != [] {
      StepKeeps(l, ops[0]);
      assert Settled(l, addr);
      if ops[0].OpExpire? { ExpireMoves(l.timers, ops[0].now, ops[0].guard, addr); }
      NothingAfterCancel(Step(l, ops[0]), ops[1..], addr);
    }
  }

  // ----- Whole runs: deadlines -----

  lemma WrapBack(start: u64, ms: u64)
    ensures Minus(Plus(start, ms), ms) == start
  {
    var sum := start + ms;
    if sum < U64 {
    } else {
      assert Plus(start, ms) == sum - U64;
    }
  }

  lemma ReachesPeriod(start: u64, ms: u64)
    ensures Plus(start, ms) >= ms <==> start + ms < U64
  {
    if start + ms >= U64 { assert Plus(start, ms) == start + ms - U64; }
  }

  /** The timer's deadline is its last start plus the last period, modulo 2^64. */
  predicate OnTime(stamps: map<nat, Stamp>, r: Rec) {
    && r.addr in stamps
    && r.ms == stamps[r.addr].ms
    && r.next == Plus(stamps[r.addr].start, r.ms)
  }

  predicate Stamped(l: Ledger) {
    Valid(l.timers.items) && forall r <- l.timers.items :: OnTime(l.stamps, r)
  }

  lemma ReplaceStamped(l: Ledger, r: Rec, stamps: map<nat, Stamp>, x: Rec)
    requires Stamped(l) && Has(l.timers.items, r.addr) && SameTimer(At(l.timers.items, r.addr), r)
    requires OnTime(stamps, r) && stamps == l.stamps[r.addr := stamps[r.addr]]
    requires x in Insert(Erase(l.timers.items, r.addr), r)
    ensures OnTime(stamps, x)
  {
    EraseKeeps(l.timers.items, r.addr);
    InsertMembers(Erase(l.timers.items, r.addr), r);
  }

  lemma RefreshStamped(l: Ledger, addr: nat, now: u64)
    requires Stamped(l)
    ensures Stamped(Step(l, OpRefresh(addr, now)))
  {
    RefreshEffect(l.timers, addr, now);
    var l' := Step(l, OpRefresh(addr, now));
    if Has(l.timers.items, addr) {
      var r := At(l.timers.items, addr);
      assert OnTime(l.stamps, r);
      forall x | x in l'.timers.items ensures OnTime(l'.stamps, x) {
        ReplaceStamped(l, r.(next := Plus(now, r.ms)), l'.stamps, x);
      }
    }
  }

  lemma ResetStamped(l: Ledger, addr: nat, ms: u64, fromNow: bool, now: u64)
    requires Stamped(l)
    ensures Stamped(Step(l, OpReset(addr, ms, fromNow, now)))
  {
    ResetEffect(l.timers, addr, ms, fromNow, now);
    var l' := Step(l, OpReset(addr, ms, fromNow, now));
    if Has(l.timers.items, addr) {
      var r := At(l.timers.items, addr);
      assert OnTime(l.stamps, r);
      WrapBack(l.stamps[addr].start, r.ms);
      if ms == r.ms && !fromNow {
        assert l'.stamps == l.stamps;
      } else {
        var r' := r.(ms := ms, next := Plus(if fromNow then now else l.stamps[addr].start, ms));
        forall x | x in l'.timers.items ensures OnTime(l'.stamps, x) {
          ReplaceStamped(l, r', l'.stamps, x);
        }
      }
    }
  }

  lemma ExpireStamped(l: Ledger, now: u64, guard: Guard)
    requires Stamped(l)
    ensures Stamped(Step(l, OpExpire(now, guard)))
  {
    ExpiryEffect(l.timers, now, guard);
    ExpiryIs(l.timers, now, guard);
    if l.timers.items != [] {
      var k := Taken(l.timers, now, guard);
      var (t', taken) := HandOut(l.timers, k, now);
      forall x | x in t'.items ensures OnTime(Step(l, OpExpire(now, guard)).stamps, x) {
        HandOutLeaves(l.timers, k, now, x);
        LeftOnTime(l, k, now, x);
      }
    }
  }

  lemma LeftOnTime(l: Ledger, k: nat, now: u64, x: Rec)
    requires Stamped(l) && k <= |l.timers.items| && LeftBehind(l.timers.items, l.timers.items[..k], now, x)
    ensures OnTime(l.stamps + Rearmed(l.timers.items[..k], now, l.stamps), x)
  {
    var taken := l.timers.items[..k];
    if x in l.timers.items && x !in taken {
      forall r | r in taken && r.addr == x.addr ensures false { AddrUnique(l.timers.items, r, x); }
    } else {
      var r :| r in taken && r.recurring && x == r.(next := Plus(now, r.ms));
      assert OnTime(l.stamps, r);
    }
  }

  lemma StepStamped(l: Ledger, op: Op)
    requires Stamped(l) && Consistent(l) && Allowed(l, op)
    ensures Stamped(Step(l, op))
  {
    match op
    case OpAdd(_, _, _, _, _) =>
      assert Settled(l, op.addr);
      AddTimerEffect(l.timers, op.New());
    case OpCancel(addr) => CancelEffect(l.timers, addr);
    case OpRefresh(addr, now) => RefreshStamped(l, addr, now);
    case OpReset(addr, ms, fromNow, now) => ResetStamped(l, addr, ms, fromNow, now);
    case OpNext(_) =>
    case OpExpire(now, guard) => ExpireStamped(l, now, guard);
  }

  lemma {:induction false} RunStamped(l: Ledger, ops: seq<Op>)
    requires Stamped(l) && Consistent(l) && Feasible(l, ops)
    ensures Stamped(Run(l, ops))
    decreases |ops|
  {
    if ops != [] {
      StepKeeps(l, ops[0]);
      StepStamped(l, ops[0]);
      RunStamped(Step(l, ops[0]), ops[1..]);
    }
  }

  /** Over any run of all operations, every timer in the set has its last start plus its last
      period for a deadline, so that any number of resets counts from the same start: what
      reset subtracts gives that start back, even where sums wrap. The deadline reaches the
      period, and the subtraction does not wrap, exactly when the sum did not. */
  lemma DeadlineFromStart(previous: u64, ops: seq<Op>, r: Rec)
    requires Feasible(Start(previous), ops) && r in Run(Start(previous), ops).timers.items
    ensures var stamps := Run(Start(previous), ops).stamps;
      && r.addr in stamps && r.ms == stamps[r.addr].ms
      && r.next == Plus(stamps[r.addr].start, r.ms) && Minus(r.next, r.ms) == stamps[r.addr].start
      && (r.next >= r.ms <==> stamps[r.addr].start + r.ms < U64)
  {
    RunStamped(Start(previous), ops);
    var l := Run(Start(previous), ops);
    assert OnTime(l.stamps, r);
    WrapBack(l.stamps[r.addr].start, r.ms);
    ReachesPeriod(l.stamps[r.addr].start, r.ms);
  }

  // ----- Whole runs: waking the idle worker -----

  /** What the last getNextTimer saw, and how often onTimerInsertedAtFront ran since. */
  datatype Watch = Watch(timers: Timers, seen: nat, calls: nat)

  function WatchStep(w: Watch, op: Op): Watch {
    match op
    case OpAdd(_, _, _, _, _) =>
      var (t, front) := AddTimer(w.timers, op.New()); w.(timers := t, calls := w.calls + Bit(front))
    case OpCancel(addr) => w.(timers := Cancel(w.timers, addr).0)
    case OpRefresh(addr, now) =>
      var (t, _, front) := Refresh(w.timers, addr, now); w.(timers := t, calls := w.calls + Bit(front))
    case OpReset(addr, ms, fromNow, now) =>
      var (t, _, front) := Reset(w.timers, addr, ms, fromNow, now); w.(timers := t, calls := w.calls + Bit(front))
    case OpNext(now) => Watch(GetNextTimer(w.timers, now).0, Earliest(w.timers.items), 0)
    case OpExpire(now, guard) => w.(timers := Expiry(w.timers, now, guard).0)
  }

  function Bit(b: bool): nat { if b then 1 else 0 }

  /** The idle worker will look again, or need not: m_tickled is set, or no deadline is
      earlier than the one the last getNextTimer saw. */
  ghost predicate Watched(w: Watch) {
    && Valid(w.timers.items)
    && (w.timers.tickled || Earliest(w.timers.items) >= w.seen)
    && w.calls == Bit(w.timers.tickled)
  }

  /** The expiry brings no recurring timer back before the deadline that was last seen, or
      the flag is set anyway. */
  predicate Unhurried(w: Watch, now: u64, guard: Guard) {
    w.timers.tickled || forall r <- Expiry(w.timers, now, guard).1 :: r.recurring ==> Plus(now, r.ms) >= w.seen
  }

  lemma InsertWatched(t: Timers, r: Rec, seen: nat)
    requires Valid(t.items) && !Has(t.items, r.addr)
    requires t.tickled || Earliest(t.items) >= seen
    ensures var (t', front) := AddTimer(t, r);
      && Valid(t'.items) && (t'.tickled || Earliest(t'.items) >= seen)
      && Bit(t'.tickled) == Bit(t.tickled) + Bit(front)
  {
    AddTimerEffect(t, r);
  }

  lemma EraseWatched(t: Timers, addr: nat, seen: nat)
    requires Valid(t.items) && (t.tickled || Earliest(t.items) >= seen)
    ensures var t' := t.(items := Erase(t.items, addr));
      Valid(t'.items) && !Has(t'.items, addr) && (t'.tickled || Earliest(t'.items) >= seen)
  {
    EraseKeeps(t.items, addr);
    assert |t.items| > 1 ==> Less(t.items[0], t.items[1]);
  }

  /** What an expiry leaves has no early deadline exactly when what it rearms has none. */
  lemma ExpiryFloor(t: Timers, k: nat, now: u64, floor: nat)
    requires Valid(t.items) && k <= |t.items| && forall r <- t.items :: r.next >= floor
    ensures var (t', taken) := HandOut(t, k, now);
      (forall x <- t'.items :: x.next >= floor) <==> (forall r <- taken :: r.recurring ==> Plus(now, r.ms) >= floor)
  {
    var (t', taken) := HandOut(t, k, now);
    forall r | r in taken && r.recurring ensures r.(next := Plus(now, r.ms)) in t'.items {
      HandOutLeaves(t, k, now, r.(next := Plus(now, r.ms)));
    }
    forall x | x in t'.items ensures LeftBehind(t.items, taken, now, x) {
      HandOutLeaves(t, k, now, x);
    }
    hide HandOut, Plus, Valid;
  }

  /** An expiry keeps the wake-ups exactly when it is unhurried. */
  lemma ExpireWatchedExactly(w: Watch, now: u64, guard: Guard)
    requires Watched(w)
    ensures Watched(WatchStep(w, OpExpire(now, guard))) <==> Unhurried(w, now, guard)
  {
    var t := w.timers;
    ExpiryEffect(t, now, guard);
    ExpiryIs(t, now, guard);
    if t.items != [] && !t.tickled {
      var k := Taken(t, now, guard);
      EarliestFirst(t.items, w.seen);
      EarliestFirst(HandOut(t, k, now).0.items, w.seen);
      ExpiryFloor(t, k, now, w.seen);
      hide HandOut, Plus, Valid, Taken, Earliest;
    }
  }

  /** Neither a rollover nor a wrap of a deadline that is rearmed: then it is. */
  lemma PlainIsUnhurried(w: Watch, now: u64, guard: Guard)
    requires Watched(w) && !SetBack(w.timers.previous, now)
    requires forall r <- Expiry(w.timers, now, guard).1 :: r.recurring ==> now + r.ms < U64
    ensures Unhurried(w, now, guard)
  {
    if !w.timers.tickled {
      forall r | r in Expiry(w.timers, now, guard).1 ensures now >= w.seen {
        TakenExactly(w.timers, now, guard, r);
        EarliestFirst(w.timers.items, w.seen);
      }
    }
  }

  lemma WatchStepKeeps(w: Watch, op: Op)
    requires Watched(w) && (op.OpAdd? ==> !Has(w.timers.items, op.addr)) && !op.OpExpire?
    ensures Watched(WatchStep(w, op))
  {
    var t := w.timers;
    match op
    case OpAdd(_, _, _, _, _) => InsertWatched(t, op.New(), w.seen);
    case OpCancel(addr) => EraseWatched(t, addr, w.seen);
    case OpRefresh(addr, now) =>
      if Has(t.items, addr) {
        EraseWatched(t, addr, w.seen);
        var r := At(t.items, addr);
        InsertWatched(t.(items := Erase(t.items, addr)), r.(next := Plus(now, r.ms)), w.seen);
      }
    case OpReset(addr, ms, fromNow, now) =>
      if Reset(t, addr, ms, fromNow, now).1 {
        var r := At(t.items, addr);
        var start := if fromNow then now else Minus(r.next, r.ms);
        EraseWatched(t, addr, w.seen);
        InsertWatched(t.(items := Erase(t.items, addr)), r.(ms := ms, next := Plus(start, ms)), w.seen);
      }
    case OpNext(_) =>
  }

  /** New timers have new addresses. */
  ghost predicate FreshRun(w: Watch, ops: seq<Op>)
    decreases |ops|
  {
    ops == [] || ((ops[0].OpAdd? ==> !Has(w.timers.items, ops[0].addr)) && FreshRun(WatchStep(w, ops[0]), ops[1..]))
  }

  ghost function WatchRun(w: Watch, ops: seq<Op>): Watch
    decreases |ops|
  {
    if ops == [] then w else WatchRun(WatchStep(w, ops[0]), ops[1..])
  }

  ghost predicate AlwaysWatched(w: Watch, ops: seq<Op>)
    decreases |ops|
  {
    Watched(w) && (ops == [] || AlwaysWatched(WatchStep(w, ops[0]), ops[1..]))
  }

  ghost predicate AlwaysUnhurried(w: Watch, ops: seq<Op>)
    decreases |ops|
  {
    ops == [] ||
    ((ops[0].OpExpire? ==> Unhurried(w, ops[0].now, ops[0].guard)) && AlwaysUnhurried(WatchStep(w, ops[0]), ops[1..]))
  }

  /** Across add, cancel, refresh, reset and the direct re-insertion of recurring timers, no
      wake-up is lost at any point of a run exactly when all of its expiries are unhurried. */
  lemma {:induction false} NoLostWakeup(w: Watch, ops: seq<Op>)
    requires Watched(w) && FreshRun(w, ops)
    ensures AlwaysWatched(w, ops) <==> AlwaysUnhurried(w, ops)
    decreases |ops|
  {
    if ops != [] {
      if ops[0].OpExpire? { ExpireWatchedExactly(w, ops[0].now, ops[0].guard); } else { WatchStepKeeps(w, ops[0]); }
      hide Watched, Unhurried;
      var w1 := WatchStep(w, ops[0]);
      assert AlwaysWatched(w1, ops[1..]) ==> Watched(w1);
      if Watched(w1) {
        NoLostWakeup(w1, ops[1..]);
      }
    }
  }

  /** Then the flag is set or nothing is due earlier than what was seen, and between two
      getNextTimer calls the idle worker is notified at most once, namely exactly if
      m_tickled is set. */
  lemma {:induction false} WatchedMeans(w: Watch, ops: seq<Op>)
    requires AlwaysWatched(w, ops)
    ensures var w' := WatchRun(w, ops);
      && (w'.timers.tickled || forall r <- w'.timers.items :: r.next >= w'.seen)
      && w'.calls <= 1 && (w'.calls == 1 <==> w'.timers.tickled)
    decreases |ops|
  {
    if ops == [] {
      if !w.timers.tickled { EarliestFirst(w.timers.items, w.seen); }
    } else {
      WatchedMeans(WatchStep(w, ops[0]), ops[1..]);
    }
  }

  /** With a rollover a recurring timer can come back earlier than anything seen, unnoticed. */
  lemma RolloverLosesWakeup(guard: Guard)
    ensures var r := Rec(0, true, 1, 2 * ROLLOVER_MS, User(0));
      var w := Watch(Timers([r], false, 2 * ROLLOVER_MS), 2 * ROLLOVER_MS, 0);
      && Watched(w)
      && !Watched(WatchStep(w, OpExpire(0, guard)))
  {
    var r := Rec(0, true, 1, 2 * ROLLOVER_MS, User(0));
    var t := Timers([r], false, 2 * ROLLOVER_MS);
    var back := r.(next := 1);
    assert [r][..1] == [r] && [r][1..] == [];
    assert Rearm([back], [], 0) == [back];
    assert Insert([], back) == [back];
    assert Rearm([], [r], 0) == [back];
    assert Expiry(t, 0, guard).0.items == [back];
  }

  /** So does a period with which the rearmed deadline wraps, with no rollover. */
  lemma WrapLosesWakeup(guard: Guard)
    ensures var r := Rec(0, true, U64 - 1, 5, User(0));
      var w := Watch(Timers([r], false, 5), 5, 0);
      && Watched(w) && !SetBack(5, 5)
      && !Watched(WatchStep(w, OpExpire(5, guard)))
  {
    var r := Rec(0, true, U64 - 1, 5, User(0));
    var t := Timers([r], false, 5);
    assert DuePrefix([r], 5) == 1;
    assert [r][..1] == [r];
    assert Expiry(t, 5, guard).1 == [r] && r in [r];
    assert Plus(5, U64 - 1) == 4;
    ExpireWatchedExactly(Watch(t, 5, 0), 5, guard);
  }
}
