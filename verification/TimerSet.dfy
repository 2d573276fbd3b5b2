/** The timer set as a value: what every operation of Timer and TimerManager does to
    the ordered set, the `m_tickled` flag and the last observed clock. Milliseconds are
    uint64_t in the source, so sums and differences wrap modulo 2^64. */
module TimerSet {
  import opened Base
  import opened Sums

  const U64: nat := 0x1_0000_0000_0000_0000

  /** The value getNextTimer returns for an empty set. */
  const NEVER: nat := U64 - 1

  const ROLLOVER_MS: nat := 60 * 60 * 1000

  type u64 = n: nat | n < U64

  function Plus(a: u64, b: u64): u64 { (a + b) % U64 }

  function Minus(a: u64, b: u64): u64 { (a - b) % U64 }

  /** A timer that is in the set; `addr` is the address of the Timer object. */
  datatype Rec = Rec(addr: nat, recurring: bool, ms: u64, next: u64, cb: Callback)

  /** Timer::Comparator on two non-null pointers. */
  predicate Less(a: Rec, b: Rec) {
    Before(a.next, a.addr, b.next, b.addr)
  }

  predicate Before(next1: u64, addr1: nat, next2: u64, addr2: nat) {
    next1 < next2 || (next1 == next2 && addr1 < addr2)
  }

  predicate Sorted(s: seq<Rec>) {
    forall i, j :: 0 <= i < j < |s| ==> Less(s[i], s[j])
  }

  predicate DistinctAddrs(s: seq<Rec>) {
    forall i, j :: 0 <= i < j < |s| ==> s[i].addr != s[j].addr
  }

  predicate Valid(s: seq<Rec>) {
    Sorted(s) && DistinctAddrs(s)
  }

  // ----- The ordered set -----

  /** How many elements, from the front, come before `r`. */
  function Position(s: seq<Rec>, r: Rec): (p: nat)
    ensures p <= |s|
    ensures forall i :: 0 <= i < p ==> Less(s[i], r)
    ensures p < |s| ==> !Less(s[p], r)
  {
    if s == [] || !Less(s[0], r) then 0 else 1 + Position(s[1..], r)
  }

  function Insert(s: seq<Rec>, r: Rec): seq<Rec> {
    var p := Position(s, r);
    s[..p] + ([r] + s[p..])
  }

  /** The index of the timer at `addr`, or |s|. */
  function Find(s: seq<Rec>, addr: nat): (i: nat)
    ensures i <= |s|
    ensures i < |s| ==> s[i].addr == addr
    ensures forall j :: 0 <= j < i ==> s[j].addr != addr
  {
    if s == [] || s[0].addr == addr then 0 else 1 + Find(s[1..], addr)
  }

  predicate Has(s: seq<Rec>, addr: nat) {
    Find(s, addr) < |s|
  }

  function At(s: seq<Rec>, addr: nat): (r: Rec)
    requires Has(s, addr)
    ensures r.addr == addr && r in s
  {
    s[Find(s, addr)]
  }

  function Erase(s: seq<Rec>, addr: nat): seq<Rec> {
    var i := Find(s, addr);
    if i < |s| then s[..i] + s[i + 1..] else s
  }

  lemma HasMember(s: seq<Rec>, addr: nat)
    ensures Has(s, addr) <==> exists r :: r in s && r.addr == addr
  {
    if r :| r in s && r.addr == addr {
      var j :| 0 <= j < |s| && s[j] == r;
    }
  }

  lemma InsertKeeps(s: seq<Rec>, r: Rec)
    requires Valid(s) && !Has(s, r.addr)
    ensures Valid(Insert(s, r))
  {
    var p := Position(s, r);
    var s' := Insert(s, r);
    forall i, j | 0 <= i < j < |s'| ensures Less(s'[i], s'[j]) && s'[i].addr != s'[j].addr {
      assert s'[i] == if i < p then s[i] else if i == p then r else s[i - 1];
      assert s'[j] == if j < p then s[j] else if j == p then r else s[j - 1];
      if i == p { assert !Less(s[p], r); }
    }
  }

  lemma EraseKeeps(s: seq<Rec>, addr: nat)
    requires Valid(s)
    ensures Valid(Erase(s, addr)) && !Has(Erase(s, addr), addr)
    ensures forall r :: r in Erase(s, addr) <==> r in s && r.addr != addr
  {
    EraseMembers(s, addr);
    HasMember(Erase(s, addr), addr);
    EraseSorted(s, addr);
    hide *;
  }

  lemma EraseSorted(s: seq<Rec>, addr: nat)
    requires Valid(s)
    ensures Valid(Erase(s, addr))
  {
    var i, s' := Find(s, addr), Erase(s, addr);
    if i < |s| {
      forall a, b | 0 <= a < b < |s'| ensures Less(s'[a], s'[b]) && s'[a].addr != s'[b].addr {
        var x, y := if a < i then a else a + 1, if b < i then b else b + 1;
        assert s'[a] == s[x] && s'[b] == s[y];
      }
      hide Less;
    }
  }

  lemma EraseMembers(s: seq<Rec>, addr: nat)
    requires DistinctAddrs(s)
    ensures forall r :: r in Erase(s, addr) <==> r in s && r.addr != addr
  {
    var i, s' := Find(s, addr), Erase(s, addr);
    if i < |s| {
      forall r | r in s && r.addr != addr ensures r in s' {
        var k :| 0 <= k < |s| && s[k] == r;
        assert s'[if k < i then k else k - 1] == r;
      }
    }
  }

  lemma InsertMembers(s: seq<Rec>, r: Rec)
    ensures forall x :: x in Insert(s, r) <==> x in s || x == r
  {
    var p := Position(s, r);
    assert s == s[..p] + s[p..];
  }

  lemma InsertGathers<X>(s: seq<Rec>, r: Rec, f: Rec -> multiset<X>)
    ensures Gather(Insert(s, r), f) == Gather(s, f) + f(r)
  {
    var p := Position(s, r);
    GatherRemove(Insert(s, r), p, f);
    assert Insert(s, r)[..p] + Insert(s, r)[p + 1..] == s;
  }

  lemma EraseGathers<X>(s: seq<Rec>, addr: nat, f: Rec -> multiset<X>)
    ensures Gather(s, f) == Gather(Erase(s, addr), f) + (if Has(s, addr) then f(At(s, addr)) else multiset{})
  {
    if Has(s, addr) {
      GatherRemove(s, Find(s, addr), f);
    }
  }

  // ----- The operations -----

  datatype Timers = Timers(items: seq<Rec>, tickled: bool, previous: u64)

  /** addTimer(val, lock): the flag says whether onTimerInsertedAtFront is called. */
  function AddTimer(t: Timers, r: Rec): (Timers, bool) {
    var atFront := Position(t.items, r) == 0 && !t.tickled;
    (t.(items := Insert(t.items, r), tickled := t.tickled || atFront), atFront)
  }

  function Cancel(t: Timers, addr: nat): (Timers, bool) {
    if Has(t.items, addr) then (t.(items := Erase(t.items, addr)), true) else (t, false)
  }

  /** Result, and whether onTimerInsertedAtFront is called. */
  function Refresh(t: Timers, addr: nat, now: u64): (Timers, bool, bool) {
    if !Has(t.items, addr) then (t, false, false)
    else
      var r := At(t.items, addr);
      var (t', front) := AddTimer(t.(items := Erase(t.items, addr)), r.(next := Plus(now, r.ms)));
      (t', true, front)
  }

  function Reset(t: Timers, addr: nat, ms: u64, fromNow: bool, now: u64): (Timers, bool, bool) {
    if !Has(t.items, addr) then (t, false, false)
    else
      var r := At(t.items, addr);
      if ms == r.ms && !fromNow then (t, false, false)
      else
        var start := if fromNow then now else Minus(r.next, r.ms);
        var (t', front) := AddTimer(t.(items := Erase(t.items, addr)), r.(ms := ms, next := Plus(start, ms)));
        (t', true, front)
  }

  function GetNextTimer(t: Timers, now: u64): (Timers, u64) {
    var t' := t.(tickled := false);
    if t.items == [] then (t', NEVER)
    else if now >= t.items[0].next then (t', 0)
    else (t', t.items[0].next - now)
  }

  /** delectClockRollover: the clock went back by more than an hour. The bound is an
      unsigned difference, so it wraps while the last clock is below one hour. */
  predicate Rollover(previous: u64, now: u64) {
    now < previous && now < Minus(previous, ROLLOVER_MS)
  }

  /** How many timers, from the front, are due at `now`. */
  function DuePrefix(s: seq<Rec>, now: u64): (k: nat)
    ensures k <= |s|
    ensures forall i :: 0 <= i < k ==> s[i].next <= now
    ensures k < |s| ==> s[k].next > now
  {
    if s == [] || s[0].next > now then 0 else 1 + DuePrefix(s[1..], now)
  }

  /** How many timers listExpiredCb takes from a non-empty set. The early return tests
      the front deadline with `<`, so an overdue timer makes it take none. */
  function TakenAsWritten(s: seq<Rec>, previous: u64, now: u64): (k: nat)
    ensures k <= |s|
  {
    if Rollover(previous, now) then |s|
    else if s != [] && s[0].next < now then 0
    else DuePrefix(s, now)
  }

  /** The same with the test turned round, as getNextTimer's own test has it. */
  function TakenAsIntended(s: seq<Rec>, previous: u64, now: u64): (k: nat)
    ensures k <= |s|
  {
    if Rollover(previous, now) then |s| else DuePrefix(s, now)
  }

  /** Put the recurring ones of the taken timers back, one period after `now`. */
  function Rearm(s: seq<Rec>, taken: seq<Rec>, now: u64): seq<Rec>
    decreases |taken|
  {
    if taken == [] then s
    else if taken[0].recurring then Rearm(Insert(s, taken[0].(next := Plus(now, taken[0].ms))), taken[1..], now)
    else Rearm(s, taken[1..], now)
  }

  function Callbacks(taken: seq<Rec>): (cbs: seq<Callback>)
    ensures |cbs| == |taken| && forall i :: 0 <= i < |cbs| ==> cbs[i] == taken[i].cb
  {
    if taken == [] then [] else [taken[0].cb] + Callbacks(taken[1..])
  }

  /** Hand out the first k timers. */
  function HandOut(t: Timers, k: nat, now: u64): (Timers, seq<Rec>)
    requires k <= |t.items|
  {
    (t.(items := Rearm(t.items[k..], t.items[..k], now), previous := now), t.items[..k])
  }

  /** listExpiredCb, and the timers whose callbacks it hands out. */
  function ListExpired(t: Timers, now: u64): (Timers, seq<Rec>) {
    if t.items == [] then (t, []) else HandOut(t, TakenAsWritten(t.items, t.previous, now), now)
  }

  /** listExpiredCb with the early return's test turned round. */
  function ListExpiredIntended(t: Timers, now: u64): (Timers, seq<Rec>) {
    if t.items == [] then (t, []) else HandOut(t, TakenAsIntended(t.items, t.previous, now), now)
  }

  /** The two forms of the early return. */
  datatype Guard = AsWritten | Intended

  function Expiry(t: Timers, now: u64, guard: Guard): (Timers, seq<Rec>) {
    match guard
    case AsWritten => ListExpired(t, now)
    case Intended => ListExpiredIntended(t, now)
  }

  /** How many timers an expiry takes from a non-empty set. */
  function Taken(t: Timers, now: u64, guard: Guard): (k: nat)
    ensures k <= |t.items|
  {
    match guard
    case AsWritten => TakenAsWritten(t.items, t.previous, now)
    case Intended => TakenAsIntended(t.items, t.previous, now)
  }

  lemma ExpiryIs(t: Timers, now: u64, guard: Guard)
    ensures Expiry(t, now, guard) == if t.items == [] then (t, []) else HandOut(t, Taken(t, now, guard), now)
  {
  }

  // ----- The set stays an ordered set of distinct timers -----

  /** The same Timer object, possibly with another deadline or period. */
  predicate SameTimer(a: Rec, b: Rec) {
    a.addr == b.addr && a.cb == b.cb && a.recurring == b.recurring
  }

  predicate Known(s: seq<Rec>, r: Rec) {
    exists x :: x in s && SameTimer(x, r)
  }

  /** Every timer of s' is one of s. */
  ghost predicate Within(s': seq<Rec>, s: seq<Rec>) {
    forall r <- s' :: Known(s, r)
  }

  /** In a valid set the address determines the timer. */
  lemma AddrUnique(s: seq<Rec>, a: Rec, b: Rec)
    requires Valid(s) && a in s && b in s && a.addr == b.addr
    ensures a == b
  {
    var i :| 0 <= i < |s| && s[i] == a;
    var j :| 0 <= j < |s| && s[j] == b;
    assert i == j;
  }

  lemma AddTimerEffect(t: Timers, r: Rec)
    requires Valid(t.items) && !Has(t.items, r.addr)
    ensures var t' := AddTimer(t, r).0;
      Valid(t'.items) && forall x :: x in t'.items <==> x in t.items || x == r
  {
    InsertKeeps(t.items, r);
    InsertMembers(t.items, r);
  }

  lemma CancelEffect(t: Timers, addr: nat)
    requires Valid(t.items)
    ensures var t' := Cancel(t, addr).0;
      && Valid(t'.items) && !Has(t'.items, addr)
      && forall x :: x in t'.items <==> x in t.items && x.addr != addr
  {
    EraseKeeps(t.items, addr);
    HasMember(t.items, addr);
  }

  /** Take a timer out, change its key, put it back: what refresh and reset do. */
  lemma ReplaceEffect(s: seq<Rec>, r: Rec)
    requires Valid(s) && Has(s, r.addr) && SameTimer(At(s, r.addr), r)
    ensures var s' := Insert(Erase(s, r.addr), r); Valid(s') && Within(s', s) && Within(s, s')
    ensures r in Insert(Erase(s, r.addr), r)
  {
    var s' := Insert(Erase(s, r.addr), r);
    EraseKeeps(s, r.addr);
    InsertKeeps(Erase(s, r.addr), r);
    InsertMembers(Erase(s, r.addr), r);
    forall x | x in s' ensures Known(s, x) {
      if x == r { assert At(s, r.addr) in s; } else { assert x in s && SameTimer(x, x); }
    }
    forall x | x in s ensures Known(s', x) {
      if x.addr == r.addr {
        AddrUnique(s, x, At(s, r.addr));
        assert r in s' && SameTimer(r, x);
      } else {
        assert x in s' && SameTimer(x, x);
      }
    }
  }

  lemma RefreshEffect(t: Timers, addr: nat, now: u64)
    requires Valid(t.items)
    ensures var t' := Refresh(t, addr, now).0; Valid(t'.items) && Within(t'.items, t.items)
  {
    if Has(t.items, addr) {
      ReplaceEffect(t.items, At(t.items, addr).(next := Plus(now, At(t.items, addr).ms)));
    } else {
      SelfWithin(t.items);
    }
  }

  lemma SelfWithin(s: seq<Rec>)
    ensures Within(s, s)
  {
    forall x | x in s ensures Known(s, x) { assert SameTimer(x, x); }
  }

  lemma ResetEffect(t: Timers, addr: nat, ms: u64, fromNow: bool, now: u64)
    requires Valid(t.items)
    ensures var t' := Reset(t, addr, ms, fromNow, now).0; Valid(t'.items) && Within(t'.items, t.items)
  {
    if Reset(t, addr, ms, fromNow, now).1 {
      var r := At(t.items, addr);
      var start := if fromNow then now else Minus(r.next, r.ms);
      ReplaceEffect(t.items, r.(ms := ms, next := Plus(start, ms)));
    } else {
      SelfWithin(t.items);
    }
  }

  /** No timer of `taken` is in s. */
  predicate Apart(s: seq<Rec>, taken: seq<Rec>) {
    forall r <- taken :: !Has(s, r.addr)
  }

  lemma {:induction false} RearmKeeps(s: seq<Rec>, taken: seq<Rec>, now: u64)
    requires Valid(s) && DistinctAddrs(taken) && Apart(s, taken)
    ensures Valid(Rearm(s, taken, now))
    ensures forall x :: x in Rearm(s, taken, now) <==>
      x in s || exists r :: r in taken && r.recurring && x == r.(next := Plus(now, r.ms))
    decreases |taken|
  {
    if taken != [] {
      var rest := taken[1..];
      assert taken == [taken[0]] + rest;
      if taken[0].recurring {
        var r := taken[0].(next := Plus(now, taken[0].ms));
        InsertKeeps(s, r);
        InsertMembers(s, r);
        forall x | x in rest ensures !Has(Insert(s, r), x.addr) {
          var j :| 0 <= j < |rest| && rest[j] == x;
          assert taken[0].addr != taken[j + 1].addr;
          HasMember(s, x.addr);
          HasMember(Insert(s, r), x.addr);
        }
        RearmKeeps(Insert(s, r), rest, now);
      } else {
        RearmKeeps(s, rest, now);
      }
    }
  }

  lemma SplitApart(s: seq<Rec>, k: nat)
    requires Valid(s) && k <= |s|
    ensures Valid(s[..k]) && Valid(s[k..]) && Apart(s[k..], s[..k])
  {
    forall r | r in s[..k] ensures !Has(s[k..], r.addr) {
      var i :| 0 <= i < k && s[i] == r;
      assert forall j :: k <= j < |s| ==> s[j].addr != r.addr;
    }
  }

  lemma HandOutEffect(t: Timers, k: nat, now: u64)
    requires Valid(t.items) && k <= |t.items|
    ensures var (t', taken) := HandOut(t, k, now); Valid(t'.items) && Within(t'.items, t.items)
  {
    SplitApart(t.items, k);
    RearmKeeps(t.items[k..], t.items[..k], now);
    forall x | x in HandOut(t, k, now).0.items ensures Known(t.items, x) {
      if x in t.items[k..] {
        assert x in t.items && SameTimer(x, x);
      } else {
        var r :| r in t.items[..k] && r.recurring && x == r.(next := Plus(now, r.ms));
        assert r in t.items && SameTimer(r, x);
      }
    }
  }

  lemma ListExpiredEffect(t: Timers, now: u64)
    requires Valid(t.items)
    ensures var t' := ListExpired(t, now).0; Valid(t'.items) && Within(t'.items, t.items)
  {
    if t.items == [] {
      SelfWithin(t.items);
    } else {
      HandOutEffect(t, TakenAsWritten(t.items, t.previous, now), now);
    }
  }

  lemma ExpiryEffect(t: Timers, now: u64, guard: Guard)
    requires Valid(t.items)
    ensures var t' := Expiry(t, now, guard).0; Valid(t'.items) && Within(t'.items, t.items)
  {
    if guard.AsWritten? {
      ListExpiredEffect(t, now);
    } else if t.items == [] {
      SelfWithin(t.items);
    } else {
      HandOutEffect(t, TakenAsIntended(t.items, t.previous, now), now);
    }
  }
}
