/** Timer and TimerManager as objects that are changed in place, proved against TimerSet:
    every method does to the set what its function there says. */
module TimerCode {
  import opened Base
  import opened TimerSet
  import TR = TimerRuns

  class Timer {
    const addr: nat
    const recurring: bool
    const manager: TimerManager
    var ms: u64
    var next: u64
    var cb: Option<Callback>

    constructor (addr: nat, ms: u64, now: u64, cb: Callback, recurring: bool, manager: TimerManager)
      ensures this.manager == manager && this.cb == Some(cb)
      ensures RecOf(this) == Rec(addr, recurring, ms, Plus(ms, now), cb)
    {
      this.addr, this.recurring, this.manager := addr, recurring, manager;
      this.ms, this.next, this.cb := ms, Plus(ms, now), Some(cb);
    }

    /** Timer::cancel: it succeeds exactly while the timer still has its callback. */
    method Cancel() returns (done: bool)
      requires manager.Valid() && this in manager.made
      modifies this`cb, manager`timers, manager`items
      ensures manager.Valid() && cb == None && done == old(cb.Some?)
      ensures (manager.View(), done) == TimerSet.Cancel(old(manager.View()), addr)
    {
      manager.InSetIffArmed(this);
      if cb.Some? {
        var i := manager.IndexOf(this, {});
        cb := None;
        manager.EraseAt(i, this);
        return true;
      }
      return false;
    }

    /** Timer::refresh. */
    method Refresh(now: u64) returns (done: bool, notified: bool)
      requires manager.Valid() && this in manager.made
      modifies this`ms, this`next, manager`timers, manager`items, manager`tickled
      ensures manager.Valid() && ms == old(ms)
      ensures (manager.View(), done, notified) == TimerSet.Refresh(old(manager.View()), addr, now)
    {
      manager.InSetIffArmed(this);
      if cb.None? {
        return false, false;
      }
      notified := Rekey(ms, Plus(now, ms));
      done := true;
    }

    /** What refresh and reset share: out of the set, a new key, and back in. */
    method Rekey(ms: u64, next: u64) returns (notified: bool)
      requires manager.Valid() && this in manager.made && cb.Some?
      requires Has(manager.items, addr) && At(manager.items, addr) == RecOf(this) && this in manager.timers
      modifies this`ms, this`next, manager`timers, manager`items, manager`tickled
      ensures manager.Valid() && this.ms == ms && this.next == next
      ensures (manager.View(), notified) == TimerSet.AddTimer(
        old(manager.View()).(items := Erase(old(manager.items), addr)), old(RecOf(this)).(ms := ms, next := next))
    {
      var i := manager.IndexOf(this, {});
      manager.EraseAt(i, this);
      this.ms, this.next := ms, next;
      notified := manager.Put(this);
    }

    /** Timer::reset. */
    method Reset(ms: u64, fromNow: bool, now: u64) returns (done: bool, notified: bool)
      requires manager.Valid() && this in manager.made
      modifies this`ms, this`next, manager`timers, manager`items, manager`tickled
      ensures manager.Valid()
      ensures (manager.View(), done, notified) == TimerSet.Reset(old(manager.View()), addr, ms, fromNow, now)
    {
      manager.InSetIffArmed(this);
      if ms == this.ms && !fromNow {
        return false, false;
      }
      if cb.None? {
        return false, false;
      }
      var start := if fromNow then now else Minus(next, this.ms);
      notified := Rekey(ms, Plus(start, ms));
      done := true;
    }
  }

  function RecOf(t: Timer): Rec
    reads t
  {
    Rec(t.addr, t.recurring, t.ms, t.next, if t.cb.Some? then t.cb.value else User(0))
  }

  ghost predicate Mirrored(timers: seq<Timer>, items: seq<Rec>)
    reads timers
  {
    |items| == |timers| && forall i :: 0 <= i < |timers| ==> RecOf(timers[i]) == items[i]
  }

  ghost function Members(timers: seq<Timer>): set<Timer> {
    set t | t in timers
  }

  class TimerManager {
    var timers: seq<Timer>
    var tickled: bool
    var previous: u64
    ghost var items: seq<Rec>    // what `timers` shows
    ghost var made: set<Timer>   // every timer of this manager

    /** The timers of `made` have different addresses, and the set is made of them. */
    ghost predicate Owned()
      reads this, made
    {
      && (forall t <- timers :: t in made)
      && (forall t <- made, u <- made :: t.addr == u.addr ==> t == u)
      && (forall t <- made :: t.manager == this)
    }

    /** Apart from the timers in `out`, which are in nobody's set, a timer has its callback
        exactly while it is in the set. */
    ghost predicate ValidBut(out: set<Timer>)
      reads this, made
    {
      && Owned() && out <= made && Mirrored(timers, items) && TimerSet.Valid(items)
      && (forall t <- out :: t !in timers)
      && (forall t <- made :: t !in out ==> (t.cb.Some? <==> t in timers))
    }

    ghost predicate Valid()
      reads this, made
    {
      ValidBut({})
    }

    ghost function View(): Timers
      reads this
    {
      Timers(items, tickled, previous)
    }

    constructor (now: u64)
      ensures Valid() && View() == Timers([], false, now) && made == {}
    {
      timers, tickled, previous, items, made := [], false, now, [], {};
    }

    lemma InSet(t: Timer, out: set<Timer>)
      requires ValidBut(out) && t in made
      ensures Has(items, t.addr) <==> t in timers
      ensures t in timers ==> At(items, t.addr) == RecOf(t)
    {
      if t in timers {
        var i :| 0 <= i < |timers| && timers[i] == t;
        assert items[i] == RecOf(t);
        HasMember(items, t.addr);
        AddrUnique(items, items[i], At(items, t.addr));
      }
      if Has(items, t.addr) {
        var i := Find(items, t.addr);
        assert RecOf(timers[i]) == items[i] && timers[i] in made;
      }
    }

    /** In every state a timer has its callback exactly if it is in the set, so what cancel
        and the others look for is found. */
    lemma InSetIffArmed(t: Timer)
      requires Valid() && t in made
      ensures Has(items, t.addr) <==> t.cb.Some?
      ensures t.cb.Some? ==> At(items, t.addr) == RecOf(t) && t in timers
    {
      InSet(t, {});
    }

    /** std::set::find. */
    method IndexOf(t: Timer, ghost out: set<Timer>) returns (i: nat)
      requires ValidBut(out) && t in timers
      ensures i < |timers| && timers[i] == t && i == Find(items, t.addr)
    {
      ghost var at := Find(items, t.addr);
      InSet(t, out);
      assert RecOf(timers[at]) == items[at] && timers[at] in made;
      assert timers[at] == t;
      i := 0;
      while timers[i] != t
        invariant 0 <= i <= at < |timers|
        decreases |timers| - i
      {
        i := i + 1;
      }
      assert items[i] == RecOf(timers[i]);
    }

    /** std::set::erase(it). The timer's own fields may have changed before. */
    method EraseAt(i: nat, t: Timer)
      requires Owned() && TimerSet.Valid(items) && |items| == |timers|
      requires i < |timers| && timers[i] == t && i == Find(items, t.addr)
      requires forall j :: 0 <= j < |timers| && j != i ==> RecOf(timers[j]) == items[j]
      requires forall u <- made :: u != t ==> (u.cb.Some? <==> u in timers)
      modifies this`timers, this`items
      ensures items == Erase(old(items), t.addr) && ValidBut({t})
      ensures t.cb == None ==> Valid()
    {
      EraseKeeps(items, t.addr);
      ghost var before, shown := timers, items;
      timers := timers[..i] + timers[i + 1..];
      items := Erase(items, t.addr);
      Erased(before, shown, i, t);
      hide Erase, TimerSet.Valid, Mirrored, RecOf;
    }

    lemma Erased(before: seq<Timer>, shown: seq<Rec>, i: nat, t: Timer)
      requires i < |before| == |shown| && before[i] == t && DistinctAddrs(shown) && shown[i].addr == t.addr
      requires forall j :: 0 <= j < |before| && j != i ==> RecOf(before[j]) == shown[j]
      requires timers == before[..i] + before[i + 1..] && items == shown[..i] + shown[i + 1..]
      ensures Mirrored(timers, items) && t !in timers
      ensures forall u :: u in timers <==> u in before && u != t
    {
      forall u | u in before && u != t ensures u in timers {
        var j :| 0 <= j < |before| && before[j] == u;
        assert timers[if j < i then j else j - 1] == u;
      }
      forall j | 0 <= j < |timers| ensures RecOf(timers[j]) == items[j] && timers[j] != t && timers[j] in before {
        ErasedAt(before, shown, i, t, j);
      }
    }

    lemma ErasedAt(before: seq<Timer>, shown: seq<Rec>, i: nat, t: Timer, j: nat)
      requires i < |before| == |shown| && before[i] == t && DistinctAddrs(shown) && shown[i].addr == t.addr
      requires forall j :: 0 <= j < |before| && j != i ==> RecOf(before[j]) == shown[j]
      requires timers == before[..i] + before[i + 1..] && items == shown[..i] + shown[i + 1..] && j < |timers|
      ensures RecOf(timers[j]) == items[j] && timers[j] != t && timers[j] in before
    {
      var k := if j < i then j else j + 1;
      assert timers[j] == before[k] && items[j] == shown[k];
      assert RecOf(before[k]).addr == shown[k].addr != shown[i].addr;
    }

    /** std::set::insert: the position is found by the comparator. */
    method SetInsert(t: Timer, ghost out: set<Timer>) returns (p: nat)
      requires ValidBut(out) && t in out && t.cb.Some?
      modifies this`timers, this`items
      ensures p == Position(old(items), RecOf(t)) && items == Insert(old(items), RecOf(t))
      ensures ValidBut(out - {t})
    {
      InSet(t, out);
      InsertKeeps(items, RecOf(t));
      ghost var before, shown := timers, items;
      p := 0;
      while p < |timers| && Before(timers[p].next, timers[p].addr, t.next, t.addr)
        invariant 0 <= p <= Position(items, RecOf(t)) <= |timers|
        decreases |timers| - p
      {
        assert RecOf(timers[p]) == items[p];
        p := p + 1;
      }
      if p < |timers| {
        assert RecOf(timers[p]) == items[p];
      }
      timers := timers[..p] + [t] + timers[p..];
      items := Insert(items, RecOf(t));
      Inserted(before, shown, p, t);
    }

    lemma Inserted(before: seq<Timer>, shown: seq<Rec>, p: nat, t: Timer)
      requires p <= |before| && Mirrored(before, shown)
      requires timers == before[..p] + [t] + before[p..] && items == shown[..p] + ([RecOf(t)] + shown[p..])
      ensures Mirrored(timers, items) && t in timers
      ensures forall u :: u in timers <==> u == t || u in before
    {
      assert timers[p] == t;
      forall u | u in before ensures u in timers {
        var j :| 0 <= j < |before| && before[j] == u;
        assert timers[if j < p then j else j + 1] == u;
      }
    }

    /** addTimer(val, lock). */
    method Put(t: Timer) returns (notified: bool)
      requires ValidBut({t}) && t.cb.Some?
      modifies this`timers, this`items, this`tickled
      ensures Valid() && (View(), notified) == TimerSet.AddTimer(old(View()), RecOf(t))
    {
      var p := SetInsert(t, {t});
      assert {t} - {t} == {};
      notified := p == 0 && !tickled;
      if notified {
        tickled := true;
      }
    }

    /** addTimer(ms, cb, recurring). */
    method AddTimer(addr: nat, ms: u64, now: u64, cb: Callback, recurring: bool) returns (t: Timer, notified: bool)
      requires Valid() && forall u <- made :: u.addr != addr
      modifies this`timers, this`items, this`tickled, this`made
      ensures fresh(t) && made == old(made) + {t} && Valid()
      ensures (View(), notified) == TimerSet.AddTimer(old(View()), Rec(addr, recurring, ms, Plus(ms, now), cb))
    {
      t := new Timer(addr, ms, now, cb, recurring, this);
      made := made + {t};
      notified := Put(t);
    }

    method GetNextTimer(now: u64) returns (ms: u64)
      requires Valid()
      modifies this`tickled
      ensures Valid() && (View(), ms) == TimerSet.GetNextTimer(old(View()), now)
    {
      tickled := false;
      if timers == [] {
        return NEVER;
      }
      assert RecOf(timers[0]) == items[0];
      if now >= timers[0].next {
        return 0;
      }
      return timers[0].next - now;
    }

    /** lower_bound of a probe timer with deadline `now` at address `probe`, and on past the
        timers with that deadline: the iterator at which the expired ones end. */
    method ExpiredEnd(now: u64, probe: nat) returns (it: nat)
      requires Valid()
      ensures it == DuePrefix(items, now)
    {
      ghost var key := Rec(probe, false, 0, now, User(0));
      TR.ProbeAddressIrrelevant(items, key);
      it := LowerBound(now, probe);
      hide DuePrefix, Position;
      while it < |timers| && timers[it].next == now
        invariant it <= |timers|
        invariant TR.SkipEqual(items, it, now) == DuePrefix(items, now)
        decreases |timers| - it
      {
        assert RecOf(timers[it]) == items[it];
        it := it + 1;
      }
      if it < |timers| {
        assert RecOf(timers[it]) == items[it];
      }
    }

    /** std::set::lower_bound of a timer with deadline `now` at address `probe`. */
    method LowerBound(now: u64, probe: nat) returns (it: nat)
      requires Valid()
      ensures it == Position(items, Rec(probe, false, 0, now, User(0)))
    {
      ghost var key := Rec(probe, false, 0, now, User(0));
      it := 0;
      while it < |timers| && Before(timers[it].next, timers[it].addr, now, probe)
        invariant 0 <= it <= Position(items, key) <= |timers|
        decreases |timers| - it
      {
        assert RecOf(timers[it]) == items[it];
        it := it + 1;
      }
      if it < |timers| {
        assert RecOf(timers[it]) == items[it];
      }
    }

    /** timers.erase(begin, it). */
    method EraseFront(k: nat) returns (expired: seq<Timer>)
      requires Valid() && k <= |timers|
      modifies this`timers, this`items
      ensures expired == old(timers)[..k] && timers == old(timers)[k..] && items == old(items)[k..]
      ensures ValidBut(Members(expired)) && Mirrored(expired, old(items)[..k])
      ensures forall i, j :: 0 <= i < j < k ==> expired[i] != expired[j]
    {
      expired := timers[..k];
      FrontApart(k);
      timers, items := timers[k..], items[k..];
    }

    lemma FrontApart(k: nat)
      requires Valid() && k <= |timers|
      ensures TimerSet.Valid(items[k..]) && Mirrored(timers[k..], items[k..]) && Mirrored(timers[..k], items[..k])
      ensures forall i, j :: 0 <= i < j < |timers| ==> timers[i] != timers[j]
      ensures forall t :: t in timers <==> t in timers[..k] || t in timers[k..]
      ensures forall t :: t in timers[..k] ==> t !in timers[k..]
    {
      SplitApart(items, k);
      forall i, j | 0 <= i < j < |timers| ensures timers[i] != timers[j] {
        assert RecOf(timers[i]) == items[i] && RecOf(timers[j]) == items[j];
      }
      assert timers == timers[..k] + timers[k..];
    }

    /** The loop over `expired`: the callbacks are collected, recurring timers go back into the
        set directly, and the others lose their callback. */
    method HandOutFront(k: nat, now: u64) returns (cbs: seq<Callback>)
      requires Valid() && k <= |timers|
      modifies this`timers, this`items, made
      ensures Valid() && made == old(made)
      ensures items == Rearm(old(items)[k..], old(items)[..k], now) && cbs == Callbacks(old(items)[..k])
    {
      ghost var taken, rest := items[..k], items[k..];
      forall t | t in timers[..k] ensures t in timers && t.cb.Some? { assert t in timers; }
      var expired := EraseFront(k);
      cbs := [];
      var i := 0;
      assert taken[0..] == taken && expired[0..] == expired;
      hide Rearm, Callbacks;
      while i < |expired|
        invariant 0 <= i <= |expired| == k == |taken|
        invariant ValidBut(Members(expired[i..])) && StillDue(expired, taken, i)
        invariant Rearm(items, taken[i..], now) == Rearm(rest, taken, now)
        invariant cbs + Callbacks(taken[i..]) == Callbacks(taken)
      {
        OneHandedOut(items, taken, i, now, cbs);
        var cb := Turn(expired, i, now, taken);
        cbs := cbs + [cb];
        i := i + 1;
      }
      NoneLeft(taken, expired, now);
    }

    lemma NoneLeft(taken: seq<Rec>, expired: seq<Timer>, now: u64)
      ensures Rearm(items, taken[|taken|..], now) == items && Callbacks(taken[|taken|..]) == []
      ensures Members(expired[|expired|..]) == {}
    {
    }

    lemma OneHandedOut(items: seq<Rec>, taken: seq<Rec>, i: nat, now: u64, cbs: seq<Callback>)
      requires i < |taken|
      ensures Rearm(items, taken[i..], now)
        == Rearm(if taken[i].recurring then Insert(items, taken[i].(next := Plus(now, taken[i].ms))) else items,
                 taken[i + 1..], now)
      ensures cbs + Callbacks(taken[i..]) == cbs + [taken[i].cb] + Callbacks(taken[i + 1..])
    {
      assert taken[i..][0] == taken[i] && taken[i..][1..] == taken[i + 1..];
      assert cbs + ([taken[i].cb] + Callbacks(taken[i + 1..])) == cbs + [taken[i].cb] + Callbacks(taken[i + 1..]);
    }

    lemma OneLess(expired: seq<Timer>, i: nat)
      requires i < |expired| && forall a, b :: 0 <= a < b < |expired| ==> expired[a] != expired[b]
      ensures Members(expired[i + 1..]) == Members(expired[i..]) - {expired[i]}
    {
      assert expired[i..] == [expired[i]] + expired[i + 1..];
    }

    /** The expired timers from i on are as they were taken. */
    ghost predicate StillDue(expired: seq<Timer>, taken: seq<Rec>, i: nat)
      reads expired
    {
      && i <= |expired| == |taken|
      && (forall a, b :: 0 <= a < b < |expired| ==> expired[a] != expired[b])
      && (forall j :: i <= j < |expired| ==> RecOf(expired[j]) == taken[j] && expired[j].cb.Some?)
    }

    /** What happens to one expired timer. */
    method Turn(expired: seq<Timer>, i: nat, now: u64, ghost taken: seq<Rec>) returns (cb: Callback)
      requires StillDue(expired, taken, i) && i < |expired| && ValidBut(Members(expired[i..]))
      modifies this`timers, this`items, expired[i]
      ensures StillDue(expired, taken, i + 1) && ValidBut(Members(expired[i + 1..]))
      ensures cb == taken[i].cb
      ensures items ==
        if taken[i].recurring then Insert(old(items), taken[i].(next := Plus(now, taken[i].ms))) else old(items)
    {
      var t := expired[i];
      assert RecOf(t) == taken[i];
      OneLess(expired, i);
      assert t in Members(expired[i..]) by { assert expired[i..][0] == t; }
      cb := t.cb.value;
      Rearmed(t, now, Members(expired[i..]));
    }

    method Rearmed(t: Timer, now: u64, ghost out: set<Timer>)
      requires ValidBut(out) && t in out && t.cb.Some?
      modifies this`timers, this`items, t`next, t`cb
      ensures ValidBut(out - {t})
      ensures items == if t.recurring then Insert(old(items), old(RecOf(t)).(next := Plus(now, t.ms))) else old(items)
    {
      if t.recurring {
        t.next := Plus(now, t.ms);
        var _ := SetInsert(t, out);
      } else {
        t.cb := None;
      }
    }

    lemma FrontShown()
      requires Valid() && timers != []
      ensures items != [] && RecOf(timers[0]) == items[0]
    {
    }

    lemma NoneHandedOut(t: Timers, now: u64)
      ensures HandOut(t, 0, now) == (t.(previous := now), []) && Callbacks([]) == []
    {
      assert t.items[0..] == t.items;
    }

    /** listExpiredCb. The first look under the read lock and the rest under the write lock
        are one step. */
    method ListExpiredCb(now: u64, probe: nat) returns (cbs: seq<Callback>)
      requires Valid()
      modifies this, made
      ensures Valid() && made == old(made)
      ensures var (t, taken) := TimerSet.ListExpired(old(View()), now); View() == t && cbs == Callbacks(taken)
    {
      hide TimerSet.Valid, Rearm, DuePrefix, Callbacks;
      if timers == [] {
        return [];
      }
      ghost var before := View();
      var rollover := now < previous && now < Minus(previous, ROLLOVER_MS);
      assert RecOf(timers[0]) == items[0] by { FrontShown(); }
      previous := now;
      if !rollover && timers[0].next < now {
        NoneHandedOut(before, now);
        return [];
      }
      var it := |timers|;
      if !rollover {
        it := ExpiredEnd(now, probe);
      }
      cbs := HandOutFront(it, now);
    }
  }
}
