/** Collecting a multiset from every element of a sequence. Each whole-system
    quantity of the reactor (armed bits, busy workers, outstanding tasks) is such a
    collection, and each step changes it at one place. */
module Sums {

  ghost function Gather<T, X>(s: seq<T>, f: T -> multiset<X>): multiset<X> {
    if s == [] then multiset{} else f(s[0]) + Gather(s[1..], f)
  }

  lemma {:induction false} GatherAppend<T, X>(a: seq<T>, b: seq<T>, f: T -> multiset<X>)
    ensures Gather(a + b, f) == Gather(a, f) + Gather(b, f)
  {
    if a == [] {
      assert a + b == b;
    } else {
      assert (a + b)[1..] == a[1..] + b;
      GatherAppend(a[1..], b, f);
    }
  }

  lemma GatherOne<T, X>(x: T, f: T -> multiset<X>)
    ensures Gather([x], f) == f(x)
  {
    assert [x][1..] == [];
  }

  lemma GatherPush<T, X>(s: seq<T>, x: T, f: T -> multiset<X>)
    ensures Gather(s + [x], f) == Gather(s, f) + f(x)
  {
    GatherAppend(s, [x], f);
    GatherOne(x, f);
  }

  lemma GatherRemove<T, X>(s: seq<T>, i: nat, f: T -> multiset<X>)
    requires i < |s|
    ensures Gather(s, f) == Gather(s[..i] + s[i + 1..], f) + f(s[i])
  {
    assert s == s[..i] + ([s[i]] + s[i + 1..]);
    GatherAppend(s[..i], [s[i]] + s[i + 1..], f);
    GatherAppend([s[i]], s[i + 1..], f);
    GatherOne(s[i], f);
    GatherAppend(s[..i], s[i + 1..], f);
  }

  lemma GatherUpdate<T, X>(s: seq<T>, i: nat, x: T, f: T -> multiset<X>)
    requires i < |s|
    ensures Gather(s[i := x], f) + f(s[i]) == Gather(s, f) + f(x)
  {
    GatherRemove(s, i, f);
    GatherRemove(s[i := x], i, f);
    assert s[i := x][..i] + s[i := x][i + 1..] == s[..i] + s[i + 1..];
  }

  lemma GatherHas<T, X>(s: seq<T>, i: nat, f: T -> multiset<X>)
    requires i < |s|
    ensures f(s[i]) <= Gather(s, f)
  {
    GatherRemove(s, i, f);
  }

  lemma GatherHasTwo<T, X>(s: seq<T>, i: nat, j: nat, f: T -> multiset<X>)
    requires i < j < |s|
    ensures f(s[i]) + f(s[j]) <= Gather(s, f)
  {
    GatherRemove(s, j, f);
    var rest := s[..j] + s[j + 1..];
    assert rest[i] == s[i];
    GatherHas(rest, i, f);
  }

  /** Whatever is collected comes from some element. */
  lemma {:induction false} GatherFrom<T, X>(s: seq<T>, x: X, f: T -> multiset<X>) returns (i: nat)
    requires x in Gather(s, f)
    ensures i < |s| && x in f(s[i])
  {
    if x in f(s[0]) {
      i := 0;
    } else {
      var j := GatherFrom(s[1..], x, f);
      i := j + 1;
    }
  }

  /** Nothing is collected when no element has anything to give. */
  lemma {:induction false} GatherNone<T, X>(s: seq<T>, f: T -> multiset<X>)
    requires forall i :: 0 <= i < |s| ==> f(s[i]) == multiset{}
    ensures Gather(s, f) == multiset{}
  {
    if s != [] {
      GatherNone(s[1..], f);
    }
  }

  /** Replace one element: what the element gains and loses, the whole gains and loses. */
  lemma GatherShift<T, X>(s: seq<T>, i: nat, x: T, f: T -> multiset<X>, gained: multiset<X>, lost: multiset<X>)
    requires i < |s|
    requires f(x) + lost == f(s[i]) + gained
    ensures Gather(s[i := x], f) + lost == Gather(s, f) + gained
  {
    GatherUpdate(s, i, x, f);
    Balance(Gather(s[i := x], f), Gather(s, f), f(x), f(s[i]), gained, lost);
  }

  lemma Balance<X>(all': multiset<X>, all: multiset<X>, one': multiset<X>, one: multiset<X>,
                   gained: multiset<X>, lost: multiset<X>)
    requires all' + one == all + one'
    requires one' + lost == one + gained
    ensures all' + lost == all + gained
  {
    forall x: X ensures (all' + lost)[x] == (all + gained)[x] {
      assert (all' + one)[x] == (all + one')[x];
      assert (one' + lost)[x] == (one + gained)[x];
    }
  }
}
