/**
 * Accounting over the events a scheduler holds: which events exist (up to
 * their run-time progress), how much of their work is done, how much is left.
 * The tick loops' invariants are stated with these.
 */
module Bookkeeping {
  import opened Events

  /** An event with its mutable run-time fields (progress and laxity) cleared: its identity. */
  function Id(e: Event): Event {
    e.(timePointer := 0, laxity := 0)
  }

  function Ids(s: seq<Event>): seq<Event> {
    seq(|s|, k requires 0 <= k < |s| => Id(s[k]))
  }

  /** The slices `e` still needs (0 for an event already over its total). */
  function Remaining(e: Event): nat {
    if e.timePointer <= e.totalRunTime then e.totalRunTime - e.timePointer else 0
  }

  function SumRemaining(s: seq<Event>): nat {
    if s == [] then 0 else Remaining(s[0]) + SumRemaining(s[1..])
  }

  /** The slices executed so far, over all of `s`. */
  function SumProgress(s: seq<Event>): int {
    if s == [] then 0 else s[0].timePointer + SumProgress(s[1..])
  }

  /** The slices `s` needs in all. */
  function SumTotal(s: seq<Event>): int {
    if s == [] then 0 else s[0].totalRunTime + SumTotal(s[1..])
  }

  /** `s` without its element at `k`: what popping that element off a queue leaves. */
  function Remove(s: seq<Event>, k: nat): (r: seq<Event>)
    requires k < |s|
    ensures |r| == |s| - 1
  {
    s[..k] + s[k + 1..]
  }

  /** Popping the element at `k` leaves every other element, in order. */
  lemma RemoveIndex(s: seq<Event>, k: nat)
    requires k < |s|
    ensures multiset(s) == multiset(Remove(s, k)) + multiset{s[k]}
    ensures forall j :: 0 <= j < k ==> Remove(s, k)[j] == s[j]
    ensures forall j :: k <= j < |s| - 1 ==> Remove(s, k)[j] == s[j + 1]
  {
    assert s == s[..k] + [s[k]] + s[k + 1..];
  }

  lemma {:induction false} Concat(a: seq<Event>, b: seq<Event>)
    ensures Ids(a + b) == Ids(a) + Ids(b)
    ensures SumRemaining(a + b) == SumRemaining(a) + SumRemaining(b)
    ensures SumProgress(a + b) == SumProgress(a) + SumProgress(b)
    ensures SumTotal(a + b) == SumTotal(a) + SumTotal(b)
  {
    if a == [] {
      assert a + b == b;
    } else {
      assert (a + b)[1..] == a[1..] + b;
      Concat(a[1..], b);
    }
  }

  /** Taking the element at `k` out of `s` takes exactly its share out of every account. */
  lemma {:induction false} RemoveAt(s: seq<Event>, k: nat)
    requires k < |s|
    ensures multiset(s) == multiset(Remove(s, k)) + multiset{s[k]}
    ensures multiset(Ids(s)) == multiset(Ids(Remove(s, k))) + multiset{Id(s[k])}
    ensures SumRemaining(s) == SumRemaining(Remove(s, k)) + Remaining(s[k])
    ensures SumProgress(s) == SumProgress(Remove(s, k)) + s[k].timePointer
    ensures SumTotal(s) == SumTotal(Remove(s, k)) + s[k].totalRunTime
  {
    var front, back := s[..k], s[k + 1..];
    assert s == front + ([s[k]] + back);
    Concat(front, [s[k]] + back);
    Concat([s[k]], back);
    Concat(front, back);
    assert Ids([s[k]]) == [Id(s[k])];
    assert Ids(s) == Ids(front) + ([Id(s[k])] + Ids(back));
    assert Ids(Remove(s, k)) == Ids(front) + Ids(back);
  }

  /** An element of a sequence's multiset occurs at some index. */
  lemma Find(s: seq<Event>, x: Event) returns (k: nat)
    requires x in multiset(s)
    ensures k < |s| && s[k] == x
  {
    assert x in s;
    k :| 0 <= k < |s| && s[k] == x;
  }

  /** Taking the first element off `s` takes its share out of every account. */
  lemma {:induction false} RemoveFirst(s: seq<Event>)
    requires s != []
    ensures multiset(s) == multiset{s[0]} + multiset(s[1..])
    ensures multiset(Ids(s)) == multiset{Id(s[0])} + multiset(Ids(s[1..]))
    ensures SumRemaining(s) == Remaining(s[0]) + SumRemaining(s[1..])
    ensures SumProgress(s) == s[0].timePointer + SumProgress(s[1..])
    ensures SumTotal(s) == s[0].totalRunTime + SumTotal(s[1..])
  {
    RemoveAt(s, 0);
    assert Remove(s, 0) == s[1..];
  }

  /** Taking the same event off two sequences holding the same events leaves two sequences holding the same events. */
  lemma Cancel(a: seq<Event>, b: seq<Event>, k: nat)
    requires a != [] && k < |b| && b[k] == a[0] && multiset(a) == multiset(b)
    ensures multiset(a[1..]) == multiset(Remove(b, k))
  {
    assert a == [a[0]] + a[1..];
    RemoveIndex(b, k);
    calc {
      multiset(a[1..]);
      multiset(a) - multiset{a[0]};
      multiset(b) - multiset{b[k]};
      multiset(Remove(b, k));
    }
  }

  /** Two sequences holding the same events, in any order, have the same accounts. */
  lemma {:induction false} Permutation(a: seq<Event>, b: seq<Event>)
    requires multiset(a) == multiset(b)
    ensures multiset(Ids(a)) == multiset(Ids(b))
    ensures SumRemaining(a) == SumRemaining(b)
    ensures SumProgress(a) == SumProgress(b)
    ensures SumTotal(a) == SumTotal(b)
  {
    if a == [] {
      assert |multiset(b)| == 0;
    } else {
      var k := Find(b, a[0]);
      Cancel(a, b, k);
      Permutation(a[1..], Remove(b, k));
      RemoveFirst(a);
      RemoveAt(b, k);
    }
  }

  /** Two sequences with the same identities need the same total work. */
  lemma SameIdsSameTotal(a: seq<Event>, b: seq<Event>)
    requires multiset(Ids(a)) == multiset(Ids(b))
    ensures SumTotal(a) == SumTotal(b)
  {
    TotalOfIds(a);
    TotalOfIds(b);
    Permutation(Ids(a), Ids(b));
  }

  lemma {:induction false} TotalOfIds(s: seq<Event>)
    ensures SumTotal(Ids(s)) == SumTotal(s)
  {
    if s != [] {
      assert Ids(s)[1..] == Ids(s[1..]);
      TotalOfIds(s[1..]);
    }
  }

  /** When every event in `s` is finished, its executed work is its total work. */
  lemma {:induction false} FinishedProgress(s: seq<Event>)
    requires forall k :: 0 <= k < |s| ==> s[k].timePointer == s[k].totalRunTime
    ensures SumProgress(s) == SumTotal(s)
  {
    if s != [] {
      FinishedProgress(s[1..]);
    }
  }
}
