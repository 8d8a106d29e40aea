/**
 * The priority queues of the schedulers. A `std::priority_queue` with
 * comparator `below` yields at its top an element that no other element
 * ranks above; the model keeps each queue as a sequence and selects such
 * an element explicitly. Also here: the admission step every tick loop
 * begins with (lab4/edf.hpp:40-50, lab4/llf.hpp:41-53, lab4/rms.hpp:43-53).
 */
module Queues {
  import opened Events
  import opened Bookkeeping

  /** `cmp` of lab4/edf.hpp: `a` ranks below `b` when its deadline is later, or equal and it arrived later. */
  predicate Cmp(a: Event, b: Event) {
    if a.stopTime == b.stopTime then a.inTime > b.inTime else a.stopTime > b.stopTime
  }

  /** `llf_cmp` of lab4/llf.hpp: the same on laxity instead of deadline. */
  predicate LlfCmp(a: Event, b: Event) {
    if a.laxity == b.laxity then a.inTime > b.inTime else a.laxity > b.laxity
  }

  /** `rms_cmp` of lab4/rms.hpp: `a` ranks below `b` when its priority value is SMALLER, or equal and it arrived later. */
  predicate RmsCmp(a: Event, b: Event) {
    if a.priority == b.priority then a.inTime > b.inTime else a.priority < b.priority
  }

  /** The four orders the program keeps queues in. */
  datatype Ranking = ByArrival | ByDeadline | ByLaxity | ByPriority

  predicate Below(r: Ranking, a: Event, b: Event) {
    match r
    case ByArrival => Less(a, b)
    case ByDeadline => Cmp(a, b)
    case ByLaxity => LlfCmp(a, b)
    case ByPriority => RmsCmp(a, b)
  }

  /** `q[k]` may be the queue's top: nothing in `q` ranks above it. */
  predicate IsTop(r: Ranking, q: seq<Event>, k: int) {
    0 <= k < |q| && forall j :: 0 <= j < |q| ==> !Below(r, q[k], q[j])
  }

  /** Each ranking is a strict order. */
  lemma BelowIsStrictOrder(r: Ranking, a: Event, b: Event, c: Event)
    ensures !Below(r, a, a)
    ensures Below(r, a, b) && Below(r, b, c) ==> Below(r, a, c)
  {
  }

  /** `top()`: the index of an element no other ranks above. */
  method TopIndex(r: Ranking, q: seq<Event>) returns (k: nat)
    requires |q| > 0
    ensures IsTop(r, q, k)
  {
    k := 0;
    var j := 1;
    while j < |q|
      invariant 1 <= j <= |q| && k < j
      invariant forall m :: 0 <= m < j ==> !Below(r, q[k], q[m])
    {
      if Below(r, q[k], q[j]) {
        forall m | 0 <= m < j
          ensures !Below(r, q[j], q[m])
        {
          BelowIsStrictOrder(r, q[k], q[j], q[m]);
        }
        k := j;
      }
      j := j + 1;
    }
  }

  /** The arrival queue's top is an event with the earliest arrival. */
  lemma ArrivalTop(q: seq<Event>, k: int)
    requires 0 <= k < |q|
    ensures IsTop(ByArrival, q, k) <==> forall j :: 0 <= j < |q| ==> q[k].inTime <= q[j].inTime
  {
  }

  /** The EDF ready queue's top has the earliest deadline, and among those the earliest arrival. */
  lemma DeadlineTop(q: seq<Event>, k: int)
    requires 0 <= k < |q|
    ensures IsTop(ByDeadline, q, k) <==> forall j :: 0 <= j < |q| ==>
      q[k].stopTime < q[j].stopTime || (q[k].stopTime == q[j].stopTime && q[k].inTime <= q[j].inTime)
  {
  }

  /** The LLF ready queue's top has the least laxity, and among those the earliest arrival. */
  lemma LaxityTop(q: seq<Event>, k: int)
    requires 0 <= k < |q|
    ensures IsTop(ByLaxity, q, k) <==> forall j :: 0 <= j < |q| ==>
      q[k].laxity < q[j].laxity || (q[k].laxity == q[j].laxity && q[k].inTime <= q[j].inTime)
  {
  }

  /** The RMS ready queue's top has the LARGEST priority value, and among those the earliest arrival. */
  lemma PriorityTop(q: seq<Event>, k: int)
    requires 0 <= k < |q|
    ensures IsTop(ByPriority, q, k) <==> forall j :: 0 <= j < |q| ==>
      q[k].priority > q[j].priority || (q[k].priority == q[j].priority && q[k].inTime <= q[j].inTime)
  {
  }

  /**
   * The admission loop of tick `i`, with `t == i - 1`: while the arrival
   * queue is not empty and its top arrives at `t`, pop it and push it onto
   * the ready queue. When nothing in the queue arrives before `t` (the tick
   * loops keep this), exactly the events arriving at `t` move, and no other.
   */
  method AdmitArrivals(arrivals: seq<Event>, t: int) returns (rest: seq<Event>, admitted: seq<Event>)
    requires forall k :: 0 <= k < |arrivals| ==> arrivals[k].inTime >= t
    ensures multiset(rest) + multiset(admitted) == multiset(arrivals)
    ensures forall k :: 0 <= k < |admitted| ==> admitted[k].inTime == t
    ensures forall k :: 0 <= k < |rest| ==> rest[k].inTime > t
  {
    rest, admitted := arrivals, [];
    while rest != []
      invariant multiset(rest) + multiset(admitted) == multiset(arrivals)
      invariant forall k :: 0 <= k < |admitted| ==> admitted[k].inTime == t
      invariant forall k :: 0 <= k < |rest| ==> rest[k].inTime >= t
      decreases |rest|
    {
      var k := TopIndex(ByArrival, rest);
      if rest[k].inTime != t {
        ArrivalTop(rest, k);
        break;
      }
      RemoveIndex(rest, k);
      admitted := admitted + [rest[k]];
      rest := Remove(rest, k);
    }
  }
}
