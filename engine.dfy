/**
 * Facts shared by the three tick loops (lab4/edf.hpp, lab4/llf.hpp,
 * lab4/rms.hpp): where every input event is at the head of a tick, how much
 * work is left, and how each step of a tick moves events between the
 * arrival queue, the ready queue, the running slot and the finished list.
 */
module Engine {
  import opened Events
  import opened Results
  import opened Bookkeeping

  /**
   * A snapshot of a tick loop: the caller's arrival queue, the ready queue,
   * the running slot, the tick the running event was dispatched at, and the
   * trace.
   */
  datatype Sched = Sched(arrivals: seq<Event>, ready: seq<Event>, current: Event, running: bool, start: int, results: seq<Result>)

  /**
   * What a run has done so far, for the proofs: the events it was given, the
   * latest arrival among them, the trace before it began, the records it has
   * added, and the events it has completed, in order.
   */
  datatype Ledger = Ledger(input: seq<Event>, horizon: int, earlier: seq<Result>, added: seq<Result>, finished: seq<Event>)

  /** Every input event is waiting, ready, running or finished, exactly once. */
  ghost predicate Conserves(s: Sched, b: Ledger) {
    Pool(s.arrivals, s.ready, s.running, s.current, b.finished) == multiset(Ids(b.input))
  }

  /** The slices still owed. */
  ghost function Backlog(s: Sched): nat {
    Work(s.arrivals, s.ready, s.running, s.current)
  }

  /** Admission: `rest` stays waiting and `admitted` joins the tail of the ready queue. */
  function Admission(s: Sched, rest: seq<Event>, admitted: seq<Event>): Sched {
    s.(arrivals := rest, ready := s.ready + admitted)
  }

  /**
   * Dispatch at tick `i`: when nothing runs and something is ready, the ready
   * event at `k` starts running; otherwise nothing changes.
   */
  function Dispatching(s: Sched, k: nat, i: int): Sched
    requires !s.running && s.ready != [] ==> k < |s.ready|
  {
    if !s.running && s.ready != [] then s.(ready := Remove(s.ready, k), current := s.ready[k], running := true, start := i)
    else s
  }

  /** The running event, if any, runs one slice. */
  function Advance(s: Sched): Sched {
    if s.running then s.(current := s.current.(timePointer := s.current.timePointer + 1)) else s
  }

  /** The running event has run all its slices: the segment `[start - 1, i]` is recorded. */
  predicate Completes(s: Sched) {
    s.running && s.current.timePointer == s.current.totalRunTime
  }

  /** After the slice of tick `i`: a running event that has run all its slices is recorded and stops. */
  function Settle(s: Sched, i: int): Sched {
    if Completes(s) then s.(running := false, results := s.results + [Segment(s.current, s.start - 1, i, false)]) else s
  }

  /** What `Settle` does to the ledger. */
  ghost function Record(s: Sched, b: Ledger, i: int): Ledger {
    if Completes(s) then b.(added := b.added + [Segment(s.current, s.start - 1, i, false)], finished := b.finished + [s.current]) else b
  }

  /** The latest arrival in `events` (-1 when there is none). */
  ghost function LatestArrival(events: seq<Event>): (h: int)
    ensures forall k :: 0 <= k < |events| ==> events[k].inTime <= h
  {
    if events == [] then -1
    else
      var h := LatestArrival(events[1..]);
      if events[0].inTime > h then events[0].inTime else h
  }

  /**
   * Preemption at tick `i` by the ready event at `k`: the running event goes
   * back to the ready queue with this tick's slice taken back, its segment
   * `[start - 1, i - 1]` is recorded as interrupted, and the event at `k`
   * runs from tick `i` with this tick's slice.
   */
  function Preempted(s: Sched, k: nat, i: int): Sched
    requires k < |s.ready|
  {
    s.(ready := Remove(s.ready, k) + [s.current.(timePointer := s.current.timePointer - 1)],
       current := s.ready[k].(timePointer := s.ready[k].timePointer + 1),
       start := i,
       results := s.results + [Segment(s.current, s.start - 1, i - 1, true)])
  }

  /** What `Preempted` does to the ledger: the interrupted segment is added. */
  ghost function Interrupt(s: Sched, b: Ledger, i: int): Ledger {
    b.(added := b.added + [Segment(s.current, s.start - 1, i - 1, true)])
  }

  /** Everything in the arrival queue is admissible and arrives in `[a, horizon]`. */
  ghost predicate Waiting(arrivals: seq<Event>, a: int, horizon: int) {
    forall k :: 0 <= k < |arrivals| ==> Admissible(arrivals[k]) && a <= arrivals[k].inTime <= horizon
  }

  /**
   * At the head of tick `i` the running event, unless it was dispatched in
   * tick `i` itself, is not yet past its deadline at tick `i - 1`: a loop
   * that checks the deadline every tick has not let a late slice through.
   */
  ghost predicate Timely(s: Sched, i: int) {
    s.running ==> s.start == i || i - 1 <= s.current.stopTime
  }

  /**
   * Everything in the ready queue arrived before `a` and is unfinished;
   * when `unstarted`, none of it has run yet (no preemption has put it back).
   */
  ghost predicate ReadyBefore(ready: seq<Event>, a: int, unstarted: bool) {
    forall k :: 0 <= k < |ready| ==>
      && ready[k].inTime <= a - 1
      && 0 <= ready[k].timePointer < ready[k].totalRunTime
      && (unstarted ==> ready[k].timePointer == 0)
  }

  /** The identities of every event the scheduler holds, wherever it is. */
  ghost function Pool(arrivals: seq<Event>, ready: seq<Event>, running: bool, current: Event, finished: seq<Event>): multiset<Event> {
    multiset(Ids(arrivals)) + multiset(Ids(ready)) + (if running then multiset{Id(current)} else multiset{}) + multiset(Ids(finished))
  }

  /** The slices still owed to the events not yet finished. */
  ghost function Work(arrivals: seq<Event>, ready: seq<Event>, running: bool, current: Event): nat {
    SumRemaining(arrivals) + SumRemaining(ready) + (if running then Remaining(current) else 0)
  }

  /** The slices executed so far by the events not yet finished, plus those finished. */
  ghost function Executed(arrivals: seq<Event>, ready: seq<Event>, running: bool, current: Event, finished: seq<Event>): int {
    SumProgress(arrivals) + SumProgress(ready) + (if running then current.timePointer else 0) + SumProgress(finished)
  }

  /** Every segment in `rs` ends by `t`. */
  ghost predicate EndsBy(rs: seq<Result>, t: int) {
    forall k :: 0 <= k < |rs| ==> rs[k].responseEndTime <= t
  }

  /** Every segment in `rs` begins no earlier than its event's arrival. */
  ghost predicate BeginsAfterArrival(rs: seq<Result>) {
    forall k :: 0 <= k < |rs| ==> rs[k].responseBeginTime >= rs[k].inTime
  }

  /** The completion records in `rs` are those of `finished`, in order, each by its deadline when `onTime`. */
  ghost predicate CompletionsOf(rs: seq<Result>, finished: seq<Event>, onTime: bool) {
    && |Completed(rs)| == |finished|
    && forall k :: 0 <= k < |finished| ==>
         Records(Completed(rs)[k], finished[k])
         && finished[k].timePointer == finished[k].totalRunTime
         && (onTime ==> Completed(rs)[k].responseEndTime <= finished[k].stopTime)
  }

  /**
   * Admission of tick `i` keeps every owed and executed slice where it was;
   * what is admitted arrived at `i - 1`, what stays arrives later.
   */
  lemma AdmitStep(arrivals: seq<Event>, rest: seq<Event>, admitted: seq<Event>, ready: seq<Event>,
                  running: bool, current: Event, finished: seq<Event>, i: int, horizon: int, unstarted: bool)
    requires Waiting(arrivals, i - 1, horizon) && ReadyBefore(ready, i - 1, unstarted)
    requires multiset(rest) + multiset(admitted) == multiset(arrivals)
    requires forall k :: 0 <= k < |admitted| ==> admitted[k].inTime == i - 1
    requires forall k :: 0 <= k < |rest| ==> rest[k].inTime > i - 1
    ensures Waiting(rest, i, horizon) && ReadyBefore(ready + admitted, i, unstarted)
    ensures Work(rest, ready + admitted, running, current) == Work(arrivals, ready, running, current)
    ensures Executed(rest, ready + admitted, running, current, finished) == Executed(arrivals, ready, running, current, finished)
  {
    forall j | 0 <= j < |rest| ensures Admissible(rest[j]) && rest[j].inTime <= horizon {
      assert rest[j] in multiset(arrivals);
      var m :| 0 <= m < |arrivals| && arrivals[m] == rest[j];
    }
    forall j | 0 <= j < |admitted| ensures Admissible(admitted[j]) {
      assert admitted[j] in multiset(arrivals);
      var m :| 0 <= m < |arrivals| && arrivals[m] == admitted[j];
    }
    Permutation(rest + admitted, arrivals);
    Concat(rest, admitted);
    Concat(ready, admitted);
  }

  /** Admission moves events from the arrival queue to the tail of the ready queue; none is lost or gained. */
  lemma AdmitPool(arrivals: seq<Event>, ready: seq<Event>, rest: seq<Event>, admitted: seq<Event>,
                  running: bool, current: Event, finished: seq<Event>)
    requires multiset(rest) + multiset(admitted) == multiset(arrivals)
    ensures Pool(rest, ready + admitted, running, current, finished) == Pool(arrivals, ready, running, current, finished)
  {
    Permutation(rest + admitted, arrivals);
    Concat(rest, admitted);
    Concat(ready, admitted);
  }

  /** Dispatching `ready[k]` moves it to the running slot; the work owed and done stays where it was. */
  lemma DispatchStep(arrivals: seq<Event>, ready: seq<Event>, k: nat, current: Event, finished: seq<Event>, i: int, unstarted: bool)
    requires k < |ready| && ReadyBefore(ready, i, unstarted)
    ensures ReadyBefore(Remove(ready, k), i, unstarted)
    ensures ready[k].inTime <= i - 1 && 0 <= ready[k].timePointer < ready[k].totalRunTime
    ensures unstarted ==> ready[k].timePointer == 0
    ensures Work(arrivals, Remove(ready, k), true, ready[k]) == Work(arrivals, ready, false, current)
    ensures Executed(arrivals, Remove(ready, k), true, ready[k], finished) == Executed(arrivals, ready, false, current, finished)
  {
    RemoveAt(ready, k);
  }

  /** Dispatch loses and gains no event. */
  lemma DispatchPool(arrivals: seq<Event>, ready: seq<Event>, k: nat, current: Event, finished: seq<Event>)
    requires k < |ready|
    ensures Pool(arrivals, Remove(ready, k), true, ready[k], finished) == Pool(arrivals, ready, false, current, finished)
  {
    RemoveAt(ready, k);
  }

  /** Running one slice of an unfinished event takes one slice off the work owed and adds it to the work done. */
  lemma SliceStep(arrivals: seq<Event>, ready: seq<Event>, current: Event, finished: seq<Event>)
    requires 0 <= current.timePointer < current.totalRunTime
    ensures Work(arrivals, ready, true, current.(timePointer := current.timePointer + 1))
         == Work(arrivals, ready, true, current) - 1
    ensures Executed(arrivals, ready, true, current.(timePointer := current.timePointer + 1), finished)
         == Executed(arrivals, ready, true, current, finished) + 1
  {
  }

  /** Recording the completion of the running event moves it to the finished list. */
  lemma CompleteStep(arrivals: seq<Event>, ready: seq<Event>, current: Event, finished: seq<Event>)
    requires current.timePointer == current.totalRunTime
    ensures Work(arrivals, ready, false, current) == Work(arrivals, ready, true, current)
    ensures Executed(arrivals, ready, false, current, finished + [current]) == Executed(arrivals, ready, true, current, finished)
  {
    Concat(finished, [current]);
  }

  /** A slice, and the completion it may bring, loses and gains no event. */
  lemma SlicePool(arrivals: seq<Event>, ready: seq<Event>, current: Event, current': Event, finished: seq<Event>, done: bool)
    requires Id(current') == Id(current)
    ensures Pool(arrivals, ready, !done, current', finished + (if done then [current'] else []))
         == Pool(arrivals, ready, true, current, finished)
  {
    if done {
      Concat(finished, [current']);
      assert Ids([current']) == [Id(current)];
    } else {
      assert finished + [] == finished;
    }
  }

  /**
   * Preemption: the running event goes back to the ready queue with this
   * tick's slice taken away and `ready[k]` takes its place with that slice.
   */
  lemma PreemptStep(arrivals: seq<Event>, ready: seq<Event>, k: nat, current: Event, finished: seq<Event>)
    requires k < |ready|
    requires 1 <= current.timePointer <= current.totalRunTime
    requires 0 <= ready[k].timePointer < ready[k].totalRunTime
    ensures var back := current.(timePointer := current.timePointer - 1);
            var next := ready[k].(timePointer := ready[k].timePointer + 1);
            && Work(arrivals, Remove(ready, k) + [back], true, next) == Work(arrivals, ready, true, current)
            && Executed(arrivals, Remove(ready, k) + [back], true, next, finished) == Executed(arrivals, ready, true, current, finished)
  {
    var back := current.(timePointer := current.timePointer - 1);
    var next := ready[k].(timePointer := ready[k].timePointer + 1);
    RemoveAt(ready, k);
    Concat(Remove(ready, k), [back]);
    assert Remaining(back) == Remaining(current) + 1;
    assert Remaining(next) == Remaining(ready[k]) - 1;
  }

  /** Preemption loses and gains no event. */
  lemma PreemptPool(arrivals: seq<Event>, ready: seq<Event>, k: nat, current: Event, back: Event, next: Event, finished: seq<Event>)
    requires k < |ready| && Id(back) == Id(current) && Id(next) == Id(ready[k])
    ensures Pool(arrivals, Remove(ready, k) + [back], true, next, finished) == Pool(arrivals, ready, true, current, finished)
  {
    var others := Remove(ready, k);
    RemoveAt(ready, k);
    Concat(others, [back]);
    assert Ids([back]) == [Id(current)];
    assert multiset(Ids(others + [back])) == multiset(Ids(others)) + multiset{Id(current)};
  }

  /**
   * Preemption loses and gains no event and moves no slice of work: the
   * slice the running event gives back is the one the preempting event takes.
   */
  lemma PreemptKeeps(s: Sched, b: Ledger, k: nat, i: int)
    requires k < |s.ready| && s.running
    requires 1 <= s.current.timePointer <= s.current.totalRunTime
    requires 0 <= s.ready[k].timePointer < s.ready[k].totalRunTime
    ensures Conserves(Preempted(s, k, i), Interrupt(s, b, i)) == Conserves(s, b)
    ensures Backlog(Preempted(s, k, i)) == Backlog(s)
    ensures var p := Preempted(s, k, i);
            Executed(p.arrivals, p.ready, p.running, p.current, b.finished)
            == Executed(s.arrivals, s.ready, s.running, s.current, b.finished)
  {
    var back := s.current.(timePointer := s.current.timePointer - 1);
    var next := s.ready[k].(timePointer := s.ready[k].timePointer + 1);
    var p := Preempted(s, k, i);
    assert p.arrivals == s.arrivals && p.ready == Remove(s.ready, k) + [back] && p.current == next && p.running;
    assert Interrupt(s, b, i).finished == b.finished && Interrupt(s, b, i).input == b.input;
    PreemptStep(s.arrivals, s.ready, k, s.current, b.finished);
    PreemptPool(s.arrivals, s.ready, k, s.current, back, next, b.finished);
  }

  /** When the scheduler holds nothing but finished events, the pool is the finished list. */
  lemma DonePool(current: Event, finished: seq<Event>, input: seq<Event>)
    requires Pool([], [], false, current, finished) == multiset(Ids(input))
    ensures multiset(Ids(finished)) == multiset(Ids(input))
  {
  }
}
