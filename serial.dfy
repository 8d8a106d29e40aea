/**
 * The tick loop shared by the two schedulers that never preempt, EDF
 * (lab4/edf.hpp) and RMS (lab4/rms.hpp): admission, dispatch of the ready
 * queue's top when nothing runs, one slice, and the completion record. What
 * holds between the steps of a tick is stated here on snapshots of the
 * scheduler's state; RMS adds that every completion meets its deadline
 * (`onTime`), since it stops at the first slice run past one.
 */
module Serial {
  import opened Events
  import opened Results
  import opened Bookkeeping
  import opened Engine

  /** A ready event runs to completion in one segment that starts no earlier than its arrival. */
  predicate RunToCompletion(r: Result, e: Event) {
    && Records(r, e)
    && !r.isInterrupted
    && Duration(r) == e.totalRunTime
    && r.responseBeginTime >= e.inTime
  }

  /**
   * Each completion record is that of the matching finished event, run to
   * completion, and when `onTime` it ends by that event's deadline.
   */
  ghost predicate Finishes(added: seq<Result>, finished: seq<Event>, onTime: bool) {
    && |added| == |finished|
    && forall k :: 0 <= k < |added| ==>
         RunToCompletion(added[k], finished[k]) && (onTime ==> added[k].responseEndTime <= finished[k].stopTime)
  }

  /** The trace of a run: what it added after `earlier`, one completion per finished event, all ended by `now`, none overlapping. */
  ghost predicate Traced(results: seq<Result>, b: Ledger, now: int, onTime: bool) {
    && results == b.earlier + b.added
    && Finishes(b.added, b.finished, onTime)
    && EndsBy(b.added, now)
    && Chronological(b.added)
  }

  /**
   * The running event was dispatched at tick `start`, after it arrived and
   * after every recorded segment ended, and has run `i - start` slices, at
   * least `least` and fewer than it needs.
   */
  ghost predicate Since(s: Sched, i: int, least: int, added: seq<Result>) {
    s.running ==>
      && s.current.timePointer == i - s.start
      && least <= s.current.timePointer < s.current.totalRunTime
      && s.current.inTime <= s.start - 1
      && EndsBy(added, s.start - 1)
  }

  /**
   * The state at the head of tick `i`: everything still waiting arrives at
   * `i - 1` or later, everything ready arrived earlier and has not run, every
   * input event is in exactly one place, the trace is sound, the running
   * event has run at least one slice, and, when `onTime`, it was not past
   * its deadline in the previous tick.
   */
  ghost predicate Head(s: Sched, b: Ledger, i: int, onTime: bool) {
    && Waiting(s.arrivals, i - 1, b.horizon) && ReadyBefore(s.ready, i - 1, true)
    && Conserves(s, b) && Traced(s.results, b, i - 1, onTime) && Since(s, i, 1, b.added)
    && (onTime ==> Timely(s, i))
  }

  /** After admission at tick `i`: what arrived at `i - 1` is ready too. */
  ghost predicate Admitted(s: Sched, b: Ledger, i: int, onTime: bool) {
    && Waiting(s.arrivals, i, b.horizon) && ReadyBefore(s.ready, i, true)
    && Conserves(s, b) && Traced(s.results, b, i - 1, onTime) && Since(s, i, 1, b.added)
  }

  /** After dispatch at tick `i`: something runs unless nothing is ready. */
  ghost predicate Dispatched(s: Sched, b: Ledger, i: int, onTime: bool) {
    && Waiting(s.arrivals, i, b.horizon) && ReadyBefore(s.ready, i, true)
    && Conserves(s, b) && Traced(s.results, b, i - 1, onTime) && Since(s, i, 0, b.added)
    && (!s.running ==> s.ready == [])
  }

  /** A run starts at tick 0 with every input event waiting, nothing ready or running, and nothing recorded. */
  lemma Start(s: Sched, b: Ledger, onTime: bool)
    requires forall k :: 0 <= k < |b.input| ==> Admissible(b.input[k]) && b.input[k].inTime <= b.horizon
    requires s.arrivals == b.input && s.ready == [] && !s.running
    requires s.results == b.earlier && b.added == [] && b.finished == []
    ensures Head(s, b, 0, onTime)
  {
    assert s.results == b.earlier + [];
  }

  /**
   * Admission at tick `i` (the split `AdmitArrivals` computes) moves the
   * events arriving at `i - 1` to the tail of the ready queue and owes the
   * same work.
   */
  lemma AdmitKeeps(s: Sched, b: Ledger, i: int, onTime: bool, rest: seq<Event>, admitted: seq<Event>)
    requires Head(s, b, i, onTime)
    requires multiset(rest) + multiset(admitted) == multiset(s.arrivals)
    requires forall k :: 0 <= k < |admitted| ==> admitted[k].inTime == i - 1
    requires forall k :: 0 <= k < |rest| ==> rest[k].inTime > i - 1
    ensures Admitted(Admission(s, rest, admitted), b, i, onTime)
    ensures Backlog(Admission(s, rest, admitted)) == Backlog(s)
  {
    AdmitStep(s.arrivals, rest, admitted, s.ready, s.running, s.current, b.finished, i, b.horizon, true);
    AdmitPool(s.arrivals, s.ready, rest, admitted, s.running, s.current, b.finished);
  }

  /**
   * Dispatch at tick `i` makes the ready event at `k`, if any is dispatched,
   * the running event with no slice run yet. The work owed stays the same.
   */
  lemma DispatchKeeps(s: Sched, b: Ledger, i: int, onTime: bool, k: nat)
    requires Admitted(s, b, i, onTime)
    requires !s.running && s.ready != [] ==> k < |s.ready|
    ensures Dispatched(Dispatching(s, k, i), b, i, onTime) && Backlog(Dispatching(s, k, i)) == Backlog(s)
  {
    if !s.running && s.ready != [] {
      DispatchStep(s.arrivals, s.ready, k, s.current, b.finished, i, true);
      DispatchPool(s.arrivals, s.ready, k, s.current, b.finished);
    }
  }

  /**
   * The slice of tick `i` that completes the running event appends its
   * record `[start - 1, i]`, an uninterrupted segment as long as its run
   * time, and moves it to the finished list. When `onTime`, the loop only
   * gets here if `i` is not past the deadline.
   */
  lemma {:induction false} CompleteKeeps(s: Sched, b: Ledger, i: int, onTime: bool)
    requires Dispatched(s, b, i, onTime) && s.running
    requires s.current.timePointer + 1 == s.current.totalRunTime
    requires onTime ==> i <= s.current.stopTime
    ensures Completes(Advance(s))
    ensures Head(Settle(Advance(s), i), Record(Advance(s), b, i), i + 1, onTime)
    ensures Backlog(Settle(Advance(s), i)) + 1 == Backlog(s)
  {
    var done := s.current.(timePointer := s.current.timePointer + 1);
    var r := Segment(done, s.start - 1, i, false);
    AppendChronological(b.added, r);
    assert RunToCompletion(r, done);
    SlicePool(s.arrivals, s.ready, s.current, done, b.finished, true);
  }

  /**
   * A slice after which the running event is still unfinished keeps it
   * running, one slice further on; when `onTime`, the loop only gets past the
   * deadline check if `i` is not past the deadline.
   */
  lemma ContinueKeeps(s: Sched, b: Ledger, i: int, onTime: bool)
    requires Dispatched(s, b, i, onTime) && s.running
    requires s.current.timePointer + 1 < s.current.totalRunTime
    requires onTime ==> i <= s.current.stopTime
    ensures !Completes(Advance(s))
    ensures Head(Advance(s), b, i + 1, onTime) && Backlog(Advance(s)) + 1 == Backlog(s)
  {
    var next := s.current.(timePointer := s.current.timePointer + 1);
    SlicePool(s.arrivals, s.ready, s.current, next, b.finished, false);
  }

  /**
   * The slice of tick `i` and what follows it: the running event runs one
   * slice, and is recorded and stops if that was its last, which takes one
   * slice off the work owed; when nothing runs, nothing is ready, and
   * unless nothing is waiting either, tick `i` has not passed the latest
   * arrival. When `onTime`, the loop only gets to the record if `i` is not
   * past the running event's deadline.
   */
  lemma SliceKeeps(s: Sched, b: Ledger, i: int, onTime: bool)
    requires Dispatched(s, b, i, onTime)
    requires onTime && s.running ==> i <= s.current.stopTime
    ensures Head(Settle(Advance(s), i), Record(Advance(s), b, i), i + 1, onTime)
    ensures s.running ==> Backlog(Settle(Advance(s), i)) + 1 == Backlog(s)
    ensures !s.running ==> s.ready == [] && (s.arrivals != [] ==> i <= b.horizon)
  {
    if !s.running {
      if s.arrivals != [] {
        assert s.arrivals[0].inTime <= b.horizon;
      }
    } else if s.current.timePointer + 1 == s.current.totalRunTime {
      CompleteKeeps(s, b, i, onTime);
    } else {
      ContinueKeeps(s, b, i, onTime);
    }
  }

  /** The state a tick leaves: admission of `admitted`, dispatch of the ready event at `k`, a slice and its record. */
  function Ticked(s: Sched, rest: seq<Event>, admitted: seq<Event>, k: nat, i: int): Sched
    requires var s1 := Admission(s, rest, admitted); !s1.running && s1.ready != [] ==> k < |s1.ready|
  {
    Settle(Advance(Dispatching(Admission(s, rest, admitted), k, i)), i)
  }

  /** What a tick does to the ledger. */
  ghost function TickedBooks(s: Sched, b: Ledger, rest: seq<Event>, admitted: seq<Event>, k: nat, i: int): Ledger
    requires var s1 := Admission(s, rest, admitted); !s1.running && s1.ready != [] ==> k < |s1.ready|
  {
    Record(Advance(Dispatching(Admission(s, rest, admitted), k, i)), b, i)
  }

  /**
   * A whole tick `i` of a loop that has not ended keeps the state sound and
   * either takes a slice off the work owed, or owes the same and `i` has not
   * passed the latest arrival, which bounds the loop.
   */
  lemma TickKeeps(s: Sched, b: Ledger, i: int, onTime: bool, rest: seq<Event>, admitted: seq<Event>, k: nat,
                   s': Sched, b': Ledger)
    requires Head(s, b, i, onTime) && !(s.arrivals == [] && s.ready == [] && !s.running)
    requires multiset(rest) + multiset(admitted) == multiset(s.arrivals)
    requires forall j :: 0 <= j < |admitted| ==> admitted[j].inTime == i - 1
    requires forall j :: 0 <= j < |rest| ==> rest[j].inTime > i - 1
    requires var s1 := Admission(s, rest, admitted); !s1.running && s1.ready != [] ==> k < |s1.ready|
    requires var s2 := Dispatching(Admission(s, rest, admitted), k, i);
             onTime && s2.running ==> i <= s2.current.stopTime
    requires s' == Ticked(s, rest, admitted, k, i) && b' == TickedBooks(s, b, rest, admitted, k, i)
    ensures Head(s', b', i + 1, onTime)
    ensures Backlog(s') < Backlog(s) || (Backlog(s') == Backlog(s) && i <= b.horizon)
  {
    var s1 := Admission(s, rest, admitted);
    AdmitKeeps(s, b, i, onTime, rest, admitted);
    DispatchKeeps(s1, b, i, onTime, k);
    var s2 := Dispatching(s1, k, i);
    SliceKeeps(s2, b, i, onTime);
    if !s2.running && admitted == [] {
      assert multiset(rest) == multiset(s.arrivals);
      assert s.arrivals != [];
      assert rest != [];
    }
  }

  /**
   * Where RMS stops at tick `i`: the running event has just run a slice
   * past its deadline, and this is the first tick past the deadline in which
   * it runs (it was dispatched in tick `i`, or its deadline is `i - 1`);
   * every input event is still in exactly one place and the trace is sound.
   */
  ghost predicate Missed(s: Sched, b: Ledger, i: int) {
    && Conserves(s, b) && Traced(s.results, b, i - 1, true) && s.running && i > s.current.stopTime
    && (s.start == i || s.current.stopTime == i - 1)
  }

  /** A tick whose slice runs past the running event's deadline leaves the state `Missed` describes. */
  lemma MissKeeps(s: Sched, b: Ledger, i: int, rest: seq<Event>, admitted: seq<Event>, k: nat, s': Sched, b': Ledger)
    requires Head(s, b, i, true)
    requires multiset(rest) + multiset(admitted) == multiset(s.arrivals)
    requires forall j :: 0 <= j < |admitted| ==> admitted[j].inTime == i - 1
    requires forall j :: 0 <= j < |rest| ==> rest[j].inTime > i - 1
    requires var s1 := Admission(s, rest, admitted); !s1.running && s1.ready != [] ==> k < |s1.ready|
    requires s' == Advance(Dispatching(Admission(s, rest, admitted), k, i))
    requires s'.running && i > s'.current.stopTime && b' == b
    ensures Missed(s', b', i)
  {
    var s1 := Admission(s, rest, admitted);
    AdmitKeeps(s, b, i, true, rest, admitted);
    DispatchKeeps(s1, b, i, true, k);
    var s2 := Dispatching(s1, k, i);
    SlicePool(s2.arrivals, s2.ready, s2.current, s'.current, b.finished, false);
  }

  /**
   * Tick `i` of a loop that checks deadlines, from the state `f` its slice
   * leaves: past the running event's deadline the loop stops as `Missed`
   * says; otherwise the completion check leaves the head of tick `i + 1`
   * and the tick uses up a slice of work or comes no later than the last
   * arrival.
   */
  lemma Checked(s: Sched, b: Ledger, i: int, rest: seq<Event>, admitted: seq<Event>, k: nat, f: Sched)
    requires Head(s, b, i, true) && !(s.arrivals == [] && s.ready == [] && !s.running)
    requires multiset(rest) + multiset(admitted) == multiset(s.arrivals)
    requires forall j :: 0 <= j < |admitted| ==> admitted[j].inTime == i - 1
    requires forall j :: 0 <= j < |rest| ==> rest[j].inTime > i - 1
    requires var s1 := Admission(s, rest, admitted); !s1.running && s1.ready != [] ==> k < |s1.ready|
    requires f == Advance(Dispatching(Admission(s, rest, admitted), k, i))
    ensures f.running && i > f.current.stopTime ==> Missed(f, b, i)
    ensures !(f.running && i > f.current.stopTime) ==>
              && Head(Settle(f, i), Record(f, b, i), i + 1, true)
              && (Backlog(Settle(f, i)) < Backlog(s) || (Backlog(Settle(f, i)) == Backlog(s) && i <= b.horizon))
  {
    if f.running && i > f.current.stopTime {
      MissKeeps(s, b, i, rest, admitted, k, f, b);
    } else {
      TickKeeps(s, b, i, true, rest, admitted, k, Settle(f, i), Record(f, b, i));
    }
  }

  /**
   * What a run that began with trace `before` has recorded when the trace is
   * `after`: its records follow the earlier trace, each one the completion of
   * the matching event among those it finished, run to completion in one
   * segment (by its deadline when `onTime`), those events being input events,
   * and no two records overlap.
   */
  ghost predicate Recorded(before: seq<Result>, after: seq<Result>, finished: seq<Event>, input: seq<Event>, onTime: bool) {
    && |after| == |before| + |finished| && after[..|before|] == before
    && multiset(Ids(finished)) <= multiset(Ids(input))
    && (forall k :: 0 <= k < |finished| ==>
          RunToCompletion(after[|before| + k], finished[k])
          && (onTime ==> after[|before| + k].responseEndTime <= finished[k].stopTime))
    && Chronological(after[|before|..])
  }

  /** At any point of a run, its trace is as `Recorded` says. */
  lemma Partial(s: Sched, b: Ledger, now: int, onTime: bool)
    requires Conserves(s, b) && Traced(s.results, b, now, onTime)
    ensures Recorded(b.earlier, s.results, b.finished, b.input, onTime)
  {
    assert s.results[|b.earlier|..] == b.added;
  }

  /** When nothing is left at the head of tick `now`, every input event has completed exactly once. */
  lemma Finish(s: Sched, b: Ledger, now: int, onTime: bool)
    requires Head(s, b, now, onTime) && s.arrivals == [] && s.ready == [] && !s.running
    ensures Recorded(b.earlier, s.results, b.finished, b.input, onTime)
    ensures multiset(Ids(b.finished)) == multiset(Ids(b.input))
  {
    Partial(s, b, now - 1, onTime);
    DonePool(s.current, b.finished, b.input);
  }
}
