/**
 * Rate-Monotonic Scheduling (lab4/rms.hpp): the tick loop of EDF with the
 * ready queue ordered by `rms_cmp` (the LARGER priority value first), and a
 * deadline check: the loop stops, unsuccessful, at the first tick in which
 * the running event runs past its deadline. Every completion recorded
 * before that meets its deadline. The preemption hook is never reached,
 * since nothing in RMS sets `event_arrive`.
 */
module Rms {
  import opened Events
  import opened Results
  import opened Bookkeeping
  import opened Queues
  import opened Engine
  import opened Serial

  /** `RMS::preempt`'s test: the ready event at `k` has a larger priority value and the running event is not done. */
  predicate Outranks(s: Sched, k: nat)
    requires k < |s.ready|
  {
    s.ready[k].priority > s.current.priority && s.current.timePointer != s.current.totalRunTime
  }

  /**
   * How the loop of `RMS::run` ends: with nothing waiting, ready or running
   * after tick `last`, or (`missed`) with the running event in tick `last`
   * past its deadline for the first time it runs.
   */
  ghost predicate Drained(s: Sched, b: Ledger, missed: bool, last: int) {
    if missed then Missed(s, b, last)
    else Head(s, b, last + 1, true) && s.arrivals == [] && s.ready == [] && !s.running
  }

  /**
   * What `RMS::run` promises, for a run that began with trace `before` and
   * success flag `okBefore` and ends in state `s` with flag `ok`: the trace
   * gained only completions by their deadlines (`Recorded`). When nothing
   * runs at the end, the caller's queue and the ready queue are empty, the
   * flag is as it was and every input event has completed exactly once;
   * otherwise the flag is cleared and `last` is the first tick past the
   * running event's deadline in which it runs: its deadline is `last - 1`,
   * or it was dispatched in tick `last` already late.
   */
  ghost predicate Verdict(before: seq<Result>, events: seq<Event>, s: Sched, b: Ledger, ok: bool, okBefore: bool, last: int) {
    Recorded(before, s.results, b.finished, events, true)
    && (!s.running ==> s.arrivals == [] && s.ready == [] && ok == okBefore && multiset(Ids(b.finished)) == multiset(Ids(events)))
    && (s.running ==> !ok && s.current.stopTime < last && (s.start == last || s.current.stopTime == last - 1))
  }

  /** Either way the loop ends, `RMS::run` keeps its promise. */
  lemma Conclude(before: seq<Result>, events: seq<Event>, s: Sched, b: Ledger, missed: bool, last: int, okBefore: bool)
    requires Drained(s, b, missed, last) && b.earlier == before && b.input == events
    ensures Verdict(before, events, s, b, okBefore && !missed, okBefore, last)
  {
    if missed {
      Partial(s, b, last - 1, true);
    } else {
      Finish(s, b, last + 1, true);
    }
  }

  class RMS {
    /** `event_schedule_queue`, ordered by `rms_cmp`. */
    var ready: seq<Event>
    var currentEvent: Event
    var isRunning: bool
    /** The tick at which the running segment began (`start_time`, a member in RMS). */
    var startTime: int
    var results: seq<Result>
    /** Cleared when a deadline is missed and never set again. */
    var succeed: bool
    /** Never set in RMS; `preempt` runs only when it is. */
    var eventArrive: bool

    // Bookkeeping of the current run, for the proofs only.
    /** The events handed to `Run`. */
    ghost var input: seq<Event>
    /** The horizon: no input event arrives later. */
    ghost var horizon: int
    /** The trace as it was when `Run` began, and what `Run` has added to it. */
    ghost var earlier: seq<Result>
    ghost var added: seq<Result>
    /** The events whose completion `Run` has recorded, in order. */
    ghost var finished: seq<Event>

    constructor ()
      ensures ready == [] && !isRunning && results == [] && succeed && !eventArrive && startTime == 0
    {
      ready := [];
      currentEvent := Event(0, 0, 0, 0, 0, 0, 0, 0);
      isRunning := false;
      startTime := 0;
      results := [];
      succeed := true;
      eventArrive := false;
    }

    /** The scheduler's state, `arrivals` being the caller's queue. */
    ghost function State(arrivals: seq<Event>): Sched
      reads this`ready, this`currentEvent, this`isRunning, this`startTime, this`results
    {
      Sched(arrivals, ready, currentEvent, isRunning, startTime, results)
    }

    ghost function Books(): Ledger
      reads this`input, this`horizon, this`earlier, this`added, this`finished
    {
      Ledger(input, horizon, earlier, added, finished)
    }

    /**
     * `RMS::run`: the loop of `EDF::run` on the RMS order, which stops at
     * the first slice run past the running event's deadline and then
     * reports failure. The caller's queue is consumed; `rest` is what is
     * left of it. When the loop runs out of events, every input event has
     * completed exactly once, by its deadline, in one uninterrupted segment
     * as long as its run time, the segments do not overlap, and the success
     * flag is as it was. Otherwise the running event's deadline lies before
     * the tick `last` the loop stopped at, and the flag is cleared; what was
     * recorded until then is as sound. `totalTime` is not read.
     */
    method Run(events: seq<Event>, totalTime: int) returns (rs: seq<Result>, ok: bool, rest: seq<Event>, ghost last: int)
      requires forall k :: 0 <= k < |events| ==> Admissible(events[k])
      requires !isRunning && ready == [] && !eventArrive
      modifies this
      ensures rs == results && ok == succeed && !eventArrive
      ensures Verdict(old(results), events, State(rest), Books(), ok, old(succeed), last)
    {
      Begin(events);
      var missed;
      rest, missed, last := Drain(events);
      if missed {
        // the loop's `succeed = false; break;`
        succeed := false;
      }
      rs, ok := results, succeed;
      Conclude(old(results), events, State(rest), Books(), missed, last, old(succeed));
    }

    /** Opens the books of a run on `events`: the state at the head of tick 0. */
    ghost method Begin(events: seq<Event>)
      requires forall k :: 0 <= k < |events| ==> Admissible(events[k])
      requires !isRunning && ready == []
      modifies this`input, this`horizon, this`earlier, this`added, this`finished
      ensures Head(State(events), Books(), 0, true) && input == events && earlier == results
    {
      input, horizon := events, LatestArrival(events);
      earlier, added, finished := results, [], [];
      Start(State(events), Books(), true);
    }

    /**
     * The loop of `RMS::run` from tick 0, given the caller's queue. It ticks
     * until nothing is waiting, ready or running, or until the running event
     * runs past its deadline at tick `last` (`missed`; the caller then clears
     * the success flag), and returns what is left of the caller's queue.
     */
    method Drain(events: seq<Event>) returns (rest: seq<Event>, missed: bool, last: int)
      requires Head(State(events), Books(), 0, true) && !eventArrive
      modifies this`ready, this`currentEvent, this`isRunning, this`startTime, this`results, this`added, this`finished
      ensures Drained(State(rest), Books(), missed, last)
      ensures input == old(input) && earlier == old(earlier) && !eventArrive
    {
      var arrivals := events;
      var i := 0;
      while true
        invariant Head(State(arrivals), Books(), i, true)
        invariant input == old(input) && earlier == old(earlier)
        decreases Backlog(State(arrivals)), horizon + 2 - i
      {
        if arrivals == [] && ready == [] && !isRunning {
          break;
        }
        var waiting, miss := Tick(arrivals, i);
        if miss {
          return waiting, true, i;
        }
        arrivals := waiting;
        i := i + 1;
      }
      rest, missed, last := arrivals, false, i - 1;
    }

    /**
     * Tick `i` of `RMS::run`, on a scheduler with something waiting, ready
     * or running: admission, dispatch, the slice, the deadline check
     * (`miss`) and, when the deadline holds, the completion check. It
     * returns what is left of the caller's queue. Each tick that does not
     * miss uses up a slice of work or comes no later than the last arrival.
     */
    method Tick(arrivals: seq<Event>, i: int) returns (waiting: seq<Event>, miss: bool)
      requires Head(State(arrivals), Books(), i, true) && !eventArrive
      requires arrivals != [] || ready != [] || isRunning
      modifies this`ready, this`currentEvent, this`isRunning, this`startTime, this`results, this`added, this`finished
      ensures miss ==> Missed(State(waiting), Books(), i)
      ensures !miss ==> Head(State(waiting), Books(), i + 1, true)
      ensures !miss ==> Backlog(State(waiting)) < old(Backlog(State(arrivals)))
                        || (Backlog(State(waiting)) == old(Backlog(State(arrivals))) && i <= horizon)
      ensures input == old(input) && earlier == old(earlier) && horizon == old(horizon)
    {
      ghost var s, b := State(arrivals), Books();
      var admitted, top;
      waiting, admitted, top := Front(arrivals, i);
      ghost var f := State(waiting);
      Checked(s, b, i, waiting, admitted, top, f);
      miss := isRunning && i > currentEvent.stopTime;
      if !miss {
        Complete(waiting, i);
        assert State(waiting) == Settle(f, i) && Books() == Record(f, b, i);
      }
    }

    /**
     * The part of tick `i` before the deadline check: admission, dispatch of
     * the top of the ready queue (at index `top` of the queue after
     * admission) and the slice.
     */
    method Front(arrivals: seq<Event>, i: int) returns (waiting: seq<Event>, admitted: seq<Event>, top: nat)
      requires forall k :: 0 <= k < |arrivals| ==> arrivals[k].inTime >= i - 1
      requires !eventArrive
      modifies this`ready, this`currentEvent, this`isRunning, this`startTime
      ensures multiset(waiting) + multiset(admitted) == multiset(arrivals)
      ensures forall k :: 0 <= k < |admitted| ==> admitted[k].inTime == i - 1
      ensures forall k :: 0 <= k < |waiting| ==> waiting[k].inTime > i - 1
      ensures var s1 := Admission(old(State(arrivals)), waiting, admitted);
              (!s1.running && s1.ready != [] ==> IsTop(ByPriority, s1.ready, top))
              && State(waiting) == Advance(Dispatching(s1, top, i))
    {
      waiting, admitted := Admit(arrivals, i);
      top := Dispatch(waiting, i);
      Slice(waiting, i);
    }

    /**
     * Admission at tick `i`: the events of the caller's queue arriving at
     * `i - 1` move to the tail of the ready queue; no other event moves.
     */
    method Admit(arrivals: seq<Event>, i: int) returns (waiting: seq<Event>, admitted: seq<Event>)
      requires forall k :: 0 <= k < |arrivals| ==> arrivals[k].inTime >= i - 1
      modifies this`ready
      ensures multiset(waiting) + multiset(admitted) == multiset(arrivals)
      ensures forall k :: 0 <= k < |admitted| ==> admitted[k].inTime == i - 1
      ensures forall k :: 0 <= k < |waiting| ==> waiting[k].inTime > i - 1
      ensures State(waiting) == Admission(old(State(arrivals)), waiting, admitted)
    {
      waiting, admitted := AdmitArrivals(arrivals, i - 1);
      ready := ready + admitted;
    }

    /**
     * Dispatch at tick `i`: if nothing runs and something is ready, the top
     * of the ready queue (largest priority value), at index `top`, starts running.
     */
    method Dispatch(arrivals: seq<Event>, i: int) returns (top: nat)
      modifies this`ready, this`currentEvent, this`startTime, this`isRunning
      ensures !old(isRunning) && old(ready) != [] ==> IsTop(ByPriority, old(ready), top)
      ensures State(arrivals) == Dispatching(old(State(arrivals)), top, i)
    {
      top := 0;
      if !isRunning && ready != [] {
        top := TopIndex(ByPriority, ready);
        currentEvent, ready, startTime, isRunning := ready[top], Remove(ready, top), i, true;
      }
    }

    /**
     * The slice of tick `i`: the running event runs one slice. The call of
     * `preempt` that follows when `event_arrive` is set is left out: nothing
     * in RMS sets the flag, and the precondition says it is off.
     */
    method Slice(arrivals: seq<Event>, i: int)
      requires !eventArrive
      modifies this`currentEvent
      ensures State(arrivals) == Advance(old(State(arrivals)))
    {
      if isRunning {
        currentEvent := currentEvent.(timePointer := currentEvent.timePointer + 1);
      }
    }

    /** After the slice of tick `i`: a running event that has run all its slices is recorded, `[startTime - 1, i]`, and stops. */
    method Complete(arrivals: seq<Event>, i: int)
      modifies this`isRunning, this`results, this`added, this`finished
      ensures State(arrivals) == Settle(old(State(arrivals)), i)
      ensures Books() == Record(old(State(arrivals)), old(Books()), i)
    {
      if isRunning && currentEvent.timePointer == currentEvent.totalRunTime {
        var result := Segment(currentEvent, startTime - 1, i, false);
        results, added, finished := results + [result], added + [result], finished + [currentEvent];
        isRunning := false;
      }
    }

    /**
     * `RMS::preempt` at tick `i`: the top of the ready queue, at index `top`,
     * takes over from the running event when its priority value is larger
     * and the running event has not just run its last slice. The running
     * event's segment up to `i - 1` is then recorded as interrupted, it goes
     * back to the ready queue without this tick's slice, and the top event
     * runs from `i` with that slice.
     */
    method Preempt(arrivals: seq<Event>, i: int) returns (top: nat)
      requires isRunning && ready != []
      modifies this`ready, this`currentEvent, this`startTime, this`results
      ensures IsTop(ByPriority, old(ready), top)
      ensures State(arrivals) == if Outranks(old(State(arrivals)), top) then Preempted(old(State(arrivals)), top, i)
                                 else old(State(arrivals))
    {
      top := TopIndex(ByPriority, ready);
      var next := ready[top];
      if next.priority > currentEvent.priority && currentEvent.timePointer != currentEvent.totalRunTime {
        var result := Segment(currentEvent, startTime - 1, i - 1, true);
        var back := currentEvent.(timePointer := currentEvent.timePointer - 1);
        startTime := i;
        next := next.(timePointer := next.timePointer + 1);
        ready := Remove(ready, top) + [back];
        results := results + [result];
        currentEvent := next;
      }
    }
  }
}
