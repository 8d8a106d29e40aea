/**
 * Earliest-Deadline-First (lab4/edf.hpp): a non-preemptive tick loop that
 * always dispatches the ready event with the earliest deadline. EDF checks
 * no deadline and returns only its trace.
 */
module Edf {
  import opened Events
  import opened Results
  import opened Bookkeeping
  import opened Queues
  import opened Engine
  import opened Serial

  class EDF {
    /** `event_schedule_queue`, ordered by `cmp`. */
    var ready: seq<Event>
    var currentEvent: Event
    var isRunning: bool
    /**
     * The tick at which the running event was dispatched. The source keeps it
     * in a local declared afresh, uninitialised, on every tick; the model keeps
     * the value the completion record evidently means.
     */
    var startTime: int
    var results: seq<Result>

    // Bookkeeping of the current run, for the proofs only.
    /** The events handed to `Run`. */
    ghost var input: seq<Event>
    /** The horizon: no input event arrives later. */
    ghost var horizon: int
    /** The trace as it was when `Run` began, and what `Run` has added to it. */
    ghost var earlier: seq<Result>
    ghost var added: seq<Result>
    /** The events whose completion `Run` has recorded, in order. */
    ghost var finished: seq<Event>

    constructor ()
      ensures ready == [] && !isRunning && results == []
    {
      ready := [];
      currentEvent := Event(0, 0, 0, 0, 0, 0, 0, 0);
      isRunning := false;
      startTime := 0;
      results := [];
    }

    /** The scheduler's state, `arrivals` being the caller's queue. */
    ghost function State(arrivals: seq<Event>): Sched
      reads this`ready, this`currentEvent, this`isRunning, this`startTime, this`results
    {
      Sched(arrivals, ready, currentEvent, isRunning, startTime, results)
    }

    ghost function Books(): Ledger
      reads this`input, this`horizon, this`earlier, this`added, this`finished
    {
      Ledger(input, horizon, earlier, added, finished)
    }

    /**
     * `EDF::run`. Tick `i` admits the events arriving at `i - 1`, dispatches
     * the top of the ready queue if nothing runs, runs the running event for
     * one slice and records its completion when it has run `totalRunTime`
     * slices. The loop ends when nothing is waiting, ready or running; every
     * input event has then completed exactly once, in one uninterrupted
     * segment as long as its run time, and the segments do not overlap.
     * `totalTime` is not read.
     */
    method Run(events: seq<Event>, totalTime: int) returns (rs: seq<Result>, rest: seq<Event>)
      requires forall k :: 0 <= k < |events| ==> Admissible(events[k])
      requires !isRunning && ready == []
      modifies this
      ensures rs == results
      ensures rest == [] && ready == [] && !isRunning
      ensures Recorded(old(results), results, finished, events, false)
      ensures multiset(Ids(finished)) == multiset(Ids(events))
    {
      Begin(events);
      var last;
      rest, last := Drain(events);
      Finish(State(rest), Books(), last + 1, false);
      rs := results;
    }

    /** Opens the books of a run on `events`: the state at the head of tick 0. */
    ghost method Begin(events: seq<Event>)
      requires forall k :: 0 <= k < |events| ==> Admissible(events[k])
      requires !isRunning && ready == []
      modifies this`input, this`horizon, this`earlier, this`added, this`finished
      ensures Head(State(events), Books(), 0, false) && input == events && earlier == results
    {
      input, horizon := events, LatestArrival(events);
      earlier, added, finished := results, [], [];
      Start(State(events), Books(), false);
    }

    /**
     * The loop of `EDF::run` from tick 0, given the caller's queue: it ticks
     * until nothing is waiting, ready or running, and returns what is left of
     * the caller's queue and the last tick's number.
     */
    method Drain(events: seq<Event>) returns (rest: seq<Event>, last: int)
      requires Head(State(events), Books(), 0, false)
      modifies this`ready, this`currentEvent, this`isRunning, this`startTime, this`results, this`added, this`finished
      ensures Head(State(rest), Books(), last + 1, false) && rest == [] && ready == [] && !isRunning
      ensures input == old(input) && earlier == old(earlier)
    {
      var arrivals := events;
      var i := 0;
      while true
        invariant Head(State(arrivals), Books(), i, false)
        invariant input == old(input) && earlier == old(earlier)
        decreases Backlog(State(arrivals)), horizon + 2 - i
      {
        if arrivals == [] && ready == [] && !isRunning {
          break;
        }
        arrivals := Tick(arrivals, i);
        i := i + 1;
      }
      rest, last := arrivals, i - 1;
    }

    /**
     * Tick `i` of `EDF::run`, on a scheduler with something waiting, ready
     * or running: admission, dispatch and the slice. It returns what is left
     * of the caller's queue. Each tick uses up a slice of work or comes no
     * later than the last arrival.
     */
    method Tick(arrivals: seq<Event>, i: int) returns (waiting: seq<Event>)
      requires Head(State(arrivals), Books(), i, false)
      requires arrivals != [] || ready != [] || isRunning
      modifies this`ready, this`currentEvent, this`isRunning, this`startTime, this`results, this`added, this`finished
      ensures Head(State(waiting), Books(), i + 1, false)
      ensures Backlog(State(waiting)) < old(Backlog(State(arrivals)))
              || (Backlog(State(waiting)) == old(Backlog(State(arrivals))) && i <= horizon)
      ensures input == old(input) && earlier == old(earlier) && horizon == old(horizon)
    {
      ghost var s, b := State(arrivals), Books();
      var admitted;
      waiting, admitted := Admit(arrivals, i);
      var top := Dispatch(waiting, i);
      RunSlice(waiting, i);
      TickKeeps(s, b, i, false, waiting, admitted, top, State(waiting), Books());
    }

    /**
     * Admission at tick `i`: the events of the caller's queue arriving at
     * `i - 1` move to the tail of the ready queue; no other event moves.
     */
    method Admit(arrivals: seq<Event>, i: int) returns (waiting: seq<Event>, admitted: seq<Event>)
      requires forall k :: 0 <= k < |arrivals| ==> arrivals[k].inTime >= i - 1
      modifies this`ready
      ensures multiset(waiting) + multiset(admitted) == multiset(arrivals)
      ensures forall k :: 0 <= k < |admitted| ==> admitted[k].inTime == i - 1
      ensures forall k :: 0 <= k < |waiting| ==> waiting[k].inTime > i - 1
      ensures State(waiting) == Admission(old(State(arrivals)), waiting, admitted)
    {
      waiting, admitted := AdmitArrivals(arrivals, i - 1);
      ready := ready + admitted;
    }

    /**
     * Dispatch at tick `i`: if nothing runs and something is ready, the top
     * of the ready queue, at index `top`, starts running.
     */
    method Dispatch(arrivals: seq<Event>, i: int) returns (top: nat)
      modifies this`ready, this`currentEvent, this`startTime, this`isRunning
      ensures !old(isRunning) && old(ready) != [] ==> IsTop(ByDeadline, old(ready), top)
      ensures State(arrivals) == Dispatching(old(State(arrivals)), top, i)
    {
      top := 0;
      if !isRunning && ready != [] {
        top := TopIndex(ByDeadline, ready);
        currentEvent, ready, startTime, isRunning := ready[top], Remove(ready, top), i, true;
      }
    }

    /**
     * The slice of tick `i`: the running event runs one slice; when it has
     * run them all, its completion `[startTime - 1, i]` is recorded and it stops.
     */
    method RunSlice(arrivals: seq<Event>, i: int)
      modifies this`currentEvent, this`isRunning, this`results, this`added, this`finished
      ensures State(arrivals) == Settle(Advance(old(State(arrivals))), i)
      ensures Books() == Record(Advance(old(State(arrivals))), old(Books()), i)
    {
      if isRunning {
        currentEvent := currentEvent.(timePointer := currentEvent.timePointer + 1);
        if currentEvent.timePointer == currentEvent.totalRunTime {
          var result := Segment(currentEvent, startTime - 1, i, false);
          results, added, finished := results + [result], added + [result], finished + [currentEvent];
          isRunning := false;
        }
      }
    }
  }
}
