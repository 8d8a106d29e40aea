/**
 * The trace records the schedulers append (lab4/result.hpp) and the
 * predicates the tick loops' contracts are phrased in.
 */
module Results {
  import opened Events

  /** One execution segment; times are in the frame of the tick loops, shifted by one. */
  datatype Result = Result(
    inTime: int,
    stopTime: int,
    responseBeginTime: int,
    responseEndTime: int,
    eventName: Char8,
    isInterrupted: bool)

  /** The segment `Result{e.in_time, e.stop_time, begin, end, e.event_name, interrupted}`. */
  function Segment(e: Event, begin: int, end: int, interrupted: bool): Result {
    Result(e.inTime, e.stopTime, begin, end, e.eventName, interrupted)
  }

  /** `r` is a segment of the event `e`: it carries `e`'s arrival, deadline and name. */
  predicate Records(r: Result, e: Event) {
    r.inTime == e.inTime && r.stopTime == e.stopTime && r.eventName == e.eventName
  }

  function Duration(r: Result): int {
    r.responseEndTime - r.responseBeginTime
  }

  /** The total length of the segments in `rs`. */
  function SumDurations(rs: seq<Result>): int {
    if rs == [] then 0 else SumDurations(rs[..|rs| - 1]) + Duration(rs[|rs| - 1])
  }

  /** The segments of `rs` that record a completion, in order. */
  function Completed(rs: seq<Result>): seq<Result> {
    if rs == [] then []
    else Completed(rs[..|rs| - 1]) + (if rs[|rs| - 1].isInterrupted then [] else [rs[|rs| - 1]])
  }

  /** Segments are well formed and never overlap: each one starts after every earlier one ends. */
  predicate Chronological(rs: seq<Result>) {
    && (forall k :: 0 <= k < |rs| ==> rs[k].responseBeginTime <= rs[k].responseEndTime)
    && (forall j, k :: 0 <= j < k < |rs| ==> rs[j].responseEndTime <= rs[k].responseBeginTime)
  }

  lemma AppendSegment(rs: seq<Result>, r: Result)
    ensures SumDurations(rs + [r]) == SumDurations(rs) + Duration(r)
    ensures Completed(rs + [r]) == Completed(rs) + (if r.isInterrupted then [] else [r])
  {
    assert (rs + [r])[..|rs|] == rs;
  }

  /** Appending a well-formed segment that starts after every recorded end keeps the trace chronological. */
  lemma AppendChronological(rs: seq<Result>, r: Result)
    requires Chronological(rs)
    requires r.responseBeginTime <= r.responseEndTime
    requires forall k :: 0 <= k < |rs| ==> rs[k].responseEndTime <= r.responseBeginTime
    ensures Chronological(rs + [r])
  {
  }
}
