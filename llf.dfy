/**
 * Least-Laxity-First (lab4/llf.hpp): a preemptive tick loop. Whenever events
 * arrive, the laxity of every held event is recomputed; the ready event with
 * the least laxity is dispatched when nothing runs, and after each slice it
 * preempts the running event if its laxity is smaller. The loop stops,
 * unsuccessful, at the first tick whose running event is past its deadline.
 */
module Llf {
  import opened Events
  import opened Results
  import opened Bookkeeping
  import opened Queues
  import opened Engine

  /** The slack of `e` at tick `t`: how long it can still wait and meet its deadline. */
  function Laxity(e: Event, t: int): int {
    e.stopTime - t - (e.totalRunTime - e.timePointer)
  }

  /** `q` with every event's laxity recomputed at tick `t`. */
  function Relaxed(q: seq<Event>, t: int): seq<Event> {
    seq(|q|, k requires 0 <= k < |q| => q[k].(laxity := Laxity(q[k], t)))
  }

  /** Recomputing laxities at tick `i - 1`, in the ready queue and in the running slot. */
  function Relax(s: Sched, i: int): Sched {
    s.(ready := Relaxed(s.ready, i - 1), current := s.current.(laxity := Laxity(s.current, i - 1)))
  }

  /** The recomputation happens only in a tick in which something `arrived`. */
  function Relaxing(s: Sched, i: int, arrived: bool): Sched {
    if arrived then Relax(s, i) else s
  }

  /** The preemption test of `LLF::run`: the ready event at `k` has less laxity and the running event is not done. */
  predicate Overtakes(s: Sched, k: nat)
    requires k < |s.ready|
  {
    s.ready[k].laxity < s.current.laxity && s.current.timePointer != s.current.totalRunTime
  }

  /** After the slice of tick `i`: the top of a non-empty ready queue, at `k`, preempts the running event if it overtakes it. */
  function Preemption(s: Sched, k: nat, i: int): Sched
    requires s.running && s.ready != [] ==> k < |s.ready|
  {
    if s.running && s.ready != [] && Overtakes(s, k) then Preempted(s, k, i) else s
  }

  /** What `Preemption` does to the ledger. */
  ghost function Interruption(s: Sched, b: Ledger, k: nat, i: int): Ledger
    requires s.running && s.ready != [] ==> k < |s.ready|
  {
    if s.running && s.ready != [] && Overtakes(s, k) then Interrupt(s, b, i) else b
  }

  /**
   * The trace of a run: what it added after `earlier`, all ended by `now`,
   * none overlapping, none beginning before its event arrived, and its
   * completion records those of the finished events, in order, each by its
   * deadline.
   */
  ghost predicate Logged(results: seq<Result>, b: Ledger, now: int) {
    && results == b.earlier + b.added
    && CompletionsOf(b.added, b.finished, true)
    && EndsBy(b.added, now)
    && Chronological(b.added)
    && BeginsAfterArrival(b.added)
  }

  /** The running event's current segment began at tick `start`, no later than `latest`, after it arrived and after every recorded segment. */
  ghost predicate Runs(s: Sched, added: seq<Result>, latest: int) {
    s.running ==> s.start <= latest && s.current.inTime <= s.start - 1 && EndsBy(added, s.start - 1)
  }

  /**
   * Every slice executed so far is in a recorded segment, or in the running
   * event's current segment, which covers the ticks from `start` to `t - 1`.
   */
  ghost predicate Accounted(s: Sched, b: Ledger, t: int) {
    SumDurations(b.added) + (if s.running then t - s.start else 0)
      == Executed(s.arrivals, s.ready, s.running, s.current, b.finished)
  }

  /**
   * The state at the head of tick `i`; in particular the running event was
   * not past its deadline in the previous tick (`Timely`).
   */
  ghost predicate LHead(s: Sched, b: Ledger, i: int) {
    && Waiting(s.arrivals, i - 1, b.horizon) && ReadyBefore(s.ready, i - 1, false)
    && Conserves(s, b) && Logged(s.results, b, i - 1) && Runs(s, b.added, i - 1)
    && (s.running ==> 1 <= s.current.timePointer < s.current.totalRunTime)
    && Accounted(s, b, i) && Timely(s, i)
  }

  /** After admission at tick `i` (and after the laxities are recomputed). */
  ghost predicate LAdmitted(s: Sched, b: Ledger, i: int) {
    && Waiting(s.arrivals, i, b.horizon) && ReadyBefore(s.ready, i, false)
    && Conserves(s, b) && Logged(s.results, b, i - 1) && Runs(s, b.added, i - 1)
    && (s.running ==> 1 <= s.current.timePointer < s.current.totalRunTime)
    && Accounted(s, b, i) && Timely(s, i)
  }

  /** After dispatch at tick `i`: something runs unless nothing is ready. */
  ghost predicate LDispatched(s: Sched, b: Ledger, i: int) {
    && Waiting(s.arrivals, i, b.horizon) && ReadyBefore(s.ready, i, false)
    && Conserves(s, b) && Logged(s.results, b, i - 1) && Runs(s, b.added, i)
    && (s.running ==> 0 <= s.current.timePointer < s.current.totalRunTime)
    && Accounted(s, b, i) && Timely(s, i) && (!s.running ==> s.ready == [])
  }

  /** After the slice of tick `i` (and after any preemption): the running event may have run its last slice. */
  ghost predicate LAdvanced(s: Sched, b: Ledger, i: int) {
    && Waiting(s.arrivals, i, b.horizon) && ReadyBefore(s.ready, i, false)
    && Conserves(s, b) && Logged(s.results, b, i - 1) && Runs(s, b.added, i)
    && (s.running ==> 1 <= s.current.timePointer <= s.current.totalRunTime)
    && Accounted(s, b, i + 1) && Timely(s, i) && (!s.running ==> s.ready == [])
  }

  /** Events that have not started have executed nothing. */
  lemma {:induction false} NoProgress(s: seq<Event>)
    requires forall k :: 0 <= k < |s| ==> s[k].timePointer == 0
    ensures SumProgress(s) == 0
  {
    if s != [] {
      NoProgress(s[1..]);
    }
  }

  /** A run starts at tick 0 with every input event waiting and nothing ready, running or recorded. */
  lemma LStart(s: Sched, b: Ledger)
    requires forall k :: 0 <= k < |b.input| ==> Admissible(b.input[k]) && b.input[k].inTime <= b.horizon
    requires s.arrivals == b.input && s.ready == [] && !s.running
    requires s.results == b.earlier && b.added == [] && b.finished == []
    ensures LHead(s, b, 0)
  {
    assert s.results == b.earlier + [];
    NoProgress(b.input);
  }

  /** Recomputing laxities changes no event's identity, progress or work. */
  lemma {:induction false} RelaxedSums(q: seq<Event>, t: int)
    ensures Ids(Relaxed(q, t)) == Ids(q)
    ensures SumRemaining(Relaxed(q, t)) == SumRemaining(q) && SumProgress(Relaxed(q, t)) == SumProgress(q)
  {
    if q != [] {
      assert Relaxed(q, t)[1..] == Relaxed(q[1..], t);
      RelaxedSums(q[1..], t);
    }
  }

  /** Admission of tick `i` keeps every owed and executed slice where it was. */
  lemma LAdmitKeeps(s: Sched, b: Ledger, i: int, rest: seq<Event>, admitted: seq<Event>)
    requires LHead(s, b, i)
    requires multiset(rest) + multiset(admitted) == multiset(s.arrivals)
    requires forall k :: 0 <= k < |admitted| ==> admitted[k].inTime == i - 1
    requires forall k :: 0 <= k < |rest| ==> rest[k].inTime > i - 1
    ensures LAdmitted(Admission(s, rest, admitted), b, i)
    ensures Backlog(Admission(s, rest, admitted)) == Backlog(s)
  {
    AdmitStep(s.arrivals, rest, admitted, s.ready, s.running, s.current, b.finished, i, b.horizon, false);
    AdmitPool(s.arrivals, s.ready, rest, admitted, s.running, s.current, b.finished);
  }

  /** Recomputing laxities keeps the state sound and the work owed. */
  lemma RelaxKeeps(s: Sched, b: Ledger, i: int, arrived: bool)
    requires LAdmitted(s, b, i)
    ensures LAdmitted(Relaxing(s, i, arrived), b, i) && Backlog(Relaxing(s, i, arrived)) == Backlog(s)
  {
    if arrived {
      RelaxedSums(s.ready, i - 1);
      var r := Relax(s, i);
      assert Id(r.current) == Id(s.current) && Remaining(r.current) == Remaining(s.current);
      assert ReadyBefore(r.ready, i, false);
    }
  }

  /** Dispatch at tick `i` of the ready event at `k`, if any, starts a segment at `i`; the work owed stays the same. */
  lemma LDispatchKeeps(s: Sched, b: Ledger, i: int, k: nat)
    requires LAdmitted(s, b, i)
    requires !s.running && s.ready != [] ==> k < |s.ready|
    ensures LDispatched(Dispatching(s, k, i), b, i) && Backlog(Dispatching(s, k, i)) == Backlog(s)
  {
    if !s.running && s.ready != [] {
      DispatchStep(s.arrivals, s.ready, k, s.current, b.finished, i, false);
      DispatchPool(s.arrivals, s.ready, k, s.current, b.finished);
    }
  }

  /** The slice of tick `i` takes one slice off the work owed when something runs. */
  lemma LAdvanceKeeps(s: Sched, b: Ledger, i: int)
    requires LDispatched(s, b, i)
    ensures LAdvanced(Advance(s), b, i)
    ensures Backlog(Advance(s)) + (if s.running then 1 else 0) == Backlog(s)
  {
    if s.running {
      var next := s.current.(timePointer := s.current.timePointer + 1);
      SliceStep(s.arrivals, s.ready, s.current, b.finished);
      SlicePool(s.arrivals, s.ready, s.current, next, b.finished, false);
    }
  }

  /** Taking an event out of the ready queue and putting back one that is ready too keeps the queue ready. */
  lemma RequeueReady(ready: seq<Event>, k: nat, back: Event, i: int)
    requires k < |ready| && ReadyBefore(ready, i, false)
    requires back.inTime <= i - 1 && 0 <= back.timePointer < back.totalRunTime
    ensures ReadyBefore(Remove(ready, k) + [back], i, false)
  {
    RemoveIndex(ready, k);
  }

  /** An interrupted record adds no completion. */
  lemma CompletionsInterrupted(added: seq<Result>, finished: seq<Event>, r: Result)
    requires CompletionsOf(added, finished, true) && r.isInterrupted
    ensures CompletionsOf(added + [r], finished, true)
  {
    AppendSegment(added, r);
  }

  /** A completion record of `e`, run to its end by its deadline, adds `e` to the finished list. */
  lemma CompletionsFinished(added: seq<Result>, finished: seq<Event>, r: Result, e: Event)
    requires CompletionsOf(added, finished, true) && !r.isInterrupted
    requires Records(r, e) && e.timePointer == e.totalRunTime && r.responseEndTime <= e.stopTime
    ensures CompletionsOf(added + [r], finished + [e], true)
  {
    AppendSegment(added, r);
    assert Completed(added + [r]) == Completed(added) + [r];
  }

  /**
   * Appending a segment that begins no earlier than its event's arrival and
   * after every recorded end, and ends by `now`, keeps the trace sound.
   */
  lemma LogAppend(results: seq<Result>, b: Ledger, now: int, r: Result)
    requires results == b.earlier + b.added && EndsBy(b.added, r.responseBeginTime)
    requires Chronological(b.added) && BeginsAfterArrival(b.added)
    requires r.inTime <= r.responseBeginTime <= r.responseEndTime <= now
    ensures results + [r] == b.earlier + (b.added + [r])
    ensures EndsBy(b.added + [r], now) && Chronological(b.added + [r]) && BeginsAfterArrival(b.added + [r])
  {
    AppendChronological(b.added, r);
  }

  /** Appending an interrupted segment as `LogAppend` says keeps the log. */
  lemma LogInterrupted(results: seq<Result>, b: Ledger, now: int, r: Result)
    requires Logged(results, b, r.responseBeginTime) && r.isInterrupted
    requires r.inTime <= r.responseBeginTime <= r.responseEndTime <= now
    ensures Logged(results + [r], b.(added := b.added + [r]), now)
  {
    LogAppend(results, b, now, r);
    CompletionsInterrupted(b.added, b.finished, r);
  }

  /** Appending the completion record of `e` as `LogAppend` says keeps the log, with `e` finished. */
  lemma LogCompleted(results: seq<Result>, b: Ledger, now: int, r: Result, e: Event)
    requires Logged(results, b, r.responseBeginTime) && !r.isInterrupted
    requires r.inTime <= r.responseBeginTime <= r.responseEndTime <= now
    requires Records(r, e) && e.timePointer == e.totalRunTime && r.responseEndTime <= e.stopTime
    ensures Logged(results + [r], b.(added := b.added + [r], finished := b.finished + [e]), now)
  {
    LogAppend(results, b, now, r);
    CompletionsFinished(b.added, b.finished, r, e);
  }

  /** The accounting after a preemption at tick `i`: the closed segment holds the slices before `i`, the new one the slice of `i`. */
  lemma PreemptAccounted(s: Sched, b: Ledger, k: nat, i: int)
    requires Accounted(s, b, i + 1) && s.running && k < |s.ready|
    requires var p := Preempted(s, k, i);
             Executed(p.arrivals, p.ready, p.running, p.current, b.finished)
             == Executed(s.arrivals, s.ready, s.running, s.current, b.finished)
    ensures Accounted(Preempted(s, k, i), Interrupt(s, b, i), i + 1)
  {
    var r := Segment(s.current, s.start - 1, i - 1, true);
    AppendSegment(b.added, r);
  }

  /**
   * Preemption at tick `i` records the running event's segment
   * `[start - 1, i - 1]` as interrupted, puts it back in the ready queue and
   * starts a segment of the event at `k` at `i`. The state stays sound and
   * the work owed stays the same: the slice the preempted event gives back
   * is the one the preempting event takes.
   */
  lemma LPreemptKeeps(s: Sched, b: Ledger, k: nat, i: int)
    requires LAdvanced(s, b, i) && s.running && k < |s.ready| && Overtakes(s, k)
    ensures LAdvanced(Preempted(s, k, i), Interrupt(s, b, i), i)
    ensures Backlog(Preempted(s, k, i)) == Backlog(s)
  {
    var p, c := Preempted(s, k, i), Interrupt(s, b, i);
    var r := Segment(s.current, s.start - 1, i - 1, true);
    var back := s.current.(timePointer := s.current.timePointer - 1);
    assert p.arrivals == s.arrivals && p.ready == Remove(s.ready, k) + [back] && p.running && p.start == i;
    assert p.results == s.results + [r] && c == b.(added := b.added + [r]);
    PreemptKeeps(s, b, k, i);
    RequeueReady(s.ready, k, back, i);
    LogInterrupted(s.results, b, i - 1, r);
    PreemptAccounted(s, b, k, i);
  }

  /** The slice of tick `i` and the preemption that may follow it. */
  lemma LPreemptionKeeps(s: Sched, b: Ledger, k: nat, i: int)
    requires LAdvanced(s, b, i)
    requires s.running && s.ready != [] ==> k < |s.ready|
    ensures LAdvanced(Preemption(s, k, i), Interruption(s, b, k, i), i)
    ensures Backlog(Preemption(s, k, i)) == Backlog(s)
    ensures var b' := Interruption(s, b, k, i); b'.input == b.input && b'.earlier == b.earlier && b'.horizon == b.horizon
  {
    if s.running && s.ready != [] && Overtakes(s, k) {
      LPreemptKeeps(s, b, k, i);
    }
  }

  /**
   * The completion check of tick `i`, reached when `i` is not past the
   * running event's deadline: an event that has run all its slices is
   * recorded, `[start - 1, i]`, and moves to the finished list.
   */
  lemma LSettleKeeps(s: Sched, b: Ledger, i: int)
    requires LAdvanced(s, b, i)
    requires s.running ==> i <= s.current.stopTime
    ensures LHead(Settle(s, i), Record(s, b, i), i + 1) && Backlog(Settle(s, i)) == Backlog(s)
  {
    if Completes(s) {
      var r := Segment(s.current, s.start - 1, i, false);
      var c := Record(s, b, i);
      assert c == b.(added := b.added + [r], finished := b.finished + [s.current]);
      assert Settle(s, i) == s.(running := false, results := s.results + [r]);
      CompleteStep(s.arrivals, s.ready, s.current, b.finished);
      SlicePool(s.arrivals, s.ready, s.current, s.current, b.finished, true);
      LogCompleted(s.results, b, i + 1, r, s.current);
      AppendSegment(b.added, r);
    }
  }

  /** The state up to the deadline check of tick `i`: admission, laxities, dispatch, slice and preemption. */
  function Fronted(s: Sched, rest: seq<Event>, admitted: seq<Event>, arrived: bool, k: nat, m: nat, i: int): Sched
    requires var s1 := Relaxing(Admission(s, rest, admitted), i, arrived);
             !s1.running && s1.ready != [] ==> k < |s1.ready|
    requires var s3 := Advance(Dispatching(Relaxing(Admission(s, rest, admitted), i, arrived), k, i));
             s3.running && s3.ready != [] ==> m < |s3.ready|
  {
    Preemption(Advance(Dispatching(Relaxing(Admission(s, rest, admitted), i, arrived), k, i)), m, i)
  }

  /** What the first part of tick `i` does to the ledger. */
  ghost function FrontedBooks(s: Sched, b: Ledger, rest: seq<Event>, admitted: seq<Event>, arrived: bool, k: nat, m: nat, i: int): Ledger
    requires var s1 := Relaxing(Admission(s, rest, admitted), i, arrived);
             !s1.running && s1.ready != [] ==> k < |s1.ready|
    requires var s3 := Advance(Dispatching(Relaxing(Admission(s, rest, admitted), i, arrived), k, i));
             s3.running && s3.ready != [] ==> m < |s3.ready|
  {
    Interruption(Advance(Dispatching(Relaxing(Admission(s, rest, admitted), i, arrived), k, i)), b, m, i)
  }

  /**
   * The first part of tick `i` keeps the state sound; it takes a slice off
   * the work owed, or else nothing runs and `i` has not passed the latest
   * arrival, which bounds the loop.
   */
  lemma FrontKeeps(s: Sched, b: Ledger, i: int, rest: seq<Event>, admitted: seq<Event>, arrived: bool, k: nat, m: nat, f: Sched, fb: Ledger)
    requires LHead(s, b, i) && !(s.arrivals == [] && s.ready == [] && !s.running)
    requires multiset(rest) + multiset(admitted) == multiset(s.arrivals)
    requires forall j :: 0 <= j < |admitted| ==> admitted[j].inTime == i - 1
    requires forall j :: 0 <= j < |rest| ==> rest[j].inTime > i - 1
    requires var s1 := Relaxing(Admission(s, rest, admitted), i, arrived);
             !s1.running && s1.ready != [] ==> k < |s1.ready|
    requires var s3 := Advance(Dispatching(Relaxing(Admission(s, rest, admitted), i, arrived), k, i));
             s3.running && s3.ready != [] ==> m < |s3.ready|
    requires f == Fronted(s, rest, admitted, arrived, k, m, i) && fb == FrontedBooks(s, b, rest, admitted, arrived, k, m, i)
    ensures LAdvanced(f, fb, i) && fb.input == b.input && fb.earlier == b.earlier && fb.horizon == b.horizon
    ensures Backlog(f) < Backlog(s) || (Backlog(f) == Backlog(s) && !f.running && i <= b.horizon)
  {
    var s3 := Advance(Dispatching(Relaxing(Admission(s, rest, admitted), i, arrived), k, i));
    AdvancedKeeps(s, b, i, rest, admitted, arrived, k, s3);
    LPreemptionKeeps(s3, b, m, i);
  }

  /** Admission, laxity recomputation, dispatch and the slice of tick `i`. */
  lemma AdvancedKeeps(s: Sched, b: Ledger, i: int, rest: seq<Event>, admitted: seq<Event>, arrived: bool, k: nat, s3: Sched)
    requires LHead(s, b, i) && !(s.arrivals == [] && s.ready == [] && !s.running)
    requires multiset(rest) + multiset(admitted) == multiset(s.arrivals)
    requires forall j :: 0 <= j < |admitted| ==> admitted[j].inTime == i - 1
    requires forall j :: 0 <= j < |rest| ==> rest[j].inTime > i - 1
    requires var s1 := Relaxing(Admission(s, rest, admitted), i, arrived);
             !s1.running && s1.ready != [] ==> k < |s1.ready|
    requires s3 == Advance(Dispatching(Relaxing(Admission(s, rest, admitted), i, arrived), k, i))
    ensures LAdvanced(s3, b, i)
    ensures Backlog(s3) < Backlog(s) || (Backlog(s3) == Backlog(s) && !s3.running && i <= b.horizon)
  {
    var s1 := Relaxing(Admission(s, rest, admitted), i, arrived);
    RelaxedKeeps(s, b, i, rest, admitted, arrived, s1);
    ExecutedKeeps(s1, b, i, k, s3);
  }

  /**
   * Admission and laxity recomputation at tick `i`; when they leave nothing
   * ready or running, an event still waits, so `i` has not passed the latest
   * arrival.
   */
  lemma RelaxedKeeps(s: Sched, b: Ledger, i: int, rest: seq<Event>, admitted: seq<Event>, arrived: bool, s1: Sched)
    requires LHead(s, b, i) && !(s.arrivals == [] && s.ready == [] && !s.running)
    requires multiset(rest) + multiset(admitted) == multiset(s.arrivals)
    requires forall j :: 0 <= j < |admitted| ==> admitted[j].inTime == i - 1
    requires forall j :: 0 <= j < |rest| ==> rest[j].inTime > i - 1
    requires s1 == Relaxing(Admission(s, rest, admitted), i, arrived)
    ensures LAdmitted(s1, b, i) && Backlog(s1) == Backlog(s)
    ensures !s1.running && s1.ready == [] ==> i <= b.horizon
  {
    var s0 := Admission(s, rest, admitted);
    LAdmitKeeps(s, b, i, rest, admitted);
    RelaxKeeps(s0, b, i, arrived);
    if !s1.running && s1.ready == [] {
      assert s0.ready == [];
      StillWaiting(s, b, i, rest, admitted);
    }
  }

  /** When admission at tick `i` leaves nothing ready or running, an event still waits: `i` has not passed the latest arrival. */
  lemma StillWaiting(s: Sched, b: Ledger, i: int, rest: seq<Event>, admitted: seq<Event>)
    requires Waiting(s.arrivals, i - 1, b.horizon) && !(s.arrivals == [] && s.ready == [] && !s.running)
    requires multiset(rest) + multiset(admitted) == multiset(s.arrivals)
    requires forall j :: 0 <= j < |rest| ==> rest[j].inTime > i - 1
    requires !s.running && s.ready + admitted == []
    ensures i <= b.horizon
  {
    assert admitted == [];
    assert multiset(rest) == multiset(s.arrivals);
    assert rest[0] in multiset(s.arrivals);
    var j :| 0 <= j < |s.arrivals| && s.arrivals[j] == rest[0];
  }

  /** Dispatch and the slice of tick `i`, after admission. */
  lemma ExecutedKeeps(s1: Sched, b: Ledger, i: int, k: nat, s3: Sched)
    requires LAdmitted(s1, b, i) && (!s1.running && s1.ready == [] ==> i <= b.horizon)
    requires !s1.running && s1.ready != [] ==> k < |s1.ready|
    requires s3 == Advance(Dispatching(s1, k, i))
    ensures LAdvanced(s3, b, i)
    ensures Backlog(s3) < Backlog(s1) || (Backlog(s3) == Backlog(s1) && !s3.running && i <= b.horizon)
  {
    LDispatchKeeps(s1, b, i, k);
    LAdvanceKeeps(Dispatching(s1, k, i), b, i);
  }

  /**
   * The completion check of tick `i`, reached when `i` is not past the
   * running event's deadline, leaves the state at the head of tick `i + 1`.
   */
  lemma LTickKeeps(f: Sched, fb: Ledger, i: int, s': Sched, b': Ledger)
    requires LAdvanced(f, fb, i) && (f.running ==> i <= f.current.stopTime)
    requires s' == Settle(f, i) && b' == Record(f, fb, i)
    ensures LHead(s', b', i + 1) && Backlog(s') == Backlog(f)
    ensures b'.input == fb.input && b'.earlier == fb.earlier && b'.horizon == fb.horizon
  {
    LSettleKeeps(f, fb, i);
  }

  /**
   * Where LLF stops at tick `i`: the running event is past its deadline, and
   * this is the first tick past the deadline in which it runs (its segment
   * began in tick `i`, by dispatch or preemption, or its deadline is
   * `i - 1`); every input event is still in exactly one place and the trace
   * is sound.
   */
  ghost predicate LMissed(s: Sched, b: Ledger, i: int) {
    && Conserves(s, b) && Logged(s.results, b, i - 1) && s.running && i > s.current.stopTime
    && (s.start == i || s.current.stopTime == i - 1)
  }

  /** A tick whose running event is past its deadline after the slice leaves the state `LMissed` describes. */
  lemma LMissKeeps(f: Sched, fb: Ledger, i: int)
    requires LAdvanced(f, fb, i) && f.running && i > f.current.stopTime
    ensures LMissed(f, fb, i)
  {
  }

  /**
   * How the loop of `LLF::run` ends: with nothing waiting, ready or running
   * after tick `last`, or (`missed`) with the running event in tick `last`
   * past its deadline for the first time it runs.
   */
  ghost predicate Drained(s: Sched, b: Ledger, missed: bool, last: int) {
    if missed then LMissed(s, b, last)
    else LHead(s, b, last + 1) && s.arrivals == [] && s.ready == [] && !s.running
  }

  /**
   * What a run that began with trace `before` has recorded when the trace is
   * `after`: records follow the earlier trace, none overlapping and none
   * beginning before its event arrived; its completion records are those of
   * the events it finished, in order, each by its deadline; and those
   * events are input events.
   */
  ghost predicate Logs(before: seq<Result>, after: seq<Result>, finished: seq<Event>, input: seq<Event>) {
    && |before| <= |after| && after[..|before|] == before
    && multiset(Ids(finished)) <= multiset(Ids(input))
    && CompletionsOf(after[|before|..], finished, true)
    && Chronological(after[|before|..])
    && BeginsAfterArrival(after[|before|..])
  }

  /**
   * What `LLF::run` promises, for a run that began with trace `before` and
   * success flag `okBefore` and ends in state `s` with flag `ok`: the trace
   * is as `Logs` says. When nothing runs at the end, the caller's queue and
   * the ready queue are empty, the flag is as it was, every input event has
   * completed exactly once and the recorded segments add up to exactly the
   * input's total run time; otherwise the flag is cleared and `last` is the
   * first tick past the running event's deadline in which it runs: its
   * deadline is `last - 1`, or its segment began in tick `last` already late.
   */
  ghost predicate Verdict(before: seq<Result>, events: seq<Event>, s: Sched, b: Ledger, ok: bool, okBefore: bool, last: int)
    requires |before| <= |s.results|
  {
    && Logs(before, s.results, b.finished, events)
    && (!s.running ==>
          && s.arrivals == [] && s.ready == [] && ok == okBefore
          && multiset(Ids(b.finished)) == multiset(Ids(events))
          && SumDurations(s.results[|before|..]) == SumTotal(events))
    && (s.running ==> !ok && s.current.stopTime < last && (s.start == last || s.current.stopTime == last - 1))
  }

  /** At any point of a run, its trace is as `Logs` says. */
  lemma LPartial(s: Sched, b: Ledger, now: int)
    requires Conserves(s, b) && Logged(s.results, b, now)
    ensures Logs(b.earlier, s.results, b.finished, b.input)
    ensures s.results[|b.earlier|..] == b.added
  {
    assert s.results[|b.earlier|..] == b.added;
  }

  /** Either way the loop ends, `LLF::run` keeps its promise. */
  lemma Conclude(before: seq<Result>, events: seq<Event>, s: Sched, b: Ledger, missed: bool, last: int, okBefore: bool)
    requires Drained(s, b, missed, last) && b.earlier == before && b.input == events
    ensures |before| <= |s.results|
    ensures Verdict(before, events, s, b, okBefore && !missed, okBefore, last)
  {
    if missed {
      LPartial(s, b, last - 1);
    } else {
      LPartial(s, b, last);
      DonePool(s.current, b.finished, b.input);
      FinishedProgress(b.finished);
      SameIdsSameTotal(b.finished, b.input);
    }
  }

  class LLF {
    /** `event_schedule_queue`, ordered by `llf_cmp`. */
    var ready: seq<Event>
    var currentEvent: Event
    var isRunning: bool
    /**
     * The tick at which the running segment began. The source keeps it in a
     * local declared afresh, uninitialised, on every tick; the model keeps
     * the value the records evidently mean.
     */
    var startTime: int
    var results: seq<Result>
    /** Cleared when a deadline is missed and never set again. */
    var succeed: bool
    /** Set when a tick admits an event, cleared once the laxities are recomputed. */
    var eventArrive: bool

    // Bookkeeping of the current run, for the proofs only.
    /** The events handed to `Run`. */
    ghost var input: seq<Event>
    /** The horizon: no input event arrives later. */
    ghost var horizon: int
    /** The trace as it was when `Run` began, and what `Run` has added to it. */
    ghost var earlier: seq<Result>
    ghost var added: seq<Result>
    /** The events whose completion `Run` has recorded, in order. */
    ghost var finished: seq<Event>

    constructor ()
      ensures ready == [] && !isRunning && results == [] && succeed && !eventArrive
    {
      ready := [];
      currentEvent := Event(0, 0, 0, 0, 0, 0, 0, 0);
      isRunning := false;
      startTime := 0;
      results := [];
      succeed := true;
      eventArrive := false;
    }

    /** The scheduler's state, `arrivals` being the caller's queue. */
    ghost function State(arrivals: seq<Event>): Sched
      reads this`ready, this`currentEvent, this`isRunning, this`startTime, this`results
    {
      Sched(arrivals, ready, currentEvent, isRunning, startTime, results)
    }

    ghost function Books(): Ledger
      reads this`input, this`horizon, this`earlier, this`added, this`finished
    {
      Ledger(input, horizon, earlier, added, finished)
    }

    /**
     * `LLF::run`. The caller's queue is consumed; `rest` is what is left of
     * it. When the loop runs out of events, every input event has completed
     * exactly once, by its deadline, the segments recorded add up to the
     * input's total run time, none overlaps another or begins before its
     * event arrived, and the success flag is as it was. Otherwise the
     * running event's deadline lies before the tick `last` the loop stopped
     * at and the flag is cleared; what was recorded until then is as sound.
     * `totalTime` is not read.
     */
    method Run(events: seq<Event>, totalTime: int) returns (rs: seq<Result>, ok: bool, rest: seq<Event>, ghost last: int)
      requires forall k :: 0 <= k < |events| ==> Admissible(events[k])
      requires !isRunning && ready == []
      modifies this
      ensures rs == results && ok == succeed
      ensures |old(results)| <= |results|
      ensures Verdict(old(results), events, State(rest), Books(), ok, old(succeed), last)
    {
      Begin(events);
      var missed;
      rest, missed, last := Drain(events);
      if missed {
        // the loop's `succeed = false; break;`
        succeed := false;
      }
      rs, ok := results, succeed;
      Conclude(old(results), events, State(rest), Books(), missed, last, old(succeed));
    }

    /** Opens the books of a run on `events`: the state at the head of tick 0. */
    ghost method Begin(events: seq<Event>)
      requires forall k :: 0 <= k < |events| ==> Admissible(events[k])
      requires !isRunning && ready == []
      modifies this`input, this`horizon, this`earlier, this`added, this`finished
      ensures LHead(State(events), Books(), 0) && input == events && earlier == results
    {
      input, horizon := events, LatestArrival(events);
      earlier, added, finished := results, [], [];
      LStart(State(events), Books());
    }

    /**
     * The loop of `LLF::run` from tick 0, given the caller's queue. It ticks
     * until nothing is waiting, ready or running, or until the running event
     * is past its deadline at tick `last` (`missed`; the caller then clears
     * the success flag), and returns what is left of the caller's queue.
     */
    method Drain(events: seq<Event>) returns (rest: seq<Event>, missed: bool, last: int)
      requires LHead(State(events), Books(), 0)
      modifies this`ready, this`currentEvent, this`isRunning, this`startTime, this`results, this`added, this`finished, this`eventArrive
      ensures Drained(State(rest), Books(), missed, last)
      ensures input == old(input) && earlier == old(earlier)
    {
      var arrivals := events;
      var i := 0;
      while true
        invariant LHead(State(arrivals), Books(), i)
        invariant input == old(input) && earlier == old(earlier)
        decreases Backlog(State(arrivals)), horizon + 2 - i
      {
        if arrivals == [] && ready == [] && !isRunning {
          break;
        }
        var waiting, miss := Tick(arrivals, i);
        if miss {
          return waiting, true, i;
        }
        arrivals := waiting;
        i := i + 1;
      }
      rest, missed, last := arrivals, false, i - 1;
    }

    /**
     * Tick `i` of `LLF::run`, on a scheduler with something waiting, ready
     * or running: everything up to the slice and the preemption check, then
     * the deadline check (`miss`) and, when the deadline holds, the
     * completion check. Each tick that does not miss uses up a slice of work
     * or comes no later than the last arrival.
     */
    method Tick(arrivals: seq<Event>, i: int) returns (waiting: seq<Event>, miss: bool)
      requires LHead(State(arrivals), Books(), i)
      requires arrivals != [] || ready != [] || isRunning
      modifies this`ready, this`currentEvent, this`isRunning, this`startTime, this`results, this`added, this`finished, this`eventArrive
      ensures miss ==> LMissed(State(waiting), Books(), i)
      ensures !miss ==> LHead(State(waiting), Books(), i + 1)
      ensures !miss ==> Backlog(State(waiting)) < old(Backlog(State(arrivals)))
                        || (Backlog(State(waiting)) == old(Backlog(State(arrivals))) && i <= horizon)
      ensures input == old(input) && earlier == old(earlier) && horizon == old(horizon)
    {
      ghost var s, b, flag := State(arrivals), Books(), eventArrive;
      var admitted, top, next;
      waiting, admitted, top, next := Front(arrivals, i);
      FrontKeeps(s, b, i, waiting, admitted, flag || admitted != [], top, next, State(waiting), Books());
      miss := isRunning && i > currentEvent.stopTime;
      if miss {
        LMissKeeps(State(waiting), Books(), i);
      } else {
        ghost var f, fb := State(waiting), Books();
        Complete(waiting, i);
        LTickKeeps(f, fb, i, State(waiting), Books());
      }
    }

    /**
     * The part of tick `i` before the deadline check: admission, the
     * laxities recomputed if anything arrived, dispatch of the ready event
     * at `top`, the slice, and preemption by the ready event at `next`.
     */
    method Front(arrivals: seq<Event>, i: int) returns (waiting: seq<Event>, admitted: seq<Event>, top: nat, next: nat)
      requires forall k :: 0 <= k < |arrivals| ==> arrivals[k].inTime >= i - 1
      modifies this`ready, this`currentEvent, this`isRunning, this`startTime, this`results, this`added, this`eventArrive
      ensures multiset(waiting) + multiset(admitted) == multiset(arrivals)
      ensures forall k :: 0 <= k < |admitted| ==> admitted[k].inTime == i - 1
      ensures forall k :: 0 <= k < |waiting| ==> waiting[k].inTime > i - 1
      ensures var s1 := Relaxing(Admission(old(State(arrivals)), waiting, admitted), i, old(eventArrive) || admitted != []);
              (!s1.running && s1.ready != [] ==> IsTop(ByLaxity, s1.ready, top))
              && var s3 := Advance(Dispatching(s1, top, i));
              (s3.running && s3.ready != [] ==> IsTop(ByLaxity, s3.ready, next))
      ensures State(waiting) == Fronted(old(State(arrivals)), waiting, admitted, old(eventArrive) || admitted != [], top, next, i)
      ensures Books() == FrontedBooks(old(State(arrivals)), old(Books()), waiting, admitted, old(eventArrive) || admitted != [], top, next, i)
      ensures !eventArrive
    {
      waiting, admitted := Prepare(arrivals, i);
      top, next := Execute(waiting, i);
    }

    /** Admission at tick `i` and the laxities recomputed at `i - 1` if anything arrived. */
    method Prepare(arrivals: seq<Event>, i: int) returns (waiting: seq<Event>, admitted: seq<Event>)
      requires forall k :: 0 <= k < |arrivals| ==> arrivals[k].inTime >= i - 1
      modifies this`ready, this`currentEvent, this`eventArrive
      ensures multiset(waiting) + multiset(admitted) == multiset(arrivals)
      ensures forall k :: 0 <= k < |admitted| ==> admitted[k].inTime == i - 1
      ensures forall k :: 0 <= k < |waiting| ==> waiting[k].inTime > i - 1
      ensures State(waiting) == Relaxing(Admission(old(State(arrivals)), waiting, admitted), i, old(eventArrive) || admitted != [])
      ensures !eventArrive
    {
      waiting, admitted := Admit(arrivals, i);
      RecomputeLaxities(waiting, i);
    }

    /** Dispatch at tick `i`, the slice and the preemption check. */
    method Execute(arrivals: seq<Event>, i: int) returns (top: nat, next: nat)
      modifies this`ready, this`currentEvent, this`isRunning, this`startTime, this`results, this`added
      ensures !old(isRunning) && old(ready) != [] ==> IsTop(ByLaxity, old(ready), top)
      ensures var s3 := Advance(Dispatching(old(State(arrivals)), top, i));
              (s3.running && s3.ready != [] ==> IsTop(ByLaxity, s3.ready, next))
              && State(arrivals) == Preemption(s3, next, i)
              && Books() == Interruption(s3, old(Books()), next, i)
    {
      top := Dispatch(arrivals, i);
      next := Slice(arrivals, i);
    }

    /**
     * Admission at tick `i`: the events of the caller's queue arriving at
     * `i - 1` move to the tail of the ready queue, and `eventArrive` is set
     * if there are any.
     */
    method Admit(arrivals: seq<Event>, i: int) returns (waiting: seq<Event>, admitted: seq<Event>)
      requires forall k :: 0 <= k < |arrivals| ==> arrivals[k].inTime >= i - 1
      modifies this`ready, this`eventArrive
      ensures multiset(waiting) + multiset(admitted) == multiset(arrivals)
      ensures forall k :: 0 <= k < |admitted| ==> admitted[k].inTime == i - 1
      ensures forall k :: 0 <= k < |waiting| ==> waiting[k].inTime > i - 1
      ensures State(waiting) == Admission(old(State(arrivals)), waiting, admitted)
      ensures eventArrive == (old(eventArrive) || admitted != [])
    {
      waiting, admitted := AdmitArrivals(arrivals, i - 1);
      ready := ready + admitted;
      if admitted != [] {
        eventArrive := true;
      }
    }

    /**
     * When something arrived: every ready event's laxity, and the running
     * slot's, is recomputed at tick `i - 1`, and `eventArrive` is cleared.
     * The source pops the queue into a fresh one; the model rewrites it in
     * place, which holds the same events.
     */
    method RecomputeLaxities(arrivals: seq<Event>, i: int)
      modifies this`ready, this`currentEvent, this`eventArrive
      ensures State(arrivals) == Relaxing(old(State(arrivals)), i, old(eventArrive))
      ensures !eventArrive
    {
      if eventArrive {
        var relaxed := [];
        var j := 0;
        while j < |ready|
          invariant 0 <= j <= |ready| && |relaxed| == j
          invariant forall m :: 0 <= m < j ==> relaxed[m] == ready[m].(laxity := Laxity(ready[m], i - 1))
        {
          var e := ready[j];
          relaxed := relaxed + [e.(laxity := e.stopTime - (i - 1) - (e.totalRunTime - e.timePointer))];
          j := j + 1;
        }
        ready := relaxed;
        currentEvent := currentEvent.(laxity := currentEvent.stopTime - (i - 1) - (currentEvent.totalRunTime - currentEvent.timePointer));
        eventArrive := false;
      }
    }

    /** Dispatch at tick `i`: if nothing runs and something is ready, the top of the ready queue, at `top`, starts running. */
    method Dispatch(arrivals: seq<Event>, i: int) returns (top: nat)
      modifies this`ready, this`currentEvent, this`startTime, this`isRunning
      ensures !old(isRunning) && old(ready) != [] ==> IsTop(ByLaxity, old(ready), top)
      ensures State(arrivals) == Dispatching(old(State(arrivals)), top, i)
    {
      top := 0;
      if !isRunning && ready != [] {
        top := TopIndex(ByLaxity, ready);
        currentEvent, ready, startTime, isRunning := ready[top], Remove(ready, top), i, true;
      }
    }

    /**
     * The slice of tick `i`: the running event runs one slice. Then the top
     * of a non-empty ready queue, at `next`, takes over if it has less
     * laxity and the running event has not just run its last slice: the
     * running event's segment `[startTime - 1, i - 1]` is recorded as
     * interrupted, it goes back to the ready queue without this tick's
     * slice, and the top event runs from `i` with that slice.
     */
    method Slice(arrivals: seq<Event>, i: int) returns (next: nat)
      modifies this`ready, this`currentEvent, this`startTime, this`results, this`added
      ensures var s := Advance(old(State(arrivals)));
              (s.running && s.ready != [] ==> IsTop(ByLaxity, s.ready, next))
              && State(arrivals) == Preemption(s, next, i)
              && Books() == Interruption(s, old(Books()), next, i)
    {
      next := 0;
      if isRunning {
        currentEvent := currentEvent.(timePointer := currentEvent.timePointer + 1);
        if ready != [] {
          next := TopIndex(ByLaxity, ready);
          var nextEvent := ready[next];
          if nextEvent.laxity < currentEvent.laxity && currentEvent.timePointer != currentEvent.totalRunTime {
            var result := Segment(currentEvent, startTime - 1, i - 1, true);
            var back := currentEvent.(timePointer := currentEvent.timePointer - 1);
            startTime := i;
            nextEvent := nextEvent.(timePointer := nextEvent.timePointer + 1);
            ready := Remove(ready, next) + [back];
            results, added := results + [result], added + [result];
            currentEvent := nextEvent;
          }
        }
      }
    }

    /** After the deadline check of tick `i`: a running event that has run all its slices is recorded, `[startTime - 1, i]`, and stops. */
    method Complete(arrivals: seq<Event>, i: int)
      modifies this`isRunning, this`results, this`added, this`finished
      ensures State(arrivals) == Settle(old(State(arrivals)), i)
      ensures Books() == Record(old(State(arrivals)), old(Books()), i)
    {
      if isRunning && currentEvent.timePointer == currentEvent.totalRunTime {
        var result := Segment(currentEvent, startTime - 1, i, false);
        results, added, finished := results + [result], added + [result], finished + [currentEvent];
        isRunning := false;
      }
    }
  }
}
