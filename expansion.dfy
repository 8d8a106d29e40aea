/**
 * The expansion of lab4/main.cpp: each line of the task-set file becomes
 * concrete events, a periodic line one instance per period up to the total
 * time, an aperiodic line a single one. Reading the file is not modelled;
 * the lines arrive as a sequence.
 */
module Expansion {
  import opened Events

  /** One line of the task-set file: `index is_cycle in_time period_or_stop_time run_time`. */
  datatype TaskLine = TaskLine(index: int, isCycle: int, inTime: int, periodOrStopTime: int, runTime: int)

  /** `if (is_cycle)`: any non-zero value marks a periodic task. */
  predicate Periodic(line: TaskLine) {
    line.isCycle != 0
  }

  /**
   * The instance loop of a periodic line stops: its period is positive, or
   * its first instance already falls after the total time. Otherwise the
   * loop of `main` would push instances for ever.
   */
  predicate Ends(line: TaskLine, totalTime: int) {
    !Periodic(line) || line.periodOrStopTime > 0 || line.inTime > totalTime
  }

  /** The conversion of an integer to a signed 8-bit `char`: the value in range congruent to `x` modulo 256. */
  function Wrap(x: int): (r: Char8)
    ensures (r as int - x) % 256 == 0
  {
    var w := (x + 128) % 256 - 128;
    assert w - x == (x + 128) % 256 - (x + 128);
    w as Char8
  }

  /** A `char` congruent to `x` modulo 256 is the one `Wrap` picks. */
  lemma WrapUnique(x: int, c: Char8)
    requires (c as int - x) % 256 == 0
    ensures c == Wrap(x)
  {
    var w := Wrap(x);
    var q1 := (c as int - x) / 256;
    var q2 := (w as int - x) / 256;
    assert c as int - x == 256 * q1;
    assert w as int - x == 256 * q2;
    assert c as int - w as int == 256 * (q1 - q2);
  }

  /** `event_name++` on a signed `char`: the next code, 127 wrapping to -128. */
  function NextName(c: Char8): (r: Char8)
    ensures c < 127 ==> r as int == c as int + 1
    ensures c == 127 ==> r == -128
  {
    var r := Wrap(c as int + 1);
    if c < 127 then
      WrapUnique(c as int + 1, (c as int + 1) as Char8);
      r
    else
      WrapUnique(c as int + 1, -128);
      r
  }

  /** The name of the events of line `n` (from 0): `'A'` advanced `n` times. */
  function NameOf(n: nat): Char8 {
    Wrap(65 + n)
  }

  /** Advancing the name of line `n` gives the name of line `n + 1`. */
  lemma NameStep(n: nat)
    ensures NextName(NameOf(n)) == NameOf(n + 1)
  {
    var c := NameOf(n);
    var q1 := (c as int - (65 + n)) / 256;
    assert c as int - (65 + n) == 256 * q1;
    var d := NextName(c);
    var q2 := (d as int - (c as int + 1)) / 256;
    assert d as int - (c as int + 1) == 256 * q2;
    assert d as int - (65 + n + 1) == 256 * (q1 + q2);
    WrapUnique(65 + n + 1, d);
  }

  /**
   * Names repeat with period 256 and not before: the lines of a file
   * shorter than 257 lines get distinct names, and line 63 is the first
   * whose name has wrapped to -128.
   */
  lemma NamesCycle(n: nat, m: nat)
    requires n < m
    ensures NameOf(n) == NameOf(m) <==> (m - n) % 256 == 0
    ensures NameOf(0) == 65 && NameOf(62) == 127 && NameOf(63) == -128
  {
    var c, d := NameOf(n), NameOf(m);
    var q1 := (c as int - (65 + n)) / 256;
    var q2 := (d as int - (65 + m)) / 256;
    assert c as int - (65 + n) == 256 * q1;
    assert d as int - (65 + m) == 256 * q2;
    if (m - n) % 256 == 0 {
      var q := (m - n) / 256;
      assert m - n == 256 * q;
      assert c as int - (65 + m) == 256 * (q1 - q);
      WrapUnique(65 + m, c);
    }
    if c == d {
      assert m - n == 256 * (q1 - q2);
    }
  }

  /** The arrival of instance `j` of a periodic line. */
  function Arrival(line: TaskLine, j: nat): int {
    line.inTime + j * line.periodOrStopTime
  }

  /**
   * The event `main` evidently means to build: the arrival, the run time,
   * the deadline, no progress yet and the line's name, the other members
   * value-initialised to 0.
   */
  function Instance(arrival: int, runTime: int, deadline: int, name: Char8): Event {
    Event(0, arrival, runTime, deadline, name, 0, 0, 0)
  }

  /**
   * The event `main` builds as written: `Event{arrival, run_time,
   * deadline, 0, name}` fills the members in declaration order, and the
   * first of them is `index`.
   */
  function PositionalInstance(arrival: int, runTime: int, deadline: int, name: Char8): Event {
    Event(arrival, runTime, deadline, 0, name, 0, 0, 0)
  }

  /**
   * As written, the first instance of the periodic line `(in_time 0,
   * period 10, run_time 3)` arrives at 3, needs 10 slices and is due at 0,
   * before its arrival; the intended event arrives at 0, needs 3 slices
   * and is due at 10, one period after its arrival.
   */
  lemma PositionalMisplaces(line: TaskLine, name: Char8)
    requires line == TaskLine(1, 1, 0, 10, 3)
    ensures var e := PositionalInstance(Arrival(line, 0), line.runTime, Arrival(line, 0) + line.periodOrStopTime, name);
            var f := Instance(Arrival(line, 0), line.runTime, Arrival(line, 0) + line.periodOrStopTime, name);
            && e.inTime == 3 && e.totalRunTime == 10 && e.stopTime == 0
            && e.stopTime < e.inTime && e.stopTime != e.inTime + line.periodOrStopTime
            && f.inTime == 0 && f.totalRunTime == 3 && f.stopTime == 10
  {
  }

  /**
   * As written, the aperiodic line `(in_time 2, stop_time 9, run_time 4)`
   * arrives at 4, needs 9 slices and is due at 0, which no schedule can
   * meet; the intended event arrives at 2, needs 4 slices and is due at 9.
   */
  lemma PositionalMisplacesAperiodic(line: TaskLine, name: Char8)
    requires line == TaskLine(2, 0, 2, 9, 4)
    ensures var e := PositionalInstance(line.inTime, line.runTime, line.periodOrStopTime, name);
            var f := Instance(line.inTime, line.runTime, line.periodOrStopTime, name);
            && e.inTime == 4 && e.totalRunTime == 9 && e.stopTime == 0
            && e.stopTime < e.inTime + e.totalRunTime
            && f.inTime == 2 && f.totalRunTime == 4 && f.stopTime == 9
  {
  }

  /** How many instances the periodic `line` yields up to `totalTime`. */
  function InstanceCount(line: TaskLine, totalTime: int): nat
    requires Periodic(line) && Ends(line, totalTime)
  {
    if line.inTime > totalTime then 0 else (totalTime - line.inTime) / line.periodOrStopTime + 1
  }

  lemma MulMono(a: nat, b: nat, p: int)
    requires a <= b && p > 0
    ensures a * p <= b * p
  {
    assert b * p == a * p + (b - a) * p;
  }

  /**
   * Instance `j` exists exactly when it arrives no later than the total
   * time: the bound is inclusive. (With a period that is not positive, only
   * the first arrival is ever compared.)
   */
  lemma {:induction false} CountBounds(line: TaskLine, totalTime: int, j: nat)
    requires Periodic(line) && Ends(line, totalTime)
    requires line.periodOrStopTime > 0 || j <= InstanceCount(line, totalTime)
    ensures j < InstanceCount(line, totalTime) <==> Arrival(line, j) <= totalTime
  {
    if line.inTime <= totalTime {
      var p := line.periodOrStopTime;
      var q := (totalTime - line.inTime) / p;
      assert q * p <= totalTime - line.inTime < q * p + p;
      if j <= q {
        MulMono(j, q, p);
      } else {
        MulMono(q + 1, j, p);
      }
    } else if line.periodOrStopTime > 0 {
      assert j * line.periodOrStopTime >= 0;
    }
  }

  /** The events of one line, named `name`. */
  function LineEvents(line: TaskLine, totalTime: int, name: Char8): seq<Event>
    requires Ends(line, totalTime)
  {
    if Periodic(line) then
      seq(InstanceCount(line, totalTime),
          j requires 0 <= j => Instance(Arrival(line, j), line.runTime, Arrival(line, j) + line.periodOrStopTime, name))
    else
      [Instance(line.inTime, line.runTime, line.periodOrStopTime, name)]
  }

  /**
   * A periodic line yields the instances arriving at `in_time`, `in_time +
   * period`, … up to and including the total time, in strictly increasing
   * arrival, each due one period after its own arrival, needing the line's
   * run time and carrying its name; the next arrival would be past the total
   * time.
   */
  lemma PeriodicInstances(line: TaskLine, totalTime: int, name: Char8)
    requires Periodic(line) && Ends(line, totalTime)
    ensures var r := LineEvents(line, totalTime, name);
            && (forall j :: 0 <= j < |r| ==>
                 && r[j].inTime == Arrival(line, j) <= totalTime
                 && r[j].stopTime == r[j].inTime + line.periodOrStopTime
                 && r[j].totalRunTime == line.runTime && r[j].timePointer == 0 && r[j].eventName == name)
            && (forall j, k :: 0 <= j < k < |r| ==> r[j].inTime < r[k].inTime)
            && (r != [] ==> r[0].inTime == line.inTime)
            && Arrival(line, |r|) > totalTime
  {
    var r := LineEvents(line, totalTime, name);
    forall j | 0 <= j < |r|
      ensures r[j].inTime <= totalTime
    {
      CountBounds(line, totalTime, j);
    }
    forall j, k | 0 <= j < k < |r|
      ensures r[j].inTime < r[k].inTime
    {
      assert Arrival(line, k) == Arrival(line, j) + (k - j) * line.periodOrStopTime;
      CountBounds(line, totalTime, 0);
      assert 0 < |r| == InstanceCount(line, totalTime);
      assert line.inTime <= totalTime;
      assert line.periodOrStopTime > 0;
    }
    CountBounds(line, totalTime, |r|);
  }

  /** An aperiodic line yields exactly one event, due at the stop time the line gives. */
  lemma AperiodicInstance(line: TaskLine, totalTime: int, name: Char8)
    requires !Periodic(line)
    ensures var r := LineEvents(line, totalTime, name);
            && |r| == 1 && r[0].inTime == line.inTime && r[0].stopTime == line.periodOrStopTime
            && r[0].totalRunTime == line.runTime && r[0].timePointer == 0 && r[0].eventName == name
  {
  }

  /** The whole expansion: the lines' events in line order, line `n` named `NameOf(n)`. */
  function Expanded(lines: seq<TaskLine>, totalTime: int): seq<Event>
    requires forall n :: 0 <= n < |lines| ==> Ends(lines[n], totalTime)
  {
    if lines == [] then []
    else Expanded(lines[..|lines| - 1], totalTime) + LineEvents(lines[|lines| - 1], totalTime, NameOf(|lines| - 1))
  }

  /** The expansion of a prefix of the lines is a prefix of the expansion. */
  lemma {:induction false} ExpandedPrefix(lines: seq<TaskLine>, totalTime: int, n: nat)
    requires forall m :: 0 <= m < |lines| ==> Ends(lines[m], totalTime)
    requires n <= |lines|
    ensures var e := Expanded(lines[..n], totalTime);
            |e| <= |Expanded(lines, totalTime)| && e == Expanded(lines, totalTime)[..|e|]
    decreases |lines| - n
  {
    if n < |lines| {
      var init := lines[..|lines| - 1];
      assert init[..n] == lines[..n];
      ExpandedPrefix(init, totalTime, n);
    } else {
      assert lines[..n] == lines;
    }
  }

  /**
   * Line `n`'s events sit in the expansion right after those of the lines
   * before it, all named `NameOf(n)`: events are appended in line order.
   */
  lemma ExpandedLine(lines: seq<TaskLine>, totalTime: int, n: nat)
    requires forall m :: 0 <= m < |lines| ==> Ends(lines[m], totalTime)
    requires n < |lines|
    ensures var lo, hi := |Expanded(lines[..n], totalTime)|, |Expanded(lines[..n + 1], totalTime)|;
            && lo <= hi <= |Expanded(lines, totalTime)|
            && Expanded(lines, totalTime)[lo..hi] == LineEvents(lines[n], totalTime, NameOf(n))
  {
    var pre := lines[..n + 1];
    assert pre[..|pre| - 1] == lines[..n];
    ExpandedPrefix(lines, totalTime, n + 1);
  }

  /**
   * Lines with run time at least 1 and in-time at least -1 expand into
   * events the schedulers can run to completion.
   */
  lemma {:induction false} ExpandedAdmissible(lines: seq<TaskLine>, totalTime: int)
    requires forall m :: 0 <= m < |lines| ==> Ends(lines[m], totalTime)
    requires forall m :: 0 <= m < |lines| ==> lines[m].runTime >= 1 && lines[m].inTime >= -1
    ensures forall k :: 0 <= k < |Expanded(lines, totalTime)| ==> Admissible(Expanded(lines, totalTime)[k])
  {
    if lines != [] {
      var init := lines[..|lines| - 1];
      ExpandedAdmissible(init, totalTime);
      var line := lines[|lines| - 1];
      var r := LineEvents(line, totalTime, NameOf(|lines| - 1));
      forall j | 0 <= j < |r|
        ensures Admissible(r[j])
      {
        if Periodic(line) {
          CountBounds(line, totalTime, 0);
          assert line.periodOrStopTime > 0;
          assert j * line.periodOrStopTime >= 0;
        }
      }
      var e := Expanded(lines, totalTime);
      var pre := Expanded(init, totalTime);
      assert e == pre + r;
      forall k | 0 <= k < |e|
        ensures Admissible(e[k])
      {
        if k < |pre| {
          assert e[k] == pre[k];
          assert Admissible(pre[k]);
        } else {
          assert e[k] == r[k - |pre|];
          assert Admissible(r[k - |pre|]);
        }
      }
    }
  }

  /**
   * The reading loop of `main`: each line in turn, a periodic one pushing
   * instance `i = 0, 1, …` until an arrival passes `totalTime`, an aperiodic
   * one pushing its single event; the name advances after every line.
   */
  method Expand(lines: seq<TaskLine>, totalTime: int) returns (events: seq<Event>)
    requires forall n :: 0 <= n < |lines| ==> Ends(lines[n], totalTime)
    ensures events == Expanded(lines, totalTime)
  {
    var name: Char8 := 65;
    events := [];
    var n := 0;
    while n < |lines|
      invariant 0 <= n <= |lines|
      invariant name == NameOf(n)
      invariant events == Expanded(lines[..n], totalTime)
    {
      var line := lines[n];
      ghost var before := events;
      if line.isCycle != 0 {
        var i := 0;
        while true
          invariant 0 <= i <= InstanceCount(line, totalTime)
          invariant events == before + LineEvents(line, totalTime, name)[..i]
          decreases InstanceCount(line, totalTime) - i
        {
          var actualInTime := line.inTime + i * line.periodOrStopTime;
          CountBounds(line, totalTime, i);
          if actualInTime > totalTime {
            break;
          }
          events := events + [Instance(actualInTime, line.runTime, actualInTime + line.periodOrStopTime, name)];
          i := i + 1;
        }
        assert LineEvents(line, totalTime, name)[..i] == LineEvents(line, totalTime, name);
      } else {
        events := events + [Instance(line.inTime, line.runTime, line.periodOrStopTime, name)];
      }
      assert lines[..n + 1][..n] == lines[..n];
      NameStep(n);
      name := NextName(name);
      n := n + 1;
    }
    assert lines[..n] == lines;
  }
}
