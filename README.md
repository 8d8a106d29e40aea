# Discrete-time real-time schedulers and a kernel ring-buffer pipe, in Dafny

This project models three pieces of an operating-systems lab repository and
proves properties of them.

- **The lab4 schedulers.** `EDF`, `LLF` and `RMS` each run a set of task
  instances (`Event`) on one processor, one time slice per tick. Each
  recorded execution segment is a `Result`.
  - At tick `i`, every instance whose `in_time` is `i - 1` leaves the
    caller's arrival queue (ordered by `Event::operator<`) and joins the
    scheduler's ready queue. That queue is ordered by deadline (`cmp`), by
    laxity (`llf_cmp`) or by priority (`rms_cmp`).
  - When nothing runs, the top of the ready queue is dispatched.
  - The running instance then runs one slice. LLF may preempt it for a
    ready instance with less laxity. LLF and RMS stop, unsuccessfully, at
    the first tick past an instance's deadline in which that instance runs.
    An instance waiting in the ready queue is not checked.
  - An instance that has run all its slices gets a completion record
    `[start - 1, i]`.
  - Each class is modelled as a Dafny class with the source's fields:
    - `ready`: `event_schedule_queue`, as a `seq`;
    - `currentEvent`, `isRunning`, `startTime`, `results`;
    - `succeed` and `eventArrive` where the source has them.

  The phases of a tick are methods that update those fields in place.
- **The task-set expansion in `main`.** Each task line becomes its
  instances: periodic lines give one instance per period up to the total
  time, aperiodic lines give one. Every line is named by the next `char`.
- **The `mypipe` character device of lab6.** It is a 16-byte ring buffer
  with a read position, a write position and a flag telling a full ring
  from an empty one. `mypipe_read` and `mypipe_write` copy out of and into
  it in one or two pieces.

The proofs establish the following.

**Shared scheduler guarantees**, each stated as a loop invariant
(`Serial.Head` for EDF and RMS, `Llf.LHead` for LLF):
- every input instance is in exactly one place: waiting, ready, running
  or finished;
- every completion record is that of an instance whose progress has
  reached its run time, and no record begins before its instance arrived;
- segments never overlap;
- the backlog of owed slices shrinks, or the tick is no later than the
  last arrival, so the loop ends.

In EDF and RMS an instance runs in one piece, so its completion record
spans exactly its run time (`Serial.Head`). In LLF a completion record
`[start - 1, i]` covers only the last segment since the instance was
dispatched or took over, which is shorter than the run time after a
preemption. There the model accounts only for the total: every executed
slice lies in a recorded segment or in the running one (`Llf.Accounted`),
and on success the segments add up to the input's total run time
(`Llf.Conclude`).

**Per scheduler:**
- **EDF**: when `run` returns, every input instance has completed exactly
  once.
- **RMS**:
  - every completion it records meets its deadline;
  - on success every instance completed;
  - on failure the run stopped at the first tick past the running
    instance's deadline in which it ran: its deadline was the previous
    tick, or it started running in that tick already late (`Serial.Head`
    keeps the running instance within its deadline up to the previous
    tick).
- **LLF**:
  - the same as RMS, counting interrupted segments too (`Llf.LHead`
    keeps the running instance within its deadline up to the previous
    tick, and an instance that takes over by preemption starts a segment);
  - on success the recorded segments add up to the input's total run time.

**Pipe:** read and write are first-in first-out on the ring's contents.

## Model

| member | source | states |
|---|---|---|
| Events.LessIsStrictOrder | lab4/event.hpp:18-21 | `operator<` (later arrival ranks lower) is irreflexive, transitive and asymmetric, as `std::priority_queue` needs |
| Events.LessIncomparability | lab4/event.hpp:18-21 | two instances are unordered exactly when they arrive together, and that is transitive (a strict weak order) |
| Events.LessReadsOnlyArrival | lab4/event.hpp:18-21 | the arrival queue's order depends on `in_time` alone |
| Results.AppendSegment | lab4/result.hpp:4-12 | appending a record adds its length to the traced time and, if it is a completion, to the list of completions |
| Results.AppendChronological | lab4/result.hpp:4-12 | a record beginning after every earlier one ends keeps the trace free of overlaps |
| Queues.BelowIsStrictOrder | lab4/edf.hpp:12-22 | each of the four queue orders (`operator<`, `cmp`, `llf_cmp`, `rms_cmp`) is a strict order |
| Queues.TopIndex | lab4/edf.hpp:58-59 | the index returned from a non-empty queue holds an element that no other element outranks |
| Queues.ArrivalTop | lab4/event.hpp:18-21 | the arrival queue's top is exactly an instance with the least `in_time` |
| Queues.DeadlineTop | lab4/edf.hpp:12-22 | `cmp`'s top is exactly an instance with the earliest deadline, ties going to the earlier arrival |
| Queues.LaxityTop | lab4/llf.hpp:13-23 | `llf_cmp`'s top is exactly an instance with the least laxity, ties going to the earlier arrival |
| Queues.PriorityTop | lab4/rms.hpp:15-25 | `rms_cmp`'s top is exactly an instance with the largest priority value, ties going to the earlier arrival |
| Queues.AdmitArrivals | lab4/edf.hpp:39-50 | the admission loop splits the arrival queue, a permutation, into the instances arriving at the admission tick and those arriving later |
| Bookkeeping.Permutation | lab4/edf.hpp:44 | moving instances between queues in any order keeps their identities, owed slices, executed slices and total run time |
| Bookkeeping.RemoveAt | lab4/edf.hpp:58-59 | popping the element at `k` removes exactly that element and its share of every total |
| Engine.AdmitStep | lab4/edf.hpp:39-50 | admission keeps every owed and executed slice; the admitted instances arrived before the new tick, the rest arrive later |
| Engine.DispatchStep | lab4/edf.hpp:54-63 | dispatch moves the top into the running slot without changing the owed or executed slices; the top arrived before the tick and is unfinished |
| Engine.SliceStep | lab4/edf.hpp:65-67 | one slice moves exactly one slice from owed to executed |
| Engine.CompleteStep | lab4/edf.hpp:68-73 | a completion moves the finished instance from the running slot to the finished ones and loses no slice |
| Engine.PreemptKeeps | lab4/rms.hpp:97-111 | preemption (requeueing the running instance one slice back, running the top one slice on) keeps every instance in exactly one place, the backlog and the executed slices |
| Serial.Start | lab4/edf.hpp:29-37 | at tick 0 every input is waiting, nothing is ready, running or recorded: the loop invariant holds |
| Serial.AdmitKeeps | lab4/edf.hpp:39-50 | admission at tick `i` keeps the invariant, advanced past `i - 1`, and the backlog |
| Serial.DispatchKeeps | lab4/edf.hpp:52-63 | dispatch keeps the invariant and the backlog; afterwards something runs unless nothing is ready |
| Serial.CompleteKeeps | lab4/edf.hpp:65-74 | a final slice records a completion of exactly the run time, after every earlier record, and the backlog drops by one |
| Serial.ContinueKeeps | lab4/edf.hpp:65-67 | a non-final slice keeps the invariant for the next tick and the backlog drops by one; when deadlines are checked, it needs the tick not past the deadline, as the check before it ensures |
| Serial.SliceKeeps | lab4/edf.hpp:65-74 | the slice phase establishes the invariant at tick `i + 1`; idle ticks happen only before the last arrival |
| Serial.TickKeeps | lab4/edf.hpp:39-76 | a whole tick keeps the invariant and shrinks the backlog, or comes no later than the last arrival |
| Serial.MissKeeps | lab4/rms.hpp:78-82 | a tick in which the running instance passes its deadline leaves a sound trace with that instance still running, and the tick is the first past its deadline in which it runs (its deadline is the previous tick, or it was dispatched in this tick) |
| Serial.Checked | lab4/rms.hpp:78-89 | after the slice, the deadline check either stops the loop as `MissKeeps` says or lets the completion check establish the invariant for the next tick with progress made |
| Serial.Partial | lab4/rms.hpp:84-89 | at any point the trace is the earlier trace plus completions of distinct input instances, each run for its run time and not overlapping |
| Serial.Finish | lab4/edf.hpp:34-37 | once nothing waits, is ready or runs, every input instance has completed exactly once |
| Edf.EDF.constructor | lab4/edf.hpp:81-85 | a new scheduler is idle with an empty ready queue and an empty trace |
| Edf.EDF.Run | lab4/edf.hpp:29-79 | returns the trace and what is left of the caller's arrival queue; the trace extends the old one with exactly one completion per input instance, each as long as its run time, not overlapping; the arrival queue and the ready queue end empty and nothing runs |
| Edf.EDF.Drain | lab4/edf.hpp:31-77 | the loop reaches a tick at which nothing waits, is ready or runs, keeping the invariant |
| Edf.EDF.Tick | lab4/edf.hpp:39-76 | one tick keeps the invariant and makes progress toward the end of the loop |
| Edf.EDF.Admit | lab4/edf.hpp:39-50 | the instances arriving at `i - 1` join the tail of the ready queue; no other instance moves |
| Edf.EDF.Dispatch | lab4/edf.hpp:52-63 | when idle with a non-empty ready queue, the earliest-deadline instance starts at tick `i` |
| Edf.EDF.RunSlice | lab4/edf.hpp:65-74 | the running instance runs a slice; when done its record `[start - 1, i]` is appended and it stops |
| Rms.Conclude | lab4/rms.hpp:78-93 | both ways out of the loop give what `run` promises: a miss clears the flag, a drained loop keeps it with every instance completed |
| Rms.RMS.constructor | lab4/strategy.hpp:21-26 | a new scheduler is idle, successful, with `event_arrive` off and an empty trace |
| Rms.RMS.Run | lab4/rms.hpp:32-94 | the trace gains only completions by their deadlines; success means every instance completed; failure means the loop stopped at the first tick past the running instance's deadline in which it ran |
| Rms.RMS.Drain | lab4/rms.hpp:34-92 | the loop ends drained, or at the first tick past the running instance's deadline in which it runs |
| Rms.RMS.Tick | lab4/rms.hpp:42-91 | one tick keeps the invariant (the running instance within its deadline up to this tick) and makes progress, or stops at the first tick past the running instance's deadline |
| Rms.RMS.Front | lab4/rms.hpp:42-76 | admission, dispatch of a largest-priority instance and the slice, in that order |
| Rms.RMS.Admit | lab4/rms.hpp:42-53 | the instances arriving at `i - 1` join the ready queue; no other instance moves |
| Rms.RMS.Dispatch | lab4/rms.hpp:55-65 | when idle with a non-empty ready queue, a largest-priority instance starts at tick `i` |
| Rms.RMS.Slice | lab4/rms.hpp:67-69 | the running instance runs one slice |
| Rms.RMS.Complete | lab4/rms.hpp:84-89 | an instance that has run all its slices gets its completion record and stops |
| Rms.RMS.Preempt | lab4/rms.hpp:97-111 | the top of the ready queue replaces the running instance, with an interrupted record ending at `i - 1`, exactly when it has a larger priority value and the running instance is not done |
| Llf.RelaxedSums | lab4/llf.hpp:58-67 | the recomputation keeps the instances' identities, owed slices and executed slices |
| Llf.LStart | lab4/llf.hpp:30-37 | at tick 0 the LLF loop invariant holds |
| Llf.LAdmitKeeps | lab4/llf.hpp:40-53 | admission keeps the LLF invariant and the backlog |
| Llf.RelaxKeeps | lab4/llf.hpp:55-69 | the laxity recomputation, done or not, keeps the LLF invariant and the backlog |
| Llf.LDispatchKeeps | lab4/llf.hpp:71-82 | dispatch keeps the LLF invariant and the backlog |
| Llf.LAdvanceKeeps | lab4/llf.hpp:84-86 | the slice keeps the LLF invariant and the backlog drops by one if something runs |
| Llf.LPreemptKeeps | lab4/llf.hpp:88-103 | a preemption records an interrupted segment `[start - 1, i - 1]` and keeps the invariant, the backlog and the executed-slice count |
| Llf.LPreemptionKeeps | lab4/llf.hpp:88-103 | the preemption check, firing or not, keeps the LLF invariant and the backlog |
| Llf.FrontKeeps | lab4/llf.hpp:40-103 | admission, recomputation, dispatch, slice and preemption together keep the invariant and shrink the backlog, or the tick is idle before the last arrival |
| Llf.LTickKeeps | lab4/llf.hpp:105-118 | the completion phase establishes the LLF invariant at tick `i + 1` |
| Llf.LMissKeeps | lab4/llf.hpp:105-109 | a tick past the running instance's deadline leaves a sound trace with that instance still running, and the tick is the first past its deadline in which it runs (its deadline is the previous tick, or its segment began in this tick) |
| Llf.LSettleKeeps | lab4/llf.hpp:111-116 | recording a completion by its deadline keeps the LLF invariant |
| Llf.LPartial | lab4/llf.hpp:94-115 | at any point the trace extends the earlier one, with non-overlapping segments none before its arrival, and completions of distinct input instances by their deadlines |
| Llf.Conclude | lab4/llf.hpp:105-120 | both ways out of the loop give what `run` promises; on success the segments sum to the input's total run time |
| Llf.LLF.constructor | lab4/llf.hpp:123-129 | a new scheduler is idle, successful, with `event_arrive` off and an empty trace |
| Llf.LLF.Run | lab4/llf.hpp:30-121 | the trace is as `Logs` says; success means every instance completed and the segments add up to the total run time; failure means the loop stopped at the first tick past the running instance's deadline in which it ran |
| Llf.LLF.Drain | lab4/llf.hpp:32-119 | the loop ends drained, or at the first tick past the running instance's deadline in which it runs |
| Llf.LLF.Tick | lab4/llf.hpp:40-118 | one tick keeps the LLF invariant (the running instance within its deadline up to this tick) and makes progress, or stops at the first tick past the running instance's deadline |
| Llf.LLF.Front | lab4/llf.hpp:40-103 | a tick up to the deadline check: admission, recomputation if anything arrived, dispatch of a least-laxity instance, slice and preemption |
| Llf.LLF.Prepare | lab4/llf.hpp:40-69 | admission followed by the laxity recomputation when anything arrived; the arrival flag ends off |
| Llf.LLF.Execute | lab4/llf.hpp:71-103 | dispatch of a least-laxity instance, then the slice and the preemption check |
| Llf.LLF.Admit | lab4/llf.hpp:40-53 | the instances arriving at `i - 1` join the ready queue and raise the arrival flag |
| Llf.LLF.RecomputeLaxities | lab4/llf.hpp:55-69 | when the flag is up, every ready instance and the running one get their laxity at `i - 1`; the flag drops |
| Llf.LLF.Dispatch | lab4/llf.hpp:71-82 | when idle with a non-empty ready queue, a least-laxity instance starts at tick `i` |
| Llf.LLF.Slice | lab4/llf.hpp:84-103 | the running instance runs a slice; a ready instance with strictly less laxity then preempts it unless it just finished |
| Llf.LLF.Complete | lab4/llf.hpp:111-116 | an instance that has run all its slices gets its completion record and stops |
| Expansion.NextName | lab4/main.cpp:60 | `event_name++` on a signed `char` adds one, wrapping from 127 to -128 |
| Expansion.NameStep | lab4/main.cpp:29-60 | line `n` is named `'A' + n` wrapped to a `char`, advancing once per line |
| Expansion.NamesCycle | lab4/main.cpp:29 | two lines share a name exactly when their numbers differ by a multiple of 256; the 63rd line after `'A'` wraps to -128 |
| Expansion.CountBounds | lab4/main.cpp:40-52 | the `j`-th instance is generated exactly when its arrival is within the total time |
| Expansion.PeriodicInstances | lab4/main.cpp:37-53 | a periodic line yields instances at `in_time + j * period` up to the total time, strictly increasing, each due one period after arrival, with the line's run time and name |
| Expansion.AperiodicInstance | lab4/main.cpp:54-59 | an aperiodic line yields one instance with the line's arrival, deadline, run time and name |
| Expansion.ExpandedLine | lab4/main.cpp:35-61 | the instances of line `n` lie together, in order, between those of the earlier and the later lines |
| Expansion.ExpandedAdmissible | lab4/main.cpp:35-61 | lines with run time at least 1 and arrival at least -1 expand to instances every scheduler accepts |
| Expansion.Expand | lab4/main.cpp:35-61 | the reading loop builds exactly the concatenation of each line's instances |
| Expansion.PositionalMisplaces | lab4/main.cpp:49 | as written, the brace initialiser fills `index` first: arrival 0, period 10, run time 3 becomes arrival 3, run time 10, deadline 0 |
| Expansion.PositionalMisplacesAperiodic | lab4/main.cpp:57 | as written, an aperiodic line arriving at 2, due at 9, needing 4 becomes arrival 4, run time 9, deadline 0 |
| Pipe.Stored | lab6/mypipe.c:34-47 | the stored byte count is at most 16; it is 0 exactly when the ring is empty and 16 exactly when it is full |
| Pipe.ModSlot | lab6/mypipe.c:62 | advancing a position by at most 16 modulo 16 is the wrapping slot |
| Pipe.ReadFifo | lab6/mypipe.c:34-62 | a read returns the first `min(count, stored)` bytes of the contents and leaves the rest |
| Pipe.WriteFifo | lab6/mypipe.c:93-115 | a write stores the first `min(count, free)` bytes after the contents |
| Pipe.WriteThenRead | lab6/mypipe.c:93-115 | writing up to 16 bytes into an empty ring and reading as many gives them back and empties the ring |
| Pipe.EmptyRead | lab6/mypipe.c:34-38 | reading an empty ring returns nothing and changes nothing |
| Pipe.FullWrite | lab6/mypipe.c:86-91 | writing to a full ring returns 16 and changes nothing |
| Pipe.ZeroReadOfFull | lab6/mypipe.c:65-68 | a zero-byte read of a full ring still clears the flag: the ring then reads as empty |
| Pipe.ZeroWriteToEmpty | lab6/mypipe.c:118-121 | a zero-byte write to an empty ring still sets the flag: the ring then holds its 16 stale bytes |
| Pipe.WriteFrame | lab6/mypipe.c:93-111 | a write leaves every slot outside the stored range as it was |
| Pipe.WindowTwo | lab6/mypipe.c:53-57 | a read that wraps is the tail of the buffer followed by its head |
| Pipe.StampPieces | lab6/mypipe.c:106-110 | the two copies of a wrapping write store exactly the data at the wrapping slots |
| Pipe.MyPipe.constructor | lab6/mypipe.c:150-160 | the buffer is 16 zero bytes and the ring is empty |
| Pipe.MyPipe.Read | lab6/mypipe.c:26-76 | `mypipe_read` returns the bytes and the count `ReadFifo` describes, advances the read position and clears the flag |
| Pipe.MyPipe.Write | lab6/mypipe.c:78-129 | `mypipe_write` stores the bytes `WriteFifo` describes, advances the write position, sets the flag and returns the count (16 when full) |
| Pipe.MyPipe.CopyIn | lab6/mypipe.c:96 | `copy_from_user` stores `len` bytes at `at` and leaves every other slot |

## Left out

- Reading the task-set file, command-line handling and every printout (`main`,
  `printk`) are not modelled. `Expand` takes the lines as a parameter.
- `total_time` is passed to `run` but never read there; the model keeps the
  parameter unused.
- The arrival queue is passed by reference. The model returns what is left
  of it (`rest`) instead of mutating the caller's queue.
- Heaps are sequences. The top is any element no other element outranks,
  so the model does not fix how `std::priority_queue` breaks exact ties.
- `top()` on an empty arrival queue (at the head of every tick once the
  caller's queue is empty) is undefined behaviour. The model admits
  nothing in that case.
- Every `run` requires each input instance to have run time at least 1, no
  progress (`time_pointer` 0, as `main` value-initialises it at
  lab4/main.cpp:49 and :57) and arrival at least -1.
  - An instance arriving before -1 is never admitted, since admission tests
    `in_time == i - 1` with `i` from 0. It stays at the top of the arrival
    queue, so nothing else is admitted either. From the idle start every
    `run` begins in, nothing runs and nothing can miss a deadline, so all
    three schedulers loop for ever.
  - An instance with run time 0, or with progress at or past its run time,
    never meets the `==` completion test once dispatched. EDF then loops
    for ever.
- `Rms.RMS.Run`: an instance with run time 0, or with progress at or past
  its run time, is excluded by the requires. The source handles it: once
  dispatched it runs until the first tick past its deadline, where the
  loop stops with `succeed = false` (lab4/rms.hpp:78-82). The model does
  not cover such inputs.
- `Llf.LLF.Run`: the same exclusion as `Rms.RMS.Run`. The source stops
  with `succeed = false` at the first tick past the instance's deadline in
  which it is running. A preempted instance waits in the ready queue
  unchecked (lab4/llf.hpp:89-109), so the stop can come later than the
  tick after its deadline. The model does not cover such inputs.
- `start_time` is an uninitialised local in EDF's and LLF's `run`, declared
  afresh on every tick. The model keeps it as a field, the value the
  completion record evidently means.
- `Edf.EDF.Run`: EDF checks no deadline and reports no verdict, so its
  contract promises completion and run time but not timeliness.
- `Rms.RMS.Run`: `event_arrive` is never set in RMS, so the preemption hook
  is unreachable. `Run` requires it off, as the constructor leaves it.
  `Rms.RMS.Preempt` is modelled on its own.
- `Llf.LLF.Run`: interrupted segments are tied to input instances only
  through arrival-before-begin and the total of all segment lengths, not
  instance by instance.
- The RMS completion record names a designated initialiser `index` that
  `Result` does not have (lab4/rms.hpp:86). The model records the fields
  `Result` does have.
- LLF's rebuild of the ready queue through a temporary heap is modelled as
  rewriting every element's laxity in place.
- Priorities are never set when instances are built, so all RMS priorities
  are 0 in practice. The model keeps them as given.
- Every source integer is a 32-bit `int` (`ssize_t` in the pipe). The model
  uses unbounded integers, so overflow is not modelled.
- `char` is taken to be signed, so names wrap from 127 to -128.
- A periodic line with period 0 or less whose first arrival is within the
  total time makes `main` loop for ever. `Expand` requires `Ends` for
  every line.
- Pipe:
  - `copy_to_user` and `copy_from_user` faults are not modelled: the
    `-EFAULT` return, and the read path that returns without unlocking.
  - The mutex, the semaphore, `open`/`release` and module registration are
    not modelled.
- Pipe.ReadFifo: its FIFO clause covers only a non-zero count or a ring that
  is not full. `ZeroReadOfFull` states what the code does otherwise.
- Pipe.WriteFifo: its FIFO clause covers only non-empty data or a ring that is
  not empty. `ZeroWriteToEmpty` states what the code does otherwise.
- The lab1 bank simulation, the user-space pipe programs and the small
  semaphore labs are not part of this model.

Where the code departs from the textbook form of these policies, the
model follows the code:
- **RMS priority.** Textbook rate-monotonic scheduling runs the task with
  the shortest period first. Here `rms_cmp` (lab4/rms.hpp:15-25) and
  `RMS::preempt` (lab4/rms.hpp:100) favour the larger `priority` value,
  and nothing computes that value from the period.
- **Preemption.** Textbook EDF and RMS are preemptive. `EDF::run` has no
  preemption step (lab4/edf.hpp:52-74). RMS calls `preempt` only when
  `event_arrive` is set (lab4/rms.hpp:72-76), and nothing in RMS sets it.
- **LLF checks.** Textbook LLF compares laxities kept current at every
  tick. `LLF::run` recomputes laxities only in a tick in which something
  arrived (lab4/llf.hpp:55-69). It compares the top of the ready queue
  with the running instance on every tick with a non-empty ready queue
  (lab4/llf.hpp:89-103).
- **Admission.** An instance becomes ready in the tick after its `in_time`
  (`in_time == i - 1`, lab4/edf.hpp:41, lab4/rms.hpp:44,
  lab4/llf.hpp:42), uniformly in all three schedulers.

## Findings

| source | as written | input that shows it | evidently intended | confidence | as-written member | corrected member |
|---|---|---|---|---|---|---|
| lab4/main.cpp:49 | `Event{actual_in_time, run_time, actual_in_time + period, 0, event_name}` fills `Event`'s members in order, the first being `index` | periodic line with in_time 0, period 10, run_time 3: the instance arrives at 3, needs 10 slices, is due at 0 | the instance arrives at 0, needs 3 slices and is due at 10 | not executed | Expansion.PositionalMisplaces | Expansion.PeriodicInstances |
| lab4/main.cpp:57 | `Event{in_time, run_time, period_or_stop_time, 0, event_name}`, likewise shifted by one member | aperiodic line with in_time 2, stop_time 9, run_time 4: the instance arrives at 4, needs 9 slices, is due at 0 | the instance arrives at 2, needs 4 slices and is due at 9 | not executed | Expansion.PositionalMisplacesAperiodic | Expansion.AperiodicInstance |
