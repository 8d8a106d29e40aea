/**
 * Task instances as the schedulers see them (lab4/event.hpp), and the order
 * of the arrival queue, a max-heap over `operator<`.
 */
module Events {

  /** A C `char`: a signed 8-bit code, as the event names are stored. */
  newtype Char8 = c: int | -128 <= c < 128

  /**
   * One concrete task instance. `timePointer` is the number of time slices
   * already executed; `priority` is read only by RMS and `laxity` only by LLF.
   */
  datatype Event = Event(
    index: int,
    inTime: int,
    totalRunTime: int,
    stopTime: int,
    eventName: Char8,
    timePointer: int,
    priority: int,
    laxity: int)

  /** `Event::operator<`: `a` ranks below `b` in the arrival queue when it arrives later. */
  predicate Less(a: Event, b: Event) {
    a.inTime > b.inTime
  }

  /**
   * An event the tick loops can run to completion: it needs at least one
   * slice (an event needing none would never meet the `==` completion test),
   * nothing of it has run yet, and it arrives no earlier than -1 (admission
   * fires when `inTime == i - 1` with `i` counting from 0, so an earlier
   * event would sit at the head of the arrival queue for ever).
   */
  predicate Admissible(e: Event) {
    e.totalRunTime >= 1 && e.timePointer == 0 && e.inTime >= -1
  }

  /** `Less` is irreflexive and transitive: a strict order, as `std::priority_queue` needs. */
  lemma LessIsStrictOrder(a: Event, b: Event, c: Event)
    ensures !Less(a, a)
    ensures Less(a, b) && Less(b, c) ==> Less(a, c)
    ensures Less(a, b) ==> !Less(b, a)
  {
  }

  /**
   * Events with equal arrival times are incomparable, and so is anything
   * incomparable to both of two incomparable events: the incomparability
   * relation is transitive, which makes `Less` a strict weak order, and the
   * pop order of simultaneous arrivals is left open.
   */
  lemma LessIncomparability(a: Event, b: Event, c: Event)
    ensures a.inTime == b.inTime <==> !Less(a, b) && !Less(b, a)
    ensures (!Less(a, b) && !Less(b, a) && !Less(b, c) && !Less(c, b)) ==> !Less(a, c) && !Less(c, a)
  {
  }

  /** The arrival order reads no field but `inTime`. */
  lemma LessReadsOnlyArrival(a: Event, b: Event, a': Event, b': Event)
    requires a'.inTime == a.inTime && b'.inTime == b.inTime
    ensures Less(a', b') == Less(a, b)
  {
  }
}
