/**
 * The character device of lab6/mypipe.c: a 16-byte ring buffer with a read
 * position, a write position and a flag telling a full buffer from an empty
 * one when the two positions meet. Reads and writes move as many bytes as
 * the ring holds or has room for, wrapping from the last slot to the first.
 */
module Pipe {

  type Byte = bv8

  /** `PIPE_BUFFER_SIZE`. */
  const Size := 16
  /** `IGNORE_BUFFER_SIZE`: what a write to a full pipe reports. */
  const Ignore := 16

  function Min(a: int, b: int): int {
    if a < b then a else b
  }

  /** The pipe's state: `kernel_buffer`, `p_read`, `p_write` and `flag`. */
  datatype Ring = Ring(buf: seq<Byte>, pRead: int, pWrite: int, flag: int)

  predicate Valid(r: Ring) {
    |r.buf| == Size && 0 <= r.pRead < Size && 0 <= r.pWrite < Size && (r.flag == 0 || r.flag == 1)
  }

  /** The test opening `mypipe_read`: the positions meet and the last operation was a read. */
  predicate Empty(r: Ring) {
    r.pRead == r.pWrite && r.flag == 0
  }

  /** The test opening `mypipe_write`: the positions meet and the last operation was a write. */
  predicate Full(r: Ring) {
    r.pRead == r.pWrite && r.flag == 1
  }

  /** The slot `k` places after `start`, wrapping from the last slot to the first. */
  function Slot(start: int, k: int): int
    requires 0 <= start < Size && 0 <= k <= Size
  {
    if start + k < Size then start + k else start + k - Size
  }

  /** How many places slot `k` lies after `start`, going forward and wrapping. */
  function Offset(start: int, k: int): int
    requires 0 <= start < Size && 0 <= k < Size
  {
    if k >= start then k - start else k + Size - start
  }

  /** The positions' update `(p + len) % PIPE_BUFFER_SIZE` is the slot `len` places on. */
  lemma ModSlot(start: int, k: int)
    requires 0 <= start < Size && 0 <= k <= Size
    ensures (start + k) % Size == Slot(start, k)
  {
  }

  /** How many bytes the ring holds, from the read position up to the write position. */
  function Stored(r: Ring): (n: nat)
    requires Valid(r)
    ensures n <= Size
    ensures n == 0 <==> Empty(r)
    ensures n == Size <==> Full(r)
  {
    if r.pRead == r.pWrite then (if r.flag == 0 then 0 else Size) else Offset(r.pRead, r.pWrite)
  }

  /** `len` bytes of the ring read from slot `start` on, wrapping from the last slot to the first. */
  function Window(buf: seq<Byte>, start: int, len: nat): seq<Byte>
    requires |buf| == Size && 0 <= start < Size && len <= Size
  {
    seq(len, k requires 0 <= k < len => buf[Slot(start, k)])
  }

  /** What the ring holds, oldest byte first. */
  function Contents(r: Ring): seq<Byte>
    requires Valid(r)
  {
    Window(r.buf, r.pRead, Stored(r))
  }

  /** The length `mypipe_read` computes: nothing from an empty ring, else up to the distance to the write position. */
  function ReadLength(r: Ring, count: nat): nat
    requires Valid(r)
  {
    if Empty(r) then 0
    else if r.pRead < r.pWrite then Min(count, r.pWrite - r.pRead)
    else Min(count, Size - (r.pRead - r.pWrite))
  }

  /** The bytes a read of `count` hands back. */
  function ReadOut(r: Ring, count: nat): seq<Byte>
    requires Valid(r)
  {
    Window(r.buf, r.pRead, ReadLength(r, count))
  }

  /** The ring after a read of `count`: the read position moves past what was read and the flag drops. */
  function AfterRead(r: Ring, count: nat): Ring
    requires Valid(r)
  {
    r.(pRead := Slot(r.pRead, ReadLength(r, count)), flag := 0)
  }

  /** The length `mypipe_write` stores: nothing into a full ring, else up to the distance to the read position. */
  function WriteLength(r: Ring, count: nat): nat
    requires Valid(r)
  {
    if Full(r) then 0
    else if r.pRead > r.pWrite then Min(count, r.pRead - r.pWrite)
    else Min(count, Size - (r.pWrite - r.pRead))
  }

  /** What `mypipe_write` returns: `IGNORE_BUFFER_SIZE` for a full ring, else the length stored. */
  function WriteReturn(r: Ring, count: nat): int
    requires Valid(r)
  {
    if Full(r) then Ignore else WriteLength(r, count)
  }

  /** `buf` with `data` laid into the ring from slot `start` on, wrapping; every other slot kept. */
  function Stamp(buf: seq<Byte>, start: int, data: seq<Byte>): seq<Byte>
    requires |buf| == Size && 0 <= start < Size && |data| <= Size
  {
    seq(Size, k requires 0 <= k < Size =>
      if Offset(start, k) < |data| then data[Offset(start, k)] else buf[k])
  }

  /** The ring after a write of `data`: the stored bytes laid in, the write position moved past them, the flag raised. */
  function AfterWrite(r: Ring, data: seq<Byte>): Ring
    requires Valid(r)
  {
    var n := WriteLength(r, |data|);
    r.(buf := Stamp(r.buf, r.pWrite, data[..n]), pWrite := Slot(r.pWrite, n), flag := 1)
  }

  /**
   * The distance `mypipe_read` reads up to is what the ring holds: a read
   * hands back `min(count, stored)` bytes, the oldest ones, and keeps the
   * ring valid. What stays is the rest of the contents, unless the read
   * asked for nothing from a full ring: the dropped flag then makes the
   * ring look empty.
   */
  lemma ReadFifo(r: Ring, count: nat)
    requires Valid(r)
    ensures ReadLength(r, count) == Min(count, Stored(r))
    ensures ReadOut(r, count) == Contents(r)[..ReadLength(r, count)]
    ensures Valid(AfterRead(r, count))
    ensures count > 0 || !Full(r) ==> Contents(AfterRead(r, count)) == Contents(r)[ReadLength(r, count)..]
  {
    var n := ReadLength(r, count);
    var r' := AfterRead(r, count);
    assert ReadOut(r, count) == Contents(r)[..n];
    if count > 0 || !Full(r) {
      var rest := Contents(r)[n..];
      assert Stored(r') == Stored(r) - n;
      forall k | 0 <= k < |rest|
        ensures Contents(r')[k] == rest[k]
      {
        assert Slot(r'.pRead, k) == Slot(r.pRead, n + k);
      }
    }
  }

  /**
   * The distance `mypipe_write` writes up to is the room left: a write
   * stores `min(count, room)` bytes and keeps the ring valid; the ring then
   * holds what it held followed by them, unless the write stored nothing
   * into an empty ring: the raised flag then makes it look full.
   */
  lemma WriteFifo(r: Ring, data: seq<Byte>)
    requires Valid(r)
    ensures WriteLength(r, |data|) == Min(|data|, Size - Stored(r))
    ensures Valid(AfterWrite(r, data))
    ensures |data| > 0 || !Empty(r) ==> Contents(AfterWrite(r, data)) == Contents(r) + data[..WriteLength(r, |data|)]
  {
    var n := WriteLength(r, |data|);
    var r' := AfterWrite(r, data);
    if |data| > 0 || !Empty(r) {
      var m := Stored(r);
      assert Stored(r') == m + n;
      var want := Contents(r) + data[..n];
      forall k | 0 <= k < m + n
        ensures Contents(r')[k] == want[k]
      {
        var slot := Slot(r.pRead, k);
        if k < m {
          assert Offset(r.pWrite, slot) >= n;
        } else {
          assert Offset(r.pWrite, slot) == k - m;
        }
      }
    }
  }

  /** Writing up to a free ring's size into an empty ring and reading as much back returns the same bytes. */
  lemma WriteThenRead(r: Ring, data: seq<Byte>)
    requires Valid(r) && Empty(r) && 0 < |data| <= Size
    ensures Valid(AfterWrite(r, data))
    ensures ReadOut(AfterWrite(r, data), |data|) == data
    ensures Empty(AfterRead(AfterWrite(r, data), |data|))
  {
    WriteFifo(r, data);
    var w := AfterWrite(r, data);
    ReadFifo(w, |data|);
    assert data[..|data|] == data;
  }

  /** A read from an empty ring hands back nothing and moves nothing. */
  lemma EmptyRead(r: Ring, count: nat)
    requires Valid(r) && Empty(r)
    ensures ReadOut(r, count) == [] && AfterRead(r, count) == r
  {
  }

  /** A write into a full ring stores nothing, reports `IGNORE_BUFFER_SIZE` and moves nothing. */
  lemma FullWrite(r: Ring, data: seq<Byte>)
    requires Valid(r) && Full(r)
    ensures WriteReturn(r, |data|) == Ignore && AfterWrite(r, data) == r
  {
    assert Stamp(r.buf, r.pWrite, []) == r.buf;
  }

  /**
   * A read asking for no bytes from a full ring still drops the flag: the
   * sixteen stored bytes are then unreachable, the ring reading as empty.
   */
  lemma ZeroReadOfFull(r: Ring)
    requires Valid(r) && Full(r)
    ensures ReadOut(r, 0) == [] && Empty(AfterRead(r, 0))
    ensures Stored(r) == Size && Stored(AfterRead(r, 0)) == 0
  {
  }

  /**
   * A write of no bytes into an empty ring still raises the flag: the ring
   * then reads as full, holding the sixteen stale bytes of the buffer.
   */
  lemma ZeroWriteToEmpty(r: Ring)
    requires Valid(r) && Empty(r)
    ensures WriteReturn(r, 0) == 0 && Full(AfterWrite(r, []))
    ensures Contents(AfterWrite(r, [])) == Window(r.buf, r.pRead, Size)
  {
    assert Stamp(r.buf, r.pWrite, []) == r.buf;
  }

  /** A write changes only the slots it stores into. */
  lemma WriteFrame(r: Ring, data: seq<Byte>, k: int)
    requires Valid(r) && 0 <= k < Size
    requires Offset(r.pWrite, k) >= WriteLength(r, |data|)
    ensures AfterWrite(r, data).buf[k] == r.buf[k]
  {
  }

  /** A read that does not pass the last slot is one slice of the buffer. */
  lemma WindowOne(buf: seq<Byte>, start: int, len: nat)
    requires |buf| == Size && 0 <= start < Size && start + len <= Size
    ensures buf[start..start + len] == Window(buf, start, len)
  {
  }

  /** A read that passes the last slot is the tail of the buffer followed by its head. */
  lemma WindowTwo(buf: seq<Byte>, start: int, len: nat)
    requires |buf| == Size && 0 <= start < Size < start + len && len <= Size
    ensures buf[start..Size] + buf[0..len - (Size - start)] == Window(buf, start, len)
  {
    var w := buf[start..Size] + buf[0..len - (Size - start)];
    forall k | 0 <= k < len
      ensures w[k] == Window(buf, start, len)[k]
    {
    }
  }

  /**
   * A write laid into the slots from `start` on up to the last one, and
   * whatever is left from slot 0 on, is the ring `Stamp` describes.
   */
  lemma StampPieces(buf: seq<Byte>, start: int, data: seq<Byte>, buf': seq<Byte>)
    requires |buf| == Size && |buf'| == Size && 0 <= start < Size && |data| <= Size
    requires forall k :: 0 <= k < Size ==>
               buf'[k] == if start <= k < start + |data| then data[k - start]
                          else if k < start + |data| - Size then data[k + Size - start]
                          else buf[k]
    ensures buf' == Stamp(buf, start, data)
  {
    forall k | 0 <= k < Size
      ensures buf'[k] == Stamp(buf, start, data)[k]
    {
    }
  }

  /**
   * The two operations of the device over one `kernel_buffer`; the statics
   * `p_read`, `p_write` and `flag` are its fields. `copy_to_user` and
   * `copy_from_user` always succeed here.
   */
  class MyPipe {
    var buffer: array<Byte>
    var pRead: int
    var pWrite: int
    var flag: int

    /** `mypipe_init`: a zeroed 16-byte buffer, both positions at slot 0, the flag down. */
    constructor ()
      ensures Valid(State()) && Empty(State()) && fresh(buffer)
      ensures forall k :: 0 <= k < Size ==> buffer[k] == 0
    {
      buffer := new Byte[Size](_ => 0);
      pRead, pWrite, flag := 0, 0, 0;
    }

    ghost function State(): Ring
      reads this, buffer
    {
      Ring(buffer[..], pRead, pWrite, flag)
    }

    /**
     * `mypipe_read`: from an empty ring nothing; otherwise up to the write
     * position, in one piece or, past the last slot, in two. The flag drops
     * in every case.
     */
    method Read(count: nat) returns (n: int, out: seq<Byte>)
      requires Valid(State())
      modifies this`pRead, this`flag
      ensures Valid(State())
      ensures State() == AfterRead(old(State()), count)
      ensures n == ReadLength(old(State()), count) && out == ReadOut(old(State()), count)
    {
      n, out := 0, [];
      if !(pRead == pWrite && flag == 0) {
        if pRead < pWrite {
          n := Min(count, pWrite - pRead);
          out := buffer[pRead..pRead + n];
          WindowOne(buffer[..], pRead, n);
        } else {
          n := Min(count, Size - (pRead - pWrite));
          var maxNoIterable := Size - pRead;
          if n <= maxNoIterable {
            out := buffer[pRead..pRead + n];
            WindowOne(buffer[..], pRead, n);
          } else {
            out := buffer[pRead..Size] + buffer[0..n - maxNoIterable];
            WindowTwo(buffer[..], pRead, n);
          }
        }
        ModSlot(pRead, n);
        pRead := (pRead + n) % Size;
      }
      flag := 0;
    }

    /**
     * `mypipe_write`: into a full ring nothing, reporting
     * `IGNORE_BUFFER_SIZE`; otherwise up to the read position, in one piece
     * or, past the last slot, in two. The flag rises in every case.
     */
    method Write(data: seq<Byte>) returns (n: int)
      requires Valid(State())
      modifies this`pWrite, this`flag, buffer
      ensures Valid(State())
      ensures State() == AfterWrite(old(State()), data)
      ensures n == WriteReturn(old(State()), |data|)
    {
      if pRead == pWrite && flag == 1 {
        n := Ignore;
      } else {
        if pRead > pWrite {
          n := Min(|data|, pRead - pWrite);
          CopyIn(pWrite, data, 0, n);
        } else {
          n := Min(|data|, Size - (pWrite - pRead));
          var maxNoIterable := Size - pWrite;
          if n <= maxNoIterable {
            CopyIn(pWrite, data, 0, n);
          } else {
            CopyIn(pWrite, data, 0, maxNoIterable);
            CopyIn(0, data, maxNoIterable, n - maxNoIterable);
          }
        }
        ModSlot(pWrite, n);
        pWrite := (pWrite + n) % Size;
      }
      flag := 1;
      StampPieces(old(buffer[..]), old(pWrite), data[..WriteLength(old(State()), |data|)], buffer[..]);
    }

    /** `copy_from_user(kernel_buffer + at, src + from, len)`: slots `at .. at + len - 1` take the bytes, the rest stay. */
    method CopyIn(at: int, src: seq<Byte>, from: int, len: int)
      requires buffer.Length == Size && 0 <= at && 0 <= len && at + len <= Size
      requires 0 <= from && from + len <= |src|
      modifies buffer
      ensures forall k :: 0 <= k < Size ==>
                buffer[k] == if at <= k < at + len then src[from + k - at] else old(buffer[k])
    {
      var j := 0;
      while j < len
        invariant 0 <= j <= len
        invariant forall k :: 0 <= k < Size ==>
                    buffer[k] == if at <= k < at + j then src[from + k - at] else old(buffer[k])
      {
        buffer[at + j] := src[from + j];
        j := j + 1;
      }
    }
  }
}
