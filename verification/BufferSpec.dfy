// The growable byte queue of src/Buffer.h and src/Buffer.cc, as a value:
// how long the array is, where the readable bytes start, and what they are.
// The class in Buffer.dfy is proved to move through exactly these values.
module BufferSpec {

  newtype byte = b: int | 0 <= b < 256

  const CHEAP_PREPEND: nat := 8
  const INITIAL_SIZE: nat := 1024
  const EXTRA_BUFFER: nat := 65536   // the stack array that readv spills into

  datatype Buf = Buf(size: nat, reader: nat, data: seq<byte>) {
    predicate Valid() {
      CHEAP_PREPEND <= reader && reader + |data| <= size
    }

    function Writer(): nat {
      reader + |data|
    }

    function Writable(): nat
      requires Valid()
    {
      size - Writer()
    }
  }

  const NEW_BUFFER := Buf(CHEAP_PREPEND + INITIAL_SIZE, CHEAP_PREPEND, [])

  // What the kernel answers to a readv: some bytes (none at end of file), or an error.
  datatype ReadResult = Delivered(bytes: seq<byte>) | ReadFailed

  // The number of bytes the two (or one) iovec segments can take.
  function Capacity(b: Buf): nat
    requires b.Valid()
  {
    b.Writable() + if b.Writable() < EXTRA_BUFFER then EXTRA_BUFFER else 0
  }

  predicate KernelCanRead(b: Buf, r: ReadResult)
    requires b.Valid()
  {
    r.Delivered? ==> |r.bytes| <= Capacity(b)
  }

  /** Room for n more bytes. Growth happens only when sliding the readable bytes down to
      the prepend area would not be enough. */
  function EnsureWritable(b: Buf, n: nat): (r: Buf)
    requires b.Valid()
    ensures r.Valid() && r.data == b.data && n <= r.Writable()
    ensures r.size == b.size || b.size < r.size == b.Writer() + n < CHEAP_PREPEND + 2 * (|b.data| + n)
  {
    if n <= b.Writable() then b
    else if b.Writable() + (b.reader - CHEAP_PREPEND) < n then Buf(b.Writer() + n, b.reader, b.data)
    else Buf(b.size, CHEAP_PREPEND, b.data)
  }

  function Append(b: Buf, d: seq<byte>): (r: Buf)
    requires b.Valid()
    ensures r.Valid() && r.data == b.data + d
    ensures r.size == b.size || b.size < r.size < CHEAP_PREPEND + 2 * |r.data|
  {
    var room := EnsureWritable(b, |d|);
    Buf(room.size, room.reader, b.data + d)
  }

  function RetrieveAll(b: Buf): Buf {
    Buf(b.size, CHEAP_PREPEND, [])
  }

  function Retrieve(b: Buf, n: nat): (r: Buf)
    requires b.Valid()
    ensures r.Valid() && r.size == b.size
    ensures r.data == if n < |b.data| then b.data[n..] else []
  {
    if n < |b.data| then Buf(b.size, b.reader + n, b.data[n..]) else RetrieveAll(b)
  }

  /** Segment one is the writable tail of the array; the rest arrives in the spill array. */
  function ReadFd(b: Buf, r: ReadResult): (b': Buf)
    requires b.Valid() && KernelCanRead(b, r)
    ensures b'.Valid()
    ensures b'.data == if r.Delivered? then b.data + r.bytes else b.data
    ensures b'.size == b.size || b.size < b'.size < CHEAP_PREPEND + 2 * |b'.data|
  {
    match r
    case ReadFailed => b
    case Delivered(bytes) =>
      var w := b.Writable();
      if |bytes| <= w then
        Buf(b.size, b.reader, b.data + bytes)
      else
        assert (b.data + bytes[..w]) + bytes[w..] == b.data + bytes;
        Append(Buf(b.size, b.reader, b.data + bytes[..w]), bytes[w..])
  }

  // ---------------------------------------------------------------------
  // Where the bytes lie
  // ---------------------------------------------------------------------

  /** Room is made only when there is too little behind the writer; the array grows exactly
      when the readable bytes and n more do not fit behind the prepend area, and then the
      bytes stay where they are; otherwise they slide down all the way. */
  lemma RoomIsMadeLazily(b: Buf, n: nat)
    requires b.Valid()
    ensures var r := EnsureWritable(b, n);
            && (n <= b.Writable() ==> r == b)
            && (r.size > b.size <==> CHEAP_PREPEND + |b.data| + n > b.size)
            && (r.size > b.size ==> r.reader == b.reader && r.Writable() == n)
            && (n > b.Writable() && r.size == b.size ==> r.reader == CHEAP_PREPEND)
  {
  }

  /** append puts its bytes where makeSpace has made the room. */
  lemma AppendLiesInTheRoom(b: Buf, d: seq<byte>)
    requires b.Valid()
    ensures var r, room := Append(b, d), EnsureWritable(b, |d|);
            && r.size == room.size && r.reader == room.reader
            && r.data == b.data + d && r.Writable() == room.Writable() - |d|
  {
  }

  /** A queue that has been emptied has the whole array to fill, but for the prepend area; one
      that has not starts n bytes later. */
  lemma EmptiedIsReset(b: Buf, n: nat)
    requires b.Valid()
    ensures n >= |b.data| ==> Retrieve(b, n) == RetrieveAll(b)
    ensures RetrieveAll(b).data == [] && RetrieveAll(b).Valid() && RetrieveAll(b).size == b.size
    ensures RetrieveAll(b).Writable() == b.size - CHEAP_PREPEND
    ensures n < |b.data| ==> Retrieve(b, n).reader == b.reader + n && Retrieve(b, n).Writable() == b.Writable()
  {
  }

  /** What fits behind the writer is read in place; more than that fills the array to its end
      and is appended from there. */
  lemma ReadFillsTheArrayFirst(b: Buf, bytes: seq<byte>)
    requires b.Valid() && KernelCanRead(b, Delivered(bytes))
    ensures var r, w := ReadFd(b, Delivered(bytes)), b.Writable();
            && ReadFd(b, ReadFailed) == b
            && (|bytes| > w ==> w < EXTRA_BUFFER)
            && (|bytes| <= w ==> r.size == b.size && r.reader == b.reader)
            && (|bytes| > w ==> |bytes| - w <= EXTRA_BUFFER)
            && (|bytes| > w ==> var full := Buf(b.size, b.reader, b.data + bytes[..w]);
                                r.size == EnsureWritable(full, |bytes| - w).size &&
                                r.reader == EnsureWritable(full, |bytes| - w).reader)
  {
  }

  /** readv may deliver whatever fits the tail of the array, and 65536 bytes more if the tail
      is shorter than that. */
  lemma WhatReadvMayDeliver(b: Buf, bytes: seq<byte>)
    requires b.Valid()
    ensures KernelCanRead(b, Delivered(bytes)) <==>
              |bytes| <= b.Writable() || (b.Writable() < 65536 && |bytes| <= b.Writable() + 65536)
    ensures KernelCanRead(b, ReadFailed)
  {
  }

  /** A new buffer: 1032 bytes, empty, 1024 of them free. */
  lemma NewBufferIs()
    ensures NEW_BUFFER.Valid() && NEW_BUFFER.data == [] && NEW_BUFFER.size == 1032 && NEW_BUFFER.Writable() == 1024
  {
  }
}
