// src/Buffer.h and src/Buffer.cc: one array, two indices, updated in place.
// Every method is proved to take State() through the function of the same
// name in BufferSpec.
module Buffers {
  import opened BufferSpec

  /** std::copy within one array: a forward loop. As for std::copy, the destination may
      not start strictly inside the source range; it may overlap it from below. */
  method CopyWithin(a: array<byte>, first: nat, last: nat, dest: nat)
    requires first <= last <= a.Length && dest + (last - first) <= a.Length
    requires dest < first || last <= dest
    modifies a
    ensures a[dest..dest + (last - first)] == old(a[first..last])
    ensures forall k :: 0 <= k < a.Length && !(dest <= k < dest + (last - first)) ==> a[k] == old(a[k])
  {
    ghost var was := a[..];
    var i := 0;
    while i < last - first
      invariant 0 <= i <= last - first
      invariant a[dest..dest + i] == was[first..first + i]
      invariant a[first + i..last] == was[first + i..last]
      invariant forall k :: 0 <= k < a.Length && !(dest <= k < dest + i) ==> a[k] == was[k]
    {
      assert a[first + i] == a[first + i..last][0] == was[first + i];
      a[dest + i] := a[first + i];
      i := i + 1;
      assert a[dest..dest + i] == was[first..first + i];
    }
  }

  /** std::copy from memory outside the array. */
  method CopyInto(a: array<byte>, d: seq<byte>, dest: nat)
    requires dest + |d| <= a.Length
    modifies a
    ensures a[dest..dest + |d|] == d
    ensures forall k :: 0 <= k < a.Length && !(dest <= k < dest + |d|) ==> a[k] == old(a[k])
  {
    var i := 0;
    while i < |d|
      invariant 0 <= i <= |d|
      invariant a[dest..dest + i] == d[..i]
      invariant forall k :: 0 <= k < a.Length && !(dest <= k < dest + i) ==> a[k] == old(a[k])
    {
      a[dest + i] := d[i];
      i := i + 1;
      assert a[dest..dest + i] == d[..i];
    }
  }

  lemma SliceEnds(s: seq<byte>, i: nat, j: nat, k: nat)
    requires i <= j <= k <= |s|
    ensures s[i..k] == s[i..j] + s[j..k]
  {
  }

  lemma SliceOfPrefix(s: seq<byte>, n: nat, i: nat, j: nat)
    requires i <= j <= n <= |s|
    ensures s[..n][i..j] == s[i..j]
  {
  }

  class Buffer {
    var buffer: array<byte>
    var readerIndex: nat
    var writerIndex: nat

    ghost predicate Valid()
      reads this
    {
      CHEAP_PREPEND <= readerIndex <= writerIndex <= buffer.Length
    }

    ghost function State(): (b: Buf)
      reads this, buffer
      requires Valid()
      ensures b.Valid()
    {
      Buf(buffer.Length, readerIndex, buffer[readerIndex..writerIndex])
    }

    // The argument is not used: the source sizes the array with kInitialSize.
    constructor (initialSize: nat := INITIAL_SIZE)
      ensures Valid() && State() == NEW_BUFFER && fresh(buffer)
    {
      buffer := new byte[CHEAP_PREPEND + INITIAL_SIZE](_ => 0);
      readerIndex, writerIndex := CHEAP_PREPEND, CHEAP_PREPEND;
    }

    function ReadableBytes(): (n: nat)
      reads this, buffer
      requires Valid()
      ensures n == |State().data|
    {
      writerIndex - readerIndex
    }

    function WritableBytes(): (n: nat)
      reads this, buffer
      requires Valid()
      ensures n == State().Writable()
    {
      buffer.Length - writerIndex
    }

    method RetrieveAll()
      requires Valid()
      modifies this
      ensures Valid() && buffer == old(buffer)
      ensures State() == BufferSpec.RetrieveAll(old(State()))
    {
      readerIndex := CHEAP_PREPEND;
      writerIndex := CHEAP_PREPEND;
    }

    method Retrieve(len: nat)
      requires Valid()
      modifies this
      ensures Valid() && buffer == old(buffer)
      ensures State() == BufferSpec.Retrieve(old(State()), len)
    {
      if len < ReadableBytes() {
        readerIndex := readerIndex + len;
      } else {
        RetrieveAll();
      }
    }

    /** The string is copied from peek() without comparing len with the readable length, so
        the caller owes only that the copy stays inside the array. */
    method RetrieveAsString(len: nat) returns (result: seq<byte>)
      requires Valid() && readerIndex + len <= buffer.Length
      modifies this
      ensures Valid() && buffer == old(buffer)
      ensures result == old(buffer[readerIndex..readerIndex + len])
      ensures result <= old(State()).data <==> len <= |old(State()).data|
      ensures State() == BufferSpec.Retrieve(old(State()), len)
    {
      result := buffer[readerIndex..readerIndex + len];
      Retrieve(len);
    }

    method RetrieveAllAsString() returns (result: seq<byte>)
      requires Valid()
      modifies this
      ensures Valid() && buffer == old(buffer)
      ensures result == old(State()).data
      ensures State() == BufferSpec.RetrieveAll(old(State()))
    {
      result := RetrieveAsString(ReadableBytes());
    }

    // std::vector::resize to a greater size: keep the elements, fill with zeros.
    method Resize(size: nat)
      requires buffer.Length <= size
      modifies this`buffer
      ensures fresh(buffer) && buffer.Length == size
      ensures buffer[..old(buffer.Length)] == old(buffer[..])
      ensures forall k :: old(buffer.Length) <= k < size ==> buffer[k] == 0
    {
      var bigger := new byte[size](_ => 0);
      CopyInto(bigger, buffer[..], 0);
      buffer := bigger;
    }

    /** Called by EnsureWritableBytes only, hence with too little room at the end. That is
        what makes the compacting copy legal: it always moves the bytes downwards. */
    method MakeSpace(len: nat)
      requires Valid() && WritableBytes() < len
      modifies this, buffer
      ensures Valid() && (buffer == old(buffer) || fresh(buffer))
      ensures State() == BufferSpec.EnsureWritable(old(State()), len)
    {
      ghost var was := State().data;
      if WritableBytes() + (readerIndex - CHEAP_PREPEND) < len {
        ghost var all := buffer[..];
        Resize(writerIndex + len);
        assert buffer[..][..|all|] == all;
        SliceOfPrefix(buffer[..], |all|, readerIndex, writerIndex);
        SliceOfPrefix(all, |all|, readerIndex, writerIndex);
        assert buffer[readerIndex..writerIndex] == all[readerIndex..writerIndex] == was;
      } else {
        var readable := ReadableBytes();
        assert CHEAP_PREPEND < readerIndex;
        CopyWithin(buffer, readerIndex, writerIndex, CHEAP_PREPEND);
        readerIndex := CHEAP_PREPEND;
        writerIndex := CHEAP_PREPEND + readable;
      }
    }

    method EnsureWritableBytes(len: nat)
      requires Valid()
      modifies this, buffer
      ensures Valid() && (buffer == old(buffer) || fresh(buffer))
      ensures State() == BufferSpec.EnsureWritable(old(State()), len)
    {
      if WritableBytes() < len {
        MakeSpace(len);
      }
    }

    // Copy to beginWrite() and move the writer index.
    method Fill(d: seq<byte>)
      requires Valid() && |d| <= WritableBytes()
      modifies this`writerIndex, buffer
      ensures Valid() && writerIndex == old(writerIndex) + |d|
      ensures State() == old(State()).(data := old(State()).data + d)
    {
      ghost var was := State().data;
      CopyInto(buffer, d, writerIndex);
      assert buffer[readerIndex..writerIndex] == was;
      ghost var end := writerIndex;
      writerIndex := writerIndex + |d|;
      SliceEnds(buffer[..], readerIndex, end, writerIndex);
      assert buffer[..][readerIndex..end] == was && buffer[..][end..writerIndex] == d;
    }

    method Append(d: seq<byte>)
      requires Valid()
      modifies this, buffer
      ensures Valid() && (buffer == old(buffer) || fresh(buffer))
      ensures State() == BufferSpec.Append(old(State()), d)
    {
      EnsureWritableBytes(|d|);
      Fill(d);
    }

    /** readv fills the tail of the array and then the stack array; the kernel's answer r is
        the adversary's choice within the two lengths. Returns n, or -1 on an error. */
    method ReadFd(r: ReadResult) returns (n: int)
      requires Valid() && KernelCanRead(State(), r)
      modifies this, buffer
      ensures Valid() && (buffer == old(buffer) || fresh(buffer))
      ensures State() == BufferSpec.ReadFd(old(State()), r)
      ensures n == if r.Delivered? then |r.bytes| else -1
    {
      var writable := WritableBytes();
      match r {
        case ReadFailed =>
          n := -1;
        case Delivered(bytes) =>
          n := |bytes|;
          if n <= writable {
            Fill(bytes);
          } else {
            var extrabuf := new byte[EXTRA_BUFFER](_ => 0);
            Fill(bytes[..writable]);
            CopyInto(extrabuf, bytes[writable..], 0);
            Append(extrabuf[..n - writable]);
          }
      }
    }

    /** write(2) is offered everything readable; accepted is the kernel's choice. The buffer
        itself is left alone: the caller retrieves what was taken. */
    method WriteFd(accepted: nat) returns (sent: seq<byte>)
      requires Valid() && accepted <= ReadableBytes()
      ensures sent == State().data[..accepted]
    {
      sent := buffer[readerIndex..readerIndex + accepted];
    }
  }
}
