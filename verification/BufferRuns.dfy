// Whole runs of a Buffer: any sequence of operations, any answers of readv.
module BufferRuns {
  import opened BufferSpec

  datatype Op =
    | OpAppend(d: seq<byte>)
    | OpRetrieve(n: nat)        // retrieve, and retrieveAsString after copying the bytes out
    | OpRetrieveAll
    | OpReadFd(r: ReadResult)

  function Do(b: Buf, op: Op): (b': Buf)
    requires b.Valid() && (op.OpReadFd? ==> KernelCanRead(b, op.r))
    ensures b'.Valid()
  {
    match op
    case OpAppend(d) => Append(b, d)
    case OpRetrieve(n) => Retrieve(b, n)
    case OpRetrieveAll => RetrieveAll(b)
    case OpReadFd(r) => ReadFd(b, r)
  }

  ghost predicate CanRun(b: Buf, ops: seq<Op>)
    requires b.Valid()
    decreases |ops|
  {
    ops == [] ||
    ((ops[0].OpReadFd? ==> KernelCanRead(b, ops[0].r)) && CanRun(Do(b, ops[0]), ops[1..]))
  }

  ghost function Run(b: Buf, ops: seq<Op>): (b': Buf)
    requires b.Valid() && CanRun(b, ops)
    ensures b'.Valid()
    decreases |ops|
  {
    if ops == [] then b else Run(Do(b, ops[0]), ops[1..])
  }

  // The plain byte queue that a Buffer stands for: it knows of no array and no index.
  function QueueDo(q: seq<byte>, op: Op): seq<byte> {
    match op
    case OpAppend(d) => q + d
    case OpRetrieve(n) => if n <= |q| then q[n..] else []
    case OpRetrieveAll => []
    case OpReadFd(r) => if r.Delivered? then q + r.bytes else q
  }

  function QueueRun(q: seq<byte>, ops: seq<Op>): seq<byte>
    decreases |ops|
  {
    if ops == [] then q else QueueRun(QueueDo(q, ops[0]), ops[1..])
  }

  // The longest the queue ever gets along the run.
  function Peak(q: seq<byte>, ops: seq<Op>): nat
    decreases |ops|
  {
    if ops == [] then |q| else
      var later := Peak(QueueDo(q, ops[0]), ops[1..]);
      if |q| < later then later else |q|
  }

  /** Whatever sequence of operations is run, and whichever of them compact or grow the
      array, the readable bytes are those of the plain queue. */
  lemma {:induction false} BufferRefinesQueue(b: Buf, ops: seq<Op>)
    requires b.Valid() && CanRun(b, ops)
    ensures Run(b, ops).data == QueueRun(b.data, ops)
    ensures Run(b, ops).Valid()
    decreases |ops|
  {
    if ops != [] {
      assert Do(b, ops[0]).data == QueueDo(b.data, ops[0]);
      BufferRefinesQueue(Do(b, ops[0]), ops[1..]);
    }
  }

  lemma {:induction false} SizeBoundFrom(b: Buf, ops: seq<Op>, bound: nat)
    requires b.Valid() && CanRun(b, ops)
    requires b.size <= bound && CHEAP_PREPEND + 2 * Peak(b.data, ops) <= bound
    ensures b.size <= Run(b, ops).size <= bound
    decreases |ops|
  {
    if ops != [] {
      var b' := Do(b, ops[0]);
      assert b'.data == QueueDo(b.data, ops[0]);
      PeakIsAtLeastTheStart(b'.data, ops[1..]);
      SizeBoundFrom(b', ops[1..], bound);
    }
  }

  lemma PeakIsAtLeastTheStart(q: seq<byte>, ops: seq<Op>)
    ensures |q| <= Peak(q, ops)
    decreases |ops|
  {
  }

  /** From a new buffer: the array never exceeds the larger of its first size and twice the
      peak load plus the prepend area. */
  lemma SpaceBound(ops: seq<Op>)
    requires CanRun(NEW_BUFFER, ops)
    ensures Run(NEW_BUFFER, ops).size <=
            var twicePeak := CHEAP_PREPEND + 2 * Peak([], ops);
            if twicePeak < 1032 then 1032 else twicePeak
  {
    var twicePeak := CHEAP_PREPEND + 2 * Peak([], ops);
    SizeBoundFrom(NEW_BUFFER, ops, if twicePeak < 1032 then 1032 else twicePeak);
  }

  /** The array never shrinks: cutting a run short gives an array that is no longer. */
  lemma {:induction false} SizeNeverShrinks(b: Buf, ops: seq<Op>, k: nat)
    requires b.Valid() && CanRun(b, ops) && k <= |ops|
    ensures CanRun(b, ops[..k])
    ensures Run(b, ops[..k]).size <= Run(b, ops).size
    decreases |ops|
  {
    if k == 0 {
      SizeBoundFrom(b, ops, b.size + CHEAP_PREPEND + 2 * Peak(b.data, ops));
    } else {
      assert ops[..k][1..] == ops[1..][..k - 1];
      SizeNeverShrinks(Do(b, ops[0]), ops[1..], k - 1);
    }
  }
}
