// Exactly what a connection does to the outside: for every event the new log
// entries, one by one, and for every run how many of each kind.
module ConnectionLog {
  import opened BufferSpec
  import opened Basics
  import opened PollerSpec
  import opened ConnectionSpec
  import opened ConnectionRuns
  import opened ConnectionTheorems

  // ---------------------------------------------------------------------
  // The entries of one event
  // ---------------------------------------------------------------------

  function If<T>(b: bool, t: T): seq<T> {
    if b then [t] else []
  }

  // What the kernel has taken of data.
  function KernelTook(data: seq<byte>, r: WriteResult): seq<byte>
    requires KernelCanWrite(|data|, r)
  {
    if r.Wrote? then data[..r.n] else []
  }

  // sendInLoop: one ::write if nothing waits, the write-complete if it took all, and the
  // high-water note if what is buffered has crossed the mark.
  function SendEntries<C>(c: Conn<C>, data: seq<byte>, r: WriteResult, buffered: nat): seq<Action>
    requires KernelCanWrite(|data|, r)
  {
    if c.state == Disconnected then [] else
      If(c.Idle(), Write(KernelTook(data, r))) +
      If(c.Idle() && c.notify && r == Wrote(|data|), QueueWriteComplete(0)) +
      If(CrossesMark(c.mark, |c.output.data|, buffered), QueueHighWater(buffered))
  }

  // handleWrite: one ::write if the channel is writing; when the buffer has drained, the
  // write-complete and the half-close that waited for it.
  function WritableEntries<C>(c: Conn<C>, w: WriteResult): seq<Action>
    requires KernelCanWrite(|c.output.data|, w)
  {
    var drained := w == Wrote(|c.output.data|);
    if !c.ch.IsWriting() then [] else
      [Write(KernelTook(c.output.data, w))] +
      If(drained && c.notify, QueueWriteComplete(0)) +
      If(drained && c.state == Disconnecting, HalfClose(0))
  }

  // For each event, in order. buffered is the length of the output buffer afterwards.
  function Entries<C>(c: Conn<C>, e: Event<C>, buffered: nat): seq<Action>
    requires c.Valid()
    requires e.EvSend? || e.EvQueuedSend? ==> KernelCanWrite(|e.data|, e.r)
    requires e.EvWritable? ==> KernelCanWrite(|c.output.data|, e.w)
  {
    match e
    case EvEstablished => [ConnUp]
    case EvSend(data, r) => if c.state == Connected then SendEntries(c, data, r, buffered) else []
    case EvQueuedSend(data, r) => SendEntries(c, data, r, buffered)
    case EvWritable(w) => WritableEntries(c, w)
    case EvReadable(rd) =>
      if rd.ReadFailed? then [] else if rd.bytes == [] then [ConnDown, CloseCallback] else [Message]
    case EvHangup => [ConnDown, CloseCallback]
    case EvShutdown => If(c.state == Connected && !c.ch.IsWriting(), HalfClose(|c.output.data|))
    case EvQueuedShutdown => If(!c.ch.IsWriting(), HalfClose(|c.output.data|))
    case EvDestroyed => If(c.state == Connected, ConnDown)
    case EvDestroyedOverStore => [ConnDown]
    case _ => []
  }

  // The log has grown by exactly these entries.
  ghost predicate Logs<C>(v: View<C>, e: Event<C>, v': View<C>)
    requires Enabled(v, e)
  {
    v'.c.log == v.c.log + Entries(v.c, e, |v'.c.output.data|)
  }

  lemma BusySendLogs<C>(v: View<C>, data: seq<byte>, r: WriteResult)
    requires ChannelInv(v) && v.c.state != Disconnected && !v.c.Idle() && KernelCanWrite(|data|, r)
    ensures var v' := SendInLoop(v, data, r);
            v'.c.log == v.c.log + SendEntries(v.c, data, r, |v'.c.output.data|)
  {
    var tail := BufferRestKeeps(v, data);
  }

  lemma WholeSendLogs<C>(v: View<C>, data: seq<byte>, r: WriteResult)
    requires v.c.Valid() && v.c.state != Disconnected && v.c.Idle() && KernelCanWrite(|data|, r)
    requires r == Wrote(|data|) || PeerGone(r)
    ensures var v' := SendInLoop(v, data, r);
            v'.c.log == v.c.log + SendEntries(v.c, data, r, |v'.c.output.data|)
  {
    assert r.Wrote? ==> data[..r.n] == data;
  }

  lemma PartialSendLogs<C>(v: View<C>, data: seq<byte>, r: WriteResult)
    requires ChannelInv(v) && v.c.state != Disconnected && v.c.Idle() && KernelCanWrite(|data|, r)
    requires r != Wrote(|data|) && !PeerGone(r)
    ensures var v' := SendInLoop(v, data, r);
            v'.c.log == v.c.log + SendEntries(v.c, data, r, |v'.c.output.data|)
  {
    var taken := KernelTook(data, r);
    assert data[0..] == data;
    var v1 := v.(c := v.c.Note(Write(taken)));
    assert SendInLoop(v, data, r) == BufferRest(v1, data[|taken|..]);
    var tail := BufferRestKeeps(v1, data[|taken|..]);
  }

  lemma SendLogs<C>(v: View<C>, data: seq<byte>, r: WriteResult)
    requires ChannelInv(v) && v.c.state != Connecting && KernelCanWrite(|data|, r)
    ensures var v' := SendInLoop(v, data, r);
            v'.c.log == v.c.log + SendEntries(v.c, data, r, |v'.c.output.data|)
  {
    if v.c.state != Disconnected {
      if !v.c.Idle() {
        BusySendLogs(v, data, r);
      } else if r == Wrote(|data|) || PeerGone(r) {
        WholeSendLogs(v, data, r);
      } else {
        PartialSendLogs(v, data, r);
      }
    }
  }

  lemma SendEventLogs<C>(v: View<C>, e: Event<C>)
    requires ChannelInv(v) && Enabled(v, e) && CallsSendInLoop(v.c, e)
    ensures Logs(v, e, Step(v, e))
  {
    SendingKeeps(v, e);
    SendLogs(Sending(v, e), e.data, e.r);
  }

  lemma WritableLogs<C>(v: View<C>, w: WriteResult)
    requires ChannelInv(v) && Enabled(v, EvWritable(w))
    ensures Logs(v, EvWritable(w), Step(v, EvWritable(w)))
  {
    var data := v.c.output.data;
    if v.c.ch.IsWriting() {
      if w == Wrote(|data|) {
        DrainedEffect(v, w);
        assert KernelTook(data, w) == data;
      } else {
        PartialKept(v, w, KernelTook(data, w));
      }
    }
  }

  lemma ShutdownLogs<C>(v: View<C>, e: Event<C>)
    requires ChannelInv(v) && Enabled(v, e)
    requires (e.EvShutdown? && v.c.state == Connected) || e.EvQueuedShutdown?
    ensures Logs(v, e, Step(v, e))
  {
    ShutdownKept(v, e);
  }

  lemma DestroyLogs<C>(v: View<C>, e: Event<C>)
    requires ChannelInv(v) && Enabled(v, e) && (e.EvDestroyed? || e.EvDestroyedOverStore?)
    ensures Logs(v, e, Step(v, e))
  {
    DestroyedKept(v);
  }

  lemma ReadLogs<C>(v: View<C>, e: Event<C>)
    requires ChannelInv(v) && Enabled(v, e) && (e.EvReadable? || e.EvHangup?)
    ensures Logs(v, e, Step(v, e))
  {
    assert forall log: seq<Action> :: log + [ConnDown] + [CloseCallback] == log + [ConnDown, CloseCallback];
  }

  lemma EstablishedLogs<C>(v: View<C>)
    requires ChannelInv(v) && Enabled(v, EvEstablished)
    ensures Logs(v, EvEstablished, Step(v, EvEstablished))
  {
    EstablishedKept(v);
  }

  lemma QuietLogs<C>(v: View<C>, e: Event<C>)
    requires ChannelInv(v) && Enabled(v, e) && IsQuiet(e)
    ensures Logs(v, e, Step(v, e))
  {
    QuietKept(v, e);
  }

  lemma NothingLogs<C>(v: View<C>, e: Event<C>)
    requires Enabled(v, e)
    requires e.EvOthers? || ((e.EvSend? || e.EvShutdown?) && v.c.state != Connected)
    ensures Logs(v, e, Step(v, e))
  {
  }

  /** Every event, any answer of the kernel: its log entries are exactly those of the table. */
  lemma StepLogs<C>(v: View<C>, e: Event<C>)
    requires ChannelInv(v) && Enabled(v, e)
    ensures Logs(v, e, Step(v, e))
  {
    if CallsSendInLoop(v.c, e) {
      SendEventLogs(v, e);
    } else if IsQuiet(e) {
      QuietLogs(v, e);
    } else if e.EvOthers? || ((e.EvSend? || e.EvShutdown?) && v.c.state != Connected) {
      NothingLogs(v, e);
    } else if e.EvWritable? {
      WritableLogs(v, e.w);
    } else if e.EvReadable? || e.EvHangup? {
      ReadLogs(v, e);
    } else if e.EvEstablished? {
      EstablishedLogs(v);
    } else if e.EvDestroyed? || e.EvDestroyedOverStore? {
      DestroyLogs(v, e);
    } else {
      ShutdownLogs(v, e);
    }
  }

  // ---------------------------------------------------------------------
  // How many of each kind, over runs
  // ---------------------------------------------------------------------

  lemma HowManyIf(b: bool, a: Action, kind: Kind)
    ensures HowMany(If(b, a), kind) == Count(b && IsA(a, kind))
  {
    if b {
      HowManySnoc([], a, kind);
      assert [] + [a] == [a];
    }
  }

  // The output buffer has drained, or a direct write has taken everything.
  predicate Completes<C>(c: Conn<C>, e: Event<C>, buffered: nat) {
    || (CallsSendInLoop(c, e) && AtOnce(c, e.data, e.r))
    || (e.EvWritable? && c.output.data != [] && buffered == 0)
  }

  // What ::shutdown(SHUT_WR) is called for: by the loop thread, by a functor of another
  // thread, or by the write that empties the buffer after either.
  predicate ShutsWriteSide<C>(c: Conn<C>, e: Event<C>, buffered: nat) {
    || (((e.EvShutdown? && c.state == Connected) || e.EvQueuedShutdown?) && !c.ch.IsWriting())
    || (e.EvWritable? && c.output.data != [] && buffered == 0 && c.state == Disconnecting)
  }

  predicate ReadsBytes<C>(e: Event<C>) {
    e.EvReadable? && e.rd.Delivered? && e.rd.bytes != []
  }

  // Whether an event is due an entry of this kind, from the event and the states around it.
  predicate Due<C>(c: Conn<C>, e: Event<C>, buffered: nat, kind: Kind) {
    match kind
    case Messages => ReadsBytes(e)
    case Ups => e.EvEstablished?
    case Downs => Closes(e) || (e.EvDestroyed? && c.state == Connected) || e.EvDestroyedOverStore?
    case Closings => Closes(e)
    case Completions => c.notify && Completes(c, e, buffered)
    case HalfCloses => ShutsWriteSide(c, e, buffered)
    case HighWaterNotes => CrossesMark(c.mark, |c.output.data|, buffered)
  }

  lemma ThreeIfs(b1: bool, a1: Action, b2: bool, a2: Action, b3: bool, a3: Action, kind: Kind)
    ensures HowMany(If(b1, a1) + If(b2, a2) + If(b3, a3), kind) ==
            Count(b1 && IsA(a1, kind)) + Count(b2 && IsA(a2, kind)) + Count(b3 && IsA(a3, kind))
  {
    var x, y, z := If(b1, a1), If(b2, a2), If(b3, a3);
    HowManyConcat(x, y, kind);
    HowManyConcat(x + y, z, kind);
    HowManyIf(b1, a1, kind);
    HowManyIf(b2, a2, kind);
    HowManyIf(b3, a3, kind);
  }

  // A ::write counts for no kind, the others for their own.
  lemma SendKinds(w: Action, all: bool, q: Action, crosses: bool, h: Action, kind: Kind)
    requires w.Write? && q.QueueWriteComplete? && h.QueueHighWater?
    ensures !IsA(w, kind)
    ensures all && IsA(q, kind) <==> kind.Completions? && all
    ensures crosses && IsA(h, kind) <==> kind.HighWaterNotes? && crosses
  {
  }

  lemma SendPieces<C>(c: Conn<C>, data: seq<byte>, r: WriteResult, buffered: nat, kind: Kind)
    requires KernelCanWrite(|data|, r) && c.state != Disconnected
    ensures HowMany(SendEntries(c, data, r, buffered), kind) ==
            Count(kind.Completions? && c.Idle() && c.notify && r == Wrote(|data|)) +
            Count(kind.HighWaterNotes? && CrossesMark(c.mark, |c.output.data|, buffered))
  {
    var idle, all, crosses :=
      c.Idle(), c.Idle() && c.notify && r == Wrote(|data|), CrossesMark(c.mark, |c.output.data|, buffered);
    var w, q, h := Write(KernelTook(data, r)), QueueWriteComplete(0), QueueHighWater(buffered);
    var entries := If(idle, w) + If(all, q) + If(crosses, h);
    assert SendEntries(c, data, r, buffered) == entries;
    SendKinds(w, all, q, crosses, h, kind);
    assert HowMany(entries, kind) == Count(all && IsA(q, kind)) + Count(crosses && IsA(h, kind)) by {
      ThreeIfs(idle, w, all, q, crosses, h, kind);
    }
  }

  lemma SendDue<C>(c: Conn<C>, e: Event<C>, buffered: nat, kind: Kind)
    requires CallsSendInLoop(c, e) && KernelCanWrite(|e.data|, e.r)
    requires c.state == Disconnected ==> buffered == |c.output.data|
    ensures HowMany(SendEntries(c, e.data, e.r, buffered), kind) == Count(Due(c, e, buffered, kind))
  {
    if c.state != Disconnected {
      SendPieces(c, e.data, e.r, buffered, kind);
    }
  }

  lemma WritableDue<C>(c: Conn<C>, w: WriteResult, buffered: nat, kind: Kind)
    requires KernelCanWrite(|c.output.data|, w)
    requires c.ch.IsWriting() <==> c.output.data != []
    requires c.output.data != [] ==> (buffered == 0 <==> w == Wrote(|c.output.data|))
    requires buffered <= |c.output.data|
    ensures HowMany(WritableEntries(c, w), kind) == Count(Due(c, EvWritable(w), buffered, kind))
  {
    if c.ch.IsWriting() {
      var drained := w == Wrote(|c.output.data|);
      var a, q, h := Write(KernelTook(c.output.data, w)), QueueWriteComplete(0), HalfClose(0);
      ThreeIfs(true, a, drained && c.notify, q, drained && c.state == Disconnecting, h, kind);
    }
  }

  lemma TwoEntries(a1: Action, a2: Action, kind: Kind)
    ensures HowMany([a1, a2], kind) == Count(IsA(a1, kind)) + Count(IsA(a2, kind))
  {
    HowManyIf(true, a1, kind);
    HowManySnoc([a1], a2, kind);
    assert [a1] + [a2] == [a1, a2];
  }

  lemma CloseDue<C>(c: Conn<C>, e: Event<C>, buffered: nat, kind: Kind)
    requires c.Valid() && Closes(e) && buffered == |c.output.data|
    ensures HowMany(Entries(c, e, buffered), kind) == Count(Due(c, e, buffered, kind))
  {
    assert HowMany([ConnDown, CloseCallback], kind) ==
           Count(IsA(ConnDown, kind)) + Count(IsA(CloseCallback, kind)) by {
      TwoEntries(ConnDown, CloseCallback, kind);
    }
    assert Entries(c, e, buffered) == [ConnDown, CloseCallback];
  }

  // Of the other events that leave the output alone: one entry or none.
  lemma OneEntry<C>(c: Conn<C>, e: Event<C>, buffered: nat, kind: Kind) returns (b: bool, a: Action)
    requires c.Valid() && !CallsSendInLoop(c, e) && !e.EvWritable? && !Closes(e)
    requires e.EvSend? ==> KernelCanWrite(|e.data|, e.r)
    requires buffered == |c.output.data|
    ensures Entries(c, e, buffered) == If(b, a)
    ensures b && IsA(a, kind) <==> Due(c, e, buffered, kind)
  {
    b, a := false, ConnUp;
    match e {
      case EvEstablished => b := true;
      case EvReadable(_) => b, a := ReadsBytes(e), Message;
      case EvShutdown => b, a := c.state == Connected && !c.ch.IsWriting(), HalfClose(|c.output.data|);
      case EvQueuedShutdown => b, a := !c.ch.IsWriting(), HalfClose(|c.output.data|);
      case EvDestroyed => b, a := c.state == Connected, ConnDown;
      case EvDestroyedOverStore => b, a := true, ConnDown;
      case _ =>
    }
  }

  lemma PlainDue<C>(c: Conn<C>, e: Event<C>, buffered: nat, kind: Kind)
    requires c.Valid() && !CallsSendInLoop(c, e) && !e.EvWritable?
    requires e.EvSend? ==> KernelCanWrite(|e.data|, e.r)
    requires buffered == |c.output.data|
    ensures HowMany(Entries(c, e, buffered), kind) == Count(Due(c, e, buffered, kind))
  {
    if Closes(e) {
      CloseDue(c, e, buffered, kind);
    } else {
      var b, a := OneEntry(c, e, buffered, kind);
      HowManyIf(b, a, kind);
    }
  }

  lemma WrittenLength<C>(v: View<C>, w: WriteResult)
    requires ChannelInv(v) && Enabled(v, EvWritable(w)) && v.c.output.data != []
    ensures |HandleWrite(v, w).c.output.data| == 0 <==> w == Wrote(|v.c.output.data|)
    ensures |HandleWrite(v, w).c.output.data| <= |v.c.output.data|
  {
    if w == Wrote(|v.c.output.data|) {
      DrainedEffect(v, w);
    } else {
      PartialKept(v, w, KernelTook(v.c.output.data, w));
    }
  }

  // Only sends and writes change what is buffered.
  lemma OutputStays<C>(v: View<C>, e: Event<C>)
    requires ChannelInv(v) && Enabled(v, e) && !CallsSendInLoop(v.c, e) && !e.EvWritable?
    ensures Step(v, e).c.output == v.c.output
  {
    if e.EvDestroyed? || e.EvDestroyedOverStore? {
      DestroyedKept(v);
    } else if e.EvEstablished? {
      EstablishedKept(v);
    } else if IsQuiet(e) {
      QuietKept(v, e);
    }
  }

  lemma EntriesDue<C>(v: View<C>, e: Event<C>, buffered: nat, kind: Kind)
    requires ChannelInv(v) && Enabled(v, e) && buffered == |Step(v, e).c.output.data|
    ensures HowMany(Entries(v.c, e, buffered), kind) == Count(Due(v.c, e, buffered, kind))
  {
    if CallsSendInLoop(v.c, e) {
      SendingKeeps(v, e);
      SendDue(v.c, e, buffered, kind);
    } else if e.EvWritable? {
      if v.c.output.data != [] { WrittenLength(v, e.w); }
      WritableDue(v.c, e.w, buffered, kind);
    } else {
      OutputStays(v, e);
      PlainDue(v.c, e, buffered, kind);
    }
  }

  lemma StepCounts<C>(v: View<C>, e: Event<C>, kind: Kind)
    requires ChannelInv(v) && Enabled(v, e)
    ensures var v' := Step(v, e);
            HowMany(v'.c.log, kind) == HowMany(v.c.log, kind) + Count(Due(v.c, e, |v'.c.output.data|, kind))
  {
    var buffered := |Step(v, e).c.output.data|;
    assert Logs(v, e, Step(v, e)) by { StepLogs(v, e); }
    HowManyConcat(v.c.log, Entries(v.c, e, buffered), kind);
    EntriesDue(v, e, buffered, kind);
  }

  // How many events of a run were due an entry of this kind.
  ghost function AllDue<C>(v: View<C>, es: seq<Event<C>>, kind: Kind): nat
    requires CanRun(v, es)
    decreases |es|
  {
    if es == [] then 0 else
      var u := Step(v, es[0]);
      Count(Due(v.c, es[0], |u.c.output.data|, kind)) + AllDue(u, es[1..], kind)
  }

  /** In every run: one message callback for each read that delivered bytes, one up callback
      for each establishment, one down callback for each close and for a connected connection
      destroyed, one close callback for each close, one write-complete, if there is a callback,
      for each write that took the last byte, and one ::shutdown for each that was due. */
  lemma {:induction false} CallbacksExactly<C>(v: View<C>, es: seq<Event<C>>, kind: Kind)
    requires Good(v) && CanRun(v, es)
    ensures HowMany(Run(v, es).c.log, kind) == HowMany(v.c.log, kind) + AllDue(v, es, kind)
    decreases |es|
  {
    if es != [] {
      StepKeeps(v, es[0]);
      StepCounts(v, es[0], kind);
      CallbacksExactly(Step(v, es[0]), es[1..], kind);
    }
  }

  // The reads of a run that delivered bytes.
  function Reads<C>(es: seq<Event<C>>): nat {
    if es == [] then 0 else Reads(es[..|es| - 1]) + Count(ReadsBytes(es[|es| - 1]))
  }

  lemma {:induction false} ReadsFirst<C>(e: Event<C>, es: seq<Event<C>>)
    ensures Reads([e] + es) == Count(ReadsBytes(e)) + Reads(es)
    decreases |es|
  {
    if es == [] {
      assert [e] + es == [] + [e];
      assert ([e] + es)[..0] == [];
    } else {
      var all := [e] + es;
      assert all[..|all| - 1] == [e] + es[..|es| - 1];
      ReadsFirst(e, es[..|es| - 1]);
    }
  }

  /** The message callback runs once for each read that delivered bytes, and for nothing else. */
  lemma {:induction false} MessagesExactly<C>(v: View<C>, es: seq<Event<C>>)
    requires Good(v) && CanRun(v, es)
    ensures HowMany(Run(v, es).c.log, Messages) == HowMany(v.c.log, Messages) + Reads(es)
    decreases |es|
  {
    if es != [] {
      StepKeeps(v, es[0]);
      StepCounts(v, es[0], Messages);
      MessagesExactly(Step(v, es[0]), es[1..]);
      ReadsFirst(es[0], es[1..]);
      assert [es[0]] + es[1..] == es;
    }
  }
}
