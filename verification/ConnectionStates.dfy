// The state, the channel and the buffers of a connection after any run, from
// the events alone.
module ConnectionStates {
  import opened BufferSpec
  import opened PollerSpec
  import opened ConnectionSpec
  import opened ConnectionRuns
  import opened ConnectionTheorems
  import opened ConnectionLog

  // ---------------------------------------------------------------------
  // state_
  // ---------------------------------------------------------------------

  // The four-state machine that the handlers implement.
  function NextState<C>(st: ConnState, e: Event<C>): ConnState {
    match e
    case EvEstablished => Connected
    case EvReadable(rd) => if rd == Delivered([]) then Disconnected else st
    case EvHangup => Disconnected
    case EvShutdown => if st == Connected then Disconnecting else st
    case EvStoreShutdown => Disconnecting
    case EvDestroyed => if st == Connected then Disconnected else st
    case EvDestroyedOverStore => Disconnected
    case _ => st
  }

  function StateAfter<C>(st: ConnState, es: seq<Event<C>>): ConnState
    decreases |es|
  {
    if es == [] then st else StateAfter(NextState(st, es[0]), es[1..])
  }

  function IsDestroy<C>(e: Event<C>): bool {
    e.EvDestroyed? || e.EvDestroyedOverStore?
  }

  lemma StepState<C>(v: View<C>, e: Event<C>)
    requires ChannelInv(v) && Enabled(v, e)
    ensures Step(v, e).c.state == NextState(v.c.state, e)
    ensures Step(v, e).c.destroyed <==> v.c.destroyed || IsDestroy(e)
  {
    if CallsSendInLoop(v.c, e) {
      SendingKeeps(v, e);
      SendKeepsState(Sending(v, e), e.data, e.r);
    } else if e.EvWritable? {
      WriteKeepsState(v, e.w);
    } else if IsDestroy(e) {
      DestroyedKept(v);
    } else if e.EvEstablished? {
      EstablishKeepsDestroyed(v);
    } else {
      OtherState(v, e);
    }
  }

  lemma OtherState<C>(v: View<C>, e: Event<C>)
    requires Enabled(v, e)
    requires !CallsSendInLoop(v.c, e) && !e.EvWritable? && !IsDestroy(e) && !e.EvEstablished?
    ensures Step(v, e).c.state == NextState(v.c.state, e) && Step(v, e).c.destroyed == v.c.destroyed
  {
  }

  lemma SendKeepsState<C>(v: View<C>, data: seq<byte>, r: WriteResult)
    requires v.c.Valid() && KernelCanWrite(|data|, r)
    ensures SendInLoop(v, data, r).c.state == v.c.state && SendInLoop(v, data, r).c.destroyed == v.c.destroyed
  {
  }

  lemma WriteKeepsState<C>(v: View<C>, w: WriteResult)
    requires v.c.Valid() && KernelCanWrite(|v.c.output.data|, w)
    ensures HandleWrite(v, w).c.state == v.c.state && HandleWrite(v, w).c.destroyed == v.c.destroyed
  {
  }

  lemma EstablishKeepsDestroyed<C>(v: View<C>)
    ensures ConnectEstablished(v).c.destroyed == v.c.destroyed && ConnectEstablished(v).c.state == Connected
  {
  }

  /** After any run the state is that of the four-state machine, and the connection has been
      destroyed exactly if connectDistroyed has run. */
  lemma {:induction false} StateFromEvents<C>(v: View<C>, es: seq<Event<C>>)
    requires Good(v) && CanRun(v, es)
    ensures Run(v, es).c.state == StateAfter(v.c.state, es)
    ensures Run(v, es).c.destroyed <==> v.c.destroyed || exists e :: e in es && IsDestroy(e)
    decreases |es|
  {
    if es != [] {
      StepKeeps(v, es[0]);
      StepState(v, es[0]);
      StateFromEvents(Step(v, es[0]), es[1..]);
      assert forall e :: e in es <==> e == es[0] || e in es[1..];
    }
  }

  // ---------------------------------------------------------------------
  // The channel
  // ---------------------------------------------------------------------

  // What the channel asks for afterwards; buffered and remains are the lengths of the output
  // buffer before and after.
  function MaskAfter<C>(c: Conn<C>, e: Event<C>, buffered: nat, remains: nat): Mask {
    if e.EvEstablished? then c.ch.events + {EPOLLIN, EPOLLPRI}
    else if (e.EvDestroyed? && c.state == Connected) || e.EvDestroyedOverStore? then {}
    else if remains > buffered then c.ch.events + {EPOLLOUT}
    else if e.EvWritable? && buffered > 0 && remains == 0 then c.ch.events - {EPOLLOUT}
    else c.ch.events
  }

  // Registered from establishment, out of the poller from connectDistroyed on; a late send
  // of another thread registers it again.
  function IndexAfter<C>(c: Conn<C>, e: Event<C>, buffered: nat, remains: nat): Index {
    if e.EvEstablished? then Added
    else if IsDestroy(e) then New
    else if remains > buffered && !c.ch.IsWriting() then Added
    else c.ch.index
  }

  ghost predicate ChannelMoves<C>(c: Conn<C>, e: Event<C>, c': Conn<C>) {
    var before, after := |c.output.data|, |c'.output.data|;
    c'.ch.events == MaskAfter(c, e, before, after) && c'.ch.index == IndexAfter(c, e, before, after)
  }

  lemma RestMovesChannel<C>(v: View<C>, rest: seq<byte>)
    requires v.c.Valid() && Agrees(v.p, v.c.self, v.c.ch) && rest != []
    ensures var ch := BufferRest(v, rest).c.ch;
            && ch.events == v.c.ch.events + {EPOLLOUT}
            && ch.index == (if v.c.ch.IsWriting() then v.c.ch.index else Added)
  {
    var more := BufferRestKeeps(v, rest);
    if !v.c.ch.IsWriting() {
      RestCallsChannel(v, rest);
    }
  }

  lemma RestCallsChannel<C>(v: View<C>, rest: seq<byte>)
    requires v.c.Valid() && Agrees(v.p, v.c.self, v.c.ch) && rest != [] && !v.c.ch.IsWriting()
    ensures BufferRest(v, rest).c.ch.index == Added
  {
    CallKeeps(v, EnableWriting);
    assert EPOLLOUT in WRITE_EVENT;
  }

  lemma SendMovesChannel<C>(v: View<C>, e: Event<C>)
    requires ChannelInv(v) && Enabled(v, e) && CallsSendInLoop(v.c, e)
    ensures ChannelMoves(v.c, e, Step(v, e).c)
  {
    SendingKeeps(v, e);
    var u := Sending(v, e);
    if u.c.state != Disconnected {
      if !u.c.Idle() {
        BusyMovesChannel(u, e.data, e.r);
      } else {
        IdleMovesChannel(u, e.data, e.r);
      }
    }
  }

  // What a send does to channel and output.
  ghost predicate SendMoves<C>(v: View<C>, v': View<C>) {
    var grew := |v'.c.output.data| > |v.c.output.data|;
    && |v'.c.output.data| >= |v.c.output.data|
    && v'.c.ch.events == (if grew then v.c.ch.events + {EPOLLOUT} else v.c.ch.events)
    && v'.c.ch.index == (if grew && !v.c.ch.IsWriting() then Added else v.c.ch.index)
  }

  lemma RestMoves<C>(v: View<C>, rest: seq<byte>)
    requires v.c.Valid() && Agrees(v.p, v.c.self, v.c.ch)
    ensures SendMoves(v, BufferRest(v, rest))
  {
    if rest != [] {
      RestMovesChannel(v, rest);
      var more := BufferRestKeeps(v, rest);
    }
  }

  lemma BusyMovesChannel<C>(v: View<C>, data: seq<byte>, r: WriteResult)
    requires ChannelInv(v) && v.c.state != Disconnected && !v.c.Idle() && KernelCanWrite(|data|, r)
    ensures SendMoves(v, SendInLoop(v, data, r))
  {
    RestMoves(v, data);
  }

  lemma IdleMovesChannel<C>(v: View<C>, data: seq<byte>, r: WriteResult)
    requires ChannelInv(v) && v.c.state != Disconnected && v.c.Idle() && KernelCanWrite(|data|, r)
    ensures SendMoves(v, SendInLoop(v, data, r))
  {
    if r != Wrote(|data|) && !PeerGone(r) {
      var taken := KernelTook(data, r);
      assert data[0..] == data;
      var v1 := v.(c := v.c.Note(Write(taken)));
      assert SendInLoop(v, data, r) == BufferRest(v1, data[|taken|..]);
      RestMoves(v1, data[|taken|..]);
    }
  }

  lemma WriteMovesChannel<C>(v: View<C>, w: WriteResult)
    requires ChannelInv(v) && Enabled(v, EvWritable(w))
    ensures ChannelMoves(v.c, EvWritable(w), HandleWrite(v, w).c)
  {
    if v.c.ch.IsWriting() {
      if w == Wrote(|v.c.output.data|) {
        DrainedEffect(v, w);
        DrainMovesChannel(v, w);
      } else {
        PartialKept(v, w, KernelTook(v.c.output.data, w));
      }
    }
  }

  lemma DrainMovesChannel<C>(v: View<C>, w: WriteResult)
    requires ChannelInv(v) && Enabled(v, EvWritable(w)) && v.c.ch.IsWriting() && w == Wrote(|v.c.output.data|)
    ensures HandleWrite(v, w).c.ch.events == v.c.ch.events - {EPOLLOUT} && HandleWrite(v, w).c.ch.index == v.c.ch.index
  {
    CallKeeps(v, DisableWriting);
    assert EPOLLIN in READ_EVENT && EPOLLIN in v.c.ch.events - {EPOLLOUT};
  }

  lemma DestroyMovesChannel<C>(v: View<C>, e: Event<C>)
    requires ChannelInv(v) && Enabled(v, e) && IsDestroy(e)
    ensures ChannelMoves(v.c, e, Step(v, e).c)
  {
    DestroyedKept(v);
    DestroyedMask(v);
  }

  lemma DestroyedMask<C>(v: View<C>)
    ensures ConnectDestroyed(v).c.ch.events == if v.c.state == Connected then {} else v.c.ch.events
  {
  }

  lemma EstablishMovesChannel<C>(v: View<C>)
    requires ChannelInv(v) && Enabled(v, EvEstablished)
    ensures ChannelMoves(v.c, EvEstablished, ConnectEstablished(v).c)
  {
    EstablishedKept(v);
    CallKeeps(v.(c := v.c.(state := Connected)), EnableReading);
    assert EPOLLIN in READ_EVENT;
  }

  /** Every event: what the channel asks for, and whether it is registered, as the table says. */
  lemma StepMovesChannel<C>(v: View<C>, e: Event<C>)
    requires ChannelInv(v) && Enabled(v, e)
    ensures ChannelMoves(v.c, e, Step(v, e).c)
  {
    if CallsSendInLoop(v.c, e) {
      SendMovesChannel(v, e);
    } else if e.EvWritable? {
      WriteMovesChannel(v, e.w);
    } else if IsDestroy(e) {
      DestroyMovesChannel(v, e);
    } else if e.EvEstablished? {
      EstablishMovesChannel(v);
    } else {
      OutputStays(v, e);
      ChannelStays(v, e);
    }
  }

  lemma ChannelStays<C>(v: View<C>, e: Event<C>)
    requires Enabled(v, e) && !CallsSendInLoop(v.c, e) && !e.EvWritable? && !IsDestroy(e) && !e.EvEstablished?
    ensures Step(v, e).c.ch == v.c.ch
  {
  }

  // ---------------------------------------------------------------------
  // The buffers
  // ---------------------------------------------------------------------

  // The array has stayed, or has grown by no more than the queue asks for.
  predicate GrowsForNeed(b: Buf, b': Buf) {
    b'.size == b.size || b.size < b'.size < CHEAP_PREPEND + 2 * |b'.data|
  }

  lemma RestGrows<C>(v: View<C>, rest: seq<byte>)
    requires v.c.Valid()
    ensures GrowsForNeed(v.c.output, BufferRest(v, rest).c.output) && BufferRest(v, rest).c.input == v.c.input
  {
    if rest != [] {
      assert BufferRest(v, rest).c.output == Append(v.c.output, rest);
    }
  }

  lemma SendGrows<C>(v: View<C>, data: seq<byte>, r: WriteResult)
    requires v.c.Valid() && KernelCanWrite(|data|, r)
    ensures GrowsForNeed(v.c.output, SendInLoop(v, data, r).c.output)
    ensures SendInLoop(v, data, r).c.input == v.c.input
  {
    if v.c.state != Disconnected {
      if !v.c.Idle() {
        RestGrows(v, data);
      } else if r != Wrote(|data|) && !PeerGone(r) {
        var v1 := v.(c := v.c.Note(Write(KernelTook(data, r))));
        assert data[0..] == data;
        assert SendInLoop(v, data, r) == BufferRest(v1, data[|KernelTook(data, r)|..]);
        RestGrows(v1, data[|KernelTook(data, r)|..]);
      }
    }
  }

  lemma WriteGrows<C>(v: View<C>, w: WriteResult)
    requires v.c.Valid() && KernelCanWrite(|v.c.output.data|, w)
    ensures GrowsForNeed(v.c.output, HandleWrite(v, w).c.output)
    ensures HandleWrite(v, w).c.input == v.c.input
  {
  }

  lemma StepGrows<C>(v: View<C>, e: Event<C>)
    requires ChannelInv(v) && Enabled(v, e)
    ensures GrowsForNeed(v.c.output, Step(v, e).c.output) && GrowsForNeed(v.c.input, Step(v, e).c.input)
  {
    if CallsSendInLoop(v.c, e) {
      SendingKeeps(v, e);
      SendGrows(Sending(v, e), e.data, e.r);
    } else if e.EvWritable? {
      WriteGrows(v, e.w);
    } else {
      OutputStays(v, e);
      if !e.EvReadable? && !e.EvConsume? { OtherEventsKeepInput(v, e); }
    }
  }

  /** The space bound of a buffer holds of both buffers of a connection, over any run: with at
      most n bytes waiting at any time, an array is never longer than max(start, 8 + 2n); and
      it never shrinks. */
  lemma {:induction false} BuffersStaySmall<C>(v: View<C>, es: seq<Event<C>>, bound: nat)
    requires Good(v) && CanRun(v, es)
    requires v.c.output.size <= bound && v.c.input.size <= bound
    requires forall k: nat :: k <= |es| ==>
               CHEAP_PREPEND + 2 * |After(v, es, k).c.output.data| <= bound &&
               CHEAP_PREPEND + 2 * |After(v, es, k).c.input.data| <= bound
    ensures v.c.output.size <= Run(v, es).c.output.size <= bound
    ensures v.c.input.size <= Run(v, es).c.input.size <= bound
    decreases |es|
  {
    if es != [] {
      var u := Step(v, es[0]);
      StepKeeps(v, es[0]);
      StepGrows(v, es[0]);
      forall k: nat | k <= |es[1..]|
        ensures After(u, es[1..], k) == After(v, es, k + 1)
      {
      }
      assert After(v, es, 1) == u by { AfterOneMore(v, es, 0); }
      BuffersStaySmall(u, es[1..], bound);
    }
  }
}
