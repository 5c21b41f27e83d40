// What every handler of a connection keeps, for every state it can be called
// in and every answer of the kernel. ConnectionTheorems draws the conclusions.
module ConnectionRuns {
  import opened BufferSpec
  import opened PollerSpec
  import opened ConnectionSpec
  import opened Basics

  // ---------------------------------------------------------------------
  // Reading the log
  // ---------------------------------------------------------------------

  function BytesOf(a: Action): seq<byte> {
    match a
    case Write(bytes) => bytes
    case _ => []
  }

  // The byte stream the kernel has taken.
  function Wire(log: seq<Action>): seq<byte> {
    if log == [] then [] else
      Wire(log[..|log| - 1]) + BytesOf(log[|log| - 1])
  }

  datatype Kind = Messages | Ups | Downs | Closings | Completions | HalfCloses | HighWaterNotes

  predicate IsA(a: Action, kind: Kind) {
    match kind
    case Messages => a.Message?
    case Ups => a.ConnUp?
    case Downs => a.ConnDown?
    case Closings => a.CloseCallback?
    case Completions => a.QueueWriteComplete?
    case HalfCloses => a.HalfClose?
    case HighWaterNotes => a.QueueHighWater?
  }

  // The entries of one kind.
  function HowMany(log: seq<Action>, kind: Kind): nat {
    if log == [] then 0 else HowMany(log[..|log| - 1], kind) + Count(IsA(log[|log| - 1], kind))
  }

  function WriteCompletes(log: seq<Action>): nat {
    HowMany(log, Completions)
  }

  function HighWaters(log: seq<Action>): nat {
    HowMany(log, HighWaterNotes)
  }

  lemma ReadSnoc(log: seq<Action>, a: Action)
    ensures Wire(log + [a]) == Wire(log) + BytesOf(a)
    ensures WriteCompletes(log + [a]) == WriteCompletes(log) + if a.QueueWriteComplete? then 1 else 0
    ensures HighWaters(log + [a]) == HighWaters(log) + if a.QueueHighWater? then 1 else 0
  {
    assert (log + [a])[..|log|] == log;
  }

  lemma HowManySnoc(log: seq<Action>, a: Action, kind: Kind)
    ensures HowMany(log + [a], kind) == HowMany(log, kind) + Count(IsA(a, kind))
  {
    assert (log + [a])[..|log|] == log;
  }

  lemma {:induction false} HowManyConcat(log: seq<Action>, more: seq<Action>, kind: Kind)
    ensures HowMany(log + more, kind) == HowMany(log, kind) + HowMany(more, kind)
  {
    if more == [] {
      assert log + more == log;
    } else {
      var init, last := more[..|more| - 1], more[|more| - 1];
      HowManyConcat(log, init, kind);
      HowManySnoc(log + init, last, kind);
      assert init + [last] == more;
      Associate(log, init, [last]);
    }
  }

  lemma WireSnoc(log: seq<Action>, a: Action)
    ensures Wire(log + [a]) == Wire(log) + BytesOf(a)
  {
    assert (log + [a])[..|log|] == log;
  }

  lemma WireConcatStep(log: seq<Action>, more: seq<Action>, a: Action)
    requires Wire(log + more) == Wire(log) + Wire(more)
    ensures Wire(log + (more + [a])) == Wire(log) + Wire(more + [a])
  {
    WireSnoc(log + more, a);
    WireSnoc(more, a);
    Associate(log, more, [a]);
    Associate(Wire(log), Wire(more), BytesOf(a));
  }

  lemma {:induction false} WireConcat(log: seq<Action>, more: seq<Action>)
    ensures Wire(log + more) == Wire(log) + Wire(more)
  {
    if more == [] {
      assert log + more == log;
    } else {
      var init, last := more[..|more| - 1], more[|more| - 1];
      assert init + [last] == more;
      WireConcat(log, init);
      WireConcatStep(log, init, last);
    }
  }

  lemma ReadConcat(log: seq<Action>, more: seq<Action>)
    ensures Wire(log + more) == Wire(log) + Wire(more)
    ensures WriteCompletes(log + more) == WriteCompletes(log) + WriteCompletes(more)
    ensures HighWaters(log + more) == HighWaters(log) + HighWaters(more)
  {
    WireConcat(log, more);
    HowManyConcat(log, more, Completions);
    HowManyConcat(log, more, HighWaterNotes);
  }

  lemma ReadOne(a: Action)
    ensures Wire([a]) == BytesOf(a)
    ensures WriteCompletes([a]) == if a.QueueWriteComplete? then 1 else 0
    ensures HighWaters([a]) == if a.QueueHighWater? then 1 else 0
  {
    ReadSnoc([], a);
    assert [] + [a] == [a];
  }

  ghost predicate HalfClosed(log: seq<Action>) {
    exists i :: 0 <= i < |log| && log[i].HalfClose?
  }

  // At most one half-close, nothing unsent when it happens, no ::write after it.
  ghost predicate HalfCloseClean(log: seq<Action>) {
    && (forall i :: 0 <= i < |log| && log[i].HalfClose? ==> log[i].unsent == 0)
    && (forall i, j :: 0 <= i < j < |log| && log[i].HalfClose? ==> !log[j].HalfClose? && !log[j].Write?)
  }

  // ---------------------------------------------------------------------
  // The invariant of a connection and its poller
  // ---------------------------------------------------------------------

  // Output waits in the buffer exactly while the channel asks for EPOLLOUT.
  ghost predicate Scheduled<C>(c: Conn<C>) {
    c.output.data != [] <==> c.ch.IsWriting()
  }

  // Destroyed with output pending.
  predicate CutOff<C>(c: Conn<C>) {
    c.destroyed && !c.ch.IsWriting() && c.output.data != []
  }

  // Another thread's shutdown() stores kDisconnecting over kDisconnected.
  predicate Overtaken<C>(c: Conn<C>, e: Event<C>) {
    e.EvStoreShutdown? && c.state == Disconnected
  }

  ghost predicate ChannelInv<C>(v: View<C>) {
    var c := v.c;
    && c.Valid()
    && Agrees(v.p, c.self, c.ch)
    && (c.state == Connecting ==>
          c.ch.index == New && c.ch.events == NONE_EVENT && c.output.data == [] && !c.destroyed &&
          c.foreign == NOTHING_FOREIGN)
    && (c.state != Connecting && !c.destroyed ==>
          c.ch.index == Added && READ_EVENT <= c.ch.events && Scheduled(c))
    && (c.state == Connected ==> !c.destroyed && c.foreign.stored == 0 && c.foreign.posted == 0)
    && (Scheduled(c) || CutOff(c))
  }

  // connectEstablished is the first thing in the log and happens once.
  ghost predicate LogInv<C>(c: Conn<C>) {
    && (c.state == Connecting <==> c.log == [])
    && (c.log != [] ==> c.log[0] == ConnUp)
    && (forall i :: 0 < i < |c.log| ==> c.log[i] != ConnUp)
    && (HalfClosed(c.log) ==> c.state == Disconnecting || c.state == Disconnected)
  }

  ghost predicate Inv<C>(v: View<C>) {
    ChannelInv(v) && LogInv(v.c)
  }

  function Rank(s: ConnState): nat {
    match s
    case Connecting => 0
    case Connected => 1
    case Disconnecting => 2
    case Disconnected => 3
  }

  lemma NewConnInv<C>(self: C, fd: int, mark: nat, notify: bool, p: Poller<C>)
    requires fd !in p.channels && fd !in p.kernel
    ensures Inv(View(NewConn(self, fd, mark, notify), p))
    ensures var c := NewConn(self, fd, mark, notify);
            && c.self == self && c.ch.fd == fd && c.mark == mark && c.notify == notify
            && c.input == NEW_BUFFER && c.output == NEW_BUFFER && c.log == []
  {
  }

  // What every handler owes beside the invariant: constants kept, no refused epoll_ctl, no
  // change to the poller's entries of other fds, and these new entries at the end of the log.
  ghost predicate Effect<C>(v: View<C>, v': View<C>, more: seq<Action>) {
    && v'.c.log == v.c.log + more
    && v'.c.self == v.c.self && v'.c.ch.fd == v.c.ch.fd
    && v'.c.mark == v.c.mark && v'.c.notify == v.c.notify
    && v'.p.failures == v.p.failures
    && SameElsewhere(v.p, v'.p, v.c.ch.fd)
  }

  lemma CallKeeps<C>(v: View<C>, op: ChannelOp)
    requires Agrees(v.p, v.c.self, v.c.ch)
    ensures var v' := CallChannel(v, op);
            && Agrees(v'.p, v'.c.self, v'.c.ch)
            && v'.c == v.c.(ch := v'.c.ch)
            && v'.c.ch.fd == v.c.ch.fd
            && v'.c.ch.events == NewMask(v.c.ch.events, op)
            && (op.Remove? ==> v'.c.ch.index == New)
            && (!op.Remove? && v'.c.ch.events != NONE_EVENT ==> v'.c.ch.index == Added)
            && v'.p.failures == v.p.failures
            && SameElsewhere(v.p, v'.p, v.c.ch.fd)
  {
    ApplyKeepsAgreement(v.p, v.c.self, v.c.ch, op);
  }

  // BufferRest keeps all of rest, schedules it, and notes at most a high-water crossing.
  lemma BufferRestKeeps<C>(v: View<C>, rest: seq<byte>) returns (more: seq<Action>)
    requires v.c.Valid() && Agrees(v.p, v.c.self, v.c.ch)
    ensures var v' := BufferRest(v, rest);
            && v'.c.Valid()
            && Agrees(v'.p, v'.c.self, v'.c.ch)
            && v'.c == v.c.(ch := v'.c.ch, output := v'.c.output, log := v'.c.log)
            && v'.c.output.data == v.c.output.data + rest
            && v'.c.ch.events == v.c.ch.events + (if rest == [] then {} else WRITE_EVENT)
            && (v.c.ch.index == Added ==> v'.c.ch.index == Added)
            && Effect(v, v', more)
    ensures var len := |v.c.output.data|;
            more == if CrossesMark(v.c.mark, len, len + |rest|) then [QueueHighWater(len + |rest|)] else []
  {
    more := [];
    if rest != [] {
      var len := |v.c.output.data|;
      var c1 := v.c;
      if CrossesMark(v.c.mark, len, len + |rest|) {
        more := [QueueHighWater(len + |rest|)];
        c1 := v.c.Note(QueueHighWater(len + |rest|));
      }
      var v2 := View(c1.(output := Append(c1.output, rest)), v.p);
      CallKeeps(v2, EnableWriting);
      if v2.c.ch.IsWriting() {
        assert EPOLLOUT in v2.c.ch.events;
        assert v2.c.ch.events == v2.c.ch.events + WRITE_EVENT;
      }
    }
  }

  // ---------------------------------------------------------------------
  // sendInLoop
  // ---------------------------------------------------------------------

  // A payload is dropped only whole, and only in these two cases.
  ghost predicate Dropped<C>(c: Conn<C>, r: WriteResult) {
    c.state == Disconnected || (c.Idle() && PeerGone(r))
  }

  // The new log entries of a sendInLoop: one ::write exactly when the direct write is tried,
  // the write-complete exactly when that write takes all, a high-water note exactly on a crossing.
  ghost predicate SendLog<C>(c: Conn<C>, c': Conn<C>, more: seq<Action>, atOnce: bool) {
    && (forall i :: 0 <= i < |more| ==>
          (more[i].Write? && i == 0) || more[i].QueueHighWater? || (more[i].QueueWriteComplete? && more[i].unsent == 0))
    && (more != [] && more[0].Write? <==> c.state != Disconnected && c.Idle())
    && HighWaters(more) == Count(CrossesMark(c.mark, |c.output.data|, |c'.output.data|))
    && WriteCompletes(more) == Count(atOnce && c.notify)
    && (atOnce ==> c.output.data == [] && c'.output.data == [])
  }

  // The direct write takes everything.
  predicate AtOnce<C>(c: Conn<C>, data: seq<byte>, r: WriteResult) {
    c.state != Disconnected && c.Idle() && r == Wrote(|data|)
  }

  lemma SendInLoopEffect<C>(v: View<C>, data: seq<byte>, r: WriteResult) returns (more: seq<Action>)
    requires ChannelInv(v) && v.c.state != Connecting && KernelCanWrite(|data|, r)
    ensures var v' := SendInLoop(v, data, r);
            && ChannelInv(v') && Effect(v, v', more)
            && v'.c.state == v.c.state
            && v.c.output.data + (if Dropped(v.c, r) then [] else data) == Wire(more) + v'.c.output.data
            && SendLog(v.c, v'.c, more, AtOnce(v.c, data, r))
  {
    var c := v.c;
    if c.state == Disconnected {
      more := [];
    } else if c.Idle() {
      more := IdleSendEffect(v, data, r);
    } else {
      more := BusySendEffect(v, data);
    }
  }

  lemma BusySendEffect<C>(v: View<C>, data: seq<byte>) returns (more: seq<Action>)
    requires ChannelInv(v) && v.c.state != Connecting && v.c.state != Disconnected && !v.c.Idle()
    ensures var v' := BufferRest(v, data);
            && ChannelInv(v') && Effect(v, v', more)
            && v'.c.state == v.c.state
            && v.c.output.data + data == Wire(more) + v'.c.output.data
            && SendLog(v.c, v'.c, more, false)
  {
    more := BufferRestKeeps(v, data);
    if more != [] { ReadOne(more[0]); }
  }

  lemma IdleSendEffect<C>(v: View<C>, data: seq<byte>, r: WriteResult) returns (more: seq<Action>)
    requires ChannelInv(v) && v.c.state != Connecting && KernelCanWrite(|data|, r)
    requires v.c.state != Disconnected && v.c.Idle()
    ensures var v' := SendInLoop(v, data, r);
            && ChannelInv(v') && Effect(v, v', more)
            && v'.c.state == v.c.state
            && (if PeerGone(r) then [] else data) == Wire(more) + v'.c.output.data
            && SendLog(v.c, v'.c, more, AtOnce(v.c, data, r))
  {
    if r.Wrote? && r.n == |data| {
      more := AllTakenEffect(v, data);
    } else if PeerGone(r) {
      more := [Write([])];
      ReadOne(Write([]));
    } else {
      var taken := if r.Wrote? then data[..r.n] else [];
      assert data == taken + data[|taken|..];
      assert data[0..] == data;
      more := RestEffect(v, taken, data[|taken|..]);
    }
  }

  lemma AllTakenLog<C>(c: Conn<C>, c': Conn<C>, data: seq<byte>) returns (more: seq<Action>)
    requires c.state != Disconnected && c.Idle() && c'.output.data == []
    ensures more == if c.notify then [Write(data)] + [QueueWriteComplete(0)] else [Write(data)]
    ensures Wire(more) == data && SendLog(c, c', more, true)
  {
    more := [Write(data)];
    ReadOne(Write(data));
    if c.notify {
      more := [Write(data)] + [QueueWriteComplete(0)];
      ReadOne(QueueWriteComplete(0));
      ReadConcat([Write(data)], [QueueWriteComplete(0)]);
    }
  }

  lemma AllTakenEffect<C>(v: View<C>, data: seq<byte>) returns (more: seq<Action>)
    requires ChannelInv(v) && v.c.state != Connecting && v.c.state != Disconnected && v.c.Idle()
    ensures var v' := SendInLoop(v, data, Wrote(|data|));
            && ChannelInv(v') && Effect(v, v', more)
            && v'.c.state == v.c.state
            && data == Wire(more) + v'.c.output.data
            && SendLog(v.c, v'.c, more, true)
  {
    assert data[..|data|] == data;
    more := AllTakenLog(v.c, SendInLoop(v, data, Wrote(|data|)).c, data);
  }

  lemma RestLog<C>(c: Conn<C>, c': Conn<C>, taken: seq<byte>, tail: seq<Action>)
    requires c.state != Disconnected && c.Idle()
    requires var len := |c'.output.data|;
             tail == if CrossesMark(c.mark, 0, len) then [QueueHighWater(len)] else []
    ensures SendLog(c, c', [Write(taken)] + tail, false)
    ensures Wire([Write(taken)] + tail) == taken
  {
    ReadOne(Write(taken));
    if tail != [] { ReadOne(tail[0]); }
    ReadConcat([Write(taken)], tail);
  }

  // The direct write took only a part (maybe nothing), and the rest is buffered.
  lemma RestEffect<C>(v: View<C>, taken: seq<byte>, rest: seq<byte>) returns (more: seq<Action>)
    requires ChannelInv(v) && v.c.state != Connecting && v.c.state != Disconnected && v.c.Idle()
    ensures var v' := BufferRest(v.(c := v.c.Note(Write(taken))), rest);
            && ChannelInv(v') && Effect(v, v', more)
            && v'.c.state == v.c.state
            && taken + rest == Wire(more) + v'.c.output.data
            && SendLog(v.c, v'.c, more, false)
  {
    var tail := RestKept(v, taken, rest);
    more := [Write(taken)] + tail;
    assert SendLog(v.c, BufferRest(v.(c := v.c.Note(Write(taken))), rest).c, more, false) && Wire(more) == taken by {
      RestLog(v.c, BufferRest(v.(c := v.c.Note(Write(taken))), rest).c, taken, tail);
    }
  }

  lemma RestKept<C>(v: View<C>, taken: seq<byte>, rest: seq<byte>) returns (tail: seq<Action>)
    requires ChannelInv(v) && v.c.state != Connecting && v.c.state != Disconnected && v.c.Idle()
    ensures var v' := BufferRest(v.(c := v.c.Note(Write(taken))), rest);
            && ChannelInv(v') && Effect(v, v', [Write(taken)] + tail)
            && v'.c.state == v.c.state && v'.c.output.data == rest
    ensures tail == if CrossesMark(v.c.mark, 0, |rest|) then [QueueHighWater(|rest|)] else []
  {
    tail := BufferRestKeeps(v.(c := v.c.Note(Write(taken))), rest);
    Associate(v.c.log, [Write(taken)], tail);
  }

  // ---------------------------------------------------------------------
  // Any event
  // ---------------------------------------------------------------------

  predicate CallsSendInLoop<C>(c: Conn<C>, e: Event<C>) {
    (e.EvSend? && c.state == Connected) || e.EvQueuedSend?
  }

  // The bytes this event adds to the output stream.
  ghost function Payload<C>(c: Conn<C>, e: Event<C>): seq<byte> {
    if CallsSendInLoop(c, e) && !Dropped(c, e.r) then e.data else []
  }

  // On an idle connection, exactly these events call ::write or ::shutdown.
  predicate Acts<C>(c: Conn<C>, e: Event<C>) {
    || (CallsSendInLoop(c, e) && c.state != Disconnected)
    || (e.EvShutdown? && c.state == Connected)
    || e.EvQueuedShutdown?
  }

  // A shutdownInLoop functor of another thread finds pending output that nothing will send.
  predicate Strands<C>(c: Conn<C>, e: Event<C>) {
    e.EvQueuedShutdown? && !c.ch.IsWriting() && c.output.data != []
  }

  ghost predicate WritesOrCloses(more: seq<Action>) {
    exists i :: 0 <= i < |more| && (more[i].Write? || more[i].HalfClose?)
  }

  // The new log entries of an event, as far as the order of calls goes.
  ghost predicate OrderFacts<C>(c: Conn<C>, e: Event<C>, c': Conn<C>, more: seq<Action>) {
    && (forall i :: 0 <= i < |more| && more[i].QueueWriteComplete? ==> more[i].unsent == 0)
    && (forall i :: 0 <= i < |more| && more[i].HalfClose? ==>
          i == |more| - 1 && !c'.ch.IsWriting() && more[i].unsent == |c'.output.data| && Rank(c'.state) >= 2)
    && (Strands(c, e) <==> exists i :: 0 <= i < |more| && more[i].HalfClose? && more[i].unsent > 0)
    && (c.Idle() ==> (WritesOrCloses(more) <==> Acts(c, e)))
    && (c.Idle() && !Acts(c, e) ==> c'.Idle())
    && StateFacts(c, e, c', more)
  }

  // The new log entries of an event, as far as bytes and counts go.
  ghost predicate StreamFacts<C>(c: Conn<C>, e: Event<C>, c': Conn<C>, more: seq<Action>) {
    && c.output.data + Payload(c, e) == Wire(more) + c'.output.data
    && HighWaters(more) == Count(CrossesMark(c.mark, |c.output.data|, |c'.output.data|))
    && WriteCompletes(more) + Count(c'.output.data != []) <=
         Count(c.output.data != []) + Count(CallsSendInLoop(c, e))
  }

  ghost predicate Kept<C>(v: View<C>, v': View<C>, more: seq<Action>) {
    ChannelInv(v') && Effect(v, v', more)
  }

  ghost predicate Facts<C>(v: View<C>, e: Event<C>, v': View<C>, more: seq<Action>) {
    Kept(v, v', more) && StreamFacts(v.c, e, v'.c, more) && OrderFacts(v.c, e, v'.c, more)
  }

  // ---------------------------------------------------------------------
  // Events that send
  // ---------------------------------------------------------------------

  // Where sendInLoop starts from: a queued one has left the queue.
  function Sending<C>(v: View<C>, e: Event<C>): View<C>
    requires Enabled(v, e) && CallsSendInLoop(v.c, e)
  {
    if e.EvQueuedSend? then v.(c := TakeSend(v.c)) else v
  }

  lemma SendingKeeps<C>(v: View<C>, e: Event<C>)
    requires ChannelInv(v) && Enabled(v, e) && CallsSendInLoop(v.c, e)
    ensures var u := Sending(v, e);
            && ChannelInv(u) && u.p == v.p && u.c == v.c.(foreign := u.c.foreign)
            && u.c.state != Connecting && KernelCanWrite(|e.data|, e.r)
            && Step(v, e) == SendInLoop(u, e.data, e.r)
  {
  }

  lemma SendOrder<C>(c: Conn<C>, e: Event<C>, c': Conn<C>, more: seq<Action>)
    requires CallsSendInLoop(c, e) && SendLog(c, c', more, AtOnce(c, e.data, e.r))
    requires c.state != Connecting && c'.state == c.state
    requires c.state == Disconnected && c.Idle() ==> c'.Idle()
    ensures OrderFacts(c, e, c', more)
  {
    if c.Idle() && c.state != Disconnected {
      assert more[0].Write?;
    }
  }

  lemma SendStream<C>(c: Conn<C>, e: Event<C>, c': Conn<C>, more: seq<Action>)
    requires CallsSendInLoop(c, e) && SendLog(c, c', more, AtOnce(c, e.data, e.r))
    requires c.output.data + (if Dropped(c, e.r) then [] else e.data) == Wire(more) + c'.output.data
    ensures StreamFacts(c, e, c', more)
  {
  }

  lemma SendFacts<C>(v: View<C>, e: Event<C>) returns (more: seq<Action>)
    requires ChannelInv(v) && Enabled(v, e) && CallsSendInLoop(v.c, e)
    ensures Facts(v, e, Step(v, e), more)
  {
    SendingKeeps(v, e);
    var u := Sending(v, e);
    more := SendInLoopEffect(u, e.data, e.r);
    SendOrder(v.c, e, Step(v, e).c, more);
    SendStream(v.c, e, Step(v, e).c, more);
  }

  // ---------------------------------------------------------------------
  // Events that leave the output alone
  // ---------------------------------------------------------------------

  predicate IsPlain(a: Action) {
    a.ConnUp? || a.ConnDown? || a.CloseCallback? || a.Message?
  }

  lemma {:induction false} ReadPlain(more: seq<Action>)
    requires forall a :: a in more ==> IsPlain(a)
    ensures Wire(more) == [] && WriteCompletes(more) == 0 && HighWaters(more) == 0
    ensures !WritesOrCloses(more)
  {
    if more != [] {
      assert IsPlain(more[|more| - 1]);
      ReadPlain(more[..|more| - 1]);
      assert forall i :: 0 <= i < |more| ==> IsPlain(more[i]);
    }
  }

  // With the state and the up callback as they should be.
  ghost predicate StateFacts<C>(c: Conn<C>, e: Event<C>, c': Conn<C>, more: seq<Action>) {
    && (if Overtaken(c, e) then c'.state == Disconnecting else Rank(c.state) <= Rank(c'.state))
    && (e.EvEstablished? ==> more == [ConnUp] && c'.state == Connected)
    && (!e.EvEstablished? ==> ConnUp !in more && (c.state == Connecting ==> c'.state == Connecting && more == []))
  }

  lemma PlainFacts<C>(c: Conn<C>, e: Event<C>, c': Conn<C>, more: seq<Action>)
    requires forall a :: a in more ==> IsPlain(a)
    requires c'.output == c.output && !CallsSendInLoop(c, e) && !Acts(c, e)
    requires c.Idle() ==> c'.Idle()
    requires StateFacts(c, e, c', more)
    ensures StreamFacts(c, e, c', more) && OrderFacts(c, e, c', more)
  {
    ReadPlain(more);
    assert forall i :: 0 <= i < |more| ==> IsPlain(more[i]);
  }

  lemma EstablishedKept<C>(v: View<C>)
    requires ChannelInv(v) && Enabled(v, EvEstablished)
    ensures var v' := ConnectEstablished(v);
            && Kept(v, v', [ConnUp]) && v'.c.output == v.c.output && v'.c.state == Connected
            && (v.c.Idle() ==> v'.c.Idle())
  {
    CallKeeps(v.(c := v.c.(state := Connected)), EnableReading);
  }

  lemma EstablishedFacts<C>(v: View<C>) returns (more: seq<Action>)
    requires ChannelInv(v) && Enabled(v, EvEstablished)
    ensures Facts(v, EvEstablished, Step(v, EvEstablished), more)
  {
    more := [ConnUp];
    EstablishedKept(v);
    PlainFacts(v.c, EvEstablished, Step(v, EvEstablished).c, more);
  }

  // The Connected branch of connectDistroyed.
  lemma DisabledEffect<C>(v: View<C>)
    requires ChannelInv(v) && v.c.state == Connected
    ensures var v0 := CallChannel(v.(c := v.c.(state := Disconnected)), DisableAll);
            && Agrees(v0.p, v0.c.self, v0.c.ch) && !v0.c.ch.IsWriting()
            && v0.c == v.c.(state := Disconnected, ch := v0.c.ch)
            && v0.c.ch.fd == v.c.ch.fd
            && v0.p.failures == v.p.failures && SameElsewhere(v.p, v0.p, v.c.ch.fd)
  {
    CallKeeps(v.(c := v.c.(state := Disconnected)), DisableAll);
  }

  lemma RemovedEffect<C>(v: View<C>)
    requires Agrees(v.p, v.c.self, v.c.ch)
    ensures var v1 := CallChannel(v, Remove);
            && Agrees(v1.p, v1.c.self, v1.c.ch) && v1.c.ch.index == New && v1.c.ch.events == v.c.ch.events
            && v1.c == v.c.(ch := v1.c.ch) && v1.c.ch.fd == v.c.ch.fd
            && v.c.ch.fd !in v1.p.channels && v.c.ch.fd !in v1.p.kernel
            && v1.p.failures == v.p.failures && SameElsewhere(v.p, v1.p, v.c.ch.fd)
  {
    CallKeeps(v, Remove);
  }

  lemma DestroyedKept<C>(v: View<C>)
    requires ChannelInv(v) && Enabled(v, EvDestroyed)
    ensures var v' := ConnectDestroyed(v);
            && Kept(v, v', if v.c.state == Connected then [ConnDown] else [])
            && v'.c.output == v.c.output && (v.c.Idle() ==> v'.c.Idle())
            && v'.c.state == (if v.c.state == Connected then Disconnected else v.c.state)
            && v'.c.destroyed && v'.c.ch.index == New
            && v'.c.ch.fd !in v'.p.channels && v'.c.ch.fd !in v'.p.kernel
  {
    if v.c.state == Connected {
      DisabledEffect(v);
      var v0 := CallChannel(v.(c := v.c.(state := Disconnected)), DisableAll);
      RemovedEffect(v0.(c := v0.c.Note(ConnDown)));
    } else {
      RemovedEffect(v);
    }
  }

  lemma DestroyedFacts<C>(v: View<C>) returns (more: seq<Action>)
    requires ChannelInv(v) && Enabled(v, EvDestroyed)
    ensures Facts(v, EvDestroyed, Step(v, EvDestroyed), more)
    ensures var v' := ConnectDestroyed(v);
            && v'.c.destroyed && v'.c.ch.index == New
            && v'.c.ch.fd !in v'.p.channels && v'.c.ch.fd !in v'.p.kernel
  {
    more := if v.c.state == Connected then [ConnDown] else [];
    DestroyedKept(v);
    PlainFacts(v.c, EvDestroyed, Step(v, EvDestroyed).c, more);
  }

  lemma DestroyedOverStoreFacts<C>(v: View<C>) returns (more: seq<Action>)
    requires ChannelInv(v) && Enabled(v, EvDestroyedOverStore)
    ensures Facts(v, EvDestroyedOverStore, Step(v, EvDestroyedOverStore), more)
  {
    more := [ConnDown];
    DestroyedKept(v);
    ForeignKept(v, ConnectDestroyed(v), DestroyedOverStore(v), more);
    PlainFacts(v.c, EvDestroyedOverStore, Step(v, EvDestroyedOverStore).c, more);
  }

  // Past kConnected, the invariant asks nothing of what other threads have under way.
  lemma ForeignKept<C>(v: View<C>, u: View<C>, v': View<C>, more: seq<Action>)
    requires Kept(v, u, more) && u.c.state != Connecting && u.c.state != Connected
    requires v' == u.(c := u.c.(foreign := v'.c.foreign))
    ensures Kept(v, v', more)
  {
  }

  // A change of input, state and log that keeps the invariant: the channel, the output and
  // the poller are as they were.
  lemma InputKept<C>(v: View<C>, input: Buf, state: ConnState, more: seq<Action>)
    requires ChannelInv(v) && input.Valid() && v.c.state != Connecting && (state == v.c.state || state == Disconnected)
    ensures Kept(v, v.(c := v.c.(input := input, state := state, log := v.c.log + more)), more)
  {
  }

  // handleClose, with whatever the input buffer has become by then.
  lemma CloseFacts<C>(v: View<C>, e: Event<C>, input: Buf) returns (more: seq<Action>)
    requires ChannelInv(v) && Enabled(v, e) && input.Valid()
    requires e.EvHangup? || e.EvReadable?
    ensures more == [ConnDown, CloseCallback]
    ensures Facts(v, e, v.(c := HandleClose(v.c.(input := input))), more)
  {
    more := [ConnDown, CloseCallback];
    var v' := v.(c := HandleClose(v.c.(input := input)));
    assert v.c.log + [ConnDown] + [CloseCallback] == v.c.log + more;
    InputKept(v, input, Disconnected, more);
    assert v' == v.(c := v.c.(input := input, state := Disconnected, log := v.c.log + more));
    PlainFacts(v.c, e, v'.c, more);
  }

  lemma HandleReadFacts<C>(v: View<C>, rd: ReadResult) returns (more: seq<Action>)
    requires ChannelInv(v) && Enabled(v, EvReadable(rd))
    ensures more == if rd.ReadFailed? then [] else if rd.bytes == [] then [ConnDown, CloseCallback] else [Message]
    ensures Facts(v, EvReadable(rd), Step(v, EvReadable(rd)), more)
  {
    var e: Event<C> := EvReadable(rd);
    var input := ReadFd(v.c.input, rd);
    if rd == Delivered([]) {
      more := CloseFacts(v, e, input);
    } else {
      more := if rd.ReadFailed? then [] else [Message];
      assert v.c.log + [] == v.c.log;
      InputKept(v, input, v.c.state, more);
      assert Step(v, e) == v.(c := v.c.(input := input, log := v.c.log + more));
      PlainFacts(v.c, e, Step(v, e).c, more);
    }
  }

  // Nothing of these shows in the log.
  predicate IsQuiet<C>(e: Event<C>) {
    e.EvConsume? || e.EvRemoteSend? || e.EvTestShutdown? || e.EvStoreShutdown? || e.EvPostShutdown?
  }

  lemma QuietKept<C>(v: View<C>, e: Event<C>)
    requires ChannelInv(v) && Enabled(v, e) && IsQuiet(e)
    ensures var v' := Step(v, e);
            && Kept(v, v', [])
            && v'.c == v.c.(state := v'.c.state, input := v'.c.input, foreign := v'.c.foreign)
            && v'.c.state == (if e.EvStoreShutdown? then Disconnecting else v.c.state)
            && (e.EvStoreShutdown? ==> v.c.state != Connecting)
  {
    assert v.c.log + [] == v.c.log;
  }

  lemma QuietFacts<C>(v: View<C>, e: Event<C>)
    requires ChannelInv(v) && Enabled(v, e) && IsQuiet(e)
    ensures Facts(v, e, Step(v, e), [])
  {
    QuietKept(v, e);
    PlainFacts(v.c, e, Step(v, e).c, []);
  }

  // ---------------------------------------------------------------------
  // handleWrite
  // ---------------------------------------------------------------------

  function DrainLog(data: seq<byte>, notify: bool, deferred: bool): seq<Action> {
    [Write(data)] + (if notify then [QueueWriteComplete(0)] else []) + (if deferred then [HalfClose(0)] else [])
  }

  lemma ReadDrainLog(data: seq<byte>, notify: bool, deferred: bool)
    ensures var more := DrainLog(data, notify, deferred);
            Wire(more) == data && WriteCompletes(more) == Count(notify) && HighWaters(more) == 0
  {
    ReadOne(Write(data));
    ReadOne(QueueWriteComplete(0));
    ReadOne(HalfClose(0));
    var first := [Write(data)] + if notify then [QueueWriteComplete(0)] else [];
    ReadConcat([Write(data)], if notify then [QueueWriteComplete(0)] else []);
    ReadConcat(first, if deferred then [HalfClose(0)] else []);
  }

  // handleWrite that takes everything: interest off, callback queued, deferred half-close.
  lemma DrainedEffect<C>(v: View<C>, w: WriteResult)
    requires ChannelInv(v) && Enabled(v, EvWritable(w)) && v.c.ch.IsWriting()
    requires w.Wrote? && w.n == |v.c.output.data|
    ensures var v' := HandleWrite(v, w);
            && v'.c.Idle() && v'.c.state == v.c.state
            && Kept(v, v', DrainLog(v.c.output.data, v.c.notify, v.c.state == Disconnecting))
  {
    var data := v.c.output.data;
    assert data[..w.n] == data;
    var c1 := v.c.Note(Write(data));
    var v2 := v.(c := c1.(output := Retrieve(c1.output, w.n)));
    CallKeeps(v2, DisableWriting);
    assert EPOLLIN in READ_EVENT && EPOLLIN in CallChannel(v2, DisableWriting).c.ch.events;
  }

  lemma DrainOrder<C>(c: Conn<C>, w: WriteResult, c': Conn<C>)
    requires c.state != Connecting && c'.state == c.state && c'.Idle() && c.ch.IsWriting()
    ensures OrderFacts(c, EvWritable(w), c', DrainLog(c.output.data, c.notify, c.state == Disconnecting))
  {
  }

  lemma DrainedFacts<C>(v: View<C>, w: WriteResult) returns (more: seq<Action>)
    requires ChannelInv(v) && Enabled(v, EvWritable(w)) && v.c.ch.IsWriting()
    requires w.Wrote? && w.n == |v.c.output.data|
    ensures Facts(v, EvWritable(w), Step(v, EvWritable(w)), more)
  {
    var data := v.c.output.data;
    DrainedEffect(v, w);
    more := DrainLog(data, v.c.notify, v.c.state == Disconnecting);
    ReadDrainLog(data, v.c.notify, v.c.state == Disconnecting);
    DrainOrder(v.c, w, Step(v, EvWritable(w)).c);
  }

  lemma PartialKept<C>(v: View<C>, w: WriteResult, taken: seq<byte>)
    requires ChannelInv(v) && Enabled(v, EvWritable(w)) && v.c.ch.IsWriting()
    requires w.Wrote? ==> w.n != |v.c.output.data|
    requires taken == if w.Wrote? then v.c.output.data[..w.n] else []
    ensures var v' := HandleWrite(v, w);
            && Kept(v, v', [Write(taken)]) && v'.c.state == v.c.state && v'.c.ch == v.c.ch
            && v.c.output.data == taken + v'.c.output.data && v'.c.output.data != []
  {
    assert v.c.output.data[0..] == v.c.output.data;
  }

  // handleWrite that leaves something, maybe everything, in the buffer.
  lemma PartialWriteFacts<C>(v: View<C>, w: WriteResult) returns (more: seq<Action>)
    requires ChannelInv(v) && Enabled(v, EvWritable(w)) && v.c.ch.IsWriting()
    requires w.Wrote? ==> w.n != |v.c.output.data|
    ensures Facts(v, EvWritable(w), Step(v, EvWritable(w)), more)
  {
    var taken := if w.Wrote? then v.c.output.data[..w.n] else [];
    more := [Write(taken)];
    ReadOne(Write(taken));
    PartialKept(v, w, taken);
  }

  lemma NothingKept<C>(v: View<C>, e: Event<C>)
    requires ChannelInv(v) && Step.requires(v, e) && Step(v, e) == v
    requires !CallsSendInLoop(v.c, e) && !Acts(v.c, e) && !e.EvEstablished? && !e.EvStoreShutdown?
    ensures Facts(v, e, Step(v, e), [])
  {
    assert v.c.log + [] == v.c.log;
    PlainFacts(v.c, e, v.c, []);
  }

  lemma HandleWriteFacts<C>(v: View<C>, w: WriteResult) returns (more: seq<Action>)
    requires ChannelInv(v) && Enabled(v, EvWritable(w))
    ensures Facts(v, EvWritable(w), Step(v, EvWritable(w)), more)
  {
    if !v.c.ch.IsWriting() {
      more := [];
      NothingKept(v, EvWritable(w));
    } else if w.Wrote? && w.n == |v.c.output.data| {
      more := DrainedFacts(v, w);
    } else {
      more := PartialWriteFacts(v, w);
    }
  }

  // ---------------------------------------------------------------------
  // shutdown
  // ---------------------------------------------------------------------

  lemma ShutdownKept<C>(v: View<C>, e: Event<C>)
    requires ChannelInv(v) && Enabled(v, e)
    requires (e.EvShutdown? && v.c.state == Connected) || e.EvQueuedShutdown?
    ensures var v' := Step(v, e);
            && Kept(v, v', if v.c.ch.IsWriting() then [] else [HalfClose(|v.c.output.data|)])
            && v'.c.output == v.c.output && v'.c.ch == v.c.ch && v'.c.mark == v.c.mark
            && v'.c.state == (if e.EvShutdown? then Disconnecting else v.c.state)
            && Rank(v'.c.state) >= 2
  {
    assert v.c.log + [] == v.c.log;
  }

  lemma HalfCloseOrder<C>(c: Conn<C>, e: Event<C>, c': Conn<C>)
    requires (e.EvShutdown? && c.state == Connected) || e.EvQueuedShutdown?
    requires !c.ch.IsWriting() && (e.EvShutdown? ==> c.output.data == [])
    requires c'.output == c.output && c'.ch == c.ch && Rank(c'.state) >= 2
    requires c'.state == if e.EvShutdown? then Disconnecting else c.state
    ensures StreamFacts(c, e, c', [HalfClose(|c.output.data|)])
    ensures OrderFacts(c, e, c', [HalfClose(|c.output.data|)])
  {
    var a := HalfClose(|c.output.data|);
    ReadOne(a);
    assert [a][0].HalfClose? && [a][0].unsent == |c.output.data|;
  }

  lemma ShutdownInLoopFacts<C>(v: View<C>, e: Event<C>) returns (more: seq<Action>)
    requires ChannelInv(v) && Enabled(v, e)
    requires (e.EvShutdown? && v.c.state == Connected) || e.EvQueuedShutdown?
    ensures Facts(v, e, Step(v, e), more)
  {
    ShutdownKept(v, e);
    if v.c.ch.IsWriting() {
      more := [];
      ReadPlain(more);
    } else {
      more := [HalfClose(|v.c.output.data|)];
      HalfCloseOrder(v.c, e, Step(v, e).c);
    }
  }

  // ---------------------------------------------------------------------
  // All events
  // ---------------------------------------------------------------------

  /** One event of this connection, any event, any answer of the kernel. */
  lemma StepFacts<C>(v: View<C>, e: Event<C>) returns (more: seq<Action>)
    requires ChannelInv(v) && Enabled(v, e) && !e.EvOthers?
    ensures Facts(v, e, Step(v, e), more)
  {
    if CallsSendInLoop(v.c, e) {
      more := SendFacts(v, e);
    } else if IsQuiet(e) {
      QuietFacts(v, e);
      more := [];
    } else if (e.EvSend? || e.EvShutdown?) && v.c.state != Connected {
      NothingKept(v, e);
      more := [];
    } else {
      match e {
        case EvEstablished => more := EstablishedFacts(v);
        case EvWritable(w) => more := HandleWriteFacts(v, w);
        case EvReadable(rd) => more := HandleReadFacts(v, rd);
        case EvHangup => more := CloseFacts(v, e, v.c.input);
        case EvDestroyed => more := DestroyedFacts(v);
        case EvDestroyedOverStore => more := DestroyedOverStoreFacts(v);
        case _ => more := ShutdownInLoopFacts(v, e);
      }
    }
  }
}
