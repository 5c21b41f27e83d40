// Which callbacks a connection runs, that a half-close once asked for is not
// forgotten, and when the application knows that a connection is down.
module ConnectionCallbacks {
  import opened BufferSpec
  import opened PollerSpec
  import opened ConnectionSpec
  import opened ConnectionRuns
  import opened ConnectionTheorems
  import opened ConnectionLog

  // ---------------------------------------------------------------------
  // One event
  // ---------------------------------------------------------------------

  // The callbacks among the new log entries of an event.
  ghost predicate Callbacks<C>(c: Conn<C>, e: Event<C>, c': Conn<C>, more: seq<Action>) {
    && c'.log == c.log + more
    && (Closes(e) ==> more == [ConnDown, CloseCallback])
    && (!Closes(e) ==> CloseCallback !in more)
    && (ConnDown in more <==> Closes(e) || (e.EvDestroyed? && c.state == Connected) || e.EvDestroyedOverStore?)
    && (e.EvDestroyed? || e.EvDestroyedOverStore? ==> more == if ConnDown in more then [ConnDown] else [])
    && (ReadsBytes(e) ==> more == [Message])
    && (!ReadsBytes(e) ==> Message !in more)
    && (c'.state == Disconnected <==> (c.state == Disconnected && !Overtaken(c, e)) || ConnDown in more)
  }

  // A shutdown is still on its way.
  predicate OnItsWay<C>(c: Conn<C>) {
    c.foreign.stored > 0 || c.foreign.posted > 0
  }

  // Where a shutdown may be after an event.
  ghost predicate KeepsShutdown<C>(c: Conn<C>, c': Conn<C>, more: seq<Action>) {
    c'.state == Disconnecting && !c'.ch.IsWriting() ==>
      || HalfClosed(more) || OnItsWay(c')
      || (c.state == Disconnecting && !c.ch.IsWriting() && !OnItsWay(c))
  }

  ghost predicate CallFacts<C>(c: Conn<C>, e: Event<C>, c': Conn<C>, more: seq<Action>) {
    Callbacks(c, e, c', more) && KeepsShutdown(c, c', more)
  }

  lemma SendKeepsShutdown<C>(v: View<C>, data: seq<byte>, r: WriteResult)
    requires ChannelInv(v) && KernelCanWrite(|data|, r)
    ensures SendInLoop(v, data, r).c.foreign == v.c.foreign
    ensures v.c.ch.IsWriting() ==> SendInLoop(v, data, r).c.ch.IsWriting()
  {
  }

  lemma SendCallbacks<C>(v: View<C>, e: Event<C>) returns (more: seq<Action>)
    requires ChannelInv(v) && Enabled(v, e) && CallsSendInLoop(v.c, e)
    ensures CallFacts(v.c, e, Step(v, e).c, more)
  {
    SendingKeeps(v, e);
    var u := Sending(v, e);
    more := SendInLoopEffect(u, e.data, e.r);
    SendKeepsShutdown(u, e.data, e.r);
  }

  lemma DrainCallbacks<C>(c: Conn<C>, w: WriteResult, c': Conn<C>)
    requires c.state != Connecting && c'.state == c.state && c.ch.IsWriting()
    requires c'.log == c.log + DrainLog(c.output.data, c.notify, c.state == Disconnecting)
    ensures CallFacts(c, EvWritable(w), c', DrainLog(c.output.data, c.notify, c.state == Disconnecting))
  {
    var more := DrainLog(c.output.data, c.notify, c.state == Disconnecting);
    assert c.state == Disconnecting ==> more[|more| - 1] == HalfClose(0);
  }

  lemma WriteCallbacks<C>(v: View<C>, w: WriteResult) returns (more: seq<Action>)
    requires ChannelInv(v) && Enabled(v, EvWritable(w))
    ensures CallFacts(v.c, EvWritable(w), HandleWrite(v, w).c, more)
  {
    if !v.c.ch.IsWriting() {
      more := [];
    } else if w.Wrote? && w.n == |v.c.output.data| {
      DrainedEffect(v, w);
      more := DrainLog(v.c.output.data, v.c.notify, v.c.state == Disconnecting);
      DrainCallbacks(v.c, w, HandleWrite(v, w).c);
    } else {
      var taken := if w.Wrote? then v.c.output.data[..w.n] else [];
      PartialKept(v, w, taken);
      more := [Write(taken)];
    }
  }

  lemma ShutdownCallbacks<C>(v: View<C>, e: Event<C>) returns (more: seq<Action>)
    requires ChannelInv(v) && Enabled(v, e)
    requires (e.EvShutdown? && v.c.state == Connected) || e.EvQueuedShutdown?
    ensures CallFacts(v.c, e, Step(v, e).c, more)
  {
    ShutdownKept(v, e);
    more := if v.c.ch.IsWriting() then [] else [HalfClose(|v.c.output.data|)];
    assert more != [] ==> more[0].HalfClose?;
  }

  lemma DestroyCallbacks<C>(v: View<C>) returns (more: seq<Action>)
    requires ChannelInv(v) && Enabled(v, EvDestroyed)
    ensures CallFacts(v.c, EvDestroyed, ConnectDestroyed(v).c, more)
  {
    DestroyedKept(v);
    DestroyKeepsShutdown(v);
    more := if v.c.state == Connected then [ConnDown] else [];
  }

  lemma DestroyOverStoreCallbacks<C>(v: View<C>)
    requires ChannelInv(v) && Enabled(v, EvDestroyedOverStore)
    ensures CallFacts(v.c, EvDestroyedOverStore, Step(v, EvDestroyedOverStore).c, [ConnDown])
  {
    DestroyedKept(v);
  }

  lemma DestroyKeepsShutdown<C>(v: View<C>)
    requires ChannelInv(v) && v.c.state != Connecting
    ensures ConnectDestroyed(v).c.foreign == v.c.foreign
    ensures v.c.state != Connected ==> ConnectDestroyed(v).c.ch.events == v.c.ch.events
  {
  }

  lemma EstablishedCallbacks<C>(v: View<C>)
    requires ChannelInv(v) && Enabled(v, EvEstablished)
    ensures CallFacts(v.c, EvEstablished, Step(v, EvEstablished).c, [ConnUp])
  {
    EstablishedKept(v);
  }

  lemma ReadCallbacks<C>(v: View<C>, e: Event<C>) returns (more: seq<Action>)
    requires ChannelInv(v) && Enabled(v, e) && (e.EvReadable? || e.EvHangup?)
    ensures CallFacts(v.c, e, Step(v, e).c, more)
  {
    more := if Closes(e) then [ConnDown, CloseCallback] else if e.rd.ReadFailed? then [] else [Message];
  }

  lemma QuietCallbacks<C>(v: View<C>, e: Event<C>)
    requires ChannelInv(v) && Enabled(v, e) && IsQuiet(e)
    ensures CallFacts(v.c, e, Step(v, e).c, [])
  {
    QuietKept(v, e);
  }

  /** Every event: the close callback exactly on a hang-up or end of file, right after the
      down callback; the down callback also when a connected connection is destroyed; a
      message exactly when bytes came; and no shutdown is forgotten. */
  lemma EventCallbacks<C>(v: View<C>, e: Event<C>) returns (more: seq<Action>)
    requires ChannelInv(v) && Enabled(v, e)
    ensures CallFacts(v.c, e, Step(v, e).c, more)
  {
    if CallsSendInLoop(v.c, e) {
      more := SendCallbacks(v, e);
    } else if IsQuiet(e) {
      QuietCallbacks(v, e);
      more := [];
    } else if e.EvOthers? || ((e.EvSend? || e.EvShutdown?) && v.c.state != Connected) {
      more := [];
    } else {
      match e {
        case EvEstablished => EstablishedCallbacks(v); more := [ConnUp];
        case EvWritable(w) => more := WriteCallbacks(v, w);
        case EvReadable(_) => more := ReadCallbacks(v, e);
        case EvHangup => more := ReadCallbacks(v, e);
        case EvDestroyed => more := DestroyCallbacks(v);
        case EvDestroyedOverStore => DestroyOverStoreCallbacks(v); more := [ConnDown];
        case _ => more := ShutdownCallbacks(v, e);
      }
    }
  }

  // ---------------------------------------------------------------------
  // Runs
  // ---------------------------------------------------------------------

  // Whoever is disconnected has been told, and a shutdown is on its way or has been done.
  ghost predicate Told<C>(c: Conn<C>) {
    && (c.state == Disconnected ==> ConnDown in c.log)
    && (c.state == Disconnecting && !c.ch.IsWriting() ==> HalfClosed(c.log) || OnItsWay(c))
  }

  // The application has been told exactly of the disconnected.
  predicate ToldExactly<C>(c: Conn<C>) {
    c.state == Disconnected <==> ConnDown in c.log
  }

  lemma StepTells<C>(v: View<C>, e: Event<C>)
    requires ChannelInv(v) && Told(v.c) && Enabled(v, e)
    ensures Told(Step(v, e).c)
    ensures ToldExactly(v.c) ==> (ToldExactly(Step(v, e).c) <==> !Overtaken(v.c, e))
  {
    var more := EventCallbacks(v, e);
    ToldGrows(v.c, e, Step(v, e).c, more);
  }

  lemma ToldGrows<C>(c: Conn<C>, e: Event<C>, c': Conn<C>, more: seq<Action>)
    requires Told(c) && CallFacts(c, e, c', more)
    ensures Told(c')
    ensures ToldExactly(c) ==> (ToldExactly(c') <==> !Overtaken(c, e))
  {
    HalfClosedConcat(c.log, more);
  }

  lemma {:induction false} RunTells<C>(v: View<C>, es: seq<Event<C>>)
    requires Good(v) && Told(v.c) && CanRun(v, es)
    ensures Told(Run(v, es).c)
    ensures ToldExactly(v.c) && NeverOvertaken(v, es) ==> ToldExactly(Run(v, es).c)
    decreases |es|
  {
    if es != [] {
      StepKeeps(v, es[0]);
      StepTells(v, es[0]);
      RunTells(Step(v, es[0]), es[1..]);
    }
  }

  /** In every run, whichever threads call and however they interleave: a disconnected
      connection has told the application, and a shutdown whose bytes are all gone has
      half-closed, unless another thread has yet to queue or the loop to run its functor. */
  lemma ShutdownIsHonoured<C>(self: C, fd: int, mark: nat, notify: bool, p: Poller<C>, es: seq<Event<C>>)
    requires fd !in p.channels && fd !in p.kernel
    requires CanRun(View(NewConn(self, fd, mark, notify), p), es)
    ensures var c := Run(View(NewConn(self, fd, mark, notify), p), es).c;
            && (c.state == Disconnected ==> ConnDown in c.log)
            && (c.state == Disconnecting && c.output.data == [] && !OnItsWay(c) ==> HalfClosed(c.log))
  {
    var v := View(NewConn(self, fd, mark, notify), p);
    NewConnInv(self, fd, mark, notify, p);
    RunTells(v, es);
    LogGrows(v, es);
  }

  ghost predicate AlwaysToldExactly<C>(v: View<C>, es: seq<Event<C>>)
    requires CanRun(v, es)
  {
    forall k: nat :: k <= |es| ==> ToldExactly(After(v, es, k).c)
  }

  lemma {:induction false} ToldAfter<C>(v: View<C>, es: seq<Event<C>>, k: nat)
    requires Good(v) && Told(v.c) && ToldExactly(v.c) && CanRun(v, es) && NeverOvertaken(v, es) && k <= |es|
    ensures ToldExactly(After(v, es, k).c)
    decreases k
  {
    if k > 0 {
      StepKeeps(v, es[0]);
      StepTells(v, es[0]);
      ToldAfter(Step(v, es[0]), es[1..], k - 1);
    }
  }

  lemma {:induction false} OvertakenIsNotTold<C>(v: View<C>, es: seq<Event<C>>) returns (k: nat)
    requires Good(v) && Told(v.c) && ToldExactly(v.c) && CanRun(v, es) && !NeverOvertaken(v, es)
    ensures k <= |es| && !ToldExactly(After(v, es, k).c)
    decreases |es|
  {
    StepTells(v, es[0]);
    if Overtaken(v.c, es[0]) {
      k := 1;
      AfterOneMore(v, es, 0);
    } else {
      StepKeeps(v, es[0]);
      k := OvertakenIsNotTold(Step(v, es[0]), es[1..]);
      k := k + 1;
    }
  }

  /** The application is told exactly of the disconnected, at every moment of a run, if and
      only if no other thread's shutdown() is overtaken by handleClose. */
  lemma ToldExactlyUnlessOvertaken<C>(self: C, fd: int, mark: nat, notify: bool, p: Poller<C>, es: seq<Event<C>>)
    requires fd !in p.channels && fd !in p.kernel
    requires CanRun(View(NewConn(self, fd, mark, notify), p), es)
    ensures var v := View(NewConn(self, fd, mark, notify), p);
            AlwaysToldExactly(v, es) <==> NeverOvertaken(v, es)
  {
    var v := View(NewConn(self, fd, mark, notify), p);
    NewConnInv(self, fd, mark, notify, p);
    if NeverOvertaken(v, es) {
      forall k: nat | k <= |es| ensures ToldExactly(After(v, es, k).c) {
        ToldAfter(v, es, k);
      }
    } else {
      var k := OvertakenIsNotTold(v, es);
    }
  }
}
