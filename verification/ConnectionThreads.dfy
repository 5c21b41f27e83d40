// What other threads have under way for a connection: every send they post runs
// once and in the order of posting, and every shutdown they start goes through
// its test, its store, its post and its functor, once each.
module ConnectionThreads {
  import opened BufferSpec
  import opened Basics
  import opened PollerSpec
  import opened ConnectionSpec
  import opened ConnectionRuns
  import opened ConnectionLog

  // ---------------------------------------------------------------------
  // One event
  // ---------------------------------------------------------------------

  // The payload that this event, a send() on another thread, gets past its test.
  predicate PostsSend<C>(c: Conn<C>, e: Event<C>) {
    e.EvRemoteSend? && c.state == Connected
  }

  predicate PassesTest<C>(c: Conn<C>, e: Event<C>) {
    e.EvTestShutdown? && c.state == Connected
  }

  predicate StoresShutdown<C>(e: Event<C>) {
    e.EvStoreShutdown? || e.EvDestroyedOverStore?
  }

  lemma SendKeepsForeign<C>(v: View<C>, data: seq<byte>, r: WriteResult)
    requires v.c.Valid() && KernelCanWrite(|data|, r)
    ensures SendInLoop(v, data, r).c.foreign == v.c.foreign
  {
  }

  lemma WriteKeepsForeign<C>(v: View<C>, w: WriteResult)
    requires v.c.Valid() && KernelCanWrite(|v.c.output.data|, w)
    ensures HandleWrite(v, w).c.foreign == v.c.foreign
  {
  }

  lemma DestroyKeepsForeign<C>(v: View<C>)
    ensures ConnectDestroyed(v).c.foreign == v.c.foreign
  {
  }

  // What this event is for the four stages.
  ghost predicate Moves<C>(c: Conn<C>, e: Event<C>, f': Foreign) {
    var f := c.foreign;
    && f.sends + (if PostsSend(c, e) then [e.data] else []) == (if e.EvQueuedSend? then [e.data] else []) + f'.sends
    && f.tested + Count(PassesTest(c, e)) == Count(StoresShutdown(e)) + f'.tested
    && f.stored + Count(StoresShutdown(e)) == Count(e.EvPostShutdown?) + f'.stored
    && f.posted + Count(e.EvPostShutdown?) == Count(e.EvQueuedShutdown?) + f'.posted
  }

  lemma StillForeign<C>(c: Conn<C>, e: Event<C>)
    requires !PostsSend(c, e) && !e.EvQueuedSend? && !PassesTest(c, e) && !StoresShutdown(e)
    requires !e.EvPostShutdown? && !e.EvQueuedShutdown?
    ensures Moves(c, e, c.foreign)
  {
    assert c.foreign.sends + [] == [] + c.foreign.sends;
  }

  lemma RemoteMoves<C>(v: View<C>, e: Event<C>)
    requires Enabled(v, e)
    requires e.EvRemoteSend? || e.EvTestShutdown? || e.EvStoreShutdown? || e.EvPostShutdown? || e.EvQueuedShutdown?
    ensures Moves(v.c, e, Step(v, e).c.foreign)
  {
    assert v.c.foreign.sends + [] == [] + v.c.foreign.sends;
  }

  lemma QueuedSendMoves<C>(v: View<C>, e: Event<C>)
    requires Enabled(v, e) && e.EvQueuedSend?
    ensures Moves(v.c, e, Step(v, e).c.foreign)
  {
    SendKeepsForeign(v.(c := TakeSend(v.c)), e.data, e.r);
    var sends := v.c.foreign.sends;
    assert sends + [] == [sends[0]] + sends[1..];
  }

  lemma DestroyMoves<C>(v: View<C>, e: Event<C>)
    requires Enabled(v, e) && (e.EvDestroyed? || e.EvDestroyedOverStore?)
    ensures Moves(v.c, e, Step(v, e).c.foreign)
  {
    DestroyKeepsForeign(v);
    assert v.c.foreign.sends + [] == [] + v.c.foreign.sends;
  }

  lemma StepMoves<C>(v: View<C>, e: Event<C>)
    requires Enabled(v, e)
    ensures Moves(v.c, e, Step(v, e).c.foreign)
  {
    if e.EvQueuedSend? {
      QueuedSendMoves(v, e);
    } else if e.EvRemoteSend? || e.EvTestShutdown? || e.EvStoreShutdown? || e.EvPostShutdown? || e.EvQueuedShutdown? {
      RemoteMoves(v, e);
    } else if e.EvDestroyed? || e.EvDestroyedOverStore? {
      DestroyMoves(v, e);
    } else {
      if e.EvSend? && v.c.state == Connected { SendKeepsForeign(v, e.data, e.r); }
      if e.EvWritable? { WriteKeepsForeign(v, e.w); }
      StillForeign(v.c, e);
    }
  }

  // ---------------------------------------------------------------------
  // Runs
  // ---------------------------------------------------------------------

  // The payloads that other threads' send() got past the test, in the order of the calls.
  ghost function PostedSends<C>(v: View<C>, es: seq<Event<C>>): seq<seq<byte>>
    requires CanRun(v, es)
    decreases |es|
  {
    if es == [] then [] else
      (if PostsSend(v.c, es[0]) then [es[0].data] else []) + PostedSends(Step(v, es[0]), es[1..])
  }

  // The payloads of the sendInLoop functors that have run, in that order.
  function RanSends<C>(es: seq<Event<C>>): seq<seq<byte>>
    decreases |es|
  {
    if es == [] then [] else (if es[0].EvQueuedSend? then [es[0].data] else []) + RanSends(es[1..])
  }

  lemma Shuffle<T>(f: seq<T>, p: seq<T>, more: seq<T>, r: seq<T>, f1: seq<T>, later: seq<T>, f2: seq<T>)
    requires f + p == r + f1 && f1 + more == later + f2
    ensures f + (p + more) == (r + later) + f2
  {
    assert f + (p + more) == (f + p) + more;
    assert (r + f1) + more == r + (f1 + more);
    assert r + (later + f2) == (r + later) + f2;
  }

  /** What other threads sent runs in the order in which they sent it, each payload once; what
      has not run yet is queued, in that order. */
  lemma {:induction false} RemoteSendsInOrder<C>(v: View<C>, es: seq<Event<C>>)
    requires CanRun(v, es)
    ensures v.c.foreign.sends + PostedSends(v, es) == RanSends(es) + Run(v, es).c.foreign.sends
    decreases |es|
  {
    if es == [] {
      assert v.c.foreign.sends + [] == [] + v.c.foreign.sends;
    } else {
      var u := Step(v, es[0]);
      StepMoves(v, es[0]);
      RemoteSendsInOrder(u, es[1..]);
      Shuffle(v.c.foreign.sends, if PostsSend(v.c, es[0]) then [es[0].data] else [], PostedSends(u, es[1..]),
              if es[0].EvQueuedSend? then [es[0].data] else [], u.c.foreign.sends, RanSends(es[1..]),
              Run(u, es[1..]).c.foreign.sends);
    }
  }

  ghost function Passes<C>(v: View<C>, es: seq<Event<C>>): nat
    requires CanRun(v, es)
    decreases |es|
  {
    if es == [] then 0 else Count(PassesTest(v.c, es[0])) + Passes(Step(v, es[0]), es[1..])
  }

  function Stores<C>(es: seq<Event<C>>): nat
    decreases |es|
  {
    if es == [] then 0 else Count(StoresShutdown(es[0])) + Stores(es[1..])
  }

  function Posts<C>(es: seq<Event<C>>): nat
    decreases |es|
  {
    if es == [] then 0 else Count(es[0].EvPostShutdown?) + Posts(es[1..])
  }

  function RanShutdowns<C>(es: seq<Event<C>>): nat
    decreases |es|
  {
    if es == [] then 0 else Count(es[0].EvQueuedShutdown?) + RanShutdowns(es[1..])
  }

  /** Every shutdown() of another thread that got past its test is stored, then posted, then
      run, once each; what has not come that far is counted where it is. */
  lemma {:induction false} RemoteShutdownsOnce<C>(v: View<C>, es: seq<Event<C>>)
    requires CanRun(v, es)
    ensures var f, f' := v.c.foreign, Run(v, es).c.foreign;
            && f.tested + Passes(v, es) == Stores(es) + f'.tested
            && f.stored + Stores(es) == Posts(es) + f'.stored
            && f.posted + Posts(es) == RanShutdowns(es) + f'.posted
    decreases |es|
  {
    if es != [] {
      StepMoves(v, es[0]);
      RemoteShutdownsOnce(Step(v, es[0]), es[1..]);
    }
  }
}
