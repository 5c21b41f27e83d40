// Every step of ServerSpec keeps the invariant.
module ServerSteps {
  import opened PollerSpec
  import opened BufferSpec
  import CS = ConnectionSpec
  import CR = ConnectionRuns
  import CT = ConnectionTheorems
  import opened TaskQueue
  import opened ThreadPools
  import opened ConnectionNames
  import opened ServerSpec
  import opened ServerInvariant

  // ---------------------------------------------------------------------
  // Queues as bags
  // ---------------------------------------------------------------------

  lemma PushBag(ls: LoopState, f: Functor)
    ensures Bag(ls.(queue := Push(ls.queue, f))) == Bag(ls) + multiset{f}
  {
    assert Push(ls.queue, f).All() == ls.queue.All() + [f];
  }

  lemma PopBag(ls: LoopState)
    requires ls.queue.batch != []
    ensures Bag(ls) == Bag(ls.(queue := Pop(ls.queue))) + multiset{ls.queue.batch[0]}
  {
    assert ls.queue.All() == [ls.queue.batch[0]] + Pop(ls.queue).All();
  }

  lemma SwapBag(ls: LoopState)
    requires ls.queue.batch == []
    ensures Bag(ls.(queue := Swap(ls.queue))) == Bag(ls)
  {
    assert Swap(ls.queue).All() == ls.queue.All();
  }

  // ---------------------------------------------------------------------
  // One event of one connection
  // ---------------------------------------------------------------------

  ghost predicate Flags(k: CS.Conn<nat>, k': CS.Conn<nat>, state: CS.ConnState, destroyed: bool) {
    k'.foreign == k.foreign && k'.state == state && k'.destroyed == destroyed
  }

  lemma SendFlags(v: CS.View<nat>, data: seq<byte>, r: CS.WriteResult)
    requires v.c.Valid() && CS.KernelCanWrite(|data|, r)
    ensures Flags(v.c, CS.SendInLoop(v, data, r).c, v.c.state, v.c.destroyed)
  {
  }

  lemma WriteFlags(v: CS.View<nat>, w: CS.WriteResult)
    requires v.c.Valid() && CS.KernelCanWrite(|v.c.output.data|, w)
    ensures Flags(v.c, CS.HandleWrite(v, w).c, v.c.state, v.c.destroyed)
  {
  }

  lemma DestroyFlags(v: CS.View<nat>)
    ensures Flags(v.c, CS.ConnectDestroyed(v).c, if v.c.state == CS.Connected then CS.Disconnected else v.c.state, true)
    ensures CS.ConnectDestroyed(v).c.ch.index == New
  {
  }

  // State, destroyed and foreign after an event.
  lemma EventState(v: CS.View<nat>, e: CS.Event<nat>)
    requires CS.Enabled(v, e) && (IsChannelEvent(e) || IsUserEvent(e) || e.EvEstablished? || e.EvDestroyed?)
    ensures var k := v.c;
            Flags(k, CS.Step(v, e).c,
                  if e.EvEstablished? then CS.Connected
                  else if CS.Closes(e) || (e.EvDestroyed? && k.state == CS.Connected) then CS.Disconnected
                  else if e.EvShutdown? && k.state == CS.Connected then CS.Disconnecting
                  else k.state,
                  k.destroyed || e.EvDestroyed?)
    ensures v.c.state == CS.Disconnected && !IsChannelEvent(e) && !e.EvEstablished? ==>
              CS.Step(v, e).c.ch.index == (if e.EvDestroyed? then New else v.c.ch.index)
  {
    match e {
      case EvSend(data, r) => SendFlags(v, data, r);
      case EvWritable(w) => WriteFlags(v, w);
      case EvDestroyed => DestroyFlags(v);
      case _ =>
    }
  }

  /** The event e of connection c, done by the server: nothing but c and its poller's
      entries for c's fd changes. */
  lemma Touch(s: Server, c: nat, e: CS.Event<nat>)
    requires s.Usable(c) && CR.Inv(s.ViewOf(c)) && CS.Enabled(s.ViewOf(c), e) && !e.EvOthers?
    ensures var s1 := s.WithView(c, CS.Step(s.ViewOf(c), e));
            && SameExcept(s, s1, c) && s1.Usable(c) && CR.Inv(s1.ViewOf(c))
            && s1.connections == s.connections
            && SameQueues(s, s1) && SameTurn(s, s1, NONE)
  {
    var v := s.ViewOf(c);
    var more := CR.StepFacts(v, e);
    assert CR.Inv(CS.Step(v, e)) by { CT.LogInvStep(v.c, e, CS.Step(v, e).c, more); }
    TouchFrame(s, c, CS.Step(v, e));
  }

  // Putting a new view of c in place.
  lemma TouchFrame(s: Server, c: nat, v: CS.View<nat>)
    requires s.Usable(c) && v.c.Valid()
    requires v.c.self == s.conns[c].conn.self && v.c.ch.fd == s.conns[c].conn.ch.fd
    requires v.p.failures == s.ViewOf(c).p.failures && SameElsewhere(s.ViewOf(c).p, v.p, v.c.ch.fd)
    ensures var s1 := s.WithView(c, v);
            && SameExcept(s, s1, c) && s1.Usable(c) && s1.ViewOf(c) == v
            && s1.connections == s.connections
            && SameQueues(s, s1) && SameTurn(s, s1, NONE)
  {
  }

  // ---------------------------------------------------------------------
  // Handlers and application calls
  // ---------------------------------------------------------------------

  // Queues and connections_ as they were.
  ghost predicate SameQueues(s: Server, s': Server) {
    |s'.loops| == |s.loops| && forall l: nat :: l < |s.loops| ==> s'.loops[l].queue == s.loops[l].queue
  }

  lemma SameQueuesOnlyFunctors(s: Server, s': Server, c: nat)
    requires SameExcept(s, s', c) && SameQueues(s, s') && FunctorsOk(s)
    ensures OnlyFunctorsOf(s, s', c)
  {
    forall l: nat, f: Functor | l < |s.loops| && f.c == c && f in Bag(s'.loops[l])
      ensures FunctorOk(s', l, f)
    {
      assert Bag(s'.loops[l]) == Bag(s.loops[l]);
      assert FunctorOk(s, l, f);
    }
    forall l: nat, f: Functor | l < |s.loops| && f.c != c
      ensures Bag(s'.loops[l])[f] == Bag(s.loops[l])[f]
    {
      assert Bag(s'.loops[l]) == Bag(s.loops[l]);
    }
  }

  // No loop's phase or batch has changed, but for the batch of loop l (NONE: no exception).
  ghost predicate SameTurn(s: Server, s': Server, l: int) {
    && |s'.loops| == |s.loops|
    && forall k: nat :: k < |s.loops| ==>
         s'.loops[k].phase == s.loops[k].phase && (k != l ==> s'.loops[k].queue.batch == s.loops[k].queue.batch)
  }

  lemma SameTurnTrans(s: Server, s1: Server, s2: Server, l: int)
    requires SameTurn(s, s1, l) && SameTurn(s1, s2, NONE)
    ensures SameTurn(s, s2, l)
  {
  }

  lemma PostTurn(s: Server, l: nat, f: Functor)
    requires l < |s.loops|
    ensures SameTurn(s, s.Post(l, f), NONE)
  {
  }

  lemma PostView(s: Server, l: nat, f: Functor, c: nat)
    requires l < |s.loops| && s.Usable(c)
    ensures s.Post(l, f).Usable(c) && s.Post(l, f).ViewOf(c) == s.ViewOf(c)
  {
  }

  const NONE: int := -1   // no loop

  // The channels still to be handled stay good when c stays established and registered.
  lemma PhaseStaysOk(s: Server, s': Server, c: nat, l: nat)
    requires SameExcept(s, s', c) && l < |s.loops| && PhaseOk(s, l)
    requires s'.loops[l].phase == s.loops[l].phase && s'.loops[l].queue.batch == s.loops[l].queue.batch
    requires s.conns[c].conn.state != CS.Connecting ==> s'.conns[c].conn.state != CS.Connecting
    requires l == s.conns[c].loop && s'.conns[c].conn.destroyed ==>
               s.conns[c].conn.destroyed || !s.loops[l].phase.Dispatch?
    ensures PhaseOk(s', l)
  {
    if s.loops[l].phase.Dispatch? {
      forall i | 0 <= i < |s.loops[l].phase.active|
        ensures ActiveOk(s', l, s.loops[l].phase.active[i])
      {
        assert ActiveOk(s, l, s.loops[l].phase.active[i]);
      }
    }
  }

  lemma PhasesStayOk(s: Server, s': Server, c: nat)
    requires SameExcept(s, s', c) && PhasesOk(s)
    requires SameTurn(s, s', NONE)
    requires s.conns[c].conn.state != CS.Connecting ==> s'.conns[c].conn.state != CS.Connecting
    requires s'.conns[c].conn.destroyed ==>
               s.conns[c].conn.destroyed || !s.loops[s.conns[c].loop].phase.Dispatch?
    ensures PhasesOk(s')
  {
    forall l: nat | l < |s'.loops| ensures PhaseOk(s', l) {
      PhaseStaysOk(s, s', c, l);
    }
  }

  lemma QuietEventStage(v: CS.View<nat>, e: CS.Event<nat>, h: Holders)
    requires CS.Enabled(v, e) && StageOk(v.c, h)
    requires IsUserEvent(e) || (IsChannelEvent(e) && !CS.Closes(e) && !v.c.destroyed)
    ensures StageOk(CS.Step(v, e).c, h)
    ensures CS.Step(v, e).c.destroyed == v.c.destroyed
    ensures v.c.state != CS.Connecting ==> CS.Step(v, e).c.state != CS.Connecting
  {
    EventState(v, e);
  }

  lemma QuietEventParts(s: Server, c: nat, e: CS.Event<nat>)
    requires |s.loops| > 0 && c in s.conns && ConnOk(s, c) && FunctorsOk(s) && PhasesOk(s)
    requires CS.Enabled(s.ViewOf(c), e)
    requires IsUserEvent(e) || (IsChannelEvent(e) && !CS.Closes(e))
    ensures var s1 := s.WithView(c, CS.Step(s.ViewOf(c), e));
            && SameExcept(s, s1, c) && OnlyFunctorsOf(s, s1, c) && PhasesOk(s1)
            && Settled(s1, c)
  {
    var s1 := s.WithView(c, CS.Step(s.ViewOf(c), e));
    Touch(s, c, e);
    QuietEventStage(s.ViewOf(c), e, HoldersOf(s, c));
    assert HoldersOf(s1, c) == HoldersOf(s, c) by { SameQueuesSameHolders(s, s1, c); }
    assert OnlyFunctorsOf(s, s1, c) by { SameQueuesOnlyFunctors(s, s1, c); }
    assert PhasesOk(s1) by { PhasesStayOk(s, s1, c); }
  }

  /** handleRead and handleWrite without a close, and what the application calls. */
  lemma QuietEventKeepsInv(s: Server, c: nat, e: CS.Event<nat>)
    requires InvBut(s, c) && PhasesOk(s) && ConnOk(s, c) && CS.Enabled(s.ViewOf(c), e)
    requires IsUserEvent(e) || (IsChannelEvent(e) && !CS.Closes(e))
    ensures Inv(s.WithView(c, CS.Step(s.ViewOf(c), e)))
  {
    QuietEventParts(s, c, e);
    ChangeKeepsInv(s, s.WithView(c, CS.Step(s.ViewOf(c), e)), c);
  }

  // ---------------------------------------------------------------------
  // Functors of c that leave one queue and enter another
  // ---------------------------------------------------------------------

  function One(b: bool): int {
    if b then 1 else 0
  }

  // One copy of gone left loop lf and one of added entered loop lt; nothing else moved.
  ghost predicate Moved(s: Server, s': Server, lf: int, gone: Functor, lt: int, added: Functor) {
    && |s'.loops| == |s.loops|
    && forall k: nat, g: Functor :: k < |s.loops| ==>
         Bag(s'.loops[k])[g] == Bag(s.loops[k])[g] - One(k == lf && g == gone) + One(k == lt && g == added)
  }

  lemma MovedCount(s: Server, s': Server, lf: int, gone: Functor, lt: int, added: Functor, k: nat, g: Functor)
    requires Moved(s, s', lf, gone, lt, added) && k < |s.loops|
    ensures Bag(s'.loops[k])[g] == Bag(s.loops[k])[g] - One(k == lf && g == gone) + One(k == lt && g == added)
  {
  }

  lemma MovedOnlyFunctors(s: Server, s': Server, c: nat, lf: int, gone: Functor, lt: int, added: Functor)
    requires SameExcept(s, s', c) && FunctorsOk(s) && Moved(s, s', lf, gone, lt, added)
    requires gone.c == c && added.c == c && (lt >= 0 ==> FunctorOk(s', lt, added))
    ensures OnlyFunctorsOf(s, s', c)
  {
    forall k: nat, g: Functor | k < |s.loops|
      ensures g.c != c ==> Bag(s'.loops[k])[g] == Bag(s.loops[k])[g]
      ensures g.c == c && g in Bag(s'.loops[k]) ==> FunctorOk(s', k, g)
    {
      MovedCount(s, s', lf, gone, lt, added, k, g);
      if g.c == c && g in Bag(s.loops[k]) {
        assert FunctorOk(s, k, g);
      }
    }
  }

  lemma PostMoves(s: Server, s1: Server, l: nat, f: Functor)
    requires SameQueues(s, s1) && l < |s.loops|
    ensures Moved(s, s1.Post(l, f), NONE, f, l, f)
  {
    forall k: nat, g: Functor | k < |s.loops|
      ensures Bag(s1.Post(l, f).loops[k])[g] == Bag(s.loops[k])[g] + One(k == l && g == f)
    {
      if k == l { PushBag(s1.loops[l], f); }
    }
  }

  // What the holders of c are after the move.
  lemma MovedHolders(s: Server, s': Server, c: nat, lf: int, gone: Functor, lt: int, added: Functor)
    requires c in s.conns && c in s'.conns && s'.conns[c].loop == s.conns[c].loop < |s.loops| == |s'.loops|
    requires Moved(s, s', lf, gone, lt, added)
    ensures var l, h, h' := s.conns[c].loop, HoldersOf(s, c), HoldersOf(s', c);
            && h'.establish ==
               h.establish - One(l == lf && Establish(c) == gone) + One(l == lt && Establish(c) == added)
            && h'.remove ==
               h.remove - One(0 == lf && RemoveInLoop(c) == gone) + One(0 == lt && RemoveInLoop(c) == added)
            && h'.destroy == h.destroy - One(l == lf && Destroy(c) == gone) + One(l == lt && Destroy(c) == added)
  {
    MovedCount(s, s', lf, gone, lt, added, s.conns[c].loop, Establish(c));
    MovedCount(s, s', lf, gone, lt, added, 0, RemoveInLoop(c));
    MovedCount(s, s', lf, gone, lt, added, s.conns[c].loop, Destroy(c));
  }

  // ---------------------------------------------------------------------
  // handleClose
  // ---------------------------------------------------------------------

  lemma CloseStage(v: CS.View<nat>, e: CS.Event<nat>, h: Holders, onBase: bool)
    requires CS.Enabled(v, e) && IsChannelEvent(e) && CS.Closes(e) && StageOk(v.c, h)
    ensures var h' := if onBase then h.(inMap := false, destroy := h.destroy + 1) else h.(remove := h.remove + 1);
            StageOk(CS.Step(v, e).c, h') && !CS.Step(v, e).c.destroyed
  {
    EventState(v, e);
  }

  // s1 differs from s in c, its poller and connections_ only; then f is posted where it belongs.
  lemma PostAfter(s: Server, s1: Server, c: nat, lt: nat, f: Functor)
    requires SameExcept(s, s1, c) && SameQueues(s, s1) && FunctorsOk(s)
    requires s1.Usable(c)
    requires f.c == c && lt < |s.loops| && (if f.RemoveInLoop? then lt == 0 else lt == s.conns[c].loop)
    ensures var s2 := s1.Post(lt, f);
            && SameExcept(s, s2, c) && OnlyFunctorsOf(s, s2, c)
            && s2.Usable(c) && s2.ViewOf(c) == s1.ViewOf(c)
            && SameTurn(s1, s2, NONE)
  {
    var s2 := s1.Post(lt, f);
    PostTurn(s1, lt, f);
    PostView(s1, lt, f, c);
    PostMoves(s, s1, lt, f);
    MovedOnlyFunctors(s, s2, c, NONE, f, lt, f);
  }

  lemma PostHolders(s: Server, c: nat, lt: nat, f: Functor)
    requires s.Usable(c)
    requires f.c == c && lt < |s.loops| && (if f.RemoveInLoop? then lt == 0 else lt == s.conns[c].loop)
    ensures HoldersOf(s.Post(lt, f), c) == Gained(HoldersOf(s, c), f)
  {
    PostMoves(s, s, lt, f);
    MovedHolders(s, s.Post(lt, f), c, NONE, f, lt, f);
  }

  function Gained(h: Holders, f: Functor): Holders {
    match f
    case Establish(_) => h.(establish := h.establish + 1)
    case RemoveInLoop(_) => h.(remove := h.remove + 1)
    case Destroy(_) => h.(destroy := h.destroy + 1)
  }

  predicate Counted(h: Holders, f: Functor) {
    match f
    case Establish(_) => h.establish > 0
    case RemoveInLoop(_) => h.remove > 0
    case Destroy(_) => h.destroy > 0
  }

  function Lost(h: Holders, f: Functor): Holders
    requires Counted(h, f)
  {
    match f
    case Establish(_) => h.(establish := h.establish - 1)
    case RemoveInLoop(_) => h.(remove := h.remove - 1)
    case Destroy(_) => h.(destroy := h.destroy - 1)
  }

  // connections_.erase.
  function Unmapped(s: Server, c: nat): Server {
    s.(connections := s.connections - {s.NameOf(c)})
  }

  lemma UnmapAfter(s: Server, s1: Server, c: nat)
    requires SameExcept(s, s1, c)
    ensures SameExcept(s, Unmapped(s1, c), c) && SameTurn(s1, Unmapped(s1, c), NONE)
    ensures |s1.loops| > 0 ==> HoldersOf(Unmapped(s1, c), c) == HoldersOf(s1, c).(inMap := false)
    ensures s1.Usable(c) ==> Unmapped(s1, c).Usable(c) && Unmapped(s1, c).ViewOf(c) == s1.ViewOf(c)
  {
    assert s1.connections - {s.NameOf(c)} == (s1.connections - {s.NameOf(c)}) - {s.NameOf(c)};
  }

  lemma SameQueuesSameHolders(s: Server, s1: Server, c: nat)
    requires SameExcept(s, s1, c) && SameQueues(s, s1) && s1.connections == s.connections
    ensures HoldersOf(s1, c) == HoldersOf(s, c)
  {
  }

  lemma ClosePhases(s: Server, s2: Server, c: nat, e: CS.Event<nat>)
    requires s.Usable(c) && PhasesOk(s) && CS.Enabled(s.ViewOf(c), e) && IsChannelEvent(e) && CS.Closes(e)
    requires SameExcept(s, s2, c) && s2.conns[c].conn == CS.Step(s.ViewOf(c), e).c
    requires SameTurn(s, s2, NONE)
    ensures PhasesOk(s2)
  {
    EventState(s.ViewOf(c), e);
    PhasesStayOk(s, s2, c);
  }

  // On the base loop: erased at once, and connectDistroyed posted.
  lemma CloseOnBaseKeepsInv(s: Server, c: nat, e: CS.Event<nat>)
    requires InvBut(s, c) && ConnOk(s, c) && PhasesOk(s) && CS.Enabled(s.ViewOf(c), e)
    requires IsChannelEvent(e) && CS.Closes(e) && s.conns[c].loop == 0
    ensures var s1 := s.WithView(c, CS.Step(s.ViewOf(c), e));
            s1.Usable(c) && Inv(Unmapped(s1, c).Post(0, Destroy(c)))
  {
    var s1 := s.WithView(c, CS.Step(s.ViewOf(c), e));
    Touch(s, c, e);
    var s2 := Unmapped(s1, c);
    UnmapAfter(s, s1, c);
    PostAfter(s, s2, c, 0, Destroy(c));
    assert Settled(s2.Post(0, Destroy(c)), c) by {
      SameQueuesSameHolders(s, s1, c);
      CloseStage(s.ViewOf(c), e, HoldersOf(s, c), true);
      PostHolders(s2, c, 0, Destroy(c));
    }
    assert SameTurn(s, s2.Post(0, Destroy(c)), NONE) by { SameTurnTrans(s, s2, s2.Post(0, Destroy(c)), NONE); }
    FinishClose(s, s2.Post(0, Destroy(c)), c, e);
  }

  // On an io loop: removeConnectionInLoop posted to the base loop.
  lemma CloseOnIoKeepsInv(s: Server, c: nat, e: CS.Event<nat>)
    requires InvBut(s, c) && ConnOk(s, c) && PhasesOk(s) && CS.Enabled(s.ViewOf(c), e)
    requires IsChannelEvent(e) && CS.Closes(e)
    ensures var s1 := s.WithView(c, CS.Step(s.ViewOf(c), e));
            s1.Usable(c) && Inv(s1.Post(0, RemoveInLoop(c)))
  {
    var s1 := s.WithView(c, CS.Step(s.ViewOf(c), e));
    Touch(s, c, e);
    var s2 := s1.Post(0, RemoveInLoop(c));
    PostAfter(s, s1, c, 0, RemoveInLoop(c));
    assert Settled(s2, c) by {
      SameQueuesSameHolders(s, s1, c);
      CloseStage(s.ViewOf(c), e, HoldersOf(s, c), false);
      PostHolders(s1, c, 0, RemoveInLoop(c));
    }
    assert SameTurn(s, s2, NONE) by { SameTurnTrans(s, s1, s2, NONE); }
    FinishClose(s, s2, c, e);
  }

  /** A closing callback of the first active channel, including removeConnection. */
  lemma CloseKeepsInv(s: Server, c: nat, e: CS.Event<nat>)
    requires InvBut(s, c) && ConnOk(s, c) && PhasesOk(s) && CS.Enabled(s.ViewOf(c), e)
    requires IsChannelEvent(e) && CS.Closes(e)
    ensures var s1 := s.WithView(c, CS.Step(s.ViewOf(c), e));
            s1.Usable(c) && Inv(RemoveConnection(s1, s.conns[c].loop, c))
  {
    if s.conns[c].loop == 0 {
      CloseOnBaseKeepsInv(s, c, e);
    } else {
      CloseOnIoKeepsInv(s, c, e);
    }
  }

  lemma FinishClose(s: Server, s2: Server, c: nat, e: CS.Event<nat>)
    requires InvBut(s, c) && PhasesOk(s) && CS.Enabled(s.ViewOf(c), e) && IsChannelEvent(e) && CS.Closes(e)
    requires SameExcept(s, s2, c) && OnlyFunctorsOf(s, s2, c) && s2.conns[c].conn == CS.Step(s.ViewOf(c), e).c
    requires SameTurn(s, s2, NONE)
    requires Settled(s2, c)
    ensures Inv(s2)
  {
    ClosePhases(s, s2, c, e);
    ChangeKeepsInv(s, s2, c);
  }

  // ---------------------------------------------------------------------
  // Functors
  // ---------------------------------------------------------------------

  function Popped(s: Server, l: nat): Server
    requires l < |s.loops| && s.loops[l].queue.batch != []
  {
    s.(loops := s.loops[l := s.loops[l].(queue := Pop(s.loops[l].queue))])
  }

  lemma PopMoves(s: Server, l: nat)
    requires l < |s.loops| && s.loops[l].queue.batch != []
    ensures var f := s.loops[l].queue.batch[0];
            Moved(s, Popped(s, l), l, f, NONE, f) && f in Bag(s.loops[l])
  {
    var f := s.loops[l].queue.batch[0];
    forall k: nat, g: Functor | k < |s.loops|
      ensures Bag(Popped(s, l).loops[k])[g] == Bag(s.loops[k])[g] - One(k == l && g == f)
    {
      if k == l { PopBag(s.loops[l]); }
    }
    PopBag(s.loops[l]);
  }

  lemma SameExceptTrans(s: Server, s1: Server, s2: Server, c: nat)
    requires SameExcept(s, s1, c) && SameExcept(s1, s2, c)
    ensures SameExcept(s, s2, c)
  {
  }

  lemma PoppedSameExcept(s: Server, l: nat, c: nat)
    requires l < |s.loops| && s.loops[l].queue.batch != [] && c in s.conns && s.conns[c].loop < |s.loops|
    ensures SameExcept(s, Popped(s, l), c) && SameTurn(s, Popped(s, l), l)
  {
  }

  // The loop that runs a functor is in its batch, so its phase asks nothing of c.
  lemma RunPhasesStayOk(s: Server, s': Server, c: nat, l: nat)
    requires SameExcept(s, s', c) && PhasesOk(s) && l < |s.loops| && s.loops[l].phase.RunningBatch?
    requires SameTurn(s, s', l)
    requires s.conns[c].conn.state != CS.Connecting ==> s'.conns[c].conn.state != CS.Connecting
    requires s'.conns[c].conn.destroyed ==> s.conns[c].conn.destroyed || l == s.conns[c].loop
    ensures PhasesOk(s')
  {
    forall k: nat | k < |s'.loops| ensures PhaseOk(s', k) {
      if k != l { PhaseStaysOk(s, s', c, k); }
    }
  }

  // The connection of the functor at the head of a running batch.
  ghost predicate Head(s: Server, l: nat, f: Functor) {
    FirstInBatch(s, l, f) && s.loops[l].phase.RunningBatch? && ConnOk(s, f.c)
  }

  ghost predicate FirstInBatch(s: Server, l: nat, f: Functor) {
    && l < |s.loops| && s.loops[l].queue.batch != [] && f == s.loops[l].queue.batch[0]
    && FunctorOk(s, l, f) && s.conns[f.c].loop < |s.loops|
  }

  // Losing f where it belongs is one holder less.
  lemma LostHolder(s: Server, s1: Server, l: nat, f: Functor)
    requires FirstInBatch(s, l, f) && Moved(s, s1, l, f, NONE, f) && f in Bag(s.loops[l])
    requires s1.conns == s.conns && s1.connections == s.connections && s1.NameOf(f.c) == s.NameOf(f.c)
    ensures Counted(HoldersOf(s, f.c), f)
    ensures HoldersOf(s1, f.c) == Lost(HoldersOf(s, f.c), f)
  {
    MovedHolders(s, s1, f.c, l, f, NONE, f);
  }

  // s2 differs from s with f popped in c and its poller only.
  lemma PopAfter(s: Server, l: nat, f: Functor, s2: Server)
    requires Head(s, l, f) && FunctorsOk(s)
    requires SameExcept(Popped(s, l), s2, f.c) && SameQueues(Popped(s, l), s2)
    ensures SameExcept(s, s2, f.c) && OnlyFunctorsOf(s, s2, f.c)
  {
    PoppedSameExcept(s, l, f.c);
    SameExceptTrans(s, Popped(s, l), s2, f.c);
    PopMoves(s, l);
    MovedThenSame(s, Popped(s, l), s2, l, f);
    MovedOnlyFunctors(s, s2, f.c, l, f, NONE, f);
  }

  lemma PopHolders(s: Server, l: nat, f: Functor)
    requires FirstInBatch(s, l, f)
    ensures Counted(HoldersOf(s, f.c), f)
    ensures HoldersOf(Popped(s, l), f.c) == Lost(HoldersOf(s, f.c), f)
  {
    PopMoves(s, l);
    LostHolder(s, Popped(s, l), l, f);
  }

  lemma MovedThenSame(s: Server, s1: Server, s2: Server, l: nat, f: Functor)
    requires Moved(s, s1, l, f, NONE, f) && SameQueues(s1, s2)
    ensures Moved(s, s2, l, f, NONE, f)
  {
    forall k: nat, g: Functor | k < |s.loops|
      ensures Bag(s2.loops[k])[g] == Bag(s.loops[k])[g] - One(k == l && g == f)
    {
      MovedCount(s, s1, l, f, NONE, f, k, g);
      assert Bag(s2.loops[k]) == Bag(s1.loops[k]);
    }
  }

  lemma EstablishStage(v: CS.View<nat>, h: Holders)
    requires v.c.Valid() && StageOk(v.c, h) && h.establish > 0
    ensures CS.Enabled(v, CS.EvEstablished)
    ensures StageOk(CS.Step(v, CS.EvEstablished).c, h.(establish := h.establish - 1))
    ensures !CS.Step(v, CS.EvEstablished).c.destroyed && CS.Step(v, CS.EvEstablished).c.state == CS.Connected
  {
    EventState(v, CS.EvEstablished);
  }

  lemma DestroyStage(v: CS.View<nat>, h: Holders)
    requires v.c.Valid() && StageOk(v.c, h) && h.destroy > 0
    ensures CS.Enabled(v, CS.EvDestroyed)
    ensures StageOk(CS.Step(v, CS.EvDestroyed).c, h.(destroy := h.destroy - 1))
    ensures CS.Step(v, CS.EvDestroyed).c.state == CS.Disconnected
  {
    EventState(v, CS.EvDestroyed);
  }

  lemma FinishRun(s: Server, s2: Server, l: nat, f: Functor)
    requires InvBut(s, f.c) && PhasesOk(s) && Head(s, l, f)
    requires SameExcept(s, s2, f.c) && OnlyFunctorsOf(s, s2, f.c)
    requires SameTurn(s, s2, l)
    requires Settled(s2, f.c)
    requires s.conns[f.c].conn.state != CS.Connecting ==> s2.conns[f.c].conn.state != CS.Connecting
    requires s2.conns[f.c].conn.destroyed ==> s.conns[f.c].conn.destroyed || l == s.conns[f.c].loop
    ensures Inv(s2)
  {
    RunPhasesStayOk(s, s2, f.c, l);
    ChangeKeepsInv(s, s2, f.c);
  }

  // connectEstablished or connectDistroyed, as the functor at the head.
  lemma RunOnIoKeepsInv(s: Server, l: nat, f: Functor)
    requires InvBut(s, f.c) && Head(s, l, f) && PhasesOk(s) && (f.Establish? || f.Destroy?)
    ensures Inv(Execute(Popped(s, l), f))
  {
    var c, v, h, s1 := f.c, s.ViewOf(f.c), HoldersOf(s, f.c), Popped(s, l);
    PopHolders(s, l, f);
    var e := if f.Establish? then CS.EvEstablished else CS.EvDestroyed;
    if f.Establish? { EstablishStage(v, h); } else { DestroyStage(v, h); }
    PoppedSameExcept(s, l, c);
    assert s1.ViewOf(c) == v;
    var s2 := s1.WithView(c, CS.Step(v, e));
    assert Execute(s1, f) == s2;
    Touch(s1, c, e);
    SameQueuesSameHolders(s1, s2, c);
    PopAfter(s, l, f, s2);
    SameTurnTrans(s, s1, s2, l);
    FinishRun(s, s2, l, f);
  }

  lemma OnlyFunctorsTrans(s: Server, s1: Server, s2: Server, c: nat)
    requires |s.loops| == |s1.loops| == |s2.loops|
    requires OnlyFunctorsOf(s, s1, c) && OnlyFunctorsOf(s1, s2, c)
    ensures OnlyFunctorsOf(s, s2, c)
  {
    forall l: nat, f: Functor | l < |s.loops| && f.c != c
      ensures Bag(s2.loops[l])[f] == Bag(s.loops[l])[f]
    {
      CountStays(s, s1, c, l, f);
      CountStays(s1, s2, c, l, f);
    }
  }

  lemma EraseStage(k: CS.Conn<nat>, h: Holders)
    requires StageOk(k, h) && h.remove > 0
    ensures StageOk(k, h.(inMap := false, remove := h.remove - 1, destroy := h.destroy + 1))
  {
  }

  // The state between the erase and the post of connectDistroyed.
  function Erased(s: Server, l: nat, c: nat): Server
    requires l < |s.loops| && s.loops[l].queue.batch != []
  {
    Unmapped(Popped(s, l), c)
  }

  lemma ErasedHolders(s: Server, l: nat, f: Functor)
    requires Head(s, l, f) && f.RemoveInLoop?
    ensures var s2 := Erased(s, l, f.c);
            && s2.Usable(f.c) && s2.ViewOf(f.c) == s.ViewOf(f.c) && s2.conns == s.conns
            && HoldersOf(s, f.c).remove > 0
            && HoldersOf(s2, f.c) == HoldersOf(s, f.c).(inMap := false, remove := HoldersOf(s, f.c).remove - 1)
  {
    PopHolders(s, l, f);
    PoppedSameExcept(s, l, f.c);
    UnmapAfter(Popped(s, l), Popped(s, l), f.c);
  }

  lemma EraseSettles(s: Server, l: nat, f: Functor)
    requires Head(s, l, f) && f.RemoveInLoop?
    ensures var s3 := Erased(s, l, f.c).Post(s.conns[f.c].loop, Destroy(f.c));
            Settled(s3, f.c) && s3.conns == s.conns
  {
    ErasedHolders(s, l, f);
    EraseStage(s.conns[f.c].conn, HoldersOf(s, f.c));
    PostHolders(Erased(s, l, f.c), f.c, s.conns[f.c].loop, Destroy(f.c));
    PostView(Erased(s, l, f.c), s.conns[f.c].loop, Destroy(f.c), f.c);
  }

  lemma EraseMoves(s: Server, l: nat, f: Functor)
    requires Head(s, l, f) && FunctorsOk(s) && f.RemoveInLoop?
    ensures var s3 := Erased(s, l, f.c).Post(s.conns[f.c].loop, Destroy(f.c));
            SameExcept(s, s3, f.c) && OnlyFunctorsOf(s, s3, f.c) && SameTurn(s, s3, l)
  {
    var c, s1, s2 := f.c, Popped(s, l), Erased(s, l, f.c);
    PoppedSameExcept(s, l, c);
    UnmapAfter(s1, s1, c);
    PopAfter(s, l, f, s2);
    assert FunctorsOk(s2) by { FunctorsStayOk(s, s2, c); }
    PostAfter(s2, s2, c, s.conns[c].loop, Destroy(c));
    var s3 := s2.Post(s.conns[c].loop, Destroy(c));
    SameExceptTrans(s, s2, s3, c);
    OnlyFunctorsTrans(s, s2, s3, c);
    SameTurnTrans(s, s2, s3, l);
  }

  // removeConnectionInLoop, as the functor at the head.
  lemma RunEraseKeepsInv(s: Server, l: nat, f: Functor)
    requires InvBut(s, f.c) && Head(s, l, f) && PhasesOk(s) && f.RemoveInLoop?
    ensures Inv(Execute(Popped(s, l), f))
  {
    var s3 := Erased(s, l, f.c).Post(s.conns[f.c].loop, Destroy(f.c));
    assert SameExcept(s, s3, f.c) && OnlyFunctorsOf(s, s3, f.c) && SameTurn(s, s3, l) by { EraseMoves(s, l, f); }
    assert Settled(s3, f.c) && s3.conns == s.conns by { EraseSettles(s, l, f); }
    FinishRun(s, s3, l, f);
    assert Execute(Popped(s, l), f) == s3;
  }
}
