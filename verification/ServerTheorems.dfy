// What holds in every reachable state of a server with any number of io loops
// and connections, under every interleaving of the loops.
module ServerTheorems {
  import opened PollerSpec
  import opened BufferSpec
  import CS = ConnectionSpec
  import CR = ConnectionRuns
  import CT = ConnectionTheorems
  import CC = ConnectionCallbacks
  import opened TaskQueue
  import opened ThreadPools
  import opened ConnectionNames
  import opened ServerSpec
  import opened ServerInvariant
  import opened ServerSteps
  import opened ServerRuns
  import opened ServerProjection
  import opened ServerHistories

  // s is reached from a new server with n io loops.
  ghost predicate Reached(s: Server, n: nat, steps: seq<Step>)
  {
    var s0 := NewServer(s.name, s.ipPort, s.notify, n);
    CanRun(s0, steps) && s == Run(s0, steps)
  }

  lemma ReachedInv(s: Server, n: nat, steps: seq<Step>)
    requires Reached(s, n, steps)
    ensures Inv(s)
  {
    NewServerInv(s.name, s.ipPort, s.notify, n);
    RunKeepsInv(NewServer(s.name, s.ipPort, s.notify, n), steps);
  }

  // ---------------------------------------------------------------------
  // Ownership
  // ---------------------------------------------------------------------

  /** A connection whose channel is in some poller is held by connections_ or by a queued
      functor, so its fd is open; every poller entry is that of a live connection of that
      loop with that fd; no code has run on a dead connection; epoll_ctl never failed. */
  lemma OwnershipAcrossLoops(s: Server, n: nat, steps: seq<Step>)
    requires Reached(s, n, steps)
    ensures !s.fault
    ensures forall c :: c in s.conns && s.conns[c].conn.ch.index != New ==> s.Held(c)
    ensures forall l, fd :: 0 <= l < |s.loops| && fd in s.loops[l].poller.channels ==>
              var c := s.loops[l].poller.channels[fd];
              c in s.conns && s.conns[c].loop == l && s.conns[c].conn.ch.fd == fd && s.Held(c)
    ensures forall l: nat :: l < |s.loops| ==> s.loops[l].poller.failures == 0
    ensures forall c, d :: c in s.conns && d in s.conns && c != d ==> s.conns[c].conn.ch.fd != s.conns[d].conn.ch.fd
  {
    ReachedInv(s, n, steps);
    forall c | c in s.conns && s.conns[c].conn.ch.index != New ensures s.Held(c) {
      RegisteredIsHeld(s, c);
    }
    forall l: nat | l < |s.loops| ensures s.loops[l].poller.failures == 0 {
      assert PollerOk(s, l);
    }
    forall l: nat, fd | l < |s.loops| && fd in s.loops[l].poller.channels
      ensures var c := s.loops[l].poller.channels[fd];
              c in s.conns && s.conns[c].loop == l && s.conns[c].conn.ch.fd == fd && s.Held(c)
    {
      EntryIsHeld(s, l, fd);
    }
  }

  lemma RegisteredIsHeld(s: Server, c: nat)
    requires Inv(s) && c in s.conns && s.conns[c].conn.ch.index != New
    ensures s.Held(c)
  {
    assert ConnOk(s, c);
    if !s.Held(c) {
      UnheldIsGone(s, c);
    }
  }

  lemma EntryIsHeld(s: Server, l: nat, fd: int)
    requires Inv(s) && l < |s.loops| && fd in s.loops[l].poller.channels
    ensures var c := s.loops[l].poller.channels[fd];
            c in s.conns && s.conns[c].loop == l && s.conns[c].conn.ch.fd == fd && s.Held(c)
  {
    assert PollerOk(s, l) && EntryOk(s, l, fd);
    var c := s.loops[l].poller.channels[fd];
    assert ConnOk(s, c);
    RegisteredIsHeld(s, c);
  }

  // The entries for fd are gone, those that were there were c's; all else is as it was.
  ghost predicate OnlyRemoved(s: Server, s': Server, l: nat, c: nat, fd: int) {
    && l < |s.loops| == |s'.loops|
    && var p, q := s.loops[l].poller, s'.loops[l].poller;
    && (fd in p.channels ==> p.channels[fd] == c)
    && fd !in q.channels && fd !in q.kernel
    && SameElsewhere(p, q, fd)
    && forall k: nat :: k < |s.loops| && k != l ==> s'.loops[k] == s.loops[k]
  }

  lemma DestroyOnlyRemoves(s: Server, l: nat, f: Functor)
    requires Head(s, l, f) && f.Destroy? && CS.Enabled(s.ViewOf(f.c), CS.EvDestroyed)
    ensures OnlyRemoved(s, Execute(Popped(s, l), f), l, f.c, s.conns[f.c].conn.ch.fd)
  {
    assert Popped(s, l).ViewOf(f.c) == s.ViewOf(f.c);
    var more := CR.DestroyedFacts(s.ViewOf(f.c));
  }

  /** connectDistroyed, the first or a repeated one, erases by fd: the entry it erases, if
      there is one, is its own, and all other entries of all pollers stay. */
  lemma RemovalIsLocal(s: Server, n: nat, steps: seq<Step>, l: nat)
    requires Reached(s, n, steps) && Enabled(s, RunFunctor(l)) && s.loops[l].queue.batch[0].Destroy?
    ensures var c := s.loops[l].queue.batch[0].c;
            && c in s.conns && s.conns[c].loop == l
            && OnlyRemoved(s, Next(s, RunFunctor(l)), l, c, s.conns[c].conn.ch.fd)
  {
    ReachedInv(s, n, steps);
    var f := s.loops[l].queue.batch[0];
    PopMoves(s, l);
    assert FunctorOk(s, l, f);
    InvImpliesInvBut(s, f.c);
    PopHolders(s, l, f);
    DestroyStage(s.ViewOf(f.c), HoldersOf(s, f.c));
    DestroyOnlyRemoves(s, l, f);
  }

  // ---------------------------------------------------------------------
  // Teardown
  // ---------------------------------------------------------------------

  // No queue holds a functor of c.
  ghost predicate Unqueued(s: Server, c: nat) {
    forall l, f: Functor :: 0 <= l < |s.loops| && f in s.loops[l].queue.All() ==> f.c != c
  }

  lemma UnqueuedHolders(s: Server, c: nat)
    requires s.Usable(c) && Unqueued(s, c)
    ensures var h := HoldersOf(s, c); h.establish == 0 && h.remove == 0 && h.destroy == 0
  {
    var l := s.conns[c].loop;
    assert Establish(c) !in s.loops[l].queue.All() && Destroy(c) !in s.loops[l].queue.All();
    assert RemoveInLoop(c) !in s.loops[0].queue.All();
  }

  lemma UnregisteredEverywhere(s: Server, c: nat, l: nat)
    requires l < |s.loops| && PollerOk(s, l) && c in s.conns && FdsDiffer(s)
    requires Agrees(s.loops[l].poller, c, s.conns[c].conn.ch) || l != s.conns[c].loop
    requires s.conns[c].conn.ch.index == New
    ensures s.conns[c].conn.ch.fd !in s.loops[l].poller.channels && s.conns[c].conn.ch.fd !in s.loops[l].poller.kernel
  {
    assert EntryOk(s, l, s.conns[c].conn.ch.fd);
  }

  lemma UnmappedEverywhere(s: Server, c: nat)
    requires NamesOk(s) && c in s.conns && (s.NameOf(c) in s.connections ==> s.connections[s.NameOf(c)] != c)
    ensures forall nm :: nm in s.connections ==> s.connections[nm] != c
  {
  }

  /** However many times handleClose has fired: once no functor of a disconnected connection
      is left in any queue, it is out of connections_, its poller and the kernel's set. */
  lemma TeardownIsComplete(s: Server, n: nat, steps: seq<Step>, c: nat)
    requires Reached(s, n, steps) && c in s.conns && s.conns[c].conn.state == CS.Disconnected
    requires Unqueued(s, c)
    ensures forall nm :: nm in s.connections ==> s.connections[nm] != c
    ensures forall l: nat :: l < |s.loops| ==>
              s.conns[c].conn.ch.fd !in s.loops[l].poller.channels && s.conns[c].conn.ch.fd !in s.loops[l].poller.kernel
    ensures s.conns[c].conn.ch.index == New && Enabled(s, Release(c))
  {
    ReachedInv(s, n, steps);
    LiveConnOk(s, c);
    UnqueuedHolders(s, c);
    UnmappedEverywhere(s, c);
    forall l: nat | l < |s.loops|
      ensures s.conns[c].conn.ch.fd !in s.loops[l].poller.channels && s.conns[c].conn.ch.fd !in s.loops[l].poller.kernel
    {
      UnregisteredEverywhere(s, c, l);
    }
  }

  /** A connection that is not disconnected is in connections_ under its own name; one that
      is disconnected and still registered has its teardown on the way. */
  lemma TeardownIsOnItsWay(s: Server, n: nat, steps: seq<Step>, c: nat)
    requires Reached(s, n, steps) && c in s.conns
    ensures s.Usable(c)
    ensures s.conns[c].conn.state != CS.Disconnected ==>
              s.NameOf(c) in s.connections && s.connections[s.NameOf(c)] == c
    ensures s.conns[c].conn.state == CS.Disconnected && s.conns[c].conn.ch.index != New ==>
              RemoveInLoop(c) in s.loops[0].queue.All() || Destroy(c) in s.loops[s.conns[c].loop].queue.All()
    ensures s.conns[c].conn.state == CS.Connecting <==> Establish(c) in s.loops[s.conns[c].loop].queue.All()
  {
    ReachedInv(s, n, steps);
    assert ConnOk(s, c);
    var l := s.conns[c].loop;
    assert Bag(s.loops[l]) == multiset(s.loops[l].queue.All());
  }

  // ---------------------------------------------------------------------
  // Dispatch stability
  // ---------------------------------------------------------------------

  /** During the event phase of a loop every channel still to be handled is registered with
      that loop and belongs to a connection somebody holds. */
  lemma DispatchIsStable(s: Server, n: nat, steps: seq<Step>, l: nat, i: nat)
    requires Reached(s, n, steps) && l < |s.loops| && s.loops[l].phase.Dispatch?
    requires i < |s.loops[l].phase.active|
    ensures var c := s.loops[l].phase.active[i];
            && c in s.conns && s.conns[c].loop == l && s.Held(c)
            && HasChannel(s.loops[l].poller, c, s.conns[c].conn.ch)
            && s.conns[c].conn.state != CS.Connecting
  {
    ReachedInv(s, n, steps);
    var c := s.loops[l].phase.active[i];
    assert PhaseOk(s, l) && ActiveOk(s, l, c) && ConnOk(s, c);
    RegisteredIsHeld(s, c);
  }

  // ---------------------------------------------------------------------
  // Thread confinement
  // ---------------------------------------------------------------------

  // The loop whose thread does the step; ~TcpConnection may run on any thread.
  function LoopOf(step: Step): int {
    match step
    case Accept(_) => 0
    case Release(_) => NONE
    case PollReturns(l, _) => l
    case Handle(l, _) => l
    case NextActive(l) => l
    case SwapQueue(l) => l
    case RunFunctor(l) => l
    case EndBatch(l) => l
    case User(l, _, _) => l
  }

  // connections_ changes only on loop 0, a poller only on its own loop.
  ghost predicate Confined(s: Server, s': Server, l: int) {
    && |s'.loops| == |s.loops|
    && (s'.connections != s.connections ==> l == 0)
    && (forall k: nat :: k < |s.loops| && k != l ==> s'.loops[k].poller == s.loops[k].poller)
  }

  lemma WithViewConfined(s: Server, c: nat, v: CS.View<nat>)
    requires s.Usable(c)
    ensures Confined(s, s.WithView(c, v), s.conns[c].loop)
    ensures s.WithView(c, v).conns[c].loop == s.conns[c].loop
  {
  }

  lemma EraseConfined(s: Server, c: nat)
    requires s.Usable(c)
    ensures Confined(s, Erase(s, c), 0)
  {
  }

  lemma CloseConfined(s: Server, l: nat, c: nat)
    requires s.Usable(c) && s.conns[c].loop == l
    ensures Confined(s, Close(s, l, c), l)
  {
  }

  lemma ConfinedTrans(s: Server, s1: Server, s2: Server, l: int)
    requires Confined(s, s1, l) && Confined(s1, s2, l)
    ensures Confined(s, s2, l)
  {
  }

  lemma HandleConfined(s: Server, l: nat, e: CS.Event<nat>)
    requires Inv(s) && Enabled(s, Handle(l, e))
    ensures Confined(s, Next(s, Handle(l, e)), l)
  {
    HandledIsLive(s, l, e);
    var c := s.loops[l].phase.active[0];
    HandleStepConfined(s, l, c, e);
    var s1 := s.WithView(c, CS.Step(s.ViewOf(c), e));
    assert Next(s, Handle(l, e)) == if CS.Closes(e) then Close(s1, l, c) else s1;
  }

  // The connection whose callback is due is there, and the callback is a step of it.
  lemma HandledIsLive(s: Server, l: nat, e: CS.Event<nat>)
    requires Inv(s) && Enabled(s, Handle(l, e))
    ensures var c := s.loops[l].phase.active[0];
            && s.Usable(c) && s.conns[c].loop == l && CR.Inv(s.ViewOf(c))
            && CS.Enabled(s.ViewOf(c), e) && OnEvent(s.ViewOf(c), e) == CS.Step(s.ViewOf(c), e)
            && s.WithView(c, CS.Step(s.ViewOf(c), e)).Usable(c)
  {
    var c := s.loops[l].phase.active[0];
    assert ActiveOk(s, l, c) by { assert PhaseOk(s, l); }
    LiveConnOk(s, c);
    OnEventIsStep(s.ViewOf(c), e);
    assert s.WithView(c, CS.Step(s.ViewOf(c), e)).Usable(c) by { Touch(s, c, e); }
  }

  lemma HandleStepConfined(s: Server, l: nat, c: nat, e: CS.Event<nat>)
    requires s.Usable(c) && s.conns[c].loop == l && CS.Enabled(s.ViewOf(c), e)
    requires s.WithView(c, CS.Step(s.ViewOf(c), e)).Usable(c)
    ensures var s1 := s.WithView(c, CS.Step(s.ViewOf(c), e));
            Confined(s, s1, l) && Confined(s, Close(s1, l, c), l)
  {
    var s1 := s.WithView(c, CS.Step(s.ViewOf(c), e));
    WithViewConfined(s, c, CS.Step(s.ViewOf(c), e));
    CloseConfined(s1, l, c);
    ConfinedTrans(s, s1, Close(s1, l, c), l);
  }

  lemma RunFunctorConfined(s: Server, l: nat, f: Functor)
    requires Head(s, l, f)
    ensures Confined(s, Execute(Popped(s, l), f), l)
  {
    var s1 := Popped(s, l);
    assert s1.Usable(f.c);
    match f {
      case Establish(c) => WithViewConfined(s1, c, CS.ConnectEstablished(s1.ViewOf(c)));
      case RemoveInLoop(c) => EraseConfined(s1, c);
      case Destroy(c) => WithViewConfined(s1, c, CS.ConnectDestroyed(s1.ViewOf(c)));
    }
    ConfinedTrans(s, s1, Execute(s1, f), l);
  }

  lemma AcceptConfined(s: Server, fd: int)
    requires Shape(s) && Enabled(s, Accept(fd))
    ensures Confined(s, Next(s, Accept(fd)), 0)
  {
    NextLoopInRange(s);
    var s1, id := Born(s, fd), s.nextId;
    var l := s1.conns[id].loop;
    if l == 0 {
      WithViewConfined(s1, id, CS.ConnectEstablished(s1.ViewOf(id)));
    }
  }

  lemma StepConfined(s: Server, step: Step)
    requires Inv(s) && Enabled(s, step)
    ensures Confined(s, Next(s, step), LoopOf(step))
  {
    match step {
      case Accept(fd) => AcceptConfined(s, fd);
      case Handle(l, e) => HandleConfined(s, l, e);
      case RunFunctor(l) => HeadOf(s, l); RunFunctorConfined(s, l, s.loops[l].queue.batch[0]);
      case User(l, c, e) => WithViewConfined(s, c, OnEvent(s.ViewOf(c), e));
      case Release(c) => LiveConnOk(s, c); ReleaseIsWithout(s, c);
      case _ =>
    }
  }

  // An event of c's own comes from c's loop.
  lemma HandledOnItsLoop(s: Server, l: nat, e: CS.Event<nat>, c: nat)
    requires Enabled(s, Handle(l, e)) && PhaseOk(s, l) && OwnEvents(s, Handle(l, e), c) != []
    ensures l == s.conns[c].loop && CS.EvDestroyed !in OwnEvents(s, Handle(l, e), c)
  {
    assert ActiveOk(s, l, c);
  }

  lemma RunOnItsLoop(s: Server, l: nat, c: nat)
    requires Enabled(s, RunFunctor(l)) && Head(s, l, s.loops[l].queue.batch[0])
    requires OwnEvents(s, RunFunctor(l), c) != []
    ensures l == s.conns[c].loop
  {
  }

  lemma AcceptIsNotOwn(s: Server, fd: int, c: nat)
    requires Inv(s) && Enabled(s, Accept(fd)) && c in s.conns
    ensures OwnEvents(s, Accept(fd), c) == []
  {
    assert c < s.nextId by { LiveConnOk(s, c); }
  }

  lemma OwnEventsAreOnItsLoop(s: Server, step: Step, c: nat)
    requires Inv(s) && Enabled(s, step) && c in s.conns && OwnEvents(s, step, c) != []
    ensures LoopOf(step) == s.conns[c].loop
    ensures CS.EvDestroyed in OwnEvents(s, step, c) ==> step.RunFunctor?
  {
    if step.Handle? {
      assert PhaseOk(s, step.l);
      HandledOnItsLoop(s, step.l, step.e, c);
    } else if step.RunFunctor? {
      HeadOf(s, step.l);
      RunOnItsLoop(s, step.l, c);
    } else if step.Accept? {
      AcceptIsNotOwn(s, step.fd, c);
    }
  }

  /** connections_ changes on the base loop only, a connection (state, channel, buffers) and
      a poller only on their own io loop; ~TcpConnection changes neither. */
  lemma ThreadConfinement(s: Server, n: nat, steps: seq<Step>, step: Step)
    requires Reached(s, n, steps) && Enabled(s, step)
    ensures var s' := Next(s, step);
            && |s'.loops| == |s.loops|
            && (s'.connections != s.connections ==> LoopOf(step) == 0)
            && (forall l: nat :: l < |s.loops| && s'.loops[l].poller != s.loops[l].poller ==> LoopOf(step) == l)
            && (forall c :: c in s.conns && c in s'.conns && s'.conns[c] != s.conns[c] ==>
                  LoopOf(step) == s.conns[c].loop)
  {
    ReachedInv(s, n, steps);
    StepConfined(s, step);
    forall c | c in s.conns && c in Next(s, step).conns && Next(s, step).conns[c] != s.conns[c]
      ensures LoopOf(step) == s.conns[c].loop
    {
      StepProjects(s, step, c);
      if OwnEvents(s, step, c) != [] {
        OwnEventsAreOnItsLoop(s, step, c);
      }
    }
  }

  // ---------------------------------------------------------------------
  // No removal during dispatch
  // ---------------------------------------------------------------------

  lemma StaysRegistered(s: Server, step: Step, c: nat)
    requires Inv(s) && Enabled(s, step) && c in s.conns && s.conns[c].conn.ch.index != New
    requires s.loops[s.conns[c].loop].phase.Dispatch?
    ensures var s' := Next(s, step);
            c in s'.conns && s'.conns[c].conn.ch.index != New && s'.conns[c].conn.ch.fd == s.conns[c].conn.ch.fd &&
            s'.conns[c].loop == s.conns[c].loop
  {
    LiveConnOk(s, c);
    ConnPersists(s, step, c);
    StepProjects(s, step, c);
    if OwnEvents(s, step, c) != [] {
      OwnEventsAreOnItsLoop(s, step, c);
      EventKeepsRegistration(s.ViewOf(c), OwnEvents(s, step, c)[0]);
    }
  }

  lemma ReleaseSpares(s: Server, d: nat, c: nat)
    requires |s.loops| > 0 && Enabled(s, Release(d)) && ConnOk(s, d)
    requires c in s.conns && s.conns[c].conn.ch.index != New
    ensures c in Next(s, Release(d)).conns
  {
    UnheldIsGone(s, d);
    ReleaseFrame(s, d);
  }

  lemma ConnPersists(s: Server, step: Step, c: nat)
    requires Inv(s) && Enabled(s, step) && c in s.conns && s.conns[c].conn.ch.index != New
    ensures c in Next(s, step).conns
  {
    match step {
      case Accept(fd) => AcceptFrame(s, fd);
      case Release(d) => LiveConnOk(s, d); ReleaseSpares(s, d, c);
      case _ => StepFrame(s, step);
    }
  }

  lemma EventKeepsRegistration(v: CS.View<nat>, e: CS.Event<nat>)
    requires CR.Inv(v) && CS.Enabled(v, e) && v.c.ch.index != New && !v.c.destroyed
    requires IsChannelEvent(e) || IsUserEvent(e) || e.EvEstablished?
    ensures CS.Step(v, e).c.ch.index != New && CS.Step(v, e).c.ch.fd == v.c.ch.fd
  {
    var more := CR.StepFacts(v, e);
    EventState(v, e);
  }

  /** While a loop is dispatching, no step of any thread removes or replaces an entry of its
      poller. */
  lemma NoRemovalDuringDispatch(s: Server, n: nat, steps: seq<Step>, step: Step, l: nat, fd: int)
    requires Reached(s, n, steps) && Enabled(s, step)
    requires l < |s.loops| && s.loops[l].phase.Dispatch? && fd in s.loops[l].poller.channels
    ensures var s' := Next(s, step);
            && |s'.loops| == |s.loops|
            && fd in s'.loops[l].poller.channels
            && s'.loops[l].poller.channels[fd] == s.loops[l].poller.channels[fd]
  {
    ReachedInv(s, n, steps);
    var c := s.loops[l].poller.channels[fd];
    EntryIsHeld(s, l, fd);
    LiveConnOk(s, c);
    StaysRegistered(s, step, c);
    NextKeepsInv(s, step);
    StepKeepsConstants(s, step);
    LiveConnOk(Next(s, step), c);
  }

  // ---------------------------------------------------------------------
  // States over time
  // ---------------------------------------------------------------------

  lemma ProjectsForward(v: CS.View<nat>, v': CS.View<nat>, own: seq<CS.Event<nat>>)
    requires CR.Inv(v) && Projects(v, v', own)
    ensures CR.Rank(v.c.state) <= CR.Rank(v'.c.state) && v.c.log <= v'.c.log
  {
    if own != [] && !own[0].EvOthers? {
      var more := CR.StepFacts(v, own[0]);
    }
  }

  lemma StepForward(s: Server, step: Step, c: nat)
    requires Inv(s) && Enabled(s, step) && c in s.conns && c in Next(s, step).conns
    ensures var k, k' := s.conns[c].conn, Next(s, step).conns[c].conn;
            CR.Rank(k.state) <= CR.Rank(k'.state) && k.log <= k'.log
  {
    StepProjects(s, step, c);
    LiveConnOk(s, c);
    ProjectsForward(s.ViewOf(c), Next(s, step).ViewOf(c), OwnEvents(s, step, c));
  }

  lemma {:induction false} StatesMoveForwardFrom(s: Server, steps: seq<Step>, c: nat)
    requires Inv(s) && CanRun(s, steps) && c in s.conns && c in Run(s, steps).conns
    ensures var k, k' := s.conns[c].conn, Run(s, steps).conns[c].conn;
            CR.Rank(k.state) <= CR.Rank(k'.state) && k.log <= k'.log
    decreases |steps|
  {
    if steps != [] {
      var s' := Next(s, steps[0]);
      NextKeepsInv(s, steps[0]);
      NextIdGrows(s, steps[0]);
      LiveConnOk(s, c);
      if c !in s'.conns {
        GoneStaysGone(s', steps[1..], c);
        assert false;
      }
      StepForward(s, steps[0], c);
      StatesMoveForwardFrom(s', steps[1..], c);
    }
  }

  /** Between any two moments of a run at which a connection exists its state has only moved
      forward and its log has only grown. */
  lemma StatesMoveForward(s: Server, n: nat, steps: seq<Step>, more: seq<Step>, c: nat)
    requires Reached(s, n, steps) && CanRun(s, more) && c in s.conns && c in Run(s, more).conns
    ensures var k, k' := s.conns[c].conn, Run(s, more).conns[c].conn;
            CR.Rank(k.state) <= CR.Rank(k'.state) && k.log <= k'.log
  {
    ReachedInv(s, n, steps);
    StatesMoveForwardFrom(s, more, c);
  }

  /** connectEstablished is the first thing a connection does, and is done once. */
  lemma EstablishedFirstAndOnce(s: Server, n: nat, steps: seq<Step>, c: nat)
    requires Reached(s, n, steps) && c in s.conns
    ensures var k := s.conns[c].conn;
            && (k.state == CS.Connecting <==> k.log == [])
            && (k.log != [] ==> k.log[0] == CS.ConnUp)
            && (forall i :: 0 < i < |k.log| ==> k.log[i] != CS.ConnUp)
  {
    ReachedInv(s, n, steps);
    LiveConnOk(s, c);
  }

  // ---------------------------------------------------------------------
  // The output of every connection
  // ---------------------------------------------------------------------

  /** Every connection of every server run is a run of ConnectionSpec on its loop's thread,
      made of the events that the server's steps were for it. The kernel and the buffer have
      the payloads of the application's own undropped sends, in order; the rest is scheduled
      for writing; and the half-close is graceful. */
  lemma EveryConnectionIsARun(s: Server, n: nat, steps: seq<Step>, c: nat)
    requires Reached(s, n, steps) && c in s.conns
    ensures s.Usable(c)
    ensures HasHistory(s.ViewOf(c), s.notify, EventsOf(NewServer(s.name, s.ipPort, s.notify, n), steps, c))
    ensures CR.Wire(s.conns[c].conn.log) + s.conns[c].conn.output.data ==
            Sent(NewServer(s.name, s.ipPort, s.notify, n), steps, c)
    ensures var k := s.conns[c].conn;
            && CR.HalfCloseClean(k.log) && (CR.HalfClosed(k.log) ==> k.output.data == [])
            && (k.state != CS.Connecting && !k.destroyed ==>
                  k.ch.fd in s.ViewOf(c).p.kernel &&
                  (k.output.data != [] <==> EPOLLOUT in s.ViewOf(c).p.kernel[k.ch.fd]))
  {
    ReachedHistory(s, n, steps, c);
    ReachedOutput(s, n, steps, c);
    HistoryHalfCloses(s.ViewOf(c), s.notify, EventsOf(NewServer(s.name, s.ipPort, s.notify, n), steps, c));
    assert CR.Inv(s.ViewOf(c)) by {
      ReachedInv(s, n, steps);
      LiveConnOk(s, c);
    }
  }

  lemma ReachedOutput(s: Server, n: nat, steps: seq<Step>, c: nat)
    requires Reached(s, n, steps) && c in s.conns
    ensures Output(s.conns[c].conn) == Sent(NewServer(s.name, s.ipPort, s.notify, n), steps, c)
  {
    var s0 := NewServer(s.name, s.ipPort, s.notify, n);
    NewServerInv(s.name, s.ipPort, s.notify, n);
    RunConserves(s0, steps, c);
    assert [] + Sent(s0, steps, c) == Sent(s0, steps, c);
  }

  lemma ReachedHistory(s: Server, n: nat, steps: seq<Step>, c: nat)
    requires Reached(s, n, steps) && c in s.conns
    ensures s.Usable(c)
    ensures HasHistory(s.ViewOf(c), s.notify, EventsOf(NewServer(s.name, s.ipPort, s.notify, n), steps, c))
  {
    var s0 := NewServer(s.name, s.ipPort, s.notify, n);
    NewServerInv(s.name, s.ipPort, s.notify, n);
    RunKeepsHistory(s0, steps, c, []);
    assert [] + EventsOf(s0, steps, c) == EventsOf(s0, steps, c);
  }

  lemma HistoryHalfCloses(v: CS.View<nat>, notify: bool, own: seq<CS.Event<nat>>)
    requires HasHistory(v, notify, own)
    ensures CR.HalfCloseClean(v.c.log) && (CR.HalfClosed(v.c.log) ==> v.c.output.data == [])
  {
    var p, es :| IsRunOf(v, notify, p, es) && OwnOnly(es) == own;
    CT.GracefulHalfClose(v.c.self, v.c.ch.fd, CS.HIGH_WATER_MARK, notify, p, es);
  }

  // ---------------------------------------------------------------------
  // Callbacks
  // ---------------------------------------------------------------------

  lemma HistoryTells(v: CS.View<nat>, notify: bool, own: seq<CS.Event<nat>>)
    requires HasHistory(v, notify, own)
    ensures CC.ToldExactly(v.c)
    ensures v.c.state == CS.Disconnecting && v.c.output.data == [] && !CC.OnItsWay(v.c) ==> CR.HalfClosed(v.c.log)
  {
    var p, es :| IsRunOf(v, notify, p, es) && OwnOnly(es) == own;
    var start := CS.View(CS.NewConn(v.c.self, v.c.ch.fd, CS.HIGH_WATER_MARK, notify), p);
    CC.ShutdownIsHonoured(v.c.self, v.c.ch.fd, CS.HIGH_WATER_MARK, notify, p, es);
    CT.LoopThreadIsNeverLate(start, es);
    CC.ToldExactlyUnlessOvertaken(v.c.self, v.c.ch.fd, CS.HIGH_WATER_MARK, notify, p, es);
    CT.AfterAll(start, es);
  }

  /** Of every connection: it is disconnected exactly when the application has been told, and
      a shutdown whose bytes are all gone has half-closed. */
  lemma ShutdownsAreHonoured(s: Server, n: nat, steps: seq<Step>, c: nat)
    requires Reached(s, n, steps) && c in s.conns
    ensures var k := s.conns[c].conn;
            && (k.state == CS.Disconnected <==> CS.ConnDown in k.log)
            && (k.state == CS.Disconnecting && k.output.data == [] ==> CR.HalfClosed(k.log))
  {
    ReachedHistory(s, n, steps, c);
    HistoryTells(s.ViewOf(c), s.notify, EventsOf(NewServer(s.name, s.ipPort, s.notify, n), steps, c));
    assert !CC.OnItsWay(s.conns[c].conn) by {
      ReachedInv(s, n, steps);
      LiveConnOk(s, c);
    }
  }

  /** TcpServer::removeConnection runs in a callback step exactly when that callback has just
      called the close callback, right after telling the application. */
  lemma RemovalFollowsTheCallback(s: Server, n: nat, steps: seq<Step>, l: nat, e: CS.Event<nat>)
      returns (more: seq<CS.Action>)
    requires Reached(s, n, steps) && Enabled(s, Handle(l, e))
    ensures var c := s.loops[l].phase.active[0];
            && s.Usable(c)
            && var s1 := s.WithView(c, OnEvent(s.ViewOf(c), e));
            && s1.Usable(c) && s1.conns[c].conn.log == s.conns[c].conn.log + more
            && (CS.CloseCallback in more ==>
                  more == [CS.ConnDown, CS.CloseCallback] && Next(s, Handle(l, e)) == RemoveConnection(s1, l, c))
            && (CS.CloseCallback !in more ==> Next(s, Handle(l, e)) == s1)
  {
    ReachedInv(s, n, steps);
    var c := s.loops[l].phase.active[0];
    HandledIsLive(s, l, e);
    more := CC.EventCallbacks(s.ViewOf(c), e);
  }
}
