// The remaining steps of ServerSpec (turns of a loop, accept, release), and
// the invariant over whole runs.
module ServerRuns {
  import opened PollerSpec
  import opened BufferSpec
  import CS = ConnectionSpec
  import CR = ConnectionRuns
  import opened TaskQueue
  import opened ThreadPools
  import opened ConnectionNames
  import opened ServerSpec
  import opened ServerInvariant
  import opened ServerSteps

  // ---------------------------------------------------------------------
  // Turns of a loop: poll, next channel, swap, end of the batch
  // ---------------------------------------------------------------------

  // s' is s, but for the phase of loop l and how its queue is split.
  ghost predicate Turned(s: Server, s': Server, l: nat) {
    && l < |s.loops|
    && |s'.loops| == |s.loops|
    && s' == s.(loops := s.loops[l := s'.loops[l]])
    && s'.loops[l].poller == s.loops[l].poller
    && Bag(s'.loops[l]) == Bag(s.loops[l])
  }

  lemma TurnedLoop(s: Server, s': Server, l: nat, k: nat)
    requires Turned(s, s', l) && k < |s.loops|
    ensures s'.loops[k].poller == s.loops[k].poller && Bag(s'.loops[k]) == Bag(s.loops[k])
    ensures k != l ==> s'.loops[k] == s.loops[k]
  {
  }

  lemma TurnedConnOk(s: Server, s': Server, l: nat, c: nat)
    requires |s.loops| > 0 && Turned(s, s', l) && c in s.conns && ConnOk(s, c)
    ensures ConnOk(s', c)
  {
    TurnedLoop(s, s', l, s.conns[c].loop);
    TurnedLoop(s, s', l, 0);
    assert HoldersOf(s', c) == HoldersOf(s, c);
    assert s'.ViewOf(c) == s.ViewOf(c);
  }

  lemma TurnedFunctorsOk(s: Server, s': Server, l: nat)
    requires Turned(s, s', l) && FunctorsOk(s)
    ensures FunctorsOk(s')
  {
    forall k: nat, f: Functor | k < |s'.loops| && f in Bag(s'.loops[k]) ensures FunctorOk(s', k, f) {
      TurnedLoop(s, s', l, k);
      assert FunctorOk(s, k, f);
    }
  }

  lemma TurnedPollersOk(s: Server, s': Server, l: nat)
    requires Turned(s, s', l) && PollersOk(s)
    ensures PollersOk(s')
  {
    forall k: nat | k < |s'.loops| ensures PollerOk(s', k) {
      TurnedLoop(s, s', l, k);
      assert PollerOk(s, k);
      forall fd ensures EntryOk(s', k, fd) { assert EntryOk(s, k, fd); }
    }
  }

  lemma TurnedPhasesOk(s: Server, s': Server, l: nat)
    requires Turned(s, s', l) && PhasesOk(s) && PhaseOk(s', l)
    ensures PhasesOk(s')
  {
    forall k: nat | k < |s'.loops| ensures PhaseOk(s', k) {
      if k != l {
        TurnedLoop(s, s', l, k);
        PhaseFrame(s, s', k);
      }
    }
  }

  lemma PhaseFrame(s: Server, s': Server, k: nat)
    requires k < |s.loops| == |s'.loops| && PhaseOk(s, k)
    requires s'.conns == s.conns && s'.loops[k].phase == s.loops[k].phase
    requires s'.loops[k].queue == s.loops[k].queue
    ensures PhaseOk(s', k)
  {
    if s.loops[k].phase.Dispatch? {
      forall i | 0 <= i < |s.loops[k].phase.active|
        ensures ActiveOk(s', k, s.loops[k].phase.active[i])
      {
        assert ActiveOk(s, k, s.loops[k].phase.active[i]);
      }
    }
  }

  lemma TurnKeepsInv(s: Server, s': Server, l: nat)
    requires Inv(s) && Turned(s, s', l) && PhaseOk(s', l)
    ensures Inv(s')
  {
    assert ConnsOk(s') by {
      forall c | c in s'.conns ensures ConnOk(s', c) {
        TurnedConnOk(s, s', l, c);
      }
    }
    assert FunctorsOk(s') by { TurnedFunctorsOk(s, s', l); }
    assert PollersOk(s') by { TurnedPollersOk(s, s', l); }
    assert PhasesOk(s') by { TurnedPhasesOk(s, s', l); }
    assert NamesOk(s') && FdsDiffer(s') by { TurnedNamesAndFds(s, s', l); }
  }

  lemma TurnedNamesAndFds(s: Server, s': Server, l: nat)
    requires Turned(s, s', l) && NamesOk(s) && FdsDiffer(s)
    ensures NamesOk(s') && FdsDiffer(s')
  {
  }

  // What epoll_wait can report: channels of live, established, not destroyed connections.
  lemma ReportedIsActive(s: Server, l: nat, fd: int)
    requires |s.loops| > 0 && l < |s.loops| && PollerOk(s, l) && ConnsOk(s)
    requires fd in s.loops[l].poller.kernel && fd in s.loops[l].poller.channels
    ensures ActiveOk(s, l, s.loops[l].poller.channels[fd])
  {
    assert EntryOk(s, l, fd);
    var c := s.loops[l].poller.channels[fd];
    assert ConnOk(s, c);
  }

  lemma PollPhaseOk(s: Server, l: nat, active: seq<nat>)
    requires |s.loops| > 0 && l < |s.loops| && PollerOk(s, l) && ConnsOk(s) && PhaseOk(s, l)
    requires Enabled(s, PollReturns(l, active))
    ensures PhaseOk(s.WithPhase(l, Dispatch(active)), l)
  {
    var s' := s.WithPhase(l, Dispatch(active));
    forall i | 0 <= i < |active| ensures ActiveOk(s', l, active[i]) {
      var p := s.loops[l].poller;
      assert CanReport(p, active[i]);
      var fd :| fd in p.kernel && fd in p.channels && p.channels[fd] == active[i];
      ReportedIsActive(s, l, fd);
    }
  }

  lemma TurnStepKeepsInv(s: Server, step: Step)
    requires Inv(s) && Enabled(s, step)
    requires step.PollReturns? || step.NextActive? || step.SwapQueue? || step.EndBatch?
    ensures Inv(Next(s, step))
  {
    var l, s' := step.l, Next(s, step);
    assert PhaseOk(s, l) && PollerOk(s, l) && ConnsOk(s);
    if step.PollReturns? {
      PollPhaseOk(s, l, step.active);
    } else if step.NextActive? {
      NextPhaseOk(s, l);
    } else if step.SwapQueue? {
      SwapBag(s.loops[l]);
    }
    TurnKeepsInv(s, s', l);
  }

  lemma NextPhaseOk(s: Server, l: nat)
    requires l < |s.loops| && PhaseOk(s, l) && Enabled(s, NextActive(l))
    ensures PhaseOk(s.WithPhase(l, Dispatch(s.loops[l].phase.active[1..])), l)
  {
    var active := s.loops[l].phase.active;
    var s' := s.WithPhase(l, Dispatch(active[1..]));
    forall i | 0 <= i < |active[1..]| ensures ActiveOk(s', l, active[1..][i]) {
      assert ActiveOk(s, l, active[i + 1]);
    }
  }

  // ---------------------------------------------------------------------
  // Handlers, application calls, functors
  // ---------------------------------------------------------------------

  lemma OnEventIsStep(v: CS.View<nat>, e: CS.Event<nat>)
    requires v.c.Valid() && KernelAllows(v.c, e)
    requires IsUserEvent(e) || (IsChannelEvent(e) && v.c.state != CS.Connecting && !v.c.destroyed)
    ensures CS.Enabled(v, e) && OnEvent(v, e) == CS.Step(v, e)
  {
  }

  lemma HandleKeepsInv(s: Server, l: nat, e: CS.Event<nat>)
    requires Inv(s) && Enabled(s, Handle(l, e))
    ensures Inv(Next(s, Handle(l, e)))
  {
    var c := s.loops[l].phase.active[0];
    assert PhaseOk(s, l) && PhasesOk(s) && ActiveOk(s, l, c);
    InvImpliesInvBut(s, c);
    OnEventIsStep(s.ViewOf(c), e);
    if CS.Closes(e) {
      CloseKeepsInv(s, c, e);
    } else {
      QuietEventKeepsInv(s, c, e);
    }
  }

  lemma UserKeepsInv(s: Server, l: nat, c: nat, e: CS.Event<nat>)
    requires Inv(s) && Enabled(s, User(l, c, e))
    ensures Inv(Next(s, User(l, c, e)))
  {
    assert PhasesOk(s);
    InvImpliesInvBut(s, c);
    OnEventIsStep(s.ViewOf(c), e);
    QuietEventKeepsInv(s, c, e);
  }

  lemma RunFunctorKeepsInv(s: Server, l: nat)
    requires Inv(s) && Enabled(s, RunFunctor(l))
    ensures Inv(Next(s, RunFunctor(l)))
  {
    var f := s.loops[l].queue.batch[0];
    PopMoves(s, l);
    assert PhasesOk(s) && FunctorOk(s, l, f);
    InvImpliesInvBut(s, f.c);
    assert Head(s, l, f);
    if f.RemoveInLoop? {
      RunEraseKeepsInv(s, l, f);
    } else {
      RunOnIoKeepsInv(s, l, f);
    }
  }

  // ---------------------------------------------------------------------
  // newConnection
  // ---------------------------------------------------------------------

  // The new connection in conns and connections_, connectEstablished not yet run or posted.
  function Born(s: Server, fd: int): Server
    requires s.pool.Valid()
  {
    var (l, pool) := NextLoop(s.pool);
    var id := s.nextId;
    s.(pool := pool, nextId := id + 1,
       conns := s.conns[id := Live(l, CS.NewConn(id, fd, CS.HIGH_WATER_MARK, s.notify))],
       connections := s.connections[s.NameOf(id) := id])
  }

  lemma NextLoopInRange(s: Server)
    requires Shape(s)
    ensures NextLoop(s.pool).0 < |s.loops|
    ensures NextLoop(s.pool).0 == 0 <==> |s.loops| == 1
  {
  }

  // newConnection, from the new connection in place to runInLoop.
  lemma AcceptIs(s: Server, fd: int)
    requires Shape(s) && Enabled(s, Accept(fd))
    ensures var s1, l := Born(s, fd), NextLoop(s.pool).0;
            && l < |s.loops|
            && Next(s, Accept(fd)) ==
               if l == 0 then Execute(s1, Establish(s.nextId)) else s1.Post(l, Establish(s.nextId))
  {
    NextLoopInRange(s);
  }

  lemma FreshId(s: Server)
    requires |s.loops| > 0 && ConnsOk(s) && FunctorsOk(s) && NamesOk(s) && Fits(s.ipPort, s.nextId)
    ensures s.nextId !in s.conns && s.NameOf(s.nextId) !in s.connections
    ensures forall l: nat, f: Functor :: l < |s.loops| && f in Bag(s.loops[l]) ==> f.c != s.nextId
  {
    var id := s.nextId;
    assert id in s.conns ==> ConnOk(s, id);
    if s.NameOf(id) in s.connections {
      var d := s.connections[s.NameOf(id)];
      assert ConnOk(s, d);
      NamesDiffer(s, id, d);
    }
    forall l: nat, f: Functor | l < |s.loops| && f in Bag(s.loops[l]) ensures f.c != id {
      assert FunctorOk(s, l, f);
    }
  }

  // No poller knows an fd that no live connection has.
  lemma FreshFd(s: Server, l: nat, fd: int)
    requires l < |s.loops| && PollerOk(s, l)
    requires forall c :: c in s.conns ==> s.conns[c].conn.ch.fd != fd
    ensures fd !in s.loops[l].poller.channels && fd !in s.loops[l].poller.kernel
  {
    assert EntryOk(s, l, fd);
  }

  lemma BornOthersOk(s: Server, fd: int, d: nat)
    requires Shape(s) && d in s.conns && ConnOk(s, d) && Fits(s.ipPort, s.nextId) && s.nextId !in s.conns
    ensures ConnOk(Born(s, fd), d)
  {
    var s1 := Born(s, fd);
    NamesDiffer(s, s.nextId, d);
    assert HoldersOf(s1, d) == HoldersOf(s, d);
    assert s1.ViewOf(d) == s.ViewOf(d);
  }

  lemma BornPollersOk(s: Server, fd: int, l: nat)
    requires s.pool.Valid() && l < |s.loops| && PollerOk(s, l) && s.nextId !in s.conns
    ensures PollerOk(Born(s, fd), l)
  {
    forall f ensures EntryOk(Born(s, fd), l, f) {
      assert EntryOk(s, l, f);
    }
  }

  lemma BornFunctorsOk(s: Server, fd: int)
    requires s.pool.Valid() && FunctorsOk(s) && s.nextId !in s.conns
    ensures FunctorsOk(Born(s, fd))
  {
    var s1 := Born(s, fd);
    forall l: nat, f: Functor | l < |s1.loops| && f in Bag(s1.loops[l]) ensures FunctorOk(s1, l, f) {
      assert FunctorOk(s, l, f);
    }
  }

  lemma BornPhasesOk(s: Server, fd: int)
    requires s.pool.Valid() && PhasesOk(s) && s.nextId !in s.conns
    ensures PhasesOk(Born(s, fd))
  {
    var s1 := Born(s, fd);
    forall l: nat | l < |s1.loops| ensures PhaseOk(s1, l) {
      assert PhaseOk(s, l);
      if s1.loops[l].phase.Dispatch? {
        forall i | 0 <= i < |s1.loops[l].phase.active|
          ensures ActiveOk(s1, l, s1.loops[l].phase.active[i])
        {
          assert ActiveOk(s, l, s.loops[l].phase.active[i]);
        }
      }
    }
  }

  lemma BornAllPollersOk(s: Server, fd: int)
    requires s.pool.Valid() && s.nextId !in s.conns && PollersOk(s)
    ensures PollersOk(Born(s, fd))
  {
    forall l: nat | l < |s.loops| ensures PollerOk(Born(s, fd), l) {
      BornPollersOk(s, fd, l);
    }
  }

  lemma BornNamesAndFds(s: Server, fd: int)
    requires s.pool.Valid() && NamesOk(s) && FdsDiffer(s) && s.nextId !in s.conns
    requires forall c :: c in s.conns ==> s.conns[c].conn.ch.fd != fd
    ensures NamesOk(Born(s, fd)) && FdsDiffer(Born(s, fd))
  {
  }

  // The newborn itself: unregistered, in connections_, and no functor knows it yet.
  lemma Newborn(s: Server, fd: int)
    requires Shape(s) && FunctorsOk(s) && s.nextId !in s.conns
    requires PollersOk(s)
    requires forall c :: c in s.conns ==> s.conns[c].conn.ch.fd != fd
    requires forall l: nat, f: Functor :: l < |s.loops| && f in Bag(s.loops[l]) ==> f.c != s.nextId
    ensures var s1, id := Born(s, fd), s.nextId;
            && s1.Usable(id) && CR.Inv(s1.ViewOf(id))
            && HoldersOf(s1, id) == Holders(true, 0, 0, 0)
  {
    var s1, id := Born(s, fd), s.nextId;
    NextLoopInRange(s);
    var l := s1.conns[id].loop;
    FreshFd(s, l, fd);
    CR.NewConnInv(id, fd, CS.HIGH_WATER_MARK, s.notify, s.loops[l].poller);
    assert Establish(id) !in Bag(s.loops[l]) && Destroy(id) !in Bag(s.loops[l]) && RemoveInLoop(id) !in Bag(s.loops[0]);
  }

  lemma BornConnsOk(s: Server, fd: int)
    requires Shape(s) && ConnsOk(s) && Fits(s.ipPort, s.nextId) && s.nextId !in s.conns
    ensures OthersOk(Born(s, fd), s.nextId)
  {
    forall d | d in Born(s, fd).conns && d != s.nextId ensures ConnOk(Born(s, fd), d) {
      BornOthersOk(s, fd, d);
    }
  }

  lemma BornShape(s: Server, fd: int)
    requires Shape(s)
    ensures Shape(Born(s, fd))
  {
  }

  lemma BornNumbered(s: Server, fd: int)
    requires Shape(s) && Fits(s.ipPort, s.nextId)
    ensures Numbered(Born(s, fd), s.nextId)
  {
    NextLoopInRange(s);
  }

  lemma BornInvBut(s: Server, fd: int)
    requires Shape(s) && ConnsOk(s) && FunctorsOk(s) && NamesOk(s) && FdsDiffer(s)
    requires PollersOk(s)
    requires forall c :: c in s.conns ==> s.conns[c].conn.ch.fd != fd
    requires Fits(s.ipPort, s.nextId) && s.nextId !in s.conns
    ensures InvBut(Born(s, fd), s.nextId)
  {
    var s1 := Born(s, fd);
    assert Shape(s1) by { BornShape(s, fd); }
    assert Numbered(s1, s.nextId) by { BornNumbered(s, fd); }
    assert OthersOk(s1, s.nextId) by { BornConnsOk(s, fd); }
    assert FunctorsOk(s1) by { BornFunctorsOk(s, fd); }
    assert PollersOk(s1) by { BornAllPollersOk(s, fd); }
    assert NamesOk(s1) && FdsDiffer(s1) by { BornNamesAndFds(s, fd); }
  }

  lemma BornIsAlmostGood(s: Server, fd: int)
    requires Inv(s) && Enabled(s, Accept(fd))
    ensures var s1 := Born(s, fd);
            InvBut(s1, s.nextId) && PhasesOk(s1) && CR.Inv(s1.ViewOf(s.nextId))
            && HoldersOf(s1, s.nextId) == Holders(true, 0, 0, 0)
  {
    assert s.nextId !in s.conns by { FreshId(s); }
    var s1 := Born(s, fd);
    assert s1.Usable(s.nextId) && CR.Inv(s1.ViewOf(s.nextId)) && HoldersOf(s1, s.nextId) == Holders(true, 0, 0, 0) by {
      FreshId(s);
      Newborn(s, fd);
    }
    assert PhasesOk(s1) by { BornPhasesOk(s, fd); }
    BornInvBut(s, fd);
  }

  lemma PostedSettles(s1: Server, id: nat)
    requires |s1.loops| > 0 && s1.Usable(id) && CR.Inv(s1.ViewOf(id))
    requires HoldersOf(s1, id) == Holders(true, 0, 0, 0)
    requires s1.conns[id].conn.state == CS.Connecting && s1.conns[id].conn.foreign == CS.NOTHING_FOREIGN
    requires !s1.conns[id].conn.destroyed
    ensures Settled(s1.Post(s1.conns[id].loop, Establish(id)), id)
  {
    var l := s1.conns[id].loop;
    PostView(s1, l, Establish(id), id);
    PostHolders(s1, id, l, Establish(id));
  }

  lemma SameAsItself(s: Server, c: nat)
    requires s.Usable(c)
    ensures SameExcept(s, s, c) && SameQueues(s, s)
  {
    assert s.conns == s.conns[c := s.conns[c]];
  }

  lemma PostedChanges(s1: Server, id: nat)
    requires s1.Usable(id) && FunctorsOk(s1) && PhasesOk(s1)
    ensures var s2 := s1.Post(s1.conns[id].loop, Establish(id));
            SameExcept(s1, s2, id) && OnlyFunctorsOf(s1, s2, id) && PhasesOk(s2)
  {
    var l := s1.conns[id].loop;
    SameAsItself(s1, id);
    PostAfter(s1, s1, id, l, Establish(id));
    PhasesStayOk(s1, s1.Post(l, Establish(id)), id);
  }

  // On an io loop: connectEstablished is posted.
  lemma AcceptOnIoKeepsInv(s1: Server, id: nat)
    requires InvBut(s1, id) && PhasesOk(s1) && CR.Inv(s1.ViewOf(id))
    requires HoldersOf(s1, id) == Holders(true, 0, 0, 0)
    requires s1.conns[id].conn.state == CS.Connecting && s1.conns[id].conn.foreign == CS.NOTHING_FOREIGN
    requires !s1.conns[id].conn.destroyed
    ensures Inv(s1.Post(s1.conns[id].loop, Establish(id)))
  {
    var l := s1.conns[id].loop;
    var s2 := s1.Post(l, Establish(id));
    assert Settled(s2, id) by { PostedSettles(s1, id); }
    assert SameExcept(s1, s2, id) && OnlyFunctorsOf(s1, s2, id) && PhasesOk(s2) by { PostedChanges(s1, id); }
    ChangeKeepsInv(s1, s2, id);
  }

  // On the base loop itself (no io loops): connectEstablished runs at once.
  lemma AcceptOnBaseKeepsInv(s1: Server, id: nat)
    requires InvBut(s1, id) && PhasesOk(s1) && CR.Inv(s1.ViewOf(id))
    requires HoldersOf(s1, id) == Holders(true, 0, 0, 0)
    requires s1.conns[id].conn.state == CS.Connecting && s1.conns[id].conn.foreign == CS.NOTHING_FOREIGN
    requires !s1.conns[id].conn.destroyed
    ensures Inv(Execute(s1, Establish(id)))
  {
    var v := s1.ViewOf(id);
    var s2 := s1.WithView(id, CS.Step(v, CS.EvEstablished));
    Touch(s1, id, CS.EvEstablished);
    EventState(v, CS.EvEstablished);
    SameQueuesSameHolders(s1, s2, id);
    SameQueuesOnlyFunctors(s1, s2, id);
    PhasesStayOk(s1, s2, id);
    ChangeKeepsInv(s1, s2, id);
  }

  lemma AcceptKeepsInv(s: Server, fd: int)
    requires Inv(s) && Enabled(s, Accept(fd))
    ensures Inv(Next(s, Accept(fd)))
  {
    var s1 := Born(s, fd);
    BornIsAlmostGood(s, fd);
    NextLoopInRange(s);
    if s1.conns[s.nextId].loop == 0 {
      AcceptOnBaseKeepsInv(s1, s.nextId);
    } else {
      AcceptOnIoKeepsInv(s1, s.nextId);
    }
  }

  // ---------------------------------------------------------------------
  // ~TcpConnection
  // ---------------------------------------------------------------------

  lemma UnheldIsUnqueued(s: Server, l: nat, f: Functor)
    requires l < |s.loops| && !s.Held(f.c)
    ensures Bag(s.loops[l])[f] == 0
  {
    assert f !in s.loops[l].queue.All();
  }

  /** A connection nobody holds has been through connectDistroyed: it is in no poller. */
  lemma UnheldIsGone(s: Server, c: nat)
    requires |s.loops| > 0 && c in s.conns && ConnOk(s, c) && !s.Held(c)
    ensures s.conns[c].conn.destroyed && s.conns[c].conn.ch.index == New
    ensures s.conns[c].conn.ch.fd !in s.ViewOf(c).p.channels && s.conns[c].conn.ch.fd !in s.ViewOf(c).p.kernel
    ensures HoldersOf(s, c) == Holders(false, 0, 0, 0)
  {
    var l := s.conns[c].loop;
    UnheldIsUnqueued(s, l, Establish(c));
    UnheldIsUnqueued(s, l, Destroy(c));
    UnheldIsUnqueued(s, 0, RemoveInLoop(c));
  }

  function Without(s: Server, c: nat): Server {
    s.(conns := s.conns - {c})
  }

  lemma ReleaseIsWithout(s: Server, c: nat)
    requires |s.loops| > 0 && Enabled(s, Release(c)) && ConnOk(s, c)
    ensures Next(s, Release(c)) == Without(s, c)
  {
    UnheldIsGone(s, c);
    var l := s.conns[c].loop;
    var p := s.loops[l].poller;
    assert p.kernel - {s.conns[c].conn.ch.fd} == p.kernel;
    assert s.loops[l].(poller := p) == s.loops[l];
    assert s.loops[l := s.loops[l]] == s.loops;
  }

  lemma WithoutConnOk(s: Server, c: nat, d: nat)
    requires |s.loops| > 0 && d in s.conns && d != c && ConnOk(s, d)
    ensures ConnOk(Without(s, c), d)
  {
    var s' := Without(s, c);
    assert HoldersOf(s', d) == HoldersOf(s, d);
    assert s'.ViewOf(d) == s.ViewOf(d);
  }

  lemma WithoutPollerOk(s: Server, c: nat, l: nat)
    requires |s.loops| > 0 && c in s.conns && ConnOk(s, c) && !s.Held(c) && l < |s.loops| && PollerOk(s, l)
    ensures PollerOk(Without(s, c), l)
  {
    UnheldIsGone(s, c);
    forall fd ensures EntryOk(Without(s, c), l, fd) {
      assert EntryOk(s, l, fd);
    }
  }

  lemma WithoutQueuesOk(s: Server, c: nat)
    requires FunctorsOk(s) && NamesOk(s) && !s.Held(c)
    ensures FunctorsOk(Without(s, c)) && NamesOk(Without(s, c))
  {
    var s' := Without(s, c);
    forall l: nat, f: Functor | l < |s'.loops| && f in Bag(s'.loops[l]) ensures FunctorOk(s', l, f) {
      assert FunctorOk(s, l, f);
      assert f in s.loops[l].queue.All();
    }
  }

  lemma WithoutPhaseOk(s: Server, c: nat, l: nat)
    requires l < |s.loops| && PhaseOk(s, l) && c in s.conns && s.conns[c].conn.destroyed
    ensures PhaseOk(Without(s, c), l)
  {
    if s.loops[l].phase.Dispatch? {
      forall i | 0 <= i < |s.loops[l].phase.active|
        ensures ActiveOk(Without(s, c), l, s.loops[l].phase.active[i])
      {
        assert ActiveOk(s, l, s.loops[l].phase.active[i]);
      }
    }
  }

  lemma WithoutConnsOk(s: Server, c: nat)
    requires |s.loops| > 0 && ConnsOk(s)
    ensures ConnsOk(Without(s, c))
  {
    forall d | d in Without(s, c).conns ensures ConnOk(Without(s, c), d) { WithoutConnOk(s, c, d); }
  }

  lemma WithoutLoopsOk(s: Server, c: nat)
    requires |s.loops| > 0 && c in s.conns && ConnOk(s, c) && !s.Held(c)
    requires PollersOk(s) && PhasesOk(s)
    ensures PollersOk(Without(s, c)) && PhasesOk(Without(s, c))
  {
    UnheldIsGone(s, c);
    forall l: nat | l < |s.loops| ensures PollerOk(Without(s, c), l) && PhaseOk(Without(s, c), l) {
      WithoutPollerOk(s, c, l);
      WithoutPhaseOk(s, c, l);
    }
  }

  lemma WithoutFdsDiffer(s: Server, c: nat)
    requires FdsDiffer(s)
    ensures FdsDiffer(Without(s, c))
  {
  }

  lemma WithoutKeepsInv(s: Server, c: nat)
    requires Shape(s) && ConnsOk(s) && c in s.conns && !s.Held(c)
    requires FunctorsOk(s) && NamesOk(s) && FdsDiffer(s)
    requires PollersOk(s) && PhasesOk(s)
    ensures Inv(Without(s, c))
  {
    var s' := Without(s, c);
    assert ConnsOk(s') by { WithoutConnsOk(s, c); }
    assert PollersOk(s') && PhasesOk(s') by { WithoutLoopsOk(s, c); }
    assert FunctorsOk(s') && NamesOk(s') by { WithoutQueuesOk(s, c); }
    assert FdsDiffer(s') by { WithoutFdsDiffer(s, c); }
  }

  lemma ReleaseKeepsInv(s: Server, c: nat)
    requires Inv(s) && Enabled(s, Release(c))
    ensures Inv(Next(s, Release(c)))
  {
    ReleaseIsWithout(s, c);
    WithoutKeepsInv(s, c);
  }

  // ---------------------------------------------------------------------
  // Runs
  // ---------------------------------------------------------------------

  /** Every step, of any loop. */
  lemma NextKeepsInv(s: Server, step: Step)
    requires Inv(s) && Enabled(s, step)
    ensures Inv(Next(s, step))
  {
    match step {
      case Accept(fd) => AcceptKeepsInv(s, fd);
      case Handle(l, e) => HandleKeepsInv(s, l, e);
      case RunFunctor(l) => RunFunctorKeepsInv(s, l);
      case User(l, c, e) => UserKeepsInv(s, l, c, e);
      case Release(c) => ReleaseKeepsInv(s, c);
      case _ => TurnStepKeepsInv(s, step);
    }
  }

  lemma {:induction false} RunKeepsInv(s: Server, steps: seq<Step>)
    requires Inv(s) && CanRun(s, steps)
    ensures Inv(Run(s, steps))
    decreases |steps|
  {
    if steps != [] {
      NextKeepsInv(s, steps[0]);
      RunKeepsInv(Next(s, steps[0]), steps[1..]);
    }
  }
}
