// What a step of the whole server is for one of its connections.
module ServerProjection {
  import opened PollerSpec
  import opened BufferSpec
  import CS = ConnectionSpec
  import CR = ConnectionRuns
  import CT = ConnectionTheorems
  import opened TaskQueue
  import opened ThreadPools
  import opened ConnectionNames
  import opened ServerSpec
  import opened ServerInvariant
  import opened ServerSteps
  import opened ServerRuns

  // Same connection objects and pollers; queues, phases and connections_ may differ.
  ghost predicate SameCore(s: Server, s': Server) {
    && s'.conns == s.conns && |s'.loops| == |s.loops|
    && forall l: nat :: l < |s.loops| ==> s'.loops[l].poller == s.loops[l].poller
  }

  // The events that this step is for connection c.
  ghost function OwnEvents(s: Server, step: Step, c: nat): seq<CS.Event<nat>>
    requires Enabled(s, step)
  {
    match step
    case Handle(l, e) => if s.loops[l].phase.active[0] == c then [e] else []
    case User(l, d, e) => if d == c then [e] else []
    case RunFunctor(l) =>
      var f := s.loops[l].queue.batch[0];
      if f == Establish(c) then [CS.EvEstablished] else if f == Destroy(c) then [CS.EvDestroyed] else []
    case Accept(_) => if c == s.nextId && NextLoop(s.pool).0 == 0 then [CS.EvEstablished] else []
    case _ => []
  }

  // From view v to view v': the given event, or at most calls on other channels.
  ghost predicate Projects(v: CS.View<nat>, v': CS.View<nat>, own: seq<CS.Event<nat>>) {
    if own == [] then v'.c == v.c && SameAt(v.p, v'.p, v.c.ch.fd)
    else CS.Enabled(v, own[0]) && v' == CS.Step(v, own[0]) && CT.OnLoopThread(own[0])
  }

  // What c sees of a step: one event of its own or calls on other channels of its poller.
  ghost predicate SeesStep(s: Server, step: Step, c: nat)
    requires Enabled(s, step)
  {
    Sees(s, Next(s, step), OwnEvents(s, step, c), c)
  }

  ghost predicate Sees(s: Server, s': Server, own: seq<CS.Event<nat>>, c: nat) {
    && s.Usable(c) && s'.Usable(c) && s'.conns[c].loop == s.conns[c].loop
    && Projects(s.ViewOf(c), s'.ViewOf(c), own)
  }

  lemma SelfProjects(s: Server, c: nat, e: CS.Event<nat>, s': Server)
    requires s.Usable(c) && CS.Enabled(s.ViewOf(c), e) && CT.OnLoopThread(e)
    requires SameCore(s.WithView(c, CS.Step(s.ViewOf(c), e)), s') && CS.Step(s.ViewOf(c), e).c.Valid()
    ensures s'.Usable(c) && s'.conns[c].loop == s.conns[c].loop
    ensures Projects(s.ViewOf(c), s'.ViewOf(c), [e])
  {
  }

  lemma OtherProjects(s: Server, c0: nat, s1: Server, s': Server, c: nat)
    requires SameExcept(s, s1, c0) && SameCore(s1, s') && s.Usable(c) && c != c0
    requires s.conns[c].conn.ch.fd != s.conns[c0].conn.ch.fd
    ensures s'.Usable(c) && s'.conns[c].loop == s.conns[c].loop
    ensures Projects(s.ViewOf(c), s'.ViewOf(c), [])
  {
  }

  // What a step that turns connection c0 and its poller to the next view means for c.
  lemma ActorProjects(s: Server, c0: nat, e: CS.Event<nat>, s': Server, c: nat)
    requires FdsDiffer(s) && s.Usable(c0) && s.Usable(c) && CR.Inv(s.ViewOf(c0))
    requires CS.Enabled(s.ViewOf(c0), e) && CT.OnLoopThread(e) && !e.EvOthers?
    requires SameCore(s.WithView(c0, CS.Step(s.ViewOf(c0), e)), s')
    ensures s'.Usable(c) && s'.conns[c].loop == s.conns[c].loop
    ensures Projects(s.ViewOf(c), s'.ViewOf(c), if c == c0 then [e] else [])
  {
    var s1 := s.WithView(c0, CS.Step(s.ViewOf(c0), e));
    Touch(s, c0, e);
    if c == c0 {
      SelfProjects(s, c, e, s');
    } else {
      OtherProjects(s, c0, s1, s', c);
    }
  }

  lemma StillProjects(s: Server, s': Server, c: nat)
    requires SameCore(s, s') && s.Usable(c)
    ensures s'.Usable(c) && s'.conns[c].loop == s.conns[c].loop
    ensures Projects(s.ViewOf(c), s'.ViewOf(c), [])
  {
  }

  lemma PostCore(s: Server, l: nat, f: Functor)
    requires l < |s.loops|
    ensures SameCore(s, s.Post(l, f))
  {
  }

  lemma RemoveConnectionCore(s: Server, l: nat, c: nat)
    requires s.Usable(c)
    ensures SameCore(s, RemoveConnection(s, l, c)) && SameCore(s, Erase(s, c))
  {
    PostCore(Unmapped(s, c), s.conns[c].loop, Destroy(c));
    PostCore(s, 0, RemoveInLoop(c));
  }

  lemma HandleCore(s: Server, l: nat, c0: nat, e: CS.Event<nat>)
    requires s.Usable(c0) && CR.Inv(s.ViewOf(c0)) && CS.Enabled(s.ViewOf(c0), e) && IsChannelEvent(e)
    ensures var s1 := s.WithView(c0, CS.Step(s.ViewOf(c0), e));
            s1.Usable(c0) && SameCore(s1, if CS.Closes(e) then Close(s1, l, c0) else s1)
  {
    Touch(s, c0, e);
    RemoveConnectionCore(s.WithView(c0, CS.Step(s.ViewOf(c0), e)), l, c0);
  }

  lemma HandleProjectsFrom(s: Server, l: nat, c0: nat, e: CS.Event<nat>, c: nat)
    requires s.Usable(c0) && CR.Inv(s.ViewOf(c0)) && s.Usable(c) && FdsDiffer(s)
    requires KernelAllows(s.conns[c0].conn, e) && IsChannelEvent(e)
    requires s.conns[c0].conn.state != CS.Connecting && !s.conns[c0].conn.destroyed
    ensures var s1 := s.WithView(c0, OnEvent(s.ViewOf(c0), e));
            var s' := if CS.Closes(e) then Close(s1, l, c0) else s1;
            && s'.Usable(c) && s'.conns[c].loop == s.conns[c].loop
            && Projects(s.ViewOf(c), s'.ViewOf(c), if c0 == c then [e] else [])
  {
    OnEventIsStep(s.ViewOf(c0), e);
    var s1 := s.WithView(c0, CS.Step(s.ViewOf(c0), e));
    HandleCore(s, l, c0, e);
    ActorProjects(s, c0, e, if CS.Closes(e) then Close(s1, l, c0) else s1, c);
  }

  lemma HandleProjects(s: Server, l: nat, e: CS.Event<nat>, c: nat)
    requires Inv(s) && Enabled(s, Handle(l, e)) && c in s.conns
    ensures SeesStep(s, Handle(l, e), c)
  {
    var c0 := s.loops[l].phase.active[0];
    assert PhaseOk(s, l) && ActiveOk(s, l, c0);
    LiveConnOk(s, c0);
    LiveConnOk(s, c);
    HandleProjectsFrom(s, l, c0, e, c);
  }

  lemma UserProjectsFrom(s: Server, l: nat, d: nat, e: CS.Event<nat>, c: nat)
    requires s.Usable(d) && CR.Inv(s.ViewOf(d)) && s.Usable(c) && FdsDiffer(s)
    requires KernelAllows(s.conns[d].conn, e) && IsUserEvent(e)
    ensures Sees(s, s.WithView(d, OnEvent(s.ViewOf(d), e)), if d == c then [e] else [], c)
  {
    OnEventIsStep(s.ViewOf(d), e);
    ActorProjects(s, d, e, s.WithView(d, OnEvent(s.ViewOf(d), e)), c);
  }

  lemma UserProjects(s: Server, l: nat, d: nat, e: CS.Event<nat>, c: nat)
    requires Inv(s) && Enabled(s, User(l, d, e)) && c in s.conns
    ensures SeesStep(s, User(l, d, e), c)
  {
    assert s.Usable(d) && CR.Inv(s.ViewOf(d)) by { LiveConnOk(s, d); }
    assert s.Usable(c) by { LiveConnOk(s, c); }
    UserProjectsFrom(s, l, d, e, c);
  }

  lemma PoppedCore(s: Server, l: nat)
    requires l < |s.loops| && s.loops[l].queue.batch != []
    ensures SameCore(s, Popped(s, l))
  {
  }

  lemma RunEraseProjects(s: Server, l: nat, f: Functor, c: nat)
    requires Head(s, l, f) && s.Usable(c) && f.RemoveInLoop?
    ensures var s' := Execute(Popped(s, l), f);
            && s'.Usable(c) && s'.conns[c].loop == s.conns[c].loop && Projects(s.ViewOf(c), s'.ViewOf(c), [])
  {
    var s1 := Popped(s, l);
    PoppedCore(s, l);
    StillProjects(s, s1, c);
    RemoveConnectionCore(s1, l, f.c);
    StillProjects(s1, Erase(s1, f.c), c);
  }

  lemma RunOnIoProjects(s: Server, l: nat, f: Functor, c: nat)
    requires Head(s, l, f) && FdsDiffer(s) && s.Usable(c) && !f.RemoveInLoop?
    ensures var s' := Execute(Popped(s, l), f);
            && s'.Usable(c) && s'.conns[c].loop == s.conns[c].loop
            && Projects(s.ViewOf(c), s'.ViewOf(c),
                        if f.c != c then [] else if f.Establish? then [CS.EvEstablished] else [CS.EvDestroyed])
  {
    var s1 := Popped(s, l);
    PoppedCore(s, l);
    PopHolders(s, l, f);
    assert s1.ViewOf(f.c) == s.ViewOf(f.c) && s1.ViewOf(c) == s.ViewOf(c);
    if f.Establish? {
      EstablishStage(s.ViewOf(f.c), HoldersOf(s, f.c));
      ActorProjects(s1, f.c, CS.EvEstablished, Execute(s1, f), c);
    } else {
      DestroyStage(s.ViewOf(f.c), HoldersOf(s, f.c));
      ActorProjects(s1, f.c, CS.EvDestroyed, Execute(s1, f), c);
    }
  }

  lemma HeadOf(s: Server, l: nat)
    requires Inv(s) && Enabled(s, RunFunctor(l))
    ensures Head(s, l, s.loops[l].queue.batch[0])
  {
    var f := s.loops[l].queue.batch[0];
    PopMoves(s, l);
    assert FunctorOk(s, l, f);
    LiveConnOk(s, f.c);
  }

  lemma RunEvents(s: Server, l: nat, c: nat)
    requires Enabled(s, RunFunctor(l))
    ensures var f := s.loops[l].queue.batch[0];
            && Next(s, RunFunctor(l)) == Execute(Popped(s, l), f)
            && OwnEvents(s, RunFunctor(l), c) ==
               if f.c != c || f.RemoveInLoop? then [] else if f.Establish? then [CS.EvEstablished] else [CS.EvDestroyed]
  {
  }

  lemma RunFunctorProjects(s: Server, l: nat, c: nat)
    requires Enabled(s, RunFunctor(l)) && s.Usable(c) && FdsDiffer(s) && Head(s, l, s.loops[l].queue.batch[0])
    ensures SeesStep(s, RunFunctor(l), c)
  {
    var f := s.loops[l].queue.batch[0];
    RunEvents(s, l, c);
    if f.RemoveInLoop? {
      assert Sees(s, Execute(Popped(s, l), f), [], c) by { RunEraseProjects(s, l, f, c); }
    } else {
      RunOnIoProjects(s, l, f, c);
    }
  }

  lemma TurnProjects(s: Server, step: Step, c: nat)
    requires Enabled(s, step) && s.Usable(c)
    requires step.PollReturns? || step.NextActive? || step.SwapQueue? || step.EndBatch?
    ensures SeesStep(s, step, c)
  {
    StillProjects(s, Next(s, step), c);
  }

  lemma ReleaseProjects(s: Server, d: nat, c: nat)
    requires |s.loops| > 0 && Enabled(s, Release(d)) && ConnOk(s, d) && s.Usable(c) && c != d
    ensures SeesStep(s, Release(d), c)
  {
    ReleaseIsWithout(s, d);
  }

  lemma BornSameView(s: Server, fd: int, c: nat)
    requires s.pool.Valid() && s.Usable(c) && c != s.nextId
    ensures var s1 := Born(s, fd);
            s1.Usable(c) && s1.ViewOf(c) == s.ViewOf(c) && s1.conns[c].loop == s.conns[c].loop
  {
  }

  lemma AcceptProjectsFrom(s1: Server, id: nat, c: nat)
    requires FdsDiffer(s1) && s1.Usable(id) && s1.Usable(c) && c != id && CR.Inv(s1.ViewOf(id))
    requires s1.conns[id].conn.state == CS.Connecting
    ensures var l := s1.conns[id].loop;
            var s' := if l == 0 then Execute(s1, Establish(id)) else s1.Post(l, Establish(id));
            && s'.Usable(c) && s'.conns[c].loop == s1.conns[c].loop
            && Projects(s1.ViewOf(c), s'.ViewOf(c), [])
  {
    var l := s1.conns[id].loop;
    if l == 0 {
      ActorProjects(s1, id, CS.EvEstablished, Execute(s1, Establish(id)), c);
    } else {
      PostCore(s1, l, Establish(id));
      StillProjects(s1, s1.Post(l, Establish(id)), c);
    }
  }

  lemma AcceptProjects(s: Server, fd: int, c: nat)
    requires Inv(s) && Enabled(s, Accept(fd)) && c in s.conns
    ensures SeesStep(s, Accept(fd), c)
  {
    BornIsAlmostGood(s, fd);
    NextLoopInRange(s);
    LiveConnOk(s, c);
    BornSameView(s, fd, c);
    AcceptProjectsFrom(Born(s, fd), s.nextId, c);
  }

  lemma FunctorStepProjects(s: Server, l: nat, c: nat)
    requires Inv(s) && Enabled(s, RunFunctor(l)) && c in s.conns
    ensures SeesStep(s, RunFunctor(l), c)
  {
    LiveConnOk(s, c);
    HeadOf(s, l);
    RunFunctorProjects(s, l, c);
  }

  lemma ReleaseStepProjects(s: Server, d: nat, c: nat)
    requires Inv(s) && Enabled(s, Release(d)) && c in s.conns && c in Next(s, Release(d)).conns
    ensures SeesStep(s, Release(d), c)
  {
    LiveConnOk(s, c);
    LiveConnOk(s, d);
    ReleaseProjects(s, d, c);
  }

  lemma TurnStepProjects(s: Server, step: Step, c: nat)
    requires Inv(s) && Enabled(s, step) && c in s.conns
    requires step.PollReturns? || step.NextActive? || step.SwapQueue? || step.EndBatch?
    ensures SeesStep(s, step, c)
  {
    assert s.Usable(c) by { LiveConnOk(s, c); }
    TurnProjects(s, step, c);
  }

  lemma CallbackProjects(s: Server, step: Step, c: nat)
    requires Inv(s) && Enabled(s, step) && c in s.conns && (step.Handle? || step.User? || step.RunFunctor?)
    ensures SeesStep(s, step, c)
  {
    match step {
      case Handle(l, e) => HandleProjects(s, l, e, c);
      case User(l, d, e) => UserProjects(s, l, d, e, c);
      case RunFunctor(l) => FunctorStepProjects(s, l, c);
    }
  }

  /** Each step is, for each connection that lives before and after it, one event of its own
      or calls on other channels of its poller. */
  lemma StepProjects(s: Server, step: Step, c: nat)
    requires Inv(s) && Enabled(s, step) && c in s.conns && c in Next(s, step).conns
    ensures SeesStep(s, step, c)
  {
    if step.Accept? {
      AcceptProjects(s, step.fd, c);
    } else if step.Release? {
      ReleaseStepProjects(s, step.c, c);
    } else if step.Handle? || step.User? || step.RunFunctor? {
      CallbackProjects(s, step, c);
    } else {
      TurnStepProjects(s, step, c);
    }
  }

  lemma LiveConnOk(s: Server, c: nat)
    requires Inv(s) && c in s.conns
    ensures |s.loops| > 0 && ConnOk(s, c) && s.Usable(c)
  {
  }

  // ---------------------------------------------------------------------
  // What steps create and remove
  // ---------------------------------------------------------------------

  // What only newConnection and ~TcpConnection change, and what nothing changes.
  ghost predicate SameFrame(s: Server, s': Server) {
    && s'.conns.Keys == s.conns.Keys && s'.pool == s.pool && s'.nextId == s.nextId
    && s'.notify == s.notify && s'.name == s.name && s'.ipPort == s.ipPort && |s'.loops| == |s.loops|
  }

  lemma ExecuteFrame(s: Server, f: Functor)
    ensures SameFrame(s, Execute(s, f))
  {
  }

  lemma CloseFrame(s: Server, l: nat, c: nat)
    ensures SameFrame(s, Close(s, l, c))
  {
  }

  lemma WithViewFrame(s: Server, c: nat, v: CS.View<nat>)
    requires s.Usable(c)
    ensures SameFrame(s, s.WithView(c, v))
  {
  }

  lemma HandleFrame(s: Server, l: nat, e: CS.Event<nat>)
    requires Enabled(s, Handle(l, e))
    ensures SameFrame(s, Next(s, Handle(l, e)))
  {
    var c := s.loops[l].phase.active[0];
    if s.Usable(c) {
      var s1 := s.WithView(c, OnEvent(s.ViewOf(c), e));
      WithViewFrame(s, c, OnEvent(s.ViewOf(c), e));
      CloseFrame(s1, l, c);
    }
  }

  lemma StepFrame(s: Server, step: Step)
    requires Enabled(s, step) && !step.Accept? && !step.Release?
    ensures SameFrame(s, Next(s, step))
  {
    match step {
      case Handle(l, e) => HandleFrame(s, l, e);
      case RunFunctor(l) => ExecuteFrame(Popped(s, l), s.loops[l].queue.batch[0]);
      case User(l, c, e) => WithViewFrame(s, c, OnEvent(s.ViewOf(c), e));
      case _ =>
    }
  }

  lemma AcceptFrame(s: Server, fd: int)
    requires Shape(s) && Enabled(s, Accept(fd))
    ensures var s' := Next(s, Accept(fd));
            && s'.conns.Keys == s.conns.Keys + {s.nextId} && s'.nextId == s.nextId + 1
            && s'.pool == NextLoop(s.pool).1
            && s'.notify == s.notify && s'.name == s.name && s'.ipPort == s.ipPort && |s'.loops| == |s.loops|
            && s.nextId in s'.conns && s'.conns[s.nextId].loop == NextLoop(s.pool).0
  {
    NextLoopInRange(s);
    ExecuteFrame(Born(s, fd), Establish(s.nextId));
  }

  lemma ReleaseFrame(s: Server, c: nat)
    requires |s.loops| > 0 && Enabled(s, Release(c)) && ConnOk(s, c)
    ensures Next(s, Release(c)) == s.(conns := s.conns - {c})
  {
    ReleaseIsWithout(s, c);
  }

  lemma OnlyAcceptCreates(s: Server, step: Step, c: nat)
    requires Inv(s) && Enabled(s, step) && c !in s.conns && c in Next(s, step).conns
    ensures step.Accept? && c == s.nextId
  {
    match step {
      case Accept(fd) => AcceptFrame(s, fd);
      case Release(d) => LiveConnOk(s, d); ReleaseFrame(s, d);
      case _ => StepFrame(s, step);
    }
  }

  lemma StepKeepsConstants(s: Server, step: Step)
    requires Inv(s) && Enabled(s, step)
    ensures var s' := Next(s, step);
            s'.notify == s.notify && s'.name == s.name && s'.ipPort == s.ipPort && |s'.loops| == |s.loops|
  {
    match step {
      case Accept(fd) => AcceptFrame(s, fd);
      case Release(d) => LiveConnOk(s, d); ReleaseFrame(s, d);
      case _ => StepFrame(s, step);
    }
  }

  lemma NextIdGrows(s: Server, step: Step)
    requires Inv(s) && Enabled(s, step)
    ensures s.nextId <= Next(s, step).nextId
  {
    match step {
      case Accept(fd) => AcceptFrame(s, fd);
      case Release(d) => LiveConnOk(s, d); ReleaseFrame(s, d);
      case _ => StepFrame(s, step);
    }
  }

  lemma {:induction false} GoneStaysGone(s: Server, steps: seq<Step>, c: nat)
    requires Inv(s) && CanRun(s, steps) && c !in s.conns && c < s.nextId
    ensures c !in Run(s, steps).conns
    decreases |steps|
  {
    if steps != [] {
      var s' := Next(s, steps[0]);
      if c in s'.conns {
        OnlyAcceptCreates(s, steps[0], c);
        assert false;
      }
      NextIdGrows(s, steps[0]);
      NextKeepsInv(s, steps[0]);
      GoneStaysGone(s', steps[1..], c);
    }
  }
}
