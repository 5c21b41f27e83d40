// Every connection of every server run, by counting the steps of the run: its
// callbacks, and the functors that take it down.
module ServerAccounts {
  import opened Basics
  import opened PollerSpec
  import CS = ConnectionSpec
  import CR = ConnectionRuns
  import CT = ConnectionTheorems
  import CL = ConnectionLog
  import opened TaskQueue
  import opened ThreadPools
  import opened ConnectionNames
  import opened ServerSpec
  import opened ServerInvariant
  import opened ServerSteps
  import opened ServerRuns
  import opened ServerProjection
  import opened ServerHistories
  import opened ServerTheorems

  // ---------------------------------------------------------------------
  // Callbacks
  // ---------------------------------------------------------------------

  lemma {:induction false} ReadsOfOwn(es: seq<CS.Event<nat>>)
    ensures CL.Reads(OwnOnly(es)) == CL.Reads(es)
  {
    if es != [] {
      var init, last := es[..|es| - 1], es[|es| - 1];
      ReadsOfOwn(init);
      if !last.EvOthers? {
        assert (OwnOnly(init) + [last])[..|OwnOnly(init)|] == OwnOnly(init);
      } else {
        assert OwnOnly(init) + [] == OwnOnly(init);
      }
    }
  }

  lemma HistoryReads(v: CS.View<nat>, notify: bool, own: seq<CS.Event<nat>>)
    requires HasHistory(v, notify, own)
    ensures CR.HowMany(v.c.log, CR.Messages) == CL.Reads(own)
  {
    var p, es :| IsRunOf(v, notify, p, es) && OwnOnly(es) == own;
    var start := CS.View(CS.NewConn(v.c.self, v.c.ch.fd, CS.HIGH_WATER_MARK, notify), p);
    CR.NewConnInv(v.c.self, v.c.ch.fd, CS.HIGH_WATER_MARK, notify, p);
    CL.MessagesExactly(start, es);
    ReadsOfOwn(es);
  }

  /** The application's message callback has run once for each read of the connection that
      delivered bytes, over the whole server run. */
  lemma MessagesOfEveryConnection(s: Server, n: nat, steps: seq<Step>, c: nat)
    requires Reached(s, n, steps) && c in s.conns
    ensures CR.HowMany(s.conns[c].conn.log, CR.Messages) ==
            CL.Reads(EventsOf(NewServer(s.name, s.ipPort, s.notify, n), steps, c))
  {
    ReachedHistory(s, n, steps, c);
    HistoryReads(s.ViewOf(c), s.notify, EventsOf(NewServer(s.name, s.ipPort, s.notify, n), steps, c));
  }

  // What this step is due to put into the log of c: by its own event, if it has one.
  ghost function DueIn(s: Server, step: Step, c: nat, kind: CR.Kind): nat
    requires Enabled(s, step)
  {
    var own, s' := OwnEvents(s, step, c), Next(s, step);
    if own == [] then 0
    else if c in s.conns && c in s'.conns then
      Count(CL.Due(s.conns[c].conn, own[0], |s'.conns[c].conn.output.data|, kind))
    else Count(kind.Ups?)
  }

  ghost function DueOver(s: Server, steps: seq<Step>, c: nat, kind: CR.Kind): nat
    requires CanRun(s, steps)
    decreases |steps|
  {
    if steps == [] then 0 else DueIn(s, steps[0], c, kind) + DueOver(Next(s, steps[0]), steps[1..], c, kind)
  }

  ghost function Logged(s: Server, c: nat, kind: CR.Kind): nat {
    if c in s.conns then CR.HowMany(s.conns[c].conn.log, kind) else 0
  }

  lemma ViewCounts(v: CS.View<nat>, v': CS.View<nat>, own: seq<CS.Event<nat>>, kind: CR.Kind)
    requires CR.Inv(v) && Projects(v, v', own)
    ensures CR.HowMany(v'.c.log, kind) ==
            CR.HowMany(v.c.log, kind) + if own == [] then 0 else Count(CL.Due(v.c, own[0], |v'.c.output.data|, kind))
  {
    if own != [] {
      CL.StepCounts(v, own[0], kind);
    }
  }

  lemma StepCountsOld(s: Server, step: Step, c: nat, kind: CR.Kind)
    requires Inv(s) && Enabled(s, step) && c in s.conns && c in Next(s, step).conns
    ensures Logged(Next(s, step), c, kind) == Logged(s, c, kind) + DueIn(s, step, c, kind)
  {
    assert SeesStep(s, step, c) by { StepProjects(s, step, c); }
    assert CR.Inv(s.ViewOf(c)) by { LiveConnOk(s, c); }
    ViewCounts(s.ViewOf(c), Next(s, step).ViewOf(c), OwnEvents(s, step, c), kind);
  }

  lemma BornIs(s: Server, fd: int)
    requires Shape(s)
    ensures var s1, id := Born(s, fd), s.nextId;
            && s1.Usable(id) && s1.conns[id].loop == NextLoop(s.pool).0
            && s1.conns[id].conn == CS.NewConn(id, fd, CS.HIGH_WATER_MARK, s.notify)
  {
    NextLoopInRange(s);
  }

  lemma AcceptEvents(s: Server, fd: int)
    requires Enabled(s, Accept(fd))
    ensures OwnEvents(s, Accept(fd), s.nextId) == if NextLoop(s.pool).0 == 0 then [CS.EvEstablished] else []
  {
  }

  // A new connection after runInLoop(connectEstablished).
  lemma EstablishedIs(s1: Server, id: nat, l: nat)
    requires s1.Usable(id) && l < |s1.loops|
    ensures var s', k := (if l == 0 then Execute(s1, Establish(id)) else s1.Post(l, Establish(id))), s1.conns[id].conn;
            && id in s'.conns && s'.conns[id].loop == s1.conns[id].loop && s'.connections == s1.connections
            && s'.conns[id].conn.ch.fd == k.ch.fd && s'.conns[id].conn.self == k.self
            && s'.conns[id].conn.log == k.log + (if l == 0 then [CS.ConnUp] else [])
            && s'.conns[id].conn.state == if l == 0 then CS.Connected else k.state
  {
  }

  lemma NewLog(s: Server, fd: int)
    requires Inv(s) && Enabled(s, Accept(fd))
    ensures var s', id := Next(s, Accept(fd)), s.nextId;
            && id in s'.conns
            && s'.conns[id].conn.log == if OwnEvents(s, Accept(fd), id) == [] then [] else [CS.ConnUp]
  {
    AcceptIs(s, fd);
    AcceptEvents(s, fd);
    BornIs(s, fd);
    EstablishedIs(Born(s, fd), s.nextId, NextLoop(s.pool).0);
  }

  lemma StepCountsNew(s: Server, step: Step, c: nat, kind: CR.Kind)
    requires Inv(s) && Enabled(s, step) && c !in s.conns && c in Next(s, step).conns
    ensures Logged(Next(s, step), c, kind) == DueIn(s, step, c, kind)
  {
    OnlyAcceptCreates(s, step, c);
    NewLog(s, step.fd);
    CR.HowManySnoc([], CS.ConnUp, kind);
    assert [] + [CS.ConnUp] == [CS.ConnUp];
  }

  lemma StepCountsLog(s: Server, step: Step, c: nat, kind: CR.Kind)
    requires Inv(s) && Enabled(s, step) && (c in s.conns ==> c in Next(s, step).conns)
    ensures Logged(Next(s, step), c, kind) == Logged(s, c, kind) + DueIn(s, step, c, kind)
  {
    if c in s.conns {
      StepCountsOld(s, step, c, kind);
    } else if c in Next(s, step).conns {
      StepCountsNew(s, step, c, kind);
    } else {
      AbsentHasNoEvents(s, step, c);
    }
  }

  lemma FirstStepCounts(s: Server, steps: seq<Step>, c: nat, kind: CR.Kind)
    requires Inv(s) && CanRun(s, steps) && steps != [] && c in Run(s, steps).conns
    ensures Inv(Next(s, steps[0]))
    ensures Logged(Next(s, steps[0]), c, kind) == Logged(s, c, kind) + DueIn(s, steps[0], c, kind)
  {
    NextKeepsInv(s, steps[0]);
    if c in s.conns { Persists(s, steps, c); }
    StepCountsLog(s, steps[0], c, kind);
  }

  /** Callbacks, write-completes, high-water notes and half-closes of a connection over any
      stretch of a server run: exactly as many as the steps of the run were due. */
  lemma {:induction false} RunCountsLog(s: Server, steps: seq<Step>, c: nat, kind: CR.Kind)
    requires Inv(s) && CanRun(s, steps) && c in Run(s, steps).conns
    ensures Logged(Run(s, steps), c, kind) == Logged(s, c, kind) + DueOver(s, steps, c, kind)
    decreases |steps|
  {
    if steps != [] {
      FirstStepCounts(s, steps, c, kind);
      RunCountsLog(Next(s, steps[0]), steps[1..], c, kind);
    }
  }

  /** The same from the start of the server. */
  lemma CallbacksOfEveryConnection(s: Server, n: nat, steps: seq<Step>, c: nat, kind: CR.Kind)
    requires Reached(s, n, steps) && c in s.conns
    ensures CR.HowMany(s.conns[c].conn.log, kind) ==
            DueOver(NewServer(s.name, s.ipPort, s.notify, n), steps, c, kind)
  {
    NewServerInv(s.name, s.ipPort, s.notify, n);
    RunCountsLog(NewServer(s.name, s.ipPort, s.notify, n), steps, c, kind);
  }

  // ---------------------------------------------------------------------
  // Teardown
  // ---------------------------------------------------------------------

  // removeConnectionInLoop and connectDistroyed functors of c still queued.
  function Outstanding(s: Server, c: nat): nat
    requires c in s.conns && s.conns[c].loop < |s.loops|
  {
    HoldersOf(s, c).remove + HoldersOf(s, c).destroy
  }

  predicate ClosesIn(own: seq<CS.Event<nat>>) {
    own != [] && CS.Closes(own[0])
  }

  predicate DestroysIn(own: seq<CS.Event<nat>>) {
    own != [] && own[0].EvDestroyed?
  }

  // One step: what comes in by a close goes out by a connectDistroyed.
  ghost predicate TakesDown(s: Server, s': Server, own: seq<CS.Event<nat>>, c: nat) {
    && s.Usable(c) && s'.Usable(c)
    && Outstanding(s, c) + Count(ClosesIn(own)) == Count(DestroysIn(own)) + Outstanding(s', c)
  }

  lemma SameQueuesTakeDown(s: Server, s': Server, c: nat)
    requires s.Usable(c) && s'.Usable(c) && s'.conns[c].loop == s.conns[c].loop && SameQueues(s, s')
    ensures Outstanding(s', c) == Outstanding(s, c)
  {
  }

  // A functor of d posted to loop k.
  lemma PostTakesDown(s: Server, k: nat, f: Functor, c: nat)
    requires s.Usable(c) && k < |s.loops|
    requires if f.RemoveInLoop? then k == 0 else f.c in s.conns && k == s.conns[f.c].loop
    ensures s.Post(k, f).Usable(c)
    ensures Outstanding(s.Post(k, f), c) == Outstanding(s, c) + Count(f.c == c && !f.Establish?)
  {
    PostMoves(s, s, k, f);
    MovedHolders(s, s.Post(k, f), c, NONE, f, k, f);
  }

  lemma RemoveTakesDown(s: Server, l: nat, d: nat, c: nat)
    requires |s.loops| > 0 && s.Usable(d) && s.Usable(c)
    ensures RemoveConnection(s, l, d).Usable(c)
    ensures Outstanding(RemoveConnection(s, l, d), c) == Outstanding(s, c) + Count(d == c)
  {
    if l == 0 {
      SameQueuesTakeDown(s, Unmapped(s, d), c);
      PostTakesDown(Unmapped(s, d), s.conns[d].loop, Destroy(d), c);
    } else {
      PostTakesDown(s, 0, RemoveInLoop(d), c);
    }
  }

  lemma ViewTakesDown(s: Server, d: nat, v: CS.View<nat>, c: nat)
    requires s.Usable(d) && s.Usable(c) && s.WithView(d, v).Usable(c)
    ensures Outstanding(s.WithView(d, v), c) == Outstanding(s, c)
  {
    SameQueuesTakeDown(s, s.WithView(d, v), c);
  }

  lemma HandleTakesDownFrom(s: Server, l: nat, d: nat, e: CS.Event<nat>, v: CS.View<nat>, c: nat)
    requires |s.loops| > 0 && s.Usable(d) && s.Usable(c) && v.c.Valid()
    ensures var s' := AfterHandle(s, l, d, e, v);
            s'.Usable(c) && Outstanding(s', c) == Outstanding(s, c) + Count(d == c && CS.Closes(e))
  {
    ViewTakesDown(s, d, v, c);
    if CS.Closes(e) {
      RemoveTakesDown(s.WithView(d, v), l, d, c);
    }
  }

  // After the handler, and removeConnection if it has closed.
  ghost function AfterHandle(s: Server, l: nat, d: nat, e: CS.Event<nat>, v: CS.View<nat>): Server
    requires s.Usable(d)
  {
    if CS.Closes(e) then Close(s.WithView(d, v), l, d) else s.WithView(d, v)
  }

  lemma HandleTakesDown(s: Server, l: nat, e: CS.Event<nat>, c: nat)
    requires Inv(s) && Enabled(s, Handle(l, e)) && c in s.conns
    ensures TakesDown(s, Next(s, Handle(l, e)), OwnEvents(s, Handle(l, e), c), c)
  {
    var d := s.loops[l].phase.active[0];
    assert s.Usable(d) && OnEvent(s.ViewOf(d), e).c.Valid() by { HandledIsLive(s, l, e); }
    assert |s.loops| > 0 && s.Usable(c) by { LiveConnOk(s, c); }
    var own, s' := OwnEvents(s, Handle(l, e), c), AfterHandle(s, l, d, e, OnEvent(s.ViewOf(d), e));
    assert TakesDown(s, s', own, c) by {
      HandleIsClose(s, l, e, c);
      HandleTakesDownFrom(s, l, d, e, OnEvent(s.ViewOf(d), e), c);
    }
    HandleIs(s, l, e);
  }

  lemma HandleIs(s: Server, l: nat, e: CS.Event<nat>)
    requires Enabled(s, Handle(l, e)) && s.Usable(s.loops[l].phase.active[0])
    ensures var d := s.loops[l].phase.active[0];
            Next(s, Handle(l, e)) == AfterHandle(s, l, d, e, OnEvent(s.ViewOf(d), e))
  {
  }

  lemma HandleIsClose(s: Server, l: nat, e: CS.Event<nat>, c: nat)
    requires Enabled(s, Handle(l, e))
    ensures var own := OwnEvents(s, Handle(l, e), c);
            !DestroysIn(own) && (ClosesIn(own) <==> s.loops[l].phase.active[0] == c && CS.Closes(e))
  {
  }

  lemma PoppedTakesDown(s: Server, l: nat, f: Functor, c: nat)
    requires Head(s, l, f) && s.Usable(c)
    ensures Popped(s, l).Usable(c)
    ensures Outstanding(Popped(s, l), c) + Count(f.c == c && !f.Establish?) == Outstanding(s, c)
  {
    PopMoves(s, l);
    MovedHolders(s, Popped(s, l), c, l, f, NONE, f);
  }

  lemma ExecuteTakesDown(s1: Server, f: Functor, c: nat)
    requires |s1.loops| > 0 && s1.Usable(f.c) && s1.Usable(c) && Execute(s1, f).Usable(c)
    ensures Outstanding(Execute(s1, f), c) == Outstanding(s1, c) + Count(f == RemoveInLoop(c))
  {
    match f {
      case Establish(d) => ViewTakesDown(s1, d, CS.ConnectEstablished(s1.ViewOf(d)), c);
      case RemoveInLoop(d) => RemoveTakesDown(s1, 0, d, c);
      case Destroy(d) => ViewTakesDown(s1, d, CS.ConnectDestroyed(s1.ViewOf(d)), c);
    }
  }

  lemma FunctorTakesDownFrom(s: Server, l: nat, f: Functor, c: nat)
    requires Head(s, l, f) && s.Usable(c) && Execute(Popped(s, l), f).Usable(c)
    ensures Outstanding(s, c) == Count(f == Destroy(c)) + Outstanding(Execute(Popped(s, l), f), c)
  {
    PoppedTakesDown(s, l, f, c);
    ExecuteTakesDown(Popped(s, l), f, c);
  }

  lemma FunctorTakesDown(s: Server, l: nat, c: nat)
    requires Inv(s) && Enabled(s, RunFunctor(l)) && c in s.conns && Next(s, RunFunctor(l)).Usable(c)
    ensures TakesDown(s, Next(s, RunFunctor(l)), OwnEvents(s, RunFunctor(l), c), c)
  {
    var f := s.loops[l].queue.batch[0];
    assert Head(s, l, f) by { HeadOf(s, l); }
    assert s.Usable(c) by { LiveConnOk(s, c); }
    var own, s' := OwnEvents(s, RunFunctor(l), c), Execute(Popped(s, l), f);
    assert Next(s, RunFunctor(l)) == s' by { RunEvents(s, l, c); }
    RunIsDestroy(s, l, c);
    FunctorTakesDownFrom(s, l, f, c);
  }

  lemma RunIsDestroy(s: Server, l: nat, c: nat)
    requires Enabled(s, RunFunctor(l))
    ensures var own := OwnEvents(s, RunFunctor(l), c);
            !ClosesIn(own) && (DestroysIn(own) <==> s.loops[l].queue.batch[0] == Destroy(c))
  {
    RunEvents(s, l, c);
  }

  lemma AcceptTakesDownFrom(s1: Server, id: nat, c: nat)
    requires s1.Usable(id) && s1.Usable(c) && c != id
    ensures var l := s1.conns[id].loop;
            var s' := if l == 0 then Execute(s1, Establish(id)) else s1.Post(l, Establish(id));
            s'.Usable(c) && Outstanding(s', c) == Outstanding(s1, c)
  {
    var l := s1.conns[id].loop;
    if l == 0 {
      ViewTakesDown(s1, id, CS.ConnectEstablished(s1.ViewOf(id)), c);
    } else {
      PostTakesDown(s1, l, Establish(id), c);
    }
  }

  lemma BornTakesDown(s: Server, fd: int, c: nat)
    requires Shape(s) && s.Usable(c) && c < s.nextId
    ensures var s1 := Born(s, fd);
            s1.Usable(s.nextId) && s1.Usable(c) && Outstanding(s1, c) == Outstanding(s, c)
  {
    NextLoopInRange(s);
    SameQueuesTakeDown(s, Born(s, fd), c);
  }

  lemma AcceptTakesDown(s: Server, fd: int, c: nat)
    requires Inv(s) && Enabled(s, Accept(fd)) && c in s.conns
    ensures s.Usable(c) && Next(s, Accept(fd)).Usable(c)
    ensures Outstanding(s, c) == Outstanding(Next(s, Accept(fd)), c)
  {
    assert c < s.nextId && s.Usable(c) by { LiveConnOk(s, c); }
    AcceptIs(s, fd);
    BornIs(s, fd);
    BornTakesDown(s, fd, c);
    AcceptTakesDownFrom(Born(s, fd), s.nextId, c);
  }

  lemma SameBagsTakeDown(s: Server, s': Server, c: nat)
    requires s.Usable(c) && s'.Usable(c) && s'.conns[c].loop == s.conns[c].loop && |s'.loops| == |s.loops|
    requires Bag(s'.loops[0]) == Bag(s.loops[0])
    requires Bag(s'.loops[s.conns[c].loop]) == Bag(s.loops[s.conns[c].loop])
    ensures Outstanding(s', c) == Outstanding(s, c)
  {
  }

  lemma SwapTakesDown(s: Server, l: nat, c: nat)
    requires Enabled(s, SwapQueue(l)) && s.Usable(c)
    ensures Next(s, SwapQueue(l)).Usable(c) && Outstanding(Next(s, SwapQueue(l)), c) == Outstanding(s, c)
  {
    SwapBag(s.loops[l]);
    SameBagsTakeDown(s, Next(s, SwapQueue(l)), c);
  }

  lemma TurnTakesDown(s: Server, step: Step, c: nat)
    requires Enabled(s, step) && s.Usable(c)
    requires step.PollReturns? || step.NextActive? || step.EndBatch?
    ensures Next(s, step).Usable(c) && Outstanding(Next(s, step), c) == Outstanding(s, c)
  {
    SameQueuesTakeDown(s, Next(s, step), c);
  }

  lemma ReleaseTakesDown(s: Server, d: nat, c: nat)
    requires Inv(s) && Enabled(s, Release(d)) && s.Usable(c) && Next(s, Release(d)).Usable(c)
    ensures Outstanding(Next(s, Release(d)), c) == Outstanding(s, c)
  {
    LiveConnOk(s, d);
    ReleaseIsWithout(s, d);
  }

  lemma UserTakesDown(s: Server, step: Step, c: nat)
    requires Enabled(s, step) && step.User? && s.Usable(c) && Next(s, step).Usable(c)
    ensures Outstanding(Next(s, step), c) == Outstanding(s, c)
  {
    ViewTakesDown(s, step.c, OnEvent(s.ViewOf(step.c), step.e), c);
  }

  lemma OtherTakesDown(s: Server, step: Step, c: nat)
    requires Inv(s) && Enabled(s, step) && c in s.conns && s.Usable(c) && Next(s, step).Usable(c)
    requires !step.Handle? && !step.RunFunctor?
    ensures Outstanding(Next(s, step), c) == Outstanding(s, c)
  {
    if step.Accept? {
      AcceptTakesDown(s, step.fd, c);
    } else if step.User? {
      UserTakesDown(s, step, c);
    } else if step.Release? {
      ReleaseTakesDown(s, step.c, c);
    } else if step.SwapQueue? {
      SwapTakesDown(s, step.l, c);
    } else {
      TurnTakesDown(s, step, c);
    }
  }

  // Neither closes nor destroys.
  lemma OtherEventsTakeNothing(s: Server, step: Step, c: nat)
    requires Enabled(s, step) && !step.Handle? && !step.RunFunctor?
    ensures !ClosesIn(OwnEvents(s, step, c)) && !DestroysIn(OwnEvents(s, step, c))
  {
  }

  lemma StepTakesDown(s: Server, step: Step, c: nat)
    requires Inv(s) && Enabled(s, step) && c in s.conns && c in Next(s, step).conns
    ensures TakesDown(s, Next(s, step), OwnEvents(s, step, c), c)
  {
    assert SeesStep(s, step, c) by { StepProjects(s, step, c); }
    if step.Handle? {
      HandleTakesDown(s, step.l, step.e, c);
    } else if step.RunFunctor? {
      FunctorTakesDown(s, step.l, c);
    } else {
      OtherTakesDown(s, step, c);
      OtherEventsTakeNothing(s, step, c);
    }
  }

  lemma NewHasNoneOutstanding(s: Server, fd: int)
    requires Inv(s) && Enabled(s, Accept(fd))
    ensures var s' := Next(s, Accept(fd));
            s.nextId in s'.conns && s'.Usable(s.nextId) && Outstanding(s', s.nextId) == 0
  {
    AcceptKeepsInv(s, fd);
    AcceptFrame(s, fd);
    LiveConnOk(Next(s, Accept(fd)), s.nextId);
    NewState(s, fd);
  }

  lemma NewState(s: Server, fd: int)
    requires Inv(s) && Enabled(s, Accept(fd))
    ensures var s' := Next(s, Accept(fd));
            s.nextId in s'.conns && s'.conns[s.nextId].conn.state != CS.Disconnected
  {
    AcceptIs(s, fd);
    BornIs(s, fd);
    EstablishedIs(Born(s, fd), s.nextId, NextLoop(s.pool).0);
  }

  // The closes and the connectDistroyed runs of c in a server run.
  ghost function ClosesOf(s: Server, steps: seq<Step>, c: nat): nat
    requires CanRun(s, steps)
    decreases |steps|
  {
    if steps == [] then 0 else
      Count(ClosesIn(OwnEvents(s, steps[0], c))) + ClosesOf(Next(s, steps[0]), steps[1..], c)
  }

  ghost function DestroysOf(s: Server, steps: seq<Step>, c: nat): nat
    requires CanRun(s, steps)
    decreases |steps|
  {
    if steps == [] then 0 else
      Count(DestroysIn(OwnEvents(s, steps[0], c))) + DestroysOf(Next(s, steps[0]), steps[1..], c)
  }

  ghost function StillDue(s: Server, c: nat): nat
    requires c in s.conns ==> s.Usable(c)
  {
    if c in s.conns then Outstanding(s, c) else 0
  }

  lemma AnyStepTakesDown(s: Server, step: Step, c: nat)
    requires Inv(s) && Enabled(s, step) && (c in s.conns ==> s.Usable(c) && c in Next(s, step).conns)
    ensures var s', own := Next(s, step), OwnEvents(s, step, c);
            && (c in s'.conns ==> s'.Usable(c))
            && StillDue(s, c) + Count(ClosesIn(own)) == Count(DestroysIn(own)) + StillDue(s', c)
  {
    if c in s.conns {
      StepTakesDown(s, step, c);
    } else if c in Next(s, step).conns {
      OnlyAcceptCreates(s, step, c);
      NewHasNoneOutstanding(s, step.fd);
      OtherEventsTakeNothing(s, step, c);
    } else {
      AbsentHasNoEvents(s, step, c);
    }
  }

  lemma FirstStepTakesDown(s: Server, steps: seq<Step>, c: nat)
    requires Inv(s) && CanRun(s, steps) && steps != [] && c in Run(s, steps).conns && (c in s.conns ==> s.Usable(c))
    ensures var s', own := Next(s, steps[0]), OwnEvents(s, steps[0], c);
            && Inv(s') && (c in s'.conns ==> s'.Usable(c))
            && StillDue(s, c) + Count(ClosesIn(own)) == Count(DestroysIn(own)) + StillDue(s', c)
  {
    NextKeepsInv(s, steps[0]);
    if c in s.conns { Persists(s, steps, c); }
    AnyStepTakesDown(s, steps[0], c);
  }

  lemma {:induction false} RunTakesDown(s: Server, steps: seq<Step>, c: nat)
    requires Inv(s) && CanRun(s, steps) && c in Run(s, steps).conns && (c in s.conns ==> s.Usable(c))
    ensures Run(s, steps).Usable(c)
    ensures StillDue(s, c) + ClosesOf(s, steps, c) == DestroysOf(s, steps, c) + Outstanding(Run(s, steps), c)
    decreases |steps|
  {
    if steps != [] {
      FirstStepTakesDown(s, steps, c);
      RunTakesDown(Next(s, steps[0]), steps[1..], c);
    }
  }

  /** Every close of a connection, the first or a repeated one, brings one connectDistroyed:
      the closes so far are the connectDistroyed that have run and the functors on their way to
      one. And connections_ has the connection exactly until the first has been posted. */
  lemma EveryCloseTakesDown(s: Server, n: nat, steps: seq<Step>, c: nat)
    requires Reached(s, n, steps) && c in s.conns
    ensures var s0 := NewServer(s.name, s.ipPort, s.notify, n);
            && s.Usable(c)
            && ClosesOf(s0, steps, c) == DestroysOf(s0, steps, c) + Outstanding(s, c)
    ensures s.NameOf(c) in s.connections && s.connections[s.NameOf(c)] == c <==>
              !s.conns[c].conn.destroyed && HoldersOf(s, c).destroy == 0
  {
    var s0 := NewServer(s.name, s.ipPort, s.notify, n);
    assert Inv(s0) by { NewServerInv(s.name, s.ipPort, s.notify, n); }
    RunTakesDown(s0, steps, c);
    assert StageOk(s.conns[c].conn, HoldersOf(s, c)) by {
      ReachedInv(s, n, steps);
      LiveConnOk(s, c);
    }
  }

  // ---------------------------------------------------------------------
  // Accept
  // ---------------------------------------------------------------------

  /** newConnection: one connection more, with the next id and the accepted fd, under its own
      name, on the next loop; nothing else of connections_ changes; and connectEstablished has
      run, on the base loop, or is queued on its loop once. */
  lemma AcceptAddsOne(s: Server, n: nat, steps: seq<Step>, fd: int)
    requires Reached(s, n, steps) && Enabled(s, Accept(fd))
    ensures var s', id := Next(s, Accept(fd)), s.nextId;
            && s'.nextId == id + 1 && id !in s.conns && s'.conns.Keys == s.conns.Keys + {id}
            && s'.conns[id].conn.ch.fd == fd && s'.conns[id].conn.self == id
            && s'.conns[id].loop == NextLoop(s.pool).0
            && s'.connections == s.connections[s.NameOf(id) := id]
            && s'.Usable(id)
            && (if s'.conns[id].loop == 0 then s'.conns[id].conn.state == CS.Connected
                else s'.conns[id].conn.state == CS.Connecting && HoldersOf(s', id) == Holders(true, 1, 0, 0))
  {
    ReachedInv(s, n, steps);
    assert s.nextId !in s.conns by { FreshId(s); }
    AcceptFrame(s, fd);
    AcceptFields(s, fd);
    var s' := Next(s, Accept(fd));
    assert s'.Usable(s.nextId) && StageOk(s'.conns[s.nextId].conn, HoldersOf(s', s.nextId)) by {
      AcceptKeepsInv(s, fd);
      LiveConnOk(s', s.nextId);
    }
  }

  lemma AcceptFields(s: Server, fd: int)
    requires Shape(s) && Enabled(s, Accept(fd))
    ensures var s', id := Next(s, Accept(fd)), s.nextId;
            && id in s'.conns && s'.conns[id].conn.ch.fd == fd && s'.conns[id].conn.self == id
            && s'.connections == s.connections[s.NameOf(id) := id]
            && (if NextLoop(s.pool).0 == 0 then s'.conns[id].conn.state == CS.Connected
                else s'.conns[id].conn.state == CS.Connecting)
  {
    AcceptIs(s, fd);
    BornIs(s, fd);
    EstablishedIs(Born(s, fd), s.nextId, NextLoop(s.pool).0);
  }
}
