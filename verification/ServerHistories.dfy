// Seen from one of its connections, a run of the whole server is a run of
// ConnectionSpec with loop-thread calls only, and its events are those of the
// server's steps. So everything ConnectionTheorems proves holds for every
// connection of every server run, of the calls made in that run.
module ServerHistories {
  import opened PollerSpec
  import opened Basics
  import opened BufferSpec
  import CS = ConnectionSpec
  import CR = ConnectionRuns
  import CT = ConnectionTheorems
  import opened ServerSpec
  import opened ServerInvariant
  import opened ServerSteps
  import opened ServerRuns
  import opened ServerProjection

  // Without what other channels did.
  function OwnOnly(es: seq<CS.Event<nat>>): seq<CS.Event<nat>> {
    if es == [] then [] else
      OwnOnly(es[..|es| - 1]) + if es[|es| - 1].EvOthers? then [] else [es[|es| - 1]]
  }

  // v is where the run es of loop-thread events has brought a new connection.
  ghost predicate IsRunOf(v: CS.View<nat>, notify: bool, p: Poller<nat>, es: seq<CS.Event<nat>>) {
    var fd := v.c.ch.fd;
    var start := CS.View(CS.NewConn(v.c.self, fd, CS.HIGH_WATER_MARK, notify), p);
    && fd !in p.channels && fd !in p.kernel
    && CS.CanRun(start, es) && v == CS.Run(start, es)
    && forall e :: e in es ==> CT.OnLoopThread(e)
  }

  // These events, and what other channels did in between, have brought it there.
  ghost predicate HasHistory(v: CS.View<nat>, notify: bool, own: seq<CS.Event<nat>>) {
    exists p, es :: IsRunOf(v, notify, p, es) && OwnOnly(es) == own
  }

  lemma OwnOnlySnoc(es: seq<CS.Event<nat>>, e: CS.Event<nat>)
    ensures OwnOnly(es + [e]) == OwnOnly(es) + if e.EvOthers? then [] else [e]
  {
    assert (es + [e])[..|es|] == es;
  }

  lemma HistoryGrows(v: CS.View<nat>, v': CS.View<nat>, notify: bool, past: seq<CS.Event<nat>>, own: seq<CS.Event<nat>>)
    requires HasHistory(v, notify, past) && Projects(v, v', own) && CR.Inv(v) && |own| <= 1
    requires own != [] ==> !own[0].EvOthers?
    requires v'.c.self == v.c.self && v'.c.ch.fd == v.c.ch.fd
    ensures HasHistory(v', notify, past + own)
  {
    var p, es :| IsRunOf(v, notify, p, es) && OwnOnly(es) == past;
    var start := CS.View(CS.NewConn(v.c.self, v.c.ch.fd, CS.HIGH_WATER_MARK, notify), p);
    var e := if own == [] then CS.EvOthers(v'.p) else own[0];
    CT.RunSnoc(start, es, e);
    OwnOnlySnoc(es, e);
    assert own == if e.EvOthers? then [] else [e];
    assert v' == CS.Run(start, es + [e]);
    assert IsRunOf(v', notify, p, es + [e]) && OwnOnly(es + [e]) == past + own;
  }

  lemma NewHasHistory(self: nat, fd: int, notify: bool, p: Poller<nat>)
    requires fd !in p.channels && fd !in p.kernel
    ensures HasHistory(CS.View(CS.NewConn(self, fd, CS.HIGH_WATER_MARK, notify), p), notify, [])
  {
    var v := CS.View(CS.NewConn(self, fd, CS.HIGH_WATER_MARK, notify), p);
    assert IsRunOf(v, notify, p, []) && OwnOnly([]) == [];
  }

  lemma NewbornHasHistory(s: Server, fd: int)
    requires Inv(s) && Enabled(s, Accept(fd))
    ensures var s' := Next(s, Accept(fd));
            && s.nextId in s'.conns && s'.Usable(s.nextId)
            && HasHistory(s'.ViewOf(s.nextId), s.notify, OwnEvents(s, Accept(fd), s.nextId))
  {
    var s1, id := Born(s, fd), s.nextId;
    BornIsAlmostGood(s, fd);
    NextLoopInRange(s);
    var l := s1.conns[id].loop;
    assert PollerOk(s, l);
    FreshFd(s, l, fd);
    NewHasHistory(id, fd, s.notify, s.loops[l].poller);
    if l == 0 {
      BornEstablished(s1, id, s.notify);
    } else {
      PostView(s1, l, Establish(id), id);
    }
  }

  // With no io loops connectEstablished runs at once.
  lemma BornEstablished(s1: Server, id: nat, notify: bool)
    requires s1.Usable(id) && CR.Inv(s1.ViewOf(id)) && s1.conns[id].conn.state == CS.Connecting
    requires HasHistory(s1.ViewOf(id), notify, [])
    ensures var s' := Execute(s1, Establish(id));
            s'.Usable(id) && HasHistory(s'.ViewOf(id), notify, [CS.EvEstablished])
  {
    var s' := Execute(s1, Establish(id));
    Touch(s1, id, CS.EvEstablished);
    SelfProjects(s1, id, CS.EvEstablished, s');
    var none: seq<CS.Event<nat>> := [];
    assert none + [CS.EvEstablished] == [CS.EvEstablished];
    HistoryGrows(s1.ViewOf(id), s'.ViewOf(id), notify, none, [CS.EvEstablished]);
  }

  lemma ConnHistoryGrows(s: Server, s': Server, c: nat, past: seq<CS.Event<nat>>, own: seq<CS.Event<nat>>)
    requires s.Usable(c) && s'.Usable(c) && CR.Inv(s.ViewOf(c)) && HasHistory(s.ViewOf(c), s.notify, past)
    requires Projects(s.ViewOf(c), s'.ViewOf(c), own) && |own| <= 1 && (own != [] ==> !own[0].EvOthers?)
    ensures HasHistory(s'.ViewOf(c), s.notify, past + own)
  {
    var v, v' := s.ViewOf(c), s'.ViewOf(c);
    if own != [] {
      var more := CR.StepFacts(v, own[0]);
    }
    HistoryGrows(v, v', s.notify, past, own);
  }

  // The events of c in a run, in order, read off the steps.
  ghost function EventsOf(s: Server, steps: seq<Step>, c: nat): seq<CS.Event<nat>>
    requires CanRun(s, steps)
    decreases |steps|
  {
    if steps == [] then [] else OwnEvents(s, steps[0], c) + EventsOf(Next(s, steps[0]), steps[1..], c)
  }

  lemma AbsentIsNotHandled(s: Server, l: nat, e: CS.Event<nat>, c: nat)
    requires Enabled(s, Handle(l, e)) && PhaseOk(s, l) && c !in s.conns
    ensures OwnEvents(s, Handle(l, e), c) == []
  {
    assert ActiveOk(s, l, s.loops[l].phase.active[0]);
  }

  lemma AbsentIsNotAccepted(s: Server, fd: int, c: nat)
    requires Shape(s) && Enabled(s, Accept(fd)) && c !in Next(s, Accept(fd)).conns
    ensures OwnEvents(s, Accept(fd), c) == []
  {
    AcceptFrame(s, fd);
  }

  lemma AbsentIsNotRun(s: Server, l: nat, c: nat)
    requires Enabled(s, RunFunctor(l)) && Head(s, l, s.loops[l].queue.batch[0]) && c !in s.conns
    ensures OwnEvents(s, RunFunctor(l), c) == []
  {
  }

  lemma AbsentIsNotCalled(s: Server, step: Step, c: nat)
    requires Enabled(s, step) && !step.Accept? && !step.Handle? && !step.RunFunctor? && c !in s.conns
    ensures OwnEvents(s, step, c) == []
  {
  }

  // A connection that is not there has no events, but for one accepted right now.
  lemma AbsentHasNoEvents(s: Server, step: Step, c: nat)
    requires Inv(s) && Enabled(s, step) && c !in s.conns && c !in Next(s, step).conns
    ensures OwnEvents(s, step, c) == []
  {
    match step {
      case Accept(fd) => AbsentIsNotAccepted(s, fd, c);
      case Handle(l, e) => AbsentIsNotHandled(s, l, e, c);
      case RunFunctor(l) => HeadOf(s, l); AbsentIsNotRun(s, l, c);
      case _ => AbsentIsNotCalled(s, step, c);
    }
  }

  // past are the events of c so far, if it is there.
  ghost predicate KnownBy(s: Server, c: nat, past: seq<CS.Event<nat>>) {
    if c in s.conns then s.Usable(c) && HasHistory(s.ViewOf(c), s.notify, past) else past == []
  }

  lemma StepKeepsHistory(s: Server, step: Step, c: nat, past: seq<CS.Event<nat>>)
    requires Inv(s) && Enabled(s, step) && c in s.conns && c in Next(s, step).conns
    requires s.Usable(c) && HasHistory(s.ViewOf(c), s.notify, past)
    ensures KnownBy(Next(s, step), c, past + OwnEvents(s, step, c))
  {
    assert SeesStep(s, step, c) by { StepProjects(s, step, c); }
    assert CR.Inv(s.ViewOf(c)) by { LiveConnOk(s, c); }
    assert Next(s, step).notify == s.notify by { StepKeepsConstants(s, step); }
    ConnHistoryGrows(s, Next(s, step), c, past, OwnEvents(s, step, c));
  }

  lemma AcceptStartsHistory(s: Server, step: Step, c: nat)
    requires Inv(s) && Enabled(s, step) && c !in s.conns && c in Next(s, step).conns
    ensures KnownBy(Next(s, step), c, [] + OwnEvents(s, step, c))
  {
    OnlyAcceptCreates(s, step, c);
    assert Next(s, step).notify == s.notify by { StepKeepsConstants(s, step); }
    NewbornHasHistory(s, step.fd);
    assert [] + OwnEvents(s, step, c) == OwnEvents(s, step, c);
  }

  lemma EventsOfMore(s: Server, steps: seq<Step>, c: nat, past: seq<CS.Event<nat>>)
    requires CanRun(s, steps) && steps != []
    ensures (past + OwnEvents(s, steps[0], c)) + EventsOf(Next(s, steps[0]), steps[1..], c) ==
            past + EventsOf(s, steps, c)
  {
    Associate(past, OwnEvents(s, steps[0], c), EventsOf(Next(s, steps[0]), steps[1..], c));
  }

  // A connection there at the end of a run has been there since it was accepted.
  lemma Persists(s: Server, steps: seq<Step>, c: nat)
    requires Inv(s) && CanRun(s, steps) && steps != [] && c in s.conns && c in Run(s, steps).conns
    ensures c in Next(s, steps[0]).conns
  {
    if c !in Next(s, steps[0]).conns {
      assert c < s.nextId by { LiveConnOk(s, c); }
      NextIdGrows(s, steps[0]);
      NextKeepsInv(s, steps[0]);
      GoneStaysGone(Next(s, steps[0]), steps[1..], c);
    }
  }

  lemma StepKeepsKnown(s: Server, step: Step, c: nat, past: seq<CS.Event<nat>>)
    requires Inv(s) && Enabled(s, step) && KnownBy(s, c, past) && (c in s.conns ==> c in Next(s, step).conns)
    ensures KnownBy(Next(s, step), c, past + OwnEvents(s, step, c))
  {
    if c in s.conns {
      StepKeepsHistory(s, step, c, past);
    } else if c in Next(s, step).conns {
      AcceptStartsHistory(s, step, c);
    } else {
      AbsentHasNoEvents(s, step, c);
    }
  }

  lemma NoEvents(s: Server, c: nat, past: seq<CS.Event<nat>>)
    ensures past + EventsOf(s, [], c) == past
  {
  }

  lemma FirstStepKeepsKnown(s: Server, steps: seq<Step>, c: nat, past: seq<CS.Event<nat>>)
    requires Inv(s) && CanRun(s, steps) && steps != [] && c in Run(s, steps).conns && KnownBy(s, c, past)
    ensures Inv(Next(s, steps[0])) && KnownBy(Next(s, steps[0]), c, past + OwnEvents(s, steps[0], c))
  {
    NextKeepsInv(s, steps[0]);
    if c in s.conns { Persists(s, steps, c); }
    StepKeepsKnown(s, steps[0], c, past);
  }

  /** In every run, a connection has been brought where it is by exactly the events that the
      steps of the run were for it, and calls on other channels in between. */
  lemma {:induction false} RunKeepsHistory(s: Server, steps: seq<Step>, c: nat, past: seq<CS.Event<nat>>)
    requires Inv(s) && CanRun(s, steps) && c in Run(s, steps).conns && KnownBy(s, c, past)
    ensures KnownBy(Run(s, steps), c, past + EventsOf(s, steps, c))
    decreases |steps|
  {
    if steps == [] {
      NoEvents(s, c, past);
    } else {
      FirstStepKeepsKnown(s, steps, c, past);
      RunKeepsHistory(Next(s, steps[0]), steps[1..], c, past + OwnEvents(s, steps[0], c));
      EventsOfMore(s, steps, c, past);
    }
  }

  // ---------------------------------------------------------------------
  // What the application has sent
  // ---------------------------------------------------------------------

  // The payload that this step makes connection c accept.
  ghost function SentIn(s: Server, step: Step, c: nat): seq<byte> {
    if step.User? && step.c == c && step.e.EvSend? && c in s.conns &&
       s.conns[c].conn.state == CS.Connected && !CR.Dropped(s.conns[c].conn, step.e.r)
    then step.e.data
    else []
  }

  // The payloads of the application's sends on c that were not dropped, in order.
  ghost function Sent(s: Server, steps: seq<Step>, c: nat): seq<byte>
    requires CanRun(s, steps)
    decreases |steps|
  {
    if steps == [] then [] else SentIn(s, steps[0], c) + Sent(Next(s, steps[0]), steps[1..], c)
  }

  function Output(k: CS.Conn<nat>): seq<byte> {
    CR.Wire(k.log) + k.output.data
  }

  lemma OwnPayload(s: Server, step: Step, c: nat)
    requires Enabled(s, step) && c in s.conns
    ensures var own := OwnEvents(s, step, c);
            SentIn(s, step, c) == if own == [] then [] else CR.Payload(s.conns[c].conn, own[0])
  {
  }

  lemma ViewConserves(v: CS.View<nat>, v': CS.View<nat>, own: seq<CS.Event<nat>>)
    requires CT.Good(v) && Projects(v, v', own)
    ensures Output(v'.c) == Output(v.c) + if own == [] then [] else CR.Payload(v.c, own[0])
  {
    if own != [] {
      CT.StepConserves(v, own[0]);
    }
  }

  lemma StepConserves(s: Server, step: Step, c: nat)
    requires Inv(s) && Enabled(s, step) && c in s.conns && c in Next(s, step).conns
    requires s.Usable(c) && CT.Good(s.ViewOf(c))
    ensures Output(Next(s, step).conns[c].conn) == Output(s.conns[c].conn) + SentIn(s, step, c)
    ensures Next(s, step).Usable(c) && CT.Good(Next(s, step).ViewOf(c))
  {
    StepProjects(s, step, c);
    OwnPayload(s, step, c);
    var v, v', own := s.ViewOf(c), Next(s, step).ViewOf(c), OwnEvents(s, step, c);
    ViewConserves(v, v', own);
    if own == [] {
      PollerChangeIsGood(v, v');
    } else {
      CT.StepKeeps(v, own[0]);
    }
  }

  lemma PollerChangeIsGood(v: CS.View<nat>, v': CS.View<nat>)
    requires CT.Good(v) && v'.c == v.c && SameAt(v.p, v'.p, v.c.ch.fd)
    ensures CT.Good(v')
  {
    AgreementIsLocal(v.p, v'.p, v.c.self, v.c.ch);
  }

  lemma NewbornSentNothing(s: Server, fd: int)
    requires Inv(s) && Enabled(s, Accept(fd))
    ensures var s' := Next(s, Accept(fd));
            && s.nextId in s'.conns && s'.Usable(s.nextId) && CT.Good(s'.ViewOf(s.nextId))
            && Output(s'.conns[s.nextId].conn) == []
  {
    NewbornHasHistory(s, fd);
    var id := s.nextId;
    var v := Next(s, Accept(fd)).ViewOf(id);
    var p, es :| IsRunOf(v, s.notify, p, es) && OwnOnly(es) == OwnEvents(s, Accept(fd), id);
    NothingSent(v, s.notify, p, es);
  }

  lemma {:induction false} NoPayload(v: CS.View<nat>, es: seq<CS.Event<nat>>)
    requires CS.CanRun(v, es) && forall e :: e in es ==> e.EvOthers? || e.EvEstablished?
    ensures CT.Accepted(v, es) == []
    decreases |es|
  {
    if es != [] {
      assert es[0].EvOthers? || es[0].EvEstablished?;
      NoPayload(CS.Step(v, es[0]), es[1..]);
    }
  }

  lemma {:induction false} OwnOnlyContains(es: seq<CS.Event<nat>>, e: CS.Event<nat>)
    requires e in es && !e.EvOthers?
    ensures e in OwnOnly(es)
  {
    if e != es[|es| - 1] {
      OwnOnlyContains(es[..|es| - 1], e);
    }
  }

  lemma NothingSent(v: CS.View<nat>, notify: bool, p: Poller<nat>, es: seq<CS.Event<nat>>)
    requires IsRunOf(v, notify, p, es) && forall e :: e in OwnOnly(es) ==> e.EvEstablished?
    ensures CT.Good(v) && Output(v.c) == []
  {
    var start := CS.View(CS.NewConn(v.c.self, v.c.ch.fd, CS.HIGH_WATER_MARK, notify), p);
    CR.NewConnInv(v.c.self, v.c.ch.fd, CS.HIGH_WATER_MARK, notify, p);
    CT.OutputConservation(start, es);
    CT.LogGrows(start, es);
    forall e | e in es ensures e.EvOthers? || e.EvEstablished? {
      if !e.EvOthers? { OwnOnlyContains(es, e); }
    }
    NoPayload(start, es);
  }

  // What the kernel has of c and what is buffered.
  ghost function OutputOf(s: Server, c: nat): seq<byte> {
    if c in s.conns then Output(s.conns[c].conn) else []
  }

  ghost predicate GoodIfThere(s: Server, c: nat) {
    c in s.conns ==> s.Usable(c) && CT.Good(s.ViewOf(c))
  }

  lemma StepConservesOutput(s: Server, step: Step, c: nat)
    requires Inv(s) && Enabled(s, step) && GoodIfThere(s, c) && (c in s.conns ==> c in Next(s, step).conns)
    ensures GoodIfThere(Next(s, step), c)
    ensures OutputOf(Next(s, step), c) == OutputOf(s, c) + SentIn(s, step, c)
  {
    if c in s.conns {
      StepConserves(s, step, c);
    } else if c in Next(s, step).conns {
      OnlyAcceptCreates(s, step, c);
      NewbornSentNothing(s, step.fd);
    }
  }

  lemma SentMore(s: Server, steps: seq<Step>, c: nat, before: seq<byte>)
    requires CanRun(s, steps) && steps != []
    ensures (before + SentIn(s, steps[0], c)) + Sent(Next(s, steps[0]), steps[1..], c) == before + Sent(s, steps, c)
  {
    Associate(before, SentIn(s, steps[0], c), Sent(Next(s, steps[0]), steps[1..], c));
  }

  lemma SentNothing(s: Server, c: nat, before: seq<byte>)
    ensures before + Sent(s, [], c) == before
  {
  }

  lemma FirstStepConserves(s: Server, steps: seq<Step>, c: nat)
    requires Inv(s) && CanRun(s, steps) && steps != [] && c in Run(s, steps).conns && GoodIfThere(s, c)
    ensures var s' := Next(s, steps[0]);
            Inv(s') && GoodIfThere(s', c) && OutputOf(s', c) == OutputOf(s, c) + SentIn(s, steps[0], c)
  {
    NextKeepsInv(s, steps[0]);
    if c in s.conns { Persists(s, steps, c); }
    StepConservesOutput(s, steps[0], c);
  }

  /** Over any stretch of a server run, what the kernel has of a connection and what is
      buffered grow by exactly what the application's own sends made it accept, in order. */
  lemma {:induction false} RunConserves(s: Server, steps: seq<Step>, c: nat)
    requires Inv(s) && CanRun(s, steps) && c in Run(s, steps).conns && GoodIfThere(s, c)
    ensures OutputOf(Run(s, steps), c) == OutputOf(s, c) + Sent(s, steps, c)
    decreases |steps|
  {
    if steps == [] {
      SentNothing(s, c, OutputOf(s, c));
    } else {
      FirstStepConserves(s, steps, c);
      RunConserves(Next(s, steps[0]), steps[1..], c);
      SentMore(s, steps, c, OutputOf(s, c));
    }
  }
}
