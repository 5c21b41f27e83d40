// The functor queue of every loop of every server run is that of a run of
// EventLoopSpec: what ServerSpec does to it in one step is what the loop and
// its posters do in the interleaved steps of src/EventLoop.cc. So
// EventLoopTheorems covers the functors that carry a connection from loop to
// loop.
module ServerLoops {
  import EL = EventLoopSpec
  import ET = EventLoopTheorems
  import opened EventLoops
  import opened Basics
  import CS = ConnectionSpec
  import opened TaskQueue
  import opened ThreadPools
  import opened ServerSpec
  import opened ServerInvariant
  import opened ServerSteps
  import opened ServerRuns
  import opened ServerProjection
  import opened ServerTheorems

  // m is where such a run has led: the same queue, the same place in loop(), these functors
  // executed, and nobody inside queueInLoop.
  ghost predicate Mirrors(ls: LoopState, executed: seq<Functor>, m: EL.Loop<Functor>) {
    && m.batch == ls.queue.batch && m.pending == ls.queue.pending && m.executed == executed
    && AtRest(m) && !m.quit && m.early == 0
    && match ls.phase
       case AtPoll => m.pc == EL.Polling
       case Dispatch(_) => m.pc == EL.Dispatching(false)
       case RunningBatch => m.pc == EL.Running
  }

  // From m, a run of the event loop leads to a mirror of ls.
  ghost predicate Leads(m: EL.Loop<Functor>, els: seq<EL.Step<Functor>>, ls: LoopState, executed: seq<Functor>) {
    EL.CanRun(m, els) && Mirrors(ls, executed, EL.Run(m, els))
  }

  // The same of loop k of a server.
  ghost predicate LeadsTo(m: EL.Loop<Functor>, els: seq<EL.Step<Functor>>, s: Server, k: nat, executed: seq<Functor>) {
    k < |s.loops| && Leads(m, els, s.loops[k], executed)
  }

  lemma NoStep(ls: LoopState, executed: seq<Functor>, m: EL.Loop<Functor>, ls': LoopState)
    requires Mirrors(ls, executed, m) && ls'.queue == ls.queue && ls'.phase == ls.phase
    ensures Leads(m, [], ls', executed)
  {
  }

  lemma OneStep(m: EL.Loop<Functor>, a: EL.Step<Functor>)
    requires EL.Enabled(m, a)
    ensures EL.CanRun(m, [a]) && EL.Run(m, [a]) == EL.Next(m, a)
  {
    assert [a][1..] == [];
  }

  lemma TwoSteps(m: EL.Loop<Functor>, a: EL.Step<Functor>, b: EL.Step<Functor>)
    requires EL.Enabled(m, a) && EL.Enabled(EL.Next(m, a), b)
    ensures EL.CanRun(m, [a, b]) && EL.Run(m, [a, b]) == EL.Next(EL.Next(m, a), b)
  {
    OneStep(m, a);
    OneStep(EL.Next(m, a), b);
    ET.RunConcat(m, [a], [b]);
    assert [a] + [b] == [a, b];
  }

  lemma FourSteps(
      m: EL.Loop<Functor>, a: EL.Step<Functor>, b: EL.Step<Functor>, c: EL.Step<Functor>, d: EL.Step<Functor>)
    requires EL.Enabled(m, a) && EL.Enabled(EL.Next(m, a), b) && EL.Enabled(EL.Next(EL.Next(m, a), b), c)
    requires EL.Enabled(EL.Next(EL.Next(EL.Next(m, a), b), c), d)
    ensures EL.CanRun(m, [a, b, c, d])
    ensures EL.Run(m, [a, b, c, d]) == EL.Next(EL.Next(EL.Next(EL.Next(m, a), b), c), d)
  {
    TwoSteps(m, a, b);
    TwoSteps(EL.Next(EL.Next(m, a), b), c, d);
    ET.RunConcat(m, [a, b], [c, d]);
    assert [a, b] + [c, d] == [a, b, c, d];
  }

  // ---------------------------------------------------------------------
  // Posts
  // ---------------------------------------------------------------------

  lemma QueueIsFourSteps(m: EL.Loop<Functor>, f: Functor, caller: Caller) returns (els: seq<EL.Step<Functor>>)
    requires AtRest(m) && (if caller.OnLoopThread? then m.UserCode() else m.At(caller.t).Idle?)
    ensures EL.CanRun(m, els) && EL.Run(m, els) == AfterQueue(m, f, caller)
  {
    match caller {
      case OnLoopThread =>
        els := [EL.SelfLock(f), EL.SelfPushBack, EL.SelfUnlock, EL.SelfWake];
        FourSteps(m, EL.SelfLock(f), EL.SelfPushBack, EL.SelfUnlock, EL.SelfWake);
      case OnThread(t) =>
        els := [EL.Lock(t, f), EL.PushBack(t), EL.Unlock(t), EL.Wake(t)];
        FourSteps(m, EL.Lock(t, f), EL.PushBack(t), EL.Unlock(t), EL.Wake(t));
    }
  }

  // Loop poster posts f to this loop, which is loop own.
  lemma PostMirrors(
      ls: LoopState, executed: seq<Functor>, m: EL.Loop<Functor>, f: Functor, poster: nat, own: nat, ls': LoopState)
      returns (els: seq<EL.Step<Functor>>)
    requires Mirrors(ls, executed, m) && (poster == own ==> !ls.phase.AtPoll?)
    requires ls'.queue == Push(ls.queue, f) && ls'.phase == ls.phase
    ensures Leads(m, els, ls', executed)
  {
    var caller := if poster == own then OnLoopThread else OnThread(poster);
    els := QueueIsFourSteps(m, f, caller);
    QueueLeavesAtRest(m, f, caller);
  }

  lemma PostToMirrors(s: Server, l: nat, f: Functor, poster: nat, k: nat, executed: seq<Functor>, m: EL.Loop<Functor>)
      returns (els: seq<EL.Step<Functor>>)
    requires l < |s.loops| && k < |s.loops| && Mirrors(s.loops[k], executed, m)
    requires poster < |s.loops| && !s.loops[poster].phase.AtPoll?
    ensures LeadsTo(m, els, s.Post(l, f), k, executed)
  {
    if l == k {
      els := PostMirrors(s.loops[k], executed, m, f, poster, k, s.Post(l, f).loops[k]);
    } else {
      els := [];
      NoStep(s.loops[k], executed, m, s.Post(l, f).loops[k]);
    }
  }

  // ---------------------------------------------------------------------
  // Turns
  // ---------------------------------------------------------------------

  lemma PollMirrors(ls: LoopState, executed: seq<Functor>, m: EL.Loop<Functor>, ls': LoopState)
      returns (els: seq<EL.Step<Functor>>)
    requires Mirrors(ls, executed, m) && ls.phase.AtPoll?
    requires ls'.queue == ls.queue && ls'.phase.Dispatch?
    ensures Leads(m, els, ls', executed)
  {
    if m.counter > 0 {
      els := [EL.PollReturn(true), EL.HandleRead];
      TwoSteps(m, EL.PollReturn(true), EL.HandleRead);
    } else {
      els := [EL.PollReturn(false)];
      OneStep(m, EL.PollReturn(false));
    }
  }

  lemma SwapMirrors(ls: LoopState, executed: seq<Functor>, m: EL.Loop<Functor>, ls': LoopState)
      returns (els: seq<EL.Step<Functor>>)
    requires Mirrors(ls, executed, m) && ls.phase.Dispatch? && ls.queue.batch == []
    requires ls'.queue == Swap(ls.queue) && ls'.phase.RunningBatch?
    ensures Leads(m, els, ls', executed)
  {
    els := [EL.Enter, EL.SwapLock, EL.SwapBatch, EL.SwapUnlock];
    FourSteps(m, EL.Enter, EL.SwapLock, EL.SwapBatch, EL.SwapUnlock);
  }

  lemma PopMirrors(ls: LoopState, executed: seq<Functor>, m: EL.Loop<Functor>, ls': LoopState)
    requires Mirrors(ls, executed, m) && ls.phase.RunningBatch? && ls.queue.batch != []
    requires ls'.queue == Pop(ls.queue) && ls'.phase.RunningBatch?
    ensures Leads(m, [EL.RunNext], ls', executed + [ls.queue.batch[0]])
  {
    OneStep(m, EL.RunNext);
  }

  lemma EndMirrors(ls: LoopState, executed: seq<Functor>, m: EL.Loop<Functor>, ls': LoopState)
    requires Mirrors(ls, executed, m) && ls.phase.RunningBatch? && ls.queue.batch == []
    requires ls'.queue == ls.queue && ls'.phase.AtPoll?
    ensures Leads(m, [EL.EndBatch, EL.CheckQuit], ls', executed)
  {
    TwoSteps(m, EL.EndBatch, EL.CheckQuit);
  }

  lemma TurnMirrors(s: Server, step: Step, k: nat, executed: seq<Functor>, m: EL.Loop<Functor>)
      returns (els: seq<EL.Step<Functor>>)
    requires Enabled(s, step) && k < |s.loops| && Mirrors(s.loops[k], executed, m)
    requires step.PollReturns? || step.NextActive? || step.SwapQueue? || step.EndBatch?
    ensures LeadsTo(m, els, Next(s, step), k, executed)
  {
    var ls, ls' := s.loops[k], Next(s, step).loops[k];
    if step.l != k {
      els := [];
      NoStep(ls, executed, m, ls');
    } else if step.PollReturns? {
      els := PollMirrors(ls, executed, m, ls');
    } else if step.SwapQueue? {
      els := SwapMirrors(ls, executed, m, ls');
    } else if step.EndBatch? {
      els := [EL.EndBatch, EL.CheckQuit];
      EndMirrors(ls, executed, m, ls');
    } else {
      els := [];
      assert Mirrors(ls', executed, m);
    }
  }

  // ---------------------------------------------------------------------
  // Handlers and functors
  // ---------------------------------------------------------------------

  lemma HandleMirrors(s: Server, l: nat, e: CS.Event<nat>, k: nat, executed: seq<Functor>, m: EL.Loop<Functor>)
      returns (els: seq<EL.Step<Functor>>)
    requires Enabled(s, Handle(l, e)) && k < |s.loops| && Mirrors(s.loops[k], executed, m)
    requires var c := s.loops[l].phase.active[0]; s.Usable(c) && s.WithView(c, OnEvent(s.ViewOf(c), e)).Usable(c)
    ensures LeadsTo(m, els, Next(s, Handle(l, e)), k, executed)
  {
    var c := s.loops[l].phase.active[0];
    var s1 := s.WithView(c, OnEvent(s.ViewOf(c), e));
    assert Mirrors(s1.loops[k], executed, m);
    if !CS.Closes(e) {
      els := [];
      NoStep(s.loops[k], executed, m, s1.loops[k]);
    } else {
      els := RemoveMirrors(s1, l, c, k, executed, m);
    }
  }

  lemma RemoveMirrors(s: Server, l: nat, c: nat, k: nat, executed: seq<Functor>, m: EL.Loop<Functor>)
      returns (els: seq<EL.Step<Functor>>)
    requires s.Usable(c) && k < |s.loops| && Mirrors(s.loops[k], executed, m)
    requires l < |s.loops| && !s.loops[l].phase.AtPoll?
    ensures LeadsTo(m, els, RemoveConnection(s, l, c), k, executed)
  {
    if l == 0 {
      els := PostToMirrors(s, s.conns[c].loop, Destroy(c), l, k, executed, m);
    } else {
      els := PostToMirrors(s, 0, RemoveInLoop(c), l, k, executed, m);
    }
  }

  // The functor that this step has loop k run.
  function RunIn(s: Server, step: Step, k: nat): seq<Functor>
    requires Enabled(s, step)
  {
    if step == RunFunctor(k) then [s.loops[k].queue.batch[0]] else []
  }

  lemma PoppedMirrors(s: Server, l: nat, k: nat, executed: seq<Functor>, m: EL.Loop<Functor>)
      returns (els: seq<EL.Step<Functor>>)
    requires Enabled(s, RunFunctor(l)) && k < |s.loops| && Mirrors(s.loops[k], executed, m)
    ensures Leads(m, els, Popped(s, l).loops[k], executed + RunIn(s, RunFunctor(l), k))
  {
    if l == k {
      els := [EL.RunNext];
      PopMirrors(s.loops[k], executed, m, Popped(s, l).loops[k]);
    } else {
      els := [];
      assert executed + [] == executed;
      NoStep(s.loops[k], executed, m, Popped(s, l).loops[k]);
    }
  }

  lemma ExecuteMirrors(s: Server, l: nat, f: Functor, k: nat, executed: seq<Functor>, m: EL.Loop<Functor>)
      returns (els: seq<EL.Step<Functor>>)
    requires s.Usable(f.c) && k < |s.loops| && Mirrors(s.loops[k], executed, m)
    requires l < |s.loops| && s.loops[l].phase.RunningBatch? && (f.RemoveInLoop? ==> l == 0)
    ensures LeadsTo(m, els, Execute(s, f), k, executed)
  {
    if f.RemoveInLoop? {
      els := RemoveMirrors(s, l, f.c, k, executed, m);
    } else {
      els := [];
      NoStep(s.loops[k], executed, m, Execute(s, f).loops[k]);
    }
  }

  lemma FunctorMirrors(s: Server, l: nat, k: nat, executed: seq<Functor>, m: EL.Loop<Functor>)
      returns (els: seq<EL.Step<Functor>>)
    requires Enabled(s, RunFunctor(l)) && Head(s, l, s.loops[l].queue.batch[0])
    requires k < |s.loops| && Mirrors(s.loops[k], executed, m)
    ensures LeadsTo(m, els, Next(s, RunFunctor(l)), k, executed + RunIn(s, RunFunctor(l), k))
  {
    var f, s1 := s.loops[l].queue.batch[0], Popped(s, l);
    var first := PoppedMirrors(s, l, k, executed, m);
    var m1 := EL.Run(m, first);
    var rest := ExecuteMirrors(s1, l, f, k, executed + RunIn(s, RunFunctor(l), k), m1);
    els := first + rest;
    ET.RunConcat(m, first, rest);
    assert Next(s, RunFunctor(l)) == Execute(s1, f);
  }

  lemma AcceptMirrors(s: Server, fd: int, k: nat, executed: seq<Functor>, m: EL.Loop<Functor>)
      returns (els: seq<EL.Step<Functor>>)
    requires Shape(s) && Enabled(s, Accept(fd)) && k < |s.loops| && Mirrors(s.loops[k], executed, m)
    ensures LeadsTo(m, els, Next(s, Accept(fd)), k, executed)
  {
    NextLoopInRange(s);
    var s1, id, l := Born(s, fd), s.nextId, NextLoop(s.pool).0;
    if l == 0 {
      els := [];
      NoStep(s.loops[k], executed, m, Execute(s1, Establish(id)).loops[k]);
    } else {
      els := PostToMirrors(s1, l, Establish(id), 0, k, executed, m);
    }
  }

  // ---------------------------------------------------------------------
  // Runs
  // ---------------------------------------------------------------------

  lemma UserMirrors(s: Server, step: Step, k: nat, executed: seq<Functor>, m: EL.Loop<Functor>)
    requires Enabled(s, step) && step.User? && k < |s.loops| && Mirrors(s.loops[k], executed, m)
    ensures LeadsTo(m, [], Next(s, step), k, executed)
  {
    NoStep(s.loops[k], executed, m, Next(s, step).loops[k]);
  }

  lemma ReleaseMirrors(s: Server, c: nat, k: nat, executed: seq<Functor>, m: EL.Loop<Functor>)
    requires |s.loops| > 0 && Enabled(s, Release(c)) && ConnOk(s, c) && k < |s.loops|
    requires Mirrors(s.loops[k], executed, m)
    ensures LeadsTo(m, [], Next(s, Release(c)), k, executed)
  {
    ReleaseIsWithout(s, c);
    NoStep(s.loops[k], executed, m, Next(s, Release(c)).loops[k]);
  }

  lemma OtherStepMirrors(s: Server, step: Step, k: nat, executed: seq<Functor>, m: EL.Loop<Functor>)
      returns (els: seq<EL.Step<Functor>>)
    requires Inv(s) && Enabled(s, step) && k < |s.loops| && Mirrors(s.loops[k], executed, m) && !step.RunFunctor?
    ensures LeadsTo(m, els, Next(s, step), k, executed)
  {
    els := [];
    if step.Handle? {
      HandledIsLive(s, step.l, step.e);
      els := HandleMirrors(s, step.l, step.e, k, executed, m);
    } else if step.Accept? {
      els := AcceptMirrors(s, step.fd, k, executed, m);
    } else if step.Release? {
      LiveConnOk(s, step.c);
      ReleaseMirrors(s, step.c, k, executed, m);
    } else if step.User? {
      UserMirrors(s, step, k, executed, m);
    } else {
      els := TurnMirrors(s, step, k, executed, m);
    }
  }

  /** One step of the server is, for each of its loops, some steps of that event loop. */
  lemma StepMirrors(s: Server, step: Step, k: nat, executed: seq<Functor>, m: EL.Loop<Functor>)
      returns (els: seq<EL.Step<Functor>>)
    requires Inv(s) && Enabled(s, step) && k < |s.loops| && Mirrors(s.loops[k], executed, m)
    ensures LeadsTo(m, els, Next(s, step), k, executed + RunIn(s, step, k))
  {
    if step.RunFunctor? {
      HeadOf(s, step.l);
      els := FunctorMirrors(s, step.l, k, executed, m);
    } else {
      assert executed + RunIn(s, step, k) == executed;
      els := OtherStepMirrors(s, step, k, executed, m);
    }
  }

  // The functors that loop k has run, in order.
  ghost function Executed(s: Server, steps: seq<Step>, k: nat): seq<Functor>
    requires CanRun(s, steps)
    decreases |steps|
  {
    if steps == [] then [] else RunIn(s, steps[0], k) + Executed(Next(s, steps[0]), steps[1..], k)
  }

  lemma {:induction false} RunMirrors(s: Server, steps: seq<Step>, k: nat, executed: seq<Functor>, m: EL.Loop<Functor>)
      returns (els: seq<EL.Step<Functor>>)
    requires Inv(s) && CanRun(s, steps) && k < |s.loops| && Mirrors(s.loops[k], executed, m)
    ensures LeadsTo(m, els, Run(s, steps), k, executed + Executed(s, steps, k))
    decreases |steps|
  {
    if steps == [] {
      els := [];
      assert executed + Executed(s, steps, k) == executed;
    } else {
      var s' := Next(s, steps[0]);
      var first := StepMirrors(s, steps[0], k, executed, m);
      assert Inv(s') by { NextKeepsInv(s, steps[0]); }
      var rest := RunMirrors(s', steps[1..], k, executed + RunIn(s, steps[0], k), EL.Run(m, first));
      els := first + rest;
      ET.RunConcat(m, first, rest);
      Associate(executed, RunIn(s, steps[0], k), Executed(s', steps[1..], k));
    }
  }

  lemma NewLoopMirrors(ls: LoopState)
    requires ls.phase.AtPoll? && ls.queue == Queue([], [])
    ensures Leads(EL.NewLoop<Functor>(), [EL.CheckQuit], ls, [])
  {
    OneStep(EL.NewLoop<Functor>(), EL.CheckQuit);
  }

  /** Every loop of every server run is a run of the event loop with the same queue, the same
      place in loop() and the same functors executed. Whenever it is at poll with functors of
      the life cycle pending, its eventfd is readable: none of them is left waiting. */
  lemma EveryLoopIsARun(s: Server, n: nat, steps: seq<Step>, k: nat) returns (els: seq<EL.Step<Functor>>)
    requires Reached(s, n, steps) && k < |s.loops|
    ensures var m, ls := EL.NewLoop<Functor>(), s.loops[k];
            && Leads(m, els, ls, Executed(NewServer(s.name, s.ipPort, s.notify, n), steps, k))
            && (ls.phase.AtPoll? && ls.queue.pending != [] ==> EL.Run(m, els).counter > 0)
  {
    var s0, m := NewServer(s.name, s.ipPort, s.notify, n), EL.NewLoop<Functor>();
    assert Inv(s0) by { NewServerInv(s.name, s.ipPort, s.notify, n); }
    assert |s.loops| == n + 1 by { RunKeepsLoops(s0, steps); }
    NewLoopMirrors(s0.loops[k]);
    var start: seq<EL.Step<Functor>> := [EL.CheckQuit];
    var more := RunMirrors(s0, steps, k, [], EL.Run(m, start));
    els := start + more;
    ET.RunConcat(m, start, more);
    assert [] + Executed(s0, steps, k) == Executed(s0, steps, k);
    ReadableAtPoll(els, s.loops[k], Executed(s0, steps, k));
  }

  lemma {:induction false} RunKeepsLoops(s: Server, steps: seq<Step>)
    requires Inv(s) && CanRun(s, steps)
    ensures |Run(s, steps).loops| == |s.loops|
    decreases |steps|
  {
    if steps != [] {
      StepKeepsConstants(s, steps[0]);
      NextKeepsInv(s, steps[0]);
      RunKeepsLoops(Next(s, steps[0]), steps[1..]);
    }
  }

  lemma ReadableAtPoll(els: seq<EL.Step<Functor>>, ls: LoopState, executed: seq<Functor>)
    requires Leads(EL.NewLoop<Functor>(), els, ls, executed)
    ensures ls.phase.AtPoll? && ls.queue.pending != [] ==> EL.Run(EL.NewLoop<Functor>(), els).counter > 0
  {
    ET.RunKeepsInv(EL.NewLoop<Functor>(), els);
    var m := EL.Run(EL.NewLoop<Functor>(), els);
    assert forall t: nat :: m.At(t).Idle?;
  }
}
