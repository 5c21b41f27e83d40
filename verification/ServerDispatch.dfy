// The event phase of a loop, from the poll to the swap: every channel that
// epoll_wait reported gets its turn, once and in order, whatever the other
// loops do meanwhile.
module ServerDispatch {
  import CS = ConnectionSpec
  import opened Basics
  import opened TaskQueue
  import opened ThreadPools
  import opened ServerSpec
  import opened ServerInvariant
  import opened ServerSteps
  import opened ServerRuns
  import opened ServerProjection
  import opened ServerTheorems

  // The channel whose turn on loop l this step ends.
  ghost function EndedBy(s: Server, step: Step, l: nat): seq<nat>
    requires Enabled(s, step)
  {
    if step == NextActive(l) then [s.loops[l].phase.active[0]] else []
  }

  // The channels whose turn on loop l these steps end, in order.
  ghost function TurnsEnded(s: Server, steps: seq<Step>, l: nat): seq<nat>
    requires CanRun(s, steps)
    decreases |steps|
  {
    if steps == [] then [] else EndedBy(s, steps[0], l) + TurnsEnded(Next(s, steps[0]), steps[1..], l)
  }

  // Loop l is in the event phase, with these channels to go.
  ghost predicate Dispatching(s: Server, l: nat, active: seq<nat>) {
    l < |s.loops| && s.loops[l].phase == Dispatch(active)
  }

  lemma PostKeepsPhase(s: Server, k: nat, f: Functor, l: nat)
    requires k < |s.loops| && l < |s.loops|
    ensures |s.Post(k, f).loops| == |s.loops| && s.Post(k, f).loops[l].phase == s.loops[l].phase
  {
  }

  lemma ViewKeepsPhase(s: Server, c: nat, v: CS.View<nat>, l: nat)
    requires s.Usable(c) && l < |s.loops|
    ensures |s.WithView(c, v).loops| == |s.loops| && s.WithView(c, v).loops[l].phase == s.loops[l].phase
  {
  }

  lemma CloseKeepsPhase(s: Server, k: nat, c: nat, l: nat)
    requires s.Usable(c) && l < |s.loops| && 0 < |s.loops|
    ensures |Close(s, k, c).loops| == |s.loops| && Close(s, k, c).loops[l].phase == s.loops[l].phase
  {
    if k == 0 {
      PostKeepsPhase(Unmapped(s, c), s.conns[c].loop, Destroy(c), l);
    } else {
      PostKeepsPhase(s, 0, RemoveInLoop(c), l);
    }
  }

  lemma ExecuteKeepsPhase(s: Server, f: Functor, l: nat)
    requires l < |s.loops|
    ensures |Execute(s, f).loops| == |s.loops| && Execute(s, f).loops[l].phase == s.loops[l].phase
  {
  }

  lemma HandleKeepsPhase(s: Server, k: nat, e: CS.Event<nat>, l: nat)
    requires Inv(s) && Enabled(s, Handle(k, e)) && l < |s.loops|
    ensures |Next(s, Handle(k, e)).loops| == |s.loops|
    ensures Next(s, Handle(k, e)).loops[l].phase == s.loops[l].phase
  {
    HandledIsLive(s, k, e);
    var c := s.loops[k].phase.active[0];
    HandleKeepsPhaseFrom(s, k, c, e, OnEvent(s.ViewOf(c), e), l);
  }

  lemma HandleKeepsPhaseFrom(s: Server, k: nat, c: nat, e: CS.Event<nat>, v: CS.View<nat>, l: nat)
    requires s.Usable(c) && s.WithView(c, v).Usable(c) && l < |s.loops|
    ensures var s1 := s.WithView(c, v);
            var s' := if CS.Closes(e) then Close(s1, k, c) else s1;
            |s'.loops| == |s.loops| && s'.loops[l].phase == s.loops[l].phase
  {
    ViewKeepsPhase(s, c, v, l);
    CloseKeepsPhase(s.WithView(c, v), k, c, l);
  }

  lemma AcceptKeepsPhase(s: Server, fd: int, l: nat)
    requires Shape(s) && Enabled(s, Accept(fd)) && l < |s.loops|
    ensures |Next(s, Accept(fd)).loops| == |s.loops| && Next(s, Accept(fd)).loops[l].phase == s.loops[l].phase
  {
    NextLoopInRange(s);
    ExecuteKeepsPhase(Born(s, fd), Establish(s.nextId), l);
  }

  // What is no turn of loop l leaves its phase.
  lemma OthersKeepPhase(s: Server, step: Step, l: nat)
    requires Inv(s) && Enabled(s, step) && l < |s.loops|
    requires step.Accept? || step.Handle? || step.RunFunctor? || step.User? || step.Release?
    ensures |Next(s, step).loops| == |s.loops| && Next(s, step).loops[l].phase == s.loops[l].phase
  {
    if step.Accept? {
      AcceptKeepsPhase(s, step.fd, l);
    } else if step.Handle? {
      HandleKeepsPhase(s, step.l, step.e, l);
    } else if step.RunFunctor? {
      ExecuteKeepsPhase(Popped(s, step.l), s.loops[step.l].queue.batch[0], l);
    } else if step.User? {
      ViewKeepsPhase(s, step.c, OnEvent(s.ViewOf(step.c), step.e), l);
    } else {
      ReleaseKeepsPhase(s, step.c, l);
    }
  }

  lemma ReleaseKeepsPhase(s: Server, c: nat, l: nat)
    requires Inv(s) && Enabled(s, Release(c)) && l < |s.loops|
    ensures |Next(s, Release(c)).loops| == |s.loops| && Next(s, Release(c)).loops[l].phase == s.loops[l].phase
  {
    LiveConnOk(s, c);
    ReleaseIsWithout(s, c);
  }

  lemma TurnEnds(s: Server, step: Step, l: nat, active: seq<nat>)
    requires Enabled(s, step) && Dispatching(s, l, active) && step != SwapQueue(l)
    requires step.PollReturns? || step.NextActive? || step.SwapQueue? || step.EndBatch?
    ensures step == NextActive(l) ==> active != [] && Dispatching(Next(s, step), l, active[1..])
    ensures step != NextActive(l) ==> Dispatching(Next(s, step), l, active)
  {
  }

  lemma StepEnds(s: Server, step: Step, l: nat, active: seq<nat>) returns (rest: seq<nat>)
    requires Inv(s) && Enabled(s, step) && Dispatching(s, l, active) && step != SwapQueue(l)
    ensures Dispatching(Next(s, step), l, rest) && EndedBy(s, step, l) + rest == active
  {
    rest := if step == NextActive(l) then active[1..] else active;
    if step.PollReturns? || step.NextActive? || step.SwapQueue? || step.EndBatch? {
      TurnEnds(s, step, l, active);
    } else {
      OthersKeepPhase(s, step, l);
    }
  }

  /** Until the loop swaps its queue, it stays in the event phase, and the channels whose turn
      has ended, followed by those still to be handled, are the ones it started with. */
  lemma {:induction false} TurnsInOrder(s: Server, steps: seq<Step>, l: nat, active: seq<nat>) returns (rest: seq<nat>)
    requires Inv(s) && CanRun(s, steps) && Dispatching(s, l, active)
    requires forall step :: step in steps ==> step != SwapQueue(l)
    ensures Dispatching(Run(s, steps), l, rest) && TurnsEnded(s, steps, l) + rest == active
    decreases |steps|
  {
    if steps == [] {
      rest := active;
    } else {
      assert steps[0] in steps;
      var more := StepEnds(s, steps[0], l, active);
      assert Inv(Next(s, steps[0])) by { NextKeepsInv(s, steps[0]); }
      assert forall step :: step in steps[1..] ==> step in steps;
      rest := TurnsInOrder(Next(s, steps[0]), steps[1..], l, more);
      Associate(EndedBy(s, steps[0], l), TurnsEnded(Next(s, steps[0]), steps[1..], l), rest);
    }
  }

  /** From what epoll_wait returned to the swap of the functor queue, in every interleaving:
      each reported channel gets its turn once and in order, and the swap finds them all done. */
  lemma EventPhaseHandlesAll(s: Server, n: nat, before: seq<Step>, l: nat, active: seq<nat>, steps: seq<Step>)
    requires Reached(s, n, before) && Enabled(s, PollReturns(l, active))
    requires CanRun(Next(s, PollReturns(l, active)), steps)
    requires forall step :: step in steps ==> step != SwapQueue(l)
    ensures var s1 := Next(s, PollReturns(l, active));
            var s2 := Run(s1, steps);
            && l < |s2.loops| && s2.loops[l].phase.Dispatch?
            && TurnsEnded(s1, steps, l) + s2.loops[l].phase.active == active
            && (Enabled(s2, SwapQueue(l)) ==> TurnsEnded(s1, steps, l) == active)
  {
    var s1 := Next(s, PollReturns(l, active));
    assert Inv(s1) by {
      ReachedInv(s, n, before);
      NextKeepsInv(s, PollReturns(l, active));
    }
    var rest := TurnsInOrder(s1, steps, l, active);
    assert TurnsEnded(s1, steps, l) + [] == TurnsEnded(s1, steps, l);
  }
}
