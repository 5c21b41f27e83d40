// src/EventLoop.cc as an object. The ghost field trace records which step of
// EventLoopSpec each line of code is; Valid says that the fields are what that
// run of the step machine has led to. Here a call of one thread is not
// interrupted by another's; other threads call during the poll, between
// handlers and between functors. Every finer interleaving is the subject of
// EventLoopTheorems.
module EventLoops {
  import opened EventLoopSpec
  import opened EventLoopTheorems

  datatype Caller = OnLoopThread | OnThread(t: nat)

  // One call of queueInLoop.
  datatype Posting<F> = Posting(f: F, caller: Caller)

  function Posted<F>(ps: seq<Posting<F>>): seq<F> {
    if ps == [] then [] else Posted(ps[..|ps| - 1]) + [ps[|ps| - 1].f]
  }

  predicate FromOthers<F>(ps: seq<Posting<F>>) {
    forall i :: 0 <= i < |ps| ==> ps[i].caller.OnThread?
  }

  // What is posted while a functor runs, by itself or by others, and whether it calls quit.
  datatype Effects<!F> = Effects(posts: F -> seq<Posting<F>>, quits: F -> bool)

  // What is posted while the functors of a batch run, in order.
  function Posts<F>(does: Effects<F>, batch: seq<F>): seq<F> {
    if batch == [] then [] else
      Posts(does, batch[..|batch| - 1]) + Posted(does.posts(batch[|batch| - 1]))
  }

  predicate SomeQuits<F>(does: Effects<F>, batch: seq<F>) {
    exists i :: 0 <= i < |batch| && does.quits(batch[i])
  }

  lemma OneMore<F>(does: Effects<F>, batch: seq<F>, i: nat)
    requires i < |batch|
    ensures batch[..i + 1] == batch[..i] + [batch[i]]
    ensures Posts(does, batch[..i + 1]) == Posts(does, batch[..i]) + Posted(does.posts(batch[i]))
    ensures SomeQuits(does, batch[..i + 1]) <==> SomeQuits(does, batch[..i]) || does.quits(batch[i])
  {
    assert batch[..i + 1][..i] == batch[..i];
    if SomeQuits(does, batch[..i]) {
      var k :| 0 <= k < i && does.quits(batch[..i][k]);
      assert does.quits(batch[..i + 1][k]);
    }
    if does.quits(batch[i]) {
      assert does.quits(batch[..i + 1][i]);
    }
  }

  lemma OneLess<F>(executed: seq<F>, batch: seq<F>, i: nat)
    requires i < |batch|
    ensures batch[i..] != [] && batch[i..][0] == batch[i] && batch[i..][1..] == batch[i + 1..]
    ensures (executed + batch[..i]) + [batch[i]] == executed + batch[..i + 1]
  {
  }

  lemma OneMorePosted<F>(ps: seq<Posting<F>>, i: nat)
    requires i < |ps|
    ensures Posted(ps[..i + 1]) == Posted(ps[..i]) + [ps[i].f]
  {
    assert ps[..i + 1][..i] == ps[..i];
  }

  // ---------------------------------------------------------------------
  // queueInLoop as steps
  // ---------------------------------------------------------------------

  // Any thread may call queueInLoop; the loop thread from a handler, a functor, or between
  // its turns (that is, before loop()).
  predicate MayCall<F>(m: Loop<F>, caller: Caller) {
    if caller.OnLoopThread? then m.UserCode() || (m.pc.Check? && m.self.Idle?) else m.At(caller.t).Idle?
  }

  predicate IsEarly<F>(m: Loop<F>, caller: Caller) {
    caller.OnLoopThread? && m.pc.Check?
  }

  // After the push: the locked section and, if a wakeup may follow, before it.
  function AfterPush<F>(m: Loop<F>, f: F, caller: Caller): (r: Loop<F>)
    requires m.lock.Nobody? && MayCall(m, caller)
    ensures r.lock.Nobody? && r.pending == m.pending + [f] && r.pushed == m.pushed + [f]
    ensures if caller.OnThread? then r.At(caller.t).Waking? else IsEarly(m, caller) || r.self.Waking?
  {
    if caller.OnThread? then
      Next(Next(Next(m, Lock(caller.t, f)), EventLoopSpec.PushBack(caller.t)), Unlock(caller.t))
    else if m.pc.Check? then
      Next(m, EarlyPost(f))
    else
      Next(Next(Next(m, SelfLock(f)), SelfPushBack), SelfUnlock)
  }

  function AfterQueue<F>(m: Loop<F>, f: F, caller: Caller): Loop<F>
    requires m.lock.Nobody? && MayCall(m, caller)
  {
    var m1 := AfterPush(m, f, caller);
    if IsEarly(m, caller) then m1 else Next(m1, if caller.OnLoopThread? then SelfWake else Wake(caller.t))
  }

  // No thread is inside queueInLoop or quit.
  ghost predicate AtRest<F>(m: Loop<F>) {
    m.lock.Nobody? && m.self.Idle? && forall t :: t in m.others ==> m.others[t].Idle?
  }

  ghost predicate Unmoved<F>(m: Loop<F>, m': Loop<F>) {
    m'.pc == m.pc && m'.quit == m.quit && m'.batch == m.batch && m'.executed == m.executed
  }

  lemma QueueLeavesAtRest<F>(m: Loop<F>, f: F, caller: Caller)
    requires AtRest(m) && MayCall(m, caller)
    ensures AtRest(AfterQueue(m, f, caller)) && Unmoved(m, AfterQueue(m, f, caller))
  {
  }

  // ---------------------------------------------------------------------
  // Turns of loop()
  // ---------------------------------------------------------------------

  datatype QuitCall = NoQuit | ByHandler | ByThread(t: nat)

  // One turn of loop(), as far as it is up to others: what is posted during the poll,
  // whether the poll reports a readable eventfd, what is posted while handlers run before
  // and after that of the wakeup channel, who but a functor calls quit.
  datatype Turn<F> = Turn(
    atPoll: seq<Posting<F>>, wake: bool, before: seq<Posting<F>>, after: seq<Posting<F>>, quitCall: QuitCall)

  function Batch<F>(pending: seq<F>, turn: Turn<F>): seq<F> {
    pending + Posted(turn.atPoll) + Posted(turn.before) + Posted(turn.after)
  }

  predicate Ends<F>(pending: seq<F>, turn: Turn<F>, does: Effects<F>) {
    turn.quitCall != NoQuit || SomeQuits(does, Batch(pending, turn))
  }

  datatype Outcome<F> = Outcome(executed: seq<F>, pending: seq<F>, quit: bool)

  // What these turns come to, up to the first in which quit is called.
  function RunTurns<F>(pending: seq<F>, turns: seq<Turn<F>>, does: Effects<F>): Outcome<F>
    decreases |turns|
  {
    if turns == [] then Outcome([], pending, false) else
      var batch := Batch(pending, turns[0]);
      var left := Posts(does, batch);
      if Ends(pending, turns[0], does) then Outcome(batch, left, true) else
        var later := RunTurns(left, turns[1..], does);
        Outcome(batch + later.executed, later.pending, later.quit)
  }

  /** The loop ends exactly when a handler or another thread calls quit, or one of the
      functors it runs does. */
  lemma {:induction false} EndsExactlyOnQuit<F>(pending: seq<F>, turns: seq<Turn<F>>, does: Effects<F>)
    ensures var r := RunTurns(pending, turns, does);
            r.quit <==>
              (exists k :: 0 <= k < |turns| && turns[k].quitCall != NoQuit) || SomeQuits(does, r.executed)
    decreases |turns|
  {
    if turns != [] {
      var batch, r := Batch(pending, turns[0]), RunTurns(pending, turns, does);
      if Ends(pending, turns[0], does) {
        assert turns[0].quitCall != NoQuit || SomeQuits(does, r.executed);
      } else {
        var later := RunTurns(Posts(does, batch), turns[1..], does);
        EndsExactlyOnQuit(Posts(does, batch), turns[1..], does);
        QuitsConcat(does, batch, later.executed);
        assert turns == [turns[0]] + turns[1..];
        assert forall k :: 0 < k < |turns| ==> turns[k] == turns[1..][k - 1];
      }
    }
  }

  lemma QuitsConcat<F>(does: Effects<F>, a: seq<F>, b: seq<F>)
    ensures SomeQuits(does, a + b) <==> SomeQuits(does, a) || SomeQuits(does, b)
  {
    if SomeQuits(does, a) {
      var i :| 0 <= i < |a| && does.quits(a[i]);
      assert does.quits((a + b)[i]);
    }
    if SomeQuits(does, b) {
      var i :| 0 <= i < |b| && does.quits(b[i]);
      assert does.quits((a + b)[|a| + i]);
    }
  }

  lemma RunTurnsStep<F>(executed: seq<F>, pending: seq<F>, turns: seq<Turn<F>>, does: Effects<F>)
    requires turns != []
    ensures var all := RunTurns(pending, turns, does);
            var batch := Batch(pending, turns[0]);
            var rest := RunTurns(Posts(does, batch), turns[1..], does);
            if Ends(pending, turns[0], does) then all == Outcome(batch, Posts(does, batch), true)
            else (executed + batch) + rest.executed == executed + all.executed &&
                 rest.pending == all.pending && rest.quit == all.quit
  {
  }

  lemma EndsWithNothingLost<F>(steps: seq<Step<F>>)
    requires CanRun(NewLoop<F>(), steps)
    ensures var s := Run(NewLoop<F>(), steps);
            s.pc.Check? || s.pc.Exited? ==> s.executed + s.pending == s.pushed && !s.calling
  {
    RunKeepsInv(NewLoop<F>(), steps);
    var s := Run(NewLoop<F>(), steps);
    assert s.executed + [] == s.executed;
  }

  class EventLoop<F> {
    var quit: bool
    var callingPendingFunctors: bool
    var pendingFunctors: seq<F>
    var eventfd: nat                  // the kernel's counter behind wakeupFd_
    ghost var trace: seq<Step<F>>
    ghost var m: Loop<F>              // where that run has led

    ghost predicate IsRun()
      reads this`trace, this`m
    {
      CanRun(NewLoop<F>(), trace) && m == Run(NewLoop<F>(), trace)
    }

    ghost predicate Valid()
      reads this
    {
      && IsRun()
      && m.quit == quit && m.calling == callingPendingFunctors
      && m.pending == pendingFunctors && m.counter == eventfd
    }

    // From where loop() has cleared quit_.
    constructor ()
      ensures Valid() && m == NewLoop<F>()
    {
      quit, callingPendingFunctors, pendingFunctors, eventfd := false, false, [], 0;
      trace, m := [], NewLoop<F>();
    }

    // The code has just done this step.
    ghost method Did(step: Step<F>)
      requires IsRun() && Enabled(m, step)
      modifies this`trace, this`m
      ensures IsRun() && m == Next(old(m), step)
    {
      assert [step][1..] == [];
      RunConcat(NewLoop<F>(), trace, [step]);
      trace, m := trace + [step], Next(m, step);
    }

    method Wakeup()
      modifies this`eventfd
      ensures eventfd == if old(eventfd) < EVENTFD_MAX then old(eventfd) + 1 else old(eventfd)
    {
      if eventfd < EVENTFD_MAX {
        eventfd := eventfd + 1;
      }
    }

    method HandleRead()
      requires Valid() && m.pc == Dispatching(true) && m.self.Idle?
      modifies this`eventfd, this`trace, this`m
      ensures Valid() && m == Next(old(m), Step.HandleRead)
    {
      eventfd := 0;
      Did(Step.HandleRead);
    }

    method Quit(caller: Caller)
      requires Valid()
      requires if caller.OnLoopThread? then m.UserCode() else m.At(caller.t).Idle?
      modifies this`quit, this`eventfd, this`trace, this`m
      ensures Valid() && quit
      ensures if caller.OnLoopThread? then m == Next(old(m), SelfQuit)
              else m == Next(Next(old(m), SetQuit(caller.t)), QuitWake(caller.t))
    {
      quit := true;
      Did(if caller.OnLoopThread? then SelfQuit else SetQuit(caller.t));
      if !caller.OnLoopThread? {
        Wakeup();
        Did(QuitWake(caller.t));
      }
    }

    // The locked section of queueInLoop.
    method PushBack(f: F, caller: Caller)
      requires Valid() && m.lock.Nobody? && MayCall(m, caller)
      modifies this`pendingFunctors, this`trace, this`m
      ensures Valid() && pendingFunctors == old(pendingFunctors) + [f]
      ensures m == AfterPush(old(m), f, caller)
    {
      pendingFunctors := pendingFunctors + [f];
      if caller.OnThread? {
        Did(Lock(caller.t, f));
        Did(EventLoopSpec.PushBack(caller.t));
        Did(Unlock(caller.t));
      } else if m.pc.Check? {
        Did(EarlyPost(f));
      } else {
        Did(SelfLock(f));
        Did(SelfPushBack);
        Did(SelfUnlock);
      }
    }

    method QueueInLoop(f: F, caller: Caller)
      requires Valid() && m.lock.Nobody? && MayCall(m, caller)
      modifies this`pendingFunctors, this`eventfd, this`trace, this`m
      ensures Valid() && pendingFunctors == old(pendingFunctors) + [f]
      ensures !caller.OnLoopThread? || callingPendingFunctors ==> eventfd > 0
      ensures m == AfterQueue(old(m), f, caller)
    {
      EndsWithNothingLost(trace);
      ghost var early := IsEarly(m, caller);
      PushBack(f, caller);
      if !caller.OnLoopThread? || callingPendingFunctors {
        Wakeup();
      }
      if !early {
        Did(if caller.OnLoopThread? then SelfWake else Wake(caller.t));
      }
    }

    // queueInLoop again, for callers to whom its steps do not matter.
    method Post(p: Posting<F>)
      requires Valid() && AtRest(m) && MayCall(m, p.caller)
      modifies this`pendingFunctors, this`eventfd, this`trace, this`m
      ensures Valid() && AtRest(m) && Unmoved(old(m), m)
      ensures pendingFunctors == old(pendingFunctors) + [p.f]
      ensures eventfd >= old(eventfd)
      ensures !p.caller.OnLoopThread? || callingPendingFunctors ==> eventfd > 0
    {
      QueueLeavesAtRest(m, p.f, p.caller);
      QueueInLoop(p.f, p.caller);
    }

    // Calls of queueInLoop one after the other, by several threads.
    method PostAll(ps: seq<Posting<F>>)
      requires Valid() && AtRest(m) && (FromOthers(ps) || m.UserCode())
      modifies this`pendingFunctors, this`eventfd, this`trace, this`m
      ensures Valid() && AtRest(m) && Unmoved(old(m), m)
      ensures pendingFunctors == old(pendingFunctors) + Posted(ps)
      ensures eventfd >= old(eventfd)
      ensures ps != [] && (FromOthers(ps) || callingPendingFunctors) ==> eventfd > 0
    {
      var i := 0;
      while i < |ps|
        invariant 0 <= i <= |ps|
        invariant Valid() && AtRest(m) && Unmoved(old(m), m)
        invariant pendingFunctors == old(pendingFunctors) + Posted(ps[..i])
        invariant eventfd >= old(eventfd)
        invariant i > 0 && (FromOthers(ps) || callingPendingFunctors) ==> eventfd > 0
      {
        Post(ps[i]);
        OneMorePosted(ps, i);
        i := i + 1;
      }
      assert ps[..i] == ps;
    }

    // The locked section of doPendingFunctors.
    method SwapFunctors() returns (functors: seq<F>)
      requires Valid() && AtRest(m) && m.pc.Entering?
      modifies this`pendingFunctors, this`trace, this`m
      ensures Valid()
      ensures functors == old(pendingFunctors) && pendingFunctors == []
      ensures m == old(m).(pc := Running, batch := functors, pending := [], early := 0)
    {
      Did(SwapLock);
      functors := pendingFunctors;
      pendingFunctors := [];
      Did(SwapBatch);
      Did(SwapUnlock);
    }

    // One functor of the batch, with what is posted meanwhile.
    method RunFunctor(f: F, does: Effects<F>)
      requires Valid() && AtRest(m) && m.pc.Running? && callingPendingFunctors
      requires m.batch != [] && m.batch[0] == f
      modifies this`quit, this`pendingFunctors, this`eventfd, this`trace, this`m
      ensures Valid() && AtRest(m) && m.pc.Running? && callingPendingFunctors
      ensures m.batch == old(m).batch[1..] && m.executed == old(m.executed) + [f]
      ensures pendingFunctors == old(pendingFunctors) + Posted(does.posts(f))
      ensures quit == (old(quit) || does.quits(f))
      ensures eventfd >= old(eventfd) && (does.posts(f) != [] ==> eventfd > 0)
    {
      Did(RunNext);
      PostAll(does.posts(f));
      if does.quits(f) {
        Quit(OnLoopThread);
      }
    }

    // The for loop of doPendingFunctors over the swapped batch.
    method RunBatch(functors: seq<F>, does: Effects<F>)
      requires Valid() && AtRest(m) && m.pc.Running? && callingPendingFunctors
      requires m.batch == functors && pendingFunctors == []
      modifies this`quit, this`pendingFunctors, this`eventfd, this`trace, this`m
      ensures Valid() && AtRest(m) && m.pc.Running?
      ensures m.batch == [] && m.executed == old(m.executed) + functors
      ensures pendingFunctors == Posts(does, functors)
      ensures quit == (old(quit) || SomeQuits(does, functors))
      ensures pendingFunctors != [] ==> eventfd > 0
    {
      var i := 0;
      while i < |functors|
        invariant 0 <= i <= |functors|
        invariant Valid() && AtRest(m) && m.pc.Running? && callingPendingFunctors
        invariant m.batch == functors[i..]
        invariant m.executed == old(m.executed) + functors[..i]
        invariant pendingFunctors == Posts(does, functors[..i])
        invariant quit == (old(quit) || SomeQuits(does, functors[..i]))
        invariant pendingFunctors != [] ==> eventfd > 0
      {
        OneLess(old(m.executed), functors, i);
        OneMore(does, functors, i);
        RunFunctor(functors[i], does);
        i := i + 1;
      }
      assert functors[..i] == functors;
    }

    /** Runs what was pending at the swap, once and in order; what is posted meanwhile is
        left pending, with the eventfd readable. */
    method DoPendingFunctors(does: Effects<F>)
      requires Valid() && AtRest(m) && m.pc == Dispatching(false)
      modifies this
      ensures Valid() && AtRest(m) && m.pc.Check? && !callingPendingFunctors
      ensures m.executed == old(m.executed + pendingFunctors)
      ensures pendingFunctors == Posts(does, old(pendingFunctors))
      ensures quit == (old(quit) || SomeQuits(does, old(pendingFunctors)))
      ensures pendingFunctors != [] ==> eventfd > 0
    {
      callingPendingFunctors := true;
      Did(Enter);
      var functors := SwapFunctors();
      RunBatch(functors, does);
      callingPendingFunctors := false;
      Did(EndBatch);
    }

    // What happens while the loop is at poll: other threads post and may quit.
    method WaitForEvents(turn: Turn<F>) returns (wake: bool)
      requires Valid() && AtRest(m) && m.pc.Polling? && !quit && FromOthers(turn.atPoll)
      modifies this`quit, this`pendingFunctors, this`eventfd, this`trace, this`m
      ensures Valid() && AtRest(m) && m.pc == Dispatching(wake) && wake == (turn.wake && eventfd > 0)
      ensures m.executed == old(m.executed) && quit == turn.quitCall.ByThread?
      ensures pendingFunctors == old(pendingFunctors) + Posted(turn.atPoll)
    {
      PostAll(turn.atPoll);
      if turn.quitCall.ByThread? {
        Quit(OnThread(turn.quitCall.t));
      }
      wake := turn.wake && eventfd > 0;
      Did(PollReturn(wake));
    }

    // The wakeup channel's handler, if that channel was reported.
    method HandleWakeup(wake: bool)
      requires Valid() && AtRest(m) && m.pc == Dispatching(wake)
      modifies this`eventfd, this`trace, this`m
      ensures Valid() && AtRest(m) && m.pc == Dispatching(false) && m.quit == old(m).quit
      ensures m.executed == old(m.executed) && m.pending == old(m).pending
    {
      if wake {
        HandleRead();
      }
    }

    // The event phase.
    method HandleEvents(turn: Turn<F>, wake: bool)
      requires Valid() && AtRest(m) && m.pc == Dispatching(wake) && quit == turn.quitCall.ByThread?
      modifies this`quit, this`pendingFunctors, this`eventfd, this`trace, this`m
      ensures Valid() && AtRest(m) && m.pc == Dispatching(false)
      ensures m.executed == old(m.executed) && quit == (turn.quitCall != NoQuit)
      ensures pendingFunctors == old(pendingFunctors) + Posted(turn.before) + Posted(turn.after)
    {
      PostAll(turn.before);
      HandleWakeup(wake);
      PostAll(turn.after);
      if turn.quitCall == ByHandler {
        Quit(OnLoopThread);
      }
    }

    // The body of the while loop.
    method OneTurn(turn: Turn<F>, does: Effects<F>)
      requires Valid() && AtRest(m) && m.pc.Check? && !quit && FromOthers(turn.atPoll)
      modifies this
      ensures Valid() && AtRest(m) && m.pc.Check?
      ensures quit == Ends(old(pendingFunctors), turn, does)
      ensures m.executed == old(m.executed) + Batch(old(pendingFunctors), turn)
      ensures pendingFunctors == Posts(does, Batch(old(pendingFunctors), turn))
    {
      Did(CheckQuit);
      var wake := WaitForEvents(turn);
      HandleEvents(turn, wake);
      DoPendingFunctors(does);
    }

    // The last test of quit_.
    method LastCheck()
      requires Valid() && AtRest(m) && m.pc.Check?
      modifies this`trace, this`m
      ensures Valid() && AtRest(m) && m.pc == if quit then Exited else Check
      ensures m.executed == old(m.executed) && m.executed + pendingFunctors == m.pushed
    {
      if quit {
        Did(CheckQuit);
      }
      EndsWithNothingLost(trace);
    }

    /** loop(), from where it has cleared quit_, for as many turns as the world lasts. It runs
        each batch in order, ends with the first turn in which anyone calls quit, and at any
        end has run or still holds every functor ever posted. */
    method Loop(turns: seq<Turn<F>>, does: Effects<F>)
      requires Valid() && AtRest(m) && m.pc.Check? && !quit
      requires forall i :: 0 <= i < |turns| ==> FromOthers(turns[i].atPoll)
      modifies this
      ensures Valid() && AtRest(m) && m.pc == if quit then Exited else Check
      ensures var r := RunTurns(old(pendingFunctors), turns, does);
              && m.executed == old(m.executed) + r.executed && pendingFunctors == r.pending && quit == r.quit
              && (quit <==> (exists k :: 0 <= k < |turns| && turns[k].quitCall != NoQuit) ||
                            SomeQuits(does, r.executed))
      ensures m.executed + pendingFunctors == m.pushed
    {
      ghost var all := RunTurns(pendingFunctors, turns, does);
      var i := 0;
      while i < |turns| && !quit
        invariant 0 <= i <= |turns|
        invariant Valid() && AtRest(m) && m.pc.Check?
        invariant if quit then
                    m.executed == old(m.executed) + all.executed && pendingFunctors == all.pending && all.quit
                  else var rest := RunTurns(pendingFunctors, turns[i..], does);
                       m.executed + rest.executed == old(m.executed) + all.executed &&
                       rest.pending == all.pending && rest.quit == all.quit
      {
        ghost var executed, pending := m.executed, pendingFunctors;
        OneTurn(turns[i], does);
        RunTurnsStep(executed, pending, turns[i..], does);
        assert turns[i..][1..] == turns[i + 1..];
        i := i + 1;
      }
      LastCheck();
      EndsExactlyOnQuit(old(pendingFunctors), turns, does);
    }
  }
}
