// Every interleaving of a loop with any number of posting and quitting threads.
module EventLoopTheorems {
  import opened EventLoopSpec
  import opened Basics
  import TaskQueue

  // Between the push and the eventfd write. The loop thread counts only if it will write.
  ghost predicate WakeupComing<F>(s: Loop<F>) {
    || (exists t :: s.At(t).Pushed? || s.At(t).Waking?)
    || (s.calling && (s.self.Pushed? || s.self.Waking?))
  }

  ghost predicate QuitterComing<F>(s: Loop<F>) {
    exists t :: s.At(t).Quitting?
  }

  predicate LoopHolds<F>(s: Loop<F>) {
    s.pc.Locked? || s.pc.Swapped? || s.self.Holding? || s.self.Pushed?
  }

  // From the swap to the next poll.
  predicate AfterSwap(pc: LoopPc) {
    pc.Swapped? || pc.Running? || pc.Check? || pc.Polling?
  }

  // Who holds the mutex.
  ghost predicate LockInv<F>(s: Loop<F>) {
    && (s.lock == LoopThread <==> LoopHolds(s))
    && (forall t :: s.lock == Other(t) <==> s.At(t).Holding? || s.At(t).Pushed?)
  }

  // Where the loop thread is.
  predicate TurnInv<F>(s: Loop<F>) {
    && (!s.self.Idle? ==> s.pc.Dispatching? || s.pc.Running?)
    && !s.self.Quitting?
    && (s.calling <==> s.pc.Entering? || s.pc.Locked? || s.pc.Swapped? || s.pc.Running?)
    && (s.batch != [] ==> s.pc.Swapped? || s.pc.Running?)
  }

  predicate QueueInv<F(==)>(s: Loop<F>) {
    s.executed + s.batch + s.pending == s.pushed
  }

  ghost predicate WakeInv<F>(s: Loop<F>) {
    && (AfterSwap(s.pc) && s.pending != [] ==> s.counter > 0 || WakeupComing(s) || s.early > 0)
    && (s.pc.Polling? && s.quit ==> s.counter > 0 || QuitterComing(s))
  }

  ghost predicate Inv<F>(s: Loop<F>) {
    LockInv(s) && TurnInv(s) && QueueInv(s) && WakeInv(s)
  }

  // A step of another thread: what becomes of the two "coming" predicates.
  lemma OthersComing<F>(s: Loop<F>, step: Step<F>, t: nat)
    requires Enabled(s, step)
    requires OfOthers(step) && step.t == t
    ensures var s' := Next(s, step);
            && (step.PushBack? || step.Unlock? ==> WakeupComing(s'))
            && (step.SetQuit? ==> QuitterComing(s'))
            && (step.Wake? || step.QuitWake? ==> s'.counter > 0)
            && (!step.Wake? && WakeupComing(s) ==> WakeupComing(s'))
            && (!step.QuitWake? && QuitterComing(s) ==> QuitterComing(s'))
  {
    var s' := Next(s, step);
    assert forall u: nat :: u != t ==> s'.At(u) == s.At(u);
    if step.PushBack? { assert s'.At(t).Pushed?; }
    if step.Unlock? { assert s'.At(t).Waking?; }
    if step.SetQuit? { assert s'.At(t).Quitting?; }
    if !step.Wake? && exists u: nat :: s.At(u).Pushed? || s.At(u).Waking? {
      var u: nat :| s.At(u).Pushed? || s.At(u).Waking?;
      assert u == t || s'.At(u) == s.At(u);
    }
    if !step.QuitWake? && QuitterComing(s) {
      var u: nat :| s.At(u).Quitting?;
      assert u == t || s'.At(u) == s.At(u);
    }
  }

  lemma NextKeepsInv<F>(s: Loop<F>, step: Step<F>)
    requires Inv(s) && Enabled(s, step)
    ensures Inv(Next(s, step))
  {
    if OfOthers(step) {
      OthersKeepInv(s, step, step.t);
    } else {
      LoopKeepsInv(s, step);
    }
  }

  lemma OthersKeepLock<F>(s: Loop<F>, step: Step<F>, t: nat)
    requires LockInv(s) && Enabled(s, step) && OfOthers(step) && step.t == t
    ensures LockInv(Next(s, step))
  {
    var s' := Next(s, step);
    forall u: nat
      ensures s'.lock == Other(u) <==> s'.At(u).Holding? || s'.At(u).Pushed?
    {
      assert u != t ==> s'.At(u) == s.At(u);
      assert s.lock == Other(u) <==> s.At(u).Holding? || s.At(u).Pushed?;
      assert s.lock == Other(t) <==> s.At(t).Holding? || s.At(t).Pushed?;
    }
  }

  lemma OthersKeepQueue<F>(s: Loop<F>, step: Step<F>, t: nat)
    requires QueueInv(s) && Enabled(s, step) && OfOthers(step) && step.t == t
    ensures QueueInv(Next(s, step))
  {
    if step.PushBack? {
      Associate(s.executed + s.batch, s.pending, [s.At(t).f]);
    }
  }

  lemma OthersKeepWake<F>(s: Loop<F>, step: Step<F>, t: nat)
    requires WakeInv(s) && Enabled(s, step) && OfOthers(step) && step.t == t
    ensures WakeInv(Next(s, step))
  {
    OthersComing(s, step, t);
  }

  lemma OthersKeepInv<F>(s: Loop<F>, step: Step<F>, t: nat)
    requires Inv(s) && Enabled(s, step)
    requires OfOthers(step) && step.t == t
    ensures Inv(Next(s, step))
  {
    assert LockInv(Next(s, step)) by { OthersKeepLock(s, step, t); }
    assert QueueInv(Next(s, step)) by { OthersKeepQueue(s, step, t); }
    assert WakeInv(Next(s, step)) by { OthersKeepWake(s, step, t); }
  }

  predicate OfOthers<F>(step: Step<F>) {
    step.Lock? || step.PushBack? || step.Unlock? || step.Wake? || step.SetQuit? || step.QuitWake?
  }

  // Of the loop thread, but not of loop() and doPendingFunctors().
  predicate OfUserCode<F>(step: Step<F>) {
    step.SelfLock? || step.SelfPushBack? || step.SelfUnlock? || step.SelfWake? || step.SelfQuit? || step.EarlyPost?
  }

  lemma LoopKeepsInv<F>(s: Loop<F>, step: Step<F>)
    requires Inv(s) && Enabled(s, step) && !OfOthers(step)
    ensures Inv(Next(s, step))
  {
    if OfUserCode(step) {
      SelfKeepsInv(s, step);
    } else {
      TurnKeepsInv(s, step);
    }
  }

  lemma SelfKeepsInv<F>(s: Loop<F>, step: Step<F>)
    requires Inv(s) && Enabled(s, step)
    requires OfUserCode(step)
    ensures Inv(Next(s, step))
  {
    assert forall t: nat :: Next(s, step).At(t) == s.At(t);
    if step.SelfPushBack? || step.EarlyPost? {
      var f := if step.EarlyPost? then step.f else s.self.f;
      Associate(s.executed + s.batch, s.pending, [f]);
    }
  }

  lemma TurnKeepsInv<F>(s: Loop<F>, step: Step<F>)
    requires Inv(s) && Enabled(s, step) && !OfOthers(step) && !OfUserCode(step)
    ensures Inv(Next(s, step))
  {
    assert forall t: nat :: Next(s, step).At(t) == s.At(t);
    if step.SwapBatch? {
      assert s.executed + s.pending + [] == s.executed + s.batch + s.pending;
    }
    if step.RunNext? {
      assert s.executed + s.batch == (s.executed + [s.batch[0]]) + s.batch[1..];
    }
  }

  lemma {:induction false} RunKeepsInv<F>(s: Loop<F>, steps: seq<Step<F>>)
    requires Inv(s) && CanRun(s, steps)
    ensures Inv(Run(s, steps))
    decreases |steps|
  {
    if steps != [] {
      NextKeepsInv(s, steps[0]);
      RunKeepsInv(Next(s, steps[0]), steps[1..]);
    }
  }

  // ---------------------------------------------------------------------
  // No lost wakeup, no lost quit
  // ---------------------------------------------------------------------

  lemma {:induction false} EarlyStaysZero<F>(s: Loop<F>, steps: seq<Step<F>>)
    requires CanRun(s, steps) && s.early == 0
    requires forall step :: step in steps ==> !step.EarlyPost?
    ensures Run(s, steps).early == 0
    decreases |steps|
  {
    if steps != [] {
      assert !steps[0].EarlyPost?;
      EarlyStaysZero(Next(s, steps[0]), steps[1..]);
    }
  }

  /** In every interleaving: a loop at the blocking poll with functors pending has a readable
      eventfd, or some thread is between its push and its eventfd write. */
  lemma NoLostWakeup<F>(steps: seq<Step<F>>)
    requires CanRun(NewLoop<F>(), steps)
    requires forall step :: step in steps ==> !step.EarlyPost?
    ensures var s := Run(NewLoop<F>(), steps);
            s.pc.Polling? && s.pending != [] ==>
              s.counter > 0 || exists t :: s.At(t).Pushed? || s.At(t).Waking?
  {
    RunKeepsInv(NewLoop<F>(), steps);
    EarlyStaysZero(NewLoop<F>(), steps);
  }

  ghost predicate Stranded<F>(s: Loop<F>) {
    s.pc.Polling? && s.pending != [] && s.counter == 0 && !WakeupComing(s)
  }

  /** When a post by the loop thread outside handlers and functors is lost sight of: in every
      reachable state, and known before the call, exactly when no wakeup has been written and
      none is on its way. The same poll entered without that post strands nothing. */
  lemma EarlyPostExactly<F>(steps: seq<Step<F>>, f: F)
    requires CanRun(NewLoop<F>(), steps)
    requires var s := Run(NewLoop<F>(), steps); s.pc.Check? && !s.quit && s.lock.Nobody?
    ensures var s := Run(NewLoop<F>(), steps);
            && (Stranded(Next(Next(s, EarlyPost(f)), CheckQuit)) <==> s.counter == 0 && !WakeupComing(s))
            && (s.early == 0 ==> !Stranded(Next(s, CheckQuit)))
  {
    var s := Run(NewLoop<F>(), steps);
    RunKeepsInv(NewLoop<F>(), steps);
    var s1 := Next(s, EarlyPost(f));
    assert forall t: nat :: Next(s1, CheckQuit).At(t) == s.At(t) && Next(s, CheckQuit).At(t) == s.At(t);
    assert WakeupComing(Next(s1, CheckQuit)) <==> WakeupComing(s);
    assert WakeupComing(Next(s, CheckQuit)) <==> WakeupComing(s);
  }

  /** Such a post before the first poll is enough. */
  lemma EarlyPostIsStranded<F>(f: F)
    ensures var steps := [EarlyPost(f), CheckQuit];
            CanRun(NewLoop<F>(), steps) && Stranded(Run(NewLoop<F>(), steps))
  {
    var alone: seq<Step<F>> := [CheckQuit];
    assert [EarlyPost(f), CheckQuit][1..] == alone && alone[1..] == [];
    assert forall t: nat :: Next(Next(NewLoop<F>(), EarlyPost(f)), CheckQuit).At(t) == Idle;
  }

  /** Once loop() has cleared quit_, a quit that finds the loop at poll will be seen. */
  lemma NoLostQuit<F>(steps: seq<Step<F>>)
    requires CanRun(NewLoop<F>(), steps)
    ensures var s := Run(NewLoop<F>(), steps);
            && (s.pc.Polling? && s.quit ==> s.counter > 0 || QuitterComing(s))
            && (s.pc.Exited? ==> s.executed + s.pending == s.pushed)
  {
    RunKeepsInv(NewLoop<F>(), steps);
    var s := Run(NewLoop<F>(), steps);
    if s.pc.Exited? {
      assert s.executed + [] + s.pending == s.executed + s.pending;
    }
  }

  // ---------------------------------------------------------------------
  // Exactly once, in the order of the lock
  // ---------------------------------------------------------------------

  // The functor whose poster takes the mutex with this step.
  function LockedBy<F>(step: Step<F>): seq<F> {
    match step
    case Lock(_, f) => [f]
    case SelfLock(f) => [f]
    case EarlyPost(f) => [f]
    case _ => []
  }

  // The functors in the order in which their posters took the mutex.
  function LockOrder<F>(steps: seq<Step<F>>): seq<F> {
    if steps == [] then [] else LockedBy(steps[0]) + LockOrder(steps[1..])
  }

  // The functor whose poster holds the mutex and has not pushed yet.
  function InHand<F>(s: Loop<F>): seq<F> {
    if s.self.Holding? then [s.self.f]
    else if s.lock.Other? && s.At(s.lock.t).Holding? then [s.At(s.lock.t).f]
    else []
  }

  lemma StepLockOrder<F>(s: Loop<F>, step: Step<F>)
    requires Inv(s) && Enabled(s, step)
    ensures Next(s, step).pushed + InHand(Next(s, step)) == s.pushed + InHand(s) + LockedBy(step)
  {
    var s' := Next(s, step);
    if step.SelfPushBack? || step.EarlyPost? {
      assert forall t: nat :: s'.At(t) == s.At(t);
    } else if step.PushBack? {
      assert s.lock == Other(step.t);
    } else if step.SetQuit? || step.QuitWake? || step.Wake? {
      assert s.lock != Other(step.t);
    }
  }

  lemma {:induction false} PushedInLockOrder<F>(s: Loop<F>, steps: seq<Step<F>>)
    requires Inv(s) && CanRun(s, steps)
    ensures Run(s, steps).pushed + InHand(Run(s, steps)) == s.pushed + InHand(s) + LockOrder(steps)
    decreases |steps|
  {
    if steps != [] {
      NextKeepsInv(s, steps[0]);
      StepLockOrder(s, steps[0]);
      PushedInLockOrder(Next(s, steps[0]), steps[1..]);
      Associate(s.pushed + InHand(s), LockedBy(steps[0]), LockOrder(steps[1..]));
    }
  }

  /** Executed, then the rest of the batch, then pending, then the one being pushed: always
      the posted functors, each once, in the order of the lock. */
  lemma ExactlyOnceInLockOrder<F>(steps: seq<Step<F>>)
    requires CanRun(NewLoop<F>(), steps)
    ensures var s := Run(NewLoop<F>(), steps);
            s.executed + s.batch + s.pending + InHand(s) == LockOrder(steps)
  {
    RunKeepsInv(NewLoop<F>(), steps);
    PushedInLockOrder(NewLoop<F>(), steps);
    assert NewLoop<F>().pushed + InHand(NewLoop<F>()) == [];
  }

  /** A step does to the queue nothing, one push at the end, the swap, or one pop. */
  lemma StepRefinesQueue<F>(s: Loop<F>, step: Step<F>)
    requires Inv(s) && Enabled(s, step)
    ensures var q := TaskQueue.Queue(s.batch, s.pending);
            var q' := TaskQueue.Queue(Next(s, step).batch, Next(s, step).pending);
            if step.SwapBatch? then q.batch == [] && q' == TaskQueue.Swap(q)
            else if step.RunNext? then q.batch != [] && q' == TaskQueue.Pop(q)
            else q' == q || exists f :: q' == TaskQueue.Push(q, f) && Next(s, step).pushed == s.pushed + [f]
  {
    var q := TaskQueue.Queue(s.batch, s.pending);
    if step.PushBack? || step.SelfPushBack? || step.EarlyPost? {
      var f := if step.PushBack? then s.At(step.t).f else if step.SelfPushBack? then s.self.f else step.f;
      assert TaskQueue.Queue(Next(s, step).batch, Next(s, step).pending) == TaskQueue.Push(q, f);
    }
  }

  // ---------------------------------------------------------------------
  // The batch and the mutex
  // ---------------------------------------------------------------------

  function Runs<F>(steps: seq<Step<F>>): nat {
    if steps == [] then 0 else (if steps[0].RunNext? then 1 else 0) + Runs(steps[1..])
  }

  lemma RunOneMore<F>(executed: seq<F>, batch: seq<F>, n: nat)
    requires n < |batch|
    ensures batch[1..][n..] == batch[n + 1..]
    ensures (executed + [batch[0]]) + batch[1..][..n] == executed + batch[..n + 1]
  {
  }

  /** Between two swaps the batch only shrinks, by one per functor run, whatever anyone
      posts meanwhile: its length was fixed at the swap. */
  lemma {:induction false} BatchIsFixedAtSwap<F>(s: Loop<F>, steps: seq<Step<F>>)
    requires CanRun(s, steps) && forall step :: step in steps ==> !step.SwapBatch?
    ensures var n := Runs(steps);
            && n <= |s.batch|
            && Run(s, steps).batch == s.batch[n..]
            && Run(s, steps).executed == s.executed + s.batch[..n]
    decreases |steps|
  {
    if steps != [] {
      var s1 := Next(s, steps[0]);
      assert !steps[0].SwapBatch?;
      BatchIsFixedAtSwap(s1, steps[1..]);
      var n := Runs(steps[1..]);
      assert n <= |s1.batch|;
      if steps[0].RunNext? {
        RunOneMore(s.executed, s.batch, n);
      }
    }
  }

  /** When a functor starts, or user code of the loop thread calls queueInLoop, or the loop
      thread takes the mutex for the swap, the loop thread does not already hold it. */
  lemma MutexFreeForUserCode<F>(steps: seq<Step<F>>)
    requires CanRun(NewLoop<F>(), steps)
    ensures var s := Run(NewLoop<F>(), steps);
            s.UserCode() || s.pc.Entering? || Enabled(s, RunNext) ==> s.lock != LoopThread
    ensures var s := Run(NewLoop<F>(), steps);
            forall t, u :: t != u && (s.At(t).Holding? || s.At(t).Pushed?) ==>
              !(s.At(u).Holding? || s.At(u).Pushed?) && !LoopHolds(s)
  {
    RunKeepsInv(NewLoop<F>(), steps);
  }

  // ---------------------------------------------------------------------
  // A wakeup delivers
  // ---------------------------------------------------------------------

  function RunAll<F>(n: nat): seq<Step<F>> {
    if n == 0 then [EndBatch] else [RunNext] + RunAll(n - 1)
  }

  lemma {:induction false} RunAllRuns<F>(s: Loop<F>)
    requires s.pc.Running? && s.self.Idle?
    ensures CanRun(s, RunAll(|s.batch|))
    ensures Run(s, RunAll(|s.batch|)) ==
            s.(pc := Check, calling := false, batch := [], executed := s.executed + s.batch)
    decreases |s.batch|
  {
    var steps: seq<Step<F>> := RunAll(|s.batch|);
    if s.batch == [] {
      assert steps[1..] == [];
      assert s.executed + s.batch == s.executed;
    } else {
      var s1 := Next(s, RunNext);
      RunAllRuns(s1);
      assert steps[1..] == RunAll(|s1.batch|);
      assert s.executed + [s.batch[0]] + s.batch[1..] == s.executed + s.batch;
    }
  }

  lemma {:induction false} RunConcat<F>(s: Loop<F>, a: seq<Step<F>>, b: seq<Step<F>>)
    requires CanRun(s, a) && CanRun(Run(s, a), b)
    ensures CanRun(s, a + b) && Run(s, a + b) == Run(Run(s, a), b)
    decreases |a|
  {
    if a == [] {
      assert a + b == b;
    } else {
      assert (a + b)[1..] == a[1..] + b;
      RunConcat(Next(s, a[0]), a[1..], b);
    }
  }

  function ToSwap<F>(): seq<Step<F>> {
    [PollReturn(true), HandleRead, Enter]
  }

  function ToBatch<F>(): seq<Step<F>> {
    [SwapLock, SwapBatch, SwapUnlock]
  }

  lemma FromPollToSwap<F>(s: Loop<F>, s': Loop<F>)
    requires s.pc.Polling? && s.self.Idle? && s.counter > 0
    requires s' == s.(pc := Entering, counter := 0, calling := true)
    ensures CanRun(s, ToSwap()) && Run(s, ToSwap()) == s'
  {
    var steps: seq<Step<F>> := ToSwap();
    assert steps[1..] == [HandleRead, Enter] && steps[1..][1..] == [Enter] && steps[1..][1..][1..] == [];
  }

  lemma FromSwapToBatch<F>(s: Loop<F>, s': Loop<F>)
    requires s.pc.Entering? && s.lock.Nobody?
    requires s' == s.(pc := Running, batch := s.pending, pending := [], early := 0)
    ensures CanRun(s, ToBatch()) && Run(s, ToBatch()) == s'
  {
    var steps: seq<Step<F>> := ToBatch();
    assert steps[1..] == [SwapBatch, SwapUnlock] && steps[1..][1..] == [SwapUnlock] && steps[1..][1..][1..] == [];
  }

  function OneIteration<F>(n: nat): seq<Step<F>> {
    ToSwap() + (ToBatch() + RunAll(n))
  }

  lemma ThreeRuns<F>(s: Loop<F>, a: seq<Step<F>>, s1: Loop<F>, b: seq<Step<F>>, s2: Loop<F>, c: seq<Step<F>>)
    requires CanRun(s, a) && Run(s, a) == s1 && CanRun(s1, b) && Run(s1, b) == s2 && CanRun(s2, c)
    ensures CanRun(s, a + (b + c)) && Run(s, a + (b + c)) == Run(s2, c)
  {
    RunConcat(s1, b, c);
    RunConcat(s, a, b + c);
  }

  // The whole iteration, when nobody interferes.
  lemma OneIterationRuns<F>(s: Loop<F>)
    requires s.pc.Polling? && s.self.Idle? && s.counter > 0 && s.lock.Nobody?
    ensures var steps := OneIteration(|s.pending|);
            && CanRun(s, steps)
            && Run(s, steps) ==
               s.(pc := Check, calling := false, counter := 0, batch := [], pending := [], early := 0,
                  executed := s.executed + s.pending)
  {
    var s3 := s.(pc := Entering, counter := 0, calling := true);
    var s6 := s3.(pc := Running, batch := s.pending, pending := [], early := 0);
    assert CanRun(s, ToSwap()) && Run(s, ToSwap()) == s3 by { FromPollToSwap(s, s3); }
    assert CanRun(s3, ToBatch()) && Run(s3, ToBatch()) == s6 by { FromSwapToBatch(s3, s6); }
    RunAllRuns(s6);
    ThreeRuns(s, ToSwap(), s3, ToBatch(), s6, RunAll(|s.pending|));
  }

  lemma AwakenedAtRest<F>(s: Loop<F>)
    requires Inv(s) && s.pc.Polling? && (forall t :: s.At(t).Idle?)
    requires (s.pending != [] && s.early == 0) || s.quit
    ensures s.self.Idle? && s.lock.Nobody? && s.counter > 0
    ensures s.batch == [] && s.executed + s.pending == s.pushed
  {
    var t := if s.lock.Other? then s.lock.t else 0;
    assert s.At(t).Idle?;
    assert s.executed + [] == s.executed;
  }

  /** Let the other threads be at rest. A loop at poll with functors pending (or asked to
      quit) does not block: one iteration on its own runs every functor posted so far, and
      a quit ends the loop right after. */
  lemma AwakenedLoopDrains<F>(s: Loop<F>)
    requires Inv(s) && s.pc.Polling? && (forall t :: s.At(t).Idle?)
    requires (s.pending != [] && s.early == 0) || s.quit
    ensures var steps := OneIteration(|s.pending|);
            && CanRun(s, steps)
            && Run(s, steps).executed == s.pushed
            && Run(s, steps).pending == []
            && Run(s, steps).pc.Check?
            && (s.quit ==> Next(Run(s, steps), CheckQuit).pc.Exited?)
  {
    AwakenedAtRest(s);
    OneIterationRuns(s);
  }
}
