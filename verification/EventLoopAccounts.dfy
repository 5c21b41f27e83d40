// Every interleaving of a loop with its posters, by counting its steps: what is
// in the eventfd, whether quit was called, and how often each stage of a turn
// and of a post has been gone through.
module EventLoopAccounts {
  import opened EventLoopSpec
  import opened Basics
  import opened EventLoopTheorems

  // ---------------------------------------------------------------------
  // The eventfd
  // ---------------------------------------------------------------------

  // The writes of one: by another thread after its push or its quit, and by the loop thread
  // when a functor posts.
  predicate WritesOne<F>(s: Loop<F>, step: Step<F>) {
    step.Wake? || step.QuitWake? || (step.SelfWake? && s.pc.Running?)
  }

  // The writes since the last read, n before these steps.
  ghost function WritesSinceRead<F>(s: Loop<F>, steps: seq<Step<F>>, n: nat): nat
    requires CanRun(s, steps)
    decreases |steps|
  {
    if steps == [] then n else
      WritesSinceRead(Next(s, steps[0]), steps[1..],
                      if steps[0].HandleRead? then 0 else n + Count(WritesOne(s, steps[0])))
  }

  function Capped(n: nat): nat {
    if n <= EVENTFD_MAX then n else EVENTFD_MAX
  }

  lemma StepWrites<F>(s: Loop<F>, step: Step<F>, n: nat)
    requires TurnInv(s) && Enabled(s, step) && s.counter == Capped(n)
    ensures Next(s, step).counter == Capped(if step.HandleRead? then 0 else n + Count(WritesOne(s, step)))
  {
  }

  lemma {:induction false} RunWrites<F>(s: Loop<F>, steps: seq<Step<F>>, n: nat)
    requires Inv(s) && CanRun(s, steps) && s.counter == Capped(n)
    ensures Run(s, steps).counter == Capped(WritesSinceRead(s, steps, n))
    decreases |steps|
  {
    if steps != [] {
      StepWrites(s, steps[0], n);
      NextKeepsInv(s, steps[0]);
      RunWrites(Next(s, steps[0]), steps[1..], if steps[0].HandleRead? then 0 else n + Count(WritesOne(s, steps[0])));
    }
  }

  /** The eventfd holds one for each wakeup written since handleRead last read it: a post or a
      quit of another thread writes one, a post of the loop thread one exactly when it comes
      from a functor, and one read takes them all. */
  lemma EventfdIsExact<F>(steps: seq<Step<F>>)
    requires CanRun(NewLoop<F>(), steps)
    ensures Run(NewLoop<F>(), steps).counter == Capped(WritesSinceRead(NewLoop<F>(), steps, 0))
  {
    RunWrites(NewLoop<F>(), steps, 0);
  }

  // ---------------------------------------------------------------------
  // quit_
  // ---------------------------------------------------------------------

  predicate CallsQuit<F>(step: Step<F>) {
    step.SetQuit? || step.SelfQuit?
  }

  lemma {:induction false} QuitFrom<F>(s: Loop<F>, steps: seq<Step<F>>)
    requires CanRun(s, steps) && (s.pc.Exited? ==> s.quit)
    ensures Run(s, steps).quit <==> s.quit || exists i :: 0 <= i < |steps| && CallsQuit(steps[i])
    ensures Run(s, steps).pc.Exited? ==> Run(s, steps).quit
    decreases |steps|
  {
    if steps != [] {
      QuitFrom(Next(s, steps[0]), steps[1..]);
      if i :| 0 <= i < |steps[1..]| && CallsQuit(steps[1..][i]) {
        assert CallsQuit(steps[i + 1]);
      }
      if i :| 0 <= i < |steps| && CallsQuit(steps[i]) {
        assert i > 0 ==> CallsQuit(steps[1..][i - 1]);
      }
    }
  }

  /** quit_ is set exactly if someone has called quit, and the loop has ended only then; a
      loop that tests quit_ goes on exactly when nobody has. */
  lemma EndsExactlyOnQuit<F>(steps: seq<Step<F>>)
    requires CanRun(NewLoop<F>(), steps)
    ensures var s, called := Run(NewLoop<F>(), steps), exists i :: 0 <= i < |steps| && CallsQuit(steps[i]);
            && (s.quit <==> called)
            && (s.pc.Exited? ==> called)
            && (s.pc.Check? ==> Next(s, CheckQuit).pc == if called then Exited else Polling)
  {
    QuitFrom(NewLoop<F>(), steps);
  }

  // ---------------------------------------------------------------------
  // Stages
  // ---------------------------------------------------------------------

  // Where the loop thread can be in a turn, and any thread in a post or a quit. AtPoll
  // includes having left the loop for good.
  datatype Place =
    | AtCheck | AtPoll | AtDispatch | AtWakeup | AtEntering | AtLocked | AtSwapped | AtRunning
    | SelfHolding | SelfPushed | SelfWaking
    | Holding(t: nat) | Pushed(t: nat) | Waking(t: nat) | Quitting(t: nat)

  predicate IsAt<F>(s: Loop<F>, place: Place) {
    match place
    case AtCheck => s.pc.Check?
    case AtPoll => s.pc.Polling? || s.pc.Exited?
    case AtDispatch => s.pc.Dispatching?
    case AtWakeup => s.pc == Dispatching(true)
    case AtEntering => s.pc.Entering?
    case AtLocked => s.pc.Locked?
    case AtSwapped => s.pc.Swapped?
    case AtRunning => s.pc.Running?
    case SelfHolding => s.self.Holding?
    case SelfPushed => s.self.Pushed?
    case SelfWaking => s.self.Waking?
    case Holding(t) => s.At(t).Holding?
    case Pushed(t) => s.At(t).Pushed?
    case Waking(t) => s.At(t).Waking?
    case Quitting(t) => s.At(t).Quitting?
  }

  predicate GoesInto<F>(step: Step<F>, place: Place) {
    match place
    case AtCheck => step.EndBatch?
    case AtPoll => step.CheckQuit?
    case AtDispatch => step.PollReturn?
    case AtWakeup => step == PollReturn(true)
    case AtEntering => step.Enter?
    case AtLocked => step.SwapLock?
    case AtSwapped => step.SwapBatch?
    case AtRunning => step.SwapUnlock?
    case SelfHolding => step.SelfLock?
    case SelfPushed => step.SelfPushBack?
    case SelfWaking => step.SelfUnlock?
    case Holding(t) => step.Lock? && step.t == t
    case Pushed(t) => step == PushBack(t)
    case Waking(t) => step == Unlock(t)
    case Quitting(t) => step == SetQuit(t)
  }

  predicate Leaves<F>(step: Step<F>, place: Place) {
    match place
    case AtCheck => step.CheckQuit?
    case AtPoll => step.PollReturn?
    case AtDispatch => step.Enter?
    case AtWakeup => step.HandleRead?
    case AtEntering => step.SwapLock?
    case AtLocked => step.SwapBatch?
    case AtSwapped => step.SwapUnlock?
    case AtRunning => step.EndBatch?
    case SelfHolding => step.SelfPushBack?
    case SelfPushed => step.SelfUnlock?
    case SelfWaking => step.SelfWake?
    case Holding(t) => step == PushBack(t)
    case Pushed(t) => step == Unlock(t)
    case Waking(t) => step == Wake(t)
    case Quitting(t) => step == QuitWake(t)
  }

  function Ins<F>(steps: seq<Step<F>>, place: Place): nat
    decreases |steps|
  {
    if steps == [] then 0 else Count(GoesInto(steps[0], place)) + Ins(steps[1..], place)
  }

  function Outs<F>(steps: seq<Step<F>>, place: Place): nat
    decreases |steps|
  {
    if steps == [] then 0 else Count(Leaves(steps[0], place)) + Outs(steps[1..], place)
  }

  predicate InTurn(place: Place) {
    || place.AtCheck? || place.AtPoll? || place.AtDispatch? || place.AtWakeup?
    || place.AtEntering? || place.AtLocked? || place.AtSwapped? || place.AtRunning?
  }

  // How often this step goes into and leaves the place, and whether somebody is there.
  ghost predicate Passes<F>(s: Loop<F>, step: Step<F>, place: Place)
    requires Enabled(s, step)
  {
    Count(GoesInto(step, place)) + Count(IsAt(s, place)) ==
    Count(Leaves(step, place)) + Count(IsAt(Next(s, step), place))
  }

  lemma TurnPasses<F>(s: Loop<F>, step: Step<F>, place: Place)
    requires Enabled(s, step) && InTurn(place) && !OfOthers(step) && !OfUserCode(step)
    ensures Passes(s, step, place)
  {
  }

  lemma TurnUntouched<F>(s: Loop<F>, step: Step<F>, place: Place)
    requires Enabled(s, step) && InTurn(place) && (OfOthers(step) || OfUserCode(step))
    ensures Passes(s, step, place)
  {
    assert Next(s, step).pc == s.pc;
  }

  predicate InOwnPost(place: Place) {
    place.SelfHolding? || place.SelfPushed? || place.SelfWaking?
  }

  lemma OwnPostPasses<F>(s: Loop<F>, step: Step<F>, place: Place)
    requires Enabled(s, step) && InOwnPost(place)
    ensures Passes(s, step, place)
  {
    if !OfUserCode(step) {
      assert Next(s, step).self == s.self;
    }
  }

  lemma OtherPostPasses<F>(s: Loop<F>, step: Step<F>, place: Place)
    requires Enabled(s, step) && !InTurn(place) && !InOwnPost(place)
    ensures Passes(s, step, place)
  {
    if !(OfOthers(step) && step.t == place.t) {
      assert Next(s, step).At(place.t) == s.At(place.t);
    } else {
      OwnThreadPasses(s, step, place);
    }
  }

  lemma OwnThreadPasses<F>(s: Loop<F>, step: Step<F>, place: Place)
    requires Enabled(s, step) && !InTurn(place) && !InOwnPost(place) && OfOthers(step) && step.t == place.t
    ensures Passes(s, step, place)
  {
  }

  lemma StepPasses<F>(s: Loop<F>, step: Step<F>, place: Place)
    requires Enabled(s, step)
    ensures Passes(s, step, place)
  {
    if InOwnPost(place) {
      OwnPostPasses(s, step, place);
    } else if !InTurn(place) {
      OtherPostPasses(s, step, place);
    } else if OfOthers(step) || OfUserCode(step) {
      TurnUntouched(s, step, place);
    } else {
      TurnPasses(s, step, place);
    }
  }

  /** In every run each turn of loop() goes through its places once and in order (quit test,
      poll, event phase with the read of a reported eventfd, lock, swap, batch), and so does
      every post and every quit of every thread: a place has been left as often as it has been
      gone into, but for the thread that is there. */
  lemma {:induction false} PlacesOnceInOrder<F>(s: Loop<F>, steps: seq<Step<F>>, place: Place)
    requires CanRun(s, steps)
    ensures Ins(steps, place) + Count(IsAt(s, place)) == Outs(steps, place) + Count(IsAt(Run(s, steps), place))
    decreases |steps|
  {
    if steps != [] {
      StepPasses(s, steps[0], place);
      PlacesOnceInOrder(Next(s, steps[0]), steps[1..], place);
    }
  }
}
