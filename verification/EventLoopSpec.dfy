// src/EventLoop.cc as interleaved steps of the loop thread and any number of
// other threads. A step is what one thread does between two points where
// another may intervene; the mutex, the eventfd counter and the two atomic
// flags are part of the state.
module EventLoopSpec {

  // The eventfd counter saturates here: a further write is refused.
  const EVENTFD_MAX: nat := 0xffff_ffff_ffff_fffe

  datatype Holder = Nobody | LoopThread | Other(t: nat)

  // Where the loop thread is in loop() and doPendingFunctors().
  datatype LoopPc =
    | Check                     // about to read quit_
    | Polling                   // in epoll_wait
    | Dispatching(wake: bool)   // handling events; wake: the wakeup channel is still to be handled
    | Entering                  // callingPendingFunctors_ is set, the mutex not yet taken
    | Locked                    // mutex taken, not yet swapped
    | Swapped                   // swapped, mutex still held
    | Running                   // running the batch
    | Exited

  // Where a thread is inside queueInLoop (Holding to Waking) or quit (Quitting).
  datatype PostPc<F> =
    | Idle
    | Holding(f: F)             // mutex taken
    | Pushed                    // functor appended, mutex still held
    | Waking                    // mutex released, about to decide on wakeup()
    | Quitting                  // quit_ set, about to call wakeup()

  // early counts functors the loop thread posted outside handlers and functors
  // since the last swap. executed and pushed are the histories.
  datatype Loop<F> = Loop(
    pc: LoopPc, quit: bool, calling: bool, counter: nat, lock: Holder,
    pending: seq<F>, batch: seq<F>, self: PostPc<F>, others: map<nat, PostPc<F>>,
    early: nat, executed: seq<F>, pushed: seq<F>)
  {
    function At(t: nat): PostPc<F> {
      if t in others then others[t] else Idle
    }

    // In a handler or a functor, and not already inside queueInLoop.
    predicate UserCode() {
      (pc.Dispatching? || pc.Running?) && self.Idle?
    }

    function Push(f: F): Loop<F> {
      this.(pending := pending + [f], pushed := pushed + [f])
    }

    function WriteEventfd(): Loop<F> {
      this.(counter := if counter < EVENTFD_MAX then counter + 1 else counter)
    }
  }

  // loop() from where quit_ has been cleared.
  function NewLoop<F>(): Loop<F> {
    Loop(Check, false, false, 0, Nobody, [], [], Idle, map[], 0, [], [])
  }

  datatype Step<F> =
    // another thread in queueInLoop or quit
    | Lock(t: nat, f: F) | PushBack(t: nat) | Unlock(t: nat) | Wake(t: nat)
    | SetQuit(t: nat) | QuitWake(t: nat)
    // the loop thread in queueInLoop or quit, called by a handler or a functor
    | SelfLock(f: F) | SelfPushBack | SelfUnlock | SelfWake | SelfQuit
    // the loop thread in queueInLoop, called before loop()
    | EarlyPost(f: F)
    // the loop thread in loop() and doPendingFunctors()
    | CheckQuit | PollReturn(wake: bool) | HandleRead | Enter
    | SwapLock | SwapBatch | SwapUnlock | RunNext | EndBatch

  predicate Enabled<F>(s: Loop<F>, step: Step<F>) {
    match step
    case Lock(t, _) => s.At(t).Idle? && s.lock.Nobody?
    case PushBack(t) => s.At(t).Holding?
    case Unlock(t) => s.At(t).Pushed?
    case Wake(t) => s.At(t).Waking?
    case SetQuit(t) => s.At(t).Idle?
    case QuitWake(t) => s.At(t).Quitting?
    case SelfLock(_) => s.UserCode() && s.lock.Nobody?
    case SelfPushBack => s.self.Holding?
    case SelfUnlock => s.self.Pushed?
    case SelfWake => s.self.Waking?
    case SelfQuit => s.UserCode()
    case EarlyPost(_) => s.pc.Check? && s.lock.Nobody?
    case CheckQuit => s.pc.Check?
    case PollReturn(wake) => s.pc.Polling? && (wake ==> s.counter > 0)
    case HandleRead => s.pc == Dispatching(true) && s.self.Idle?
    case Enter => s.pc == Dispatching(false) && s.self.Idle?
    case SwapLock => s.pc.Entering? && s.lock.Nobody?
    case SwapBatch => s.pc.Locked?
    case SwapUnlock => s.pc.Swapped?
    case RunNext => s.pc.Running? && s.self.Idle? && s.batch != []
    case EndBatch => s.pc.Running? && s.self.Idle? && s.batch == []
  }

  function Next<F>(s: Loop<F>, step: Step<F>): Loop<F>
    requires Enabled(s, step)
  {
    match step
    case Lock(t, f) => s.(lock := Other(t), others := s.others[t := Holding(f)])
    case PushBack(t) => s.Push(s.At(t).f).(others := s.others[t := Pushed])
    case Unlock(t) => s.(lock := Nobody, others := s.others[t := Waking])
    case Wake(t) => s.WriteEventfd().(others := s.others[t := Idle])
    case SetQuit(t) => s.(quit := true, others := s.others[t := Quitting])
    case QuitWake(t) => s.WriteEventfd().(others := s.others[t := Idle])
    case SelfLock(f) => s.(lock := LoopThread, self := Holding(f))
    case SelfPushBack => s.Push(s.self.f).(self := Pushed)
    case SelfUnlock => s.(lock := Nobody, self := Waking)
    case SelfWake => (if s.calling then s.WriteEventfd() else s).(self := Idle)
    case SelfQuit => s.(quit := true)
    case EarlyPost(f) => s.Push(f).(early := s.early + 1)
    case CheckQuit => s.(pc := if s.quit then Exited else Polling)
    case PollReturn(wake) => s.(pc := Dispatching(wake))
    case HandleRead => s.(pc := Dispatching(false), counter := 0)
    case Enter => s.(pc := Entering, calling := true)
    case SwapLock => s.(pc := Locked, lock := LoopThread)
    case SwapBatch => s.(pc := Swapped, batch := s.pending, pending := [], early := 0)
    case SwapUnlock => s.(pc := Running, lock := Nobody)
    case RunNext => s.(executed := s.executed + [s.batch[0]], batch := s.batch[1..])
    case EndBatch => s.(pc := Check, calling := false)
  }

  ghost predicate CanRun<F>(s: Loop<F>, steps: seq<Step<F>>)
    decreases |steps|
  {
    steps == [] || (Enabled(s, steps[0]) && CanRun(Next(s, steps[0]), steps[1..]))
  }

  ghost function Run<F>(s: Loop<F>, steps: seq<Step<F>>): Loop<F>
    requires CanRun(s, steps)
    decreases |steps|
  {
    if steps == [] then s else Run(Next(s, steps[0]), steps[1..])
  }
}
