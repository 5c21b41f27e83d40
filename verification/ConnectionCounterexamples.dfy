// What other threads can do to a connection: for each condition that the laws
// of ConnectionTheorems and ConnectionCallbacks carry, a run that breaks the
// law.
module ConnectionCounterexamples {
  import opened BufferSpec
  import opened PollerSpec
  import opened ConnectionSpec
  import opened ConnectionRuns
  import opened ConnectionTheorems

  const NOBODY: Poller<int> := Poller(map[], map[], 0)

  const FRESH: View<int> := View(NewConn(0, 5, 0, false), NOBODY)

  // Established, and reached by good steps only.
  lemma Up() returns (v: View<int>)
    ensures CanRun(FRESH, [EvEstablished]) && v == Run(FRESH, [EvEstablished])
    ensures Good(v) && v.c.log == [ConnUp] && v.c.state == Connected && v.c.Idle() && !v.c.destroyed
    ensures v.c.foreign == NOTHING_FOREIGN
  {
    NewConnInv(0, 5, 0, false, NOBODY);
    StepKeeps(FRESH, EvEstablished);
    RunSnoc(FRESH, [], EvEstablished);
    var none: seq<Event<int>> := [];
    assert none + [EvEstablished] == [EvEstablished];
    v := Run(FRESH, [EvEstablished]);
  }

  // One more step of a run from FRESH.
  lemma Then(es: seq<Event<int>>, e: Event<int>)
    requires CanRun(FRESH, es) && Good(Run(FRESH, es)) && Enabled(Run(FRESH, es), e)
    ensures CanRun(FRESH, es + [e]) && Run(FRESH, es + [e]) == Step(Run(FRESH, es), e)
    ensures Good(Run(FRESH, es + [e]))
  {
    RunSnoc(FRESH, es, e);
    StepKeeps(Run(FRESH, es), e);
  }

  // The last step is late.
  lemma ThenLate(es: seq<Event<int>>, e: Event<int>)
    requires CanRun(FRESH, es) && Good(Run(FRESH, es)) && Enabled(Run(FRESH, es), e)
    requires Late(Run(FRESH, es).c, e)
    ensures CanRun(FRESH, es + [e]) && !HalfCloseClean(Run(FRESH, es + [e]).c.log)
  {
    Then(es, e);
    var v := Run(FRESH, es);
    StepKeeps(v, e);
    if HalfCloseClean(Step(v, e).c.log) {
      CleanPrefix(v.c.log, Step(v, e).c.log);
    }
  }

  const SEND_THEN_SHUT: seq<Event<int>> := [EvEstablished] + [EvRemoteSend([7])] + [EvShutdown]

  /** A send that passed its state test on another thread before the shutdown writes after
      the half-close. */
  lemma QueuedSendAfterHalfClose()
    ensures var es := SEND_THEN_SHUT + [EvQueuedSend([7], Wrote(1))];
            CanRun(FRESH, es) && !HalfCloseClean(Run(FRESH, es).c.log)
  {
    var v := Up();
    Then([EvEstablished], EvRemoteSend([7]));
    Then([EvEstablished] + [EvRemoteSend([7])], EvShutdown);
    var u := Run(FRESH, SEND_THEN_SHUT);
    assert u.c.log == [ConnUp, HalfClose(0)] && u.c.log[1].HalfClose?;
    ThenLate(SEND_THEN_SHUT, EvQueuedSend([7], Wrote(1)));
  }

  // One byte waits for EPOLLOUT, and another thread has passed the test in shutdown().
  const WAITING: seq<Event<int>> := [EvEstablished] + [EvSend([7], Wrote(0))] + [EvTestShutdown]

  lemma OneByteWaiting() returns (v: View<int>)
    ensures CanRun(FRESH, WAITING) && v == Run(FRESH, WAITING)
    ensures Good(v) && v.c.output.data == [7] && v.c.state == Connected && !v.c.destroyed
    ensures v.c.foreign == Foreign([], 1, 0, 0) && v.c.ch.IsWriting()
  {
    var up := Up();
    var e: Event<int> := EvSend([7], Wrote(0));
    assert [7][..0] == [] && [7][0..] == [7];
    Then([EvEstablished], e);
    var tail := BufferRestKeeps(up.(c := up.c.Note(Write([7][..0]))), [7][0..]);
    Then([EvEstablished] + [e], EvTestShutdown);
    v := Run(FRESH, WAITING);
  }

  const POSTED: seq<Event<int>> := WAITING + [EvStoreShutdown] + [EvPostShutdown]

  lemma ShutdownPosted() returns (v: View<int>)
    ensures CanRun(FRESH, POSTED) && v == Run(FRESH, POSTED)
    ensures Good(v) && v.c.output.data == [7] && v.c.state == Disconnecting && !v.c.destroyed
    ensures v.c.foreign == Foreign([], 0, 0, 1) && v.c.ch.IsWriting()
  {
    var w := OneByteWaiting();
    Then(WAITING, EvStoreShutdown);
    Then(WAITING + [EvStoreShutdown], EvPostShutdown);
    v := Run(FRESH, POSTED);
  }

  lemma DrainHalfCloses(v: View<int>)
    requires Good(v) && v.c.output.data == [7] && v.c.state == Disconnecting && !v.c.destroyed && v.c.ch.IsWriting()
    ensures Enabled(v, EvWritable(Wrote(1)))
    ensures var u := Step(v, EvWritable(Wrote(1))); HalfClosed(u.c.log) && u.c.foreign == v.c.foreign
  {
    DrainedEffect(v, Wrote(1));
    var u := HandleWrite(v, Wrote(1));
    assert u.c.log[|u.c.log| - 1] == HalfClose(0);
  }

  const DRAINED: seq<Event<int>> := POSTED + [EvWritable(Wrote(1))]

  /** A shutdown from another thread half-closes twice, once when handleWrite drains and once
      when its own functor runs. */
  lemma RemoteShutdownClosesTwice()
    ensures var es := DRAINED + [EvQueuedShutdown];
            CanRun(FRESH, es) && !HalfCloseClean(Run(FRESH, es).c.log)
  {
    var v := ShutdownPosted();
    DrainHalfCloses(v);
    Then(POSTED, EvWritable(Wrote(1)));
    ThenLate(DRAINED, EvQueuedShutdown);
  }

  const CUT_OFF: seq<Event<int>> := WAITING + [EvDestroyed] + [EvStoreShutdown] + [EvPostShutdown]

  lemma DestroyedWithOutput() returns (v: View<int>)
    ensures CanRun(FRESH, WAITING + [EvDestroyed]) && v == Run(FRESH, WAITING + [EvDestroyed]) && Good(v)
    ensures v.c.output.data == [7] && !v.c.ch.IsWriting() && v.c.foreign == Foreign([], 1, 0, 0)
  {
    var w := OneByteWaiting();
    Then(WAITING, EvDestroyed);
    DisabledEffect(w);
    v := Run(FRESH, WAITING + [EvDestroyed]);
  }

  /** One that passed its test before connectDistroyed half-closes over pending output. */
  lemma RemoteShutdownOverOutput()
    ensures var es := CUT_OFF + [EvQueuedShutdown];
            CanRun(FRESH, es) && !HalfCloseClean(Run(FRESH, es).c.log)
  {
    var v := DestroyedWithOutput();
    Then(WAITING + [EvDestroyed], EvStoreShutdown);
    Then(WAITING + [EvDestroyed] + [EvStoreShutdown], EvPostShutdown);
    ThenLate(CUT_OFF, EvQueuedShutdown);
  }

  const RACE: seq<Event<int>> := [EvEstablished] + [EvTestShutdown] + [EvHangup]

  lemma TestedThenClosed() returns (v: View<int>)
    ensures CanRun(FRESH, RACE) && v == Run(FRESH, RACE) && Good(v)
    ensures v.c.state == Disconnected && v.c.log == [ConnUp, ConnDown, CloseCallback]
    ensures v.c.foreign.tested == 1
  {
    var u := Up();
    Then([EvEstablished], EvTestShutdown);
    Then([EvEstablished] + [EvTestShutdown], EvHangup);
    v := Run(FRESH, RACE);
  }

  /** One that passed its test before handleClose takes the state back from kDisconnected:
      the application has been told, and the connection is not disconnected. */
  lemma RemoteShutdownGoesBack()
    ensures var es := RACE + [EvStoreShutdown];
            && CanRun(FRESH, RACE) && CanRun(FRESH, es)
            && Run(FRESH, RACE).c.state == Disconnected && Run(FRESH, es).c.state == Disconnecting
            && ConnDown in Run(FRESH, es).c.log
  {
    var v := TestedThenClosed();
    Then(RACE, EvStoreShutdown);
    assert v.c.log[1] == ConnDown;
  }
}
