// Whole runs of one connection: any order of events, any partial write, any
// error, and any calls on other channels of the same poller in between.
module ConnectionTheorems {
  import opened BufferSpec
  import opened Basics
  import opened PollerSpec
  import opened ConnectionSpec
  import opened ConnectionRuns

  // ---------------------------------------------------------------------
  // The invariant over runs
  // ---------------------------------------------------------------------

  // With a clean half-close behind it, a connection is idle.
  ghost predicate IdleOnceClosed<C>(c: Conn<C>) {
    HalfCloseClean(c.log) && HalfClosed(c.log) ==> c.Idle()
  }

  ghost predicate Good<C>(v: View<C>) {
    Inv(v) && IdleOnceClosed(v.c)
  }

  // A functor of another thread that calls ::write or ::shutdown on a write side already
  // shut, or ::shutdown over output that nothing will send. Known before the call.
  ghost predicate Late<C>(c: Conn<C>, e: Event<C>) {
    || (HalfClosed(c.log) && ((e.EvQueuedSend? && c.state != Disconnected) || e.EvQueuedShutdown?))
    || Strands(c, e)
  }

  ghost predicate ClosesOverOutput(more: seq<Action>) {
    exists i :: 0 <= i < |more| && more[i].HalfClose? && more[i].unsent > 0
  }

  lemma CleanConcat(log: seq<Action>, more: seq<Action>)
    requires HalfCloseClean(log)
    requires forall i :: 0 <= i < |more| && more[i].HalfClose? ==> i == |more| - 1
    ensures HalfCloseClean(log + more) <==> !(HalfClosed(log) && WritesOrCloses(more)) && !ClosesOverOutput(more)
  {
    var all := log + more;
    if ClosesOverOutput(more) {
      var j :| 0 <= j < |more| && more[j].HalfClose? && more[j].unsent > 0;
      assert all[|log| + j] == more[j];
    } else if HalfClosed(log) && WritesOrCloses(more) {
      var i :| 0 <= i < |log| && log[i].HalfClose?;
      var j :| 0 <= j < |more| && (more[j].Write? || more[j].HalfClose?);
      assert all[i].HalfClose? && all[|log| + j] == more[j];
    } else {
      forall i | 0 <= i < |all| && all[i].HalfClose?
        ensures all[i].unsent == 0
        ensures forall j :: i < j < |all| ==> !all[j].HalfClose? && !all[j].Write?
      {
        if i < |log| {
          assert log[i].HalfClose?;
          forall j | i < j < |all| ensures !all[j].HalfClose? && !all[j].Write? {
            if j >= |log| { assert all[j] == more[j - |log|]; }
          }
        } else {
          assert all[i] == more[i - |log|];
        }
      }
    }
  }

  lemma CleanPrefix(log: seq<Action>, longer: seq<Action>)
    requires log <= longer && HalfCloseClean(longer)
    ensures HalfCloseClean(log)
  {
    forall i | 0 <= i < |log| ensures log[i] == longer[i] {}
  }

  lemma HalfClosedConcat(log: seq<Action>, more: seq<Action>)
    ensures HalfClosed(log + more) <==> HalfClosed(log) || HalfClosed(more)
  {
    if HalfClosed(log) {
      var i :| 0 <= i < |log| && log[i].HalfClose?;
      assert (log + more)[i].HalfClose?;
    }
    if HalfClosed(more) {
      var i :| 0 <= i < |more| && more[i].HalfClose?;
      assert (log + more)[|log| + i].HalfClose?;
    }
  }

  lemma LogInvStep<C>(c: Conn<C>, e: Event<C>, c': Conn<C>, more: seq<Action>)
    requires LogInv(c) && OrderFacts(c, e, c', more)
    requires c'.log == c.log + more
    requires e.EvEstablished? ==> c.state == Connecting
    ensures LogInv(c')
  {
    HalfClosedConcat(c.log, more);
    forall i | 0 < i < |c'.log|
      ensures c'.log[i] != ConnUp
    {
      if i >= |c.log| { assert c'.log[i] == more[i - |c.log|]; }
    }
  }

  lemma IdleOnceClosedStep<C>(c: Conn<C>, e: Event<C>, c': Conn<C>, more: seq<Action>)
    requires LogInv(c) && IdleOnceClosed(c) && OrderFacts(c, e, c', more)
    requires c'.log == c.log + more
    ensures IdleOnceClosed(c')
    ensures HalfCloseClean(c.log) ==> (HalfCloseClean(c'.log) <==> !Late(c, e))
  {
    HalfClosedConcat(c.log, more);
    if HalfCloseClean(c.log) {
      CleanConcat(c.log, more);
      assert ClosesOverOutput(more) <==> Strands(c, e);
    } else if HalfCloseClean(c'.log) {
      CleanPrefix(c.log, c'.log);
    }
  }

  /** One event: the invariant, and exactly when it spoils a clean half-close. */
  lemma StepKeeps<C>(v: View<C>, e: Event<C>)
    requires Good(v) && Enabled(v, e)
    ensures Good(Step(v, e))
    ensures v.c.log <= Step(v, e).c.log
    ensures Rank(Step(v, e).c.state) < Rank(v.c.state) <==> Overtaken(v.c, e)
    ensures Step(v, e).c.self == v.c.self && Step(v, e).c.ch.fd == v.c.ch.fd
    ensures HalfCloseClean(v.c.log) ==> (HalfCloseClean(Step(v, e).c.log) <==> !Late(v.c, e))
  {
    if e.EvOthers? {
      AgreementIsLocal(v.p, e.q, v.c.self, v.c.ch);
    } else {
      var more := StepFacts(v, e);
      LogInvStep(v.c, e, Step(v, e).c, more);
      IdleOnceClosedStep(v.c, e, Step(v, e).c, more);
    }
  }

  // The state after the first k events.
  ghost function After<C>(v: View<C>, es: seq<Event<C>>, k: nat): View<C>
    requires CanRun(v, es) && k <= |es|
    decreases k
  {
    if k == 0 then v else After(Step(v, es[0]), es[1..], k - 1)
  }

  lemma {:induction false} AfterIsGood<C>(v: View<C>, es: seq<Event<C>>, k: nat)
    requires Good(v) && CanRun(v, es) && k <= |es|
    ensures Good(After(v, es, k)) && v.c.log <= After(v, es, k).c.log
    ensures After(v, es, k).c.self == v.c.self && After(v, es, k).c.ch.fd == v.c.ch.fd
    decreases k
  {
    if k > 0 {
      StepKeeps(v, es[0]);
      AfterIsGood(Step(v, es[0]), es[1..], k - 1);
    }
  }

  lemma {:induction false} AfterOneMore<C>(v: View<C>, es: seq<Event<C>>, k: nat)
    requires CanRun(v, es) && k < |es|
    ensures Enabled(After(v, es, k), es[k]) && After(v, es, k + 1) == Step(After(v, es, k), es[k])
    decreases k
  {
    if k > 0 {
      AfterOneMore(Step(v, es[0]), es[1..], k - 1);
    }
  }

  lemma {:induction false} RunSnoc<C>(v: View<C>, es: seq<Event<C>>, e: Event<C>)
    requires CanRun(v, es) && Enabled(Run(v, es), e)
    ensures CanRun(v, es + [e]) && Run(v, es + [e]) == Step(Run(v, es), e)
    decreases |es|
  {
    if es == [] {
      assert [e][1..] == [];
    } else {
      assert (es + [e])[1..] == es[1..] + [e];
      RunSnoc(Step(v, es[0]), es[1..], e);
    }
  }

  lemma {:induction false} AfterAll<C>(v: View<C>, es: seq<Event<C>>)
    requires CanRun(v, es)
    ensures After(v, es, |es|) == Run(v, es)
    decreases |es|
  {
    if es != [] {
      AfterAll(Step(v, es[0]), es[1..]);
    }
  }

  /** connectEstablished comes first and once, at every moment of every run; the log only
      grows. */
  lemma {:induction false} EstablishedFirstAndOnce<C>(v: View<C>, es: seq<Event<C>>, j: nat, k: nat)
    requires Good(v) && CanRun(v, es) && j <= k <= |es|
    ensures After(v, es, j).c.log <= After(v, es, k).c.log
    ensures var u := After(v, es, k).c;
            && (u.state == Connecting <==> u.log == [])
            && (u.log != [] ==> u.log[0] == ConnUp)
            && (forall i :: 0 < i < |u.log| ==> u.log[i] != ConnUp)
    decreases k
  {
    if j == 0 {
      AfterIsGood(v, es, k);
    } else {
      StepKeeps(v, es[0]);
      EstablishedFirstAndOnce(Step(v, es[0]), es[1..], j - 1, k - 1);
    }
  }

  // ---------------------------------------------------------------------
  // The state moves forward
  // ---------------------------------------------------------------------

  // No other thread's shutdown() stores its kDisconnecting after handleClose.
  ghost predicate NeverOvertaken<C>(v: View<C>, es: seq<Event<C>>)
    requires CanRun(v, es)
    decreases |es|
  {
    es == [] || (!Overtaken(v.c, es[0]) && NeverOvertaken(Step(v, es[0]), es[1..]))
  }

  ghost predicate OnlyForward<C>(v: View<C>, es: seq<Event<C>>)
    requires CanRun(v, es)
  {
    forall j: nat, k: nat :: j <= k <= |es| ==> Rank(After(v, es, j).c.state) <= Rank(After(v, es, k).c.state)
  }

  lemma {:induction false} ForwardBetween<C>(v: View<C>, es: seq<Event<C>>, j: nat, k: nat)
    requires Good(v) && CanRun(v, es) && NeverOvertaken(v, es) && j <= k <= |es|
    ensures Rank(After(v, es, j).c.state) <= Rank(After(v, es, k).c.state)
    decreases k
  {
    if k > 0 {
      StepKeeps(v, es[0]);
      ForwardBetween(Step(v, es[0]), es[1..], if j == 0 then 0 else j - 1, k - 1);
    }
  }

  lemma {:induction false} OvertakenGoesBack<C>(v: View<C>, es: seq<Event<C>>) returns (k: nat)
    requires Good(v) && CanRun(v, es) && !NeverOvertaken(v, es)
    ensures k < |es| && Overtaken(After(v, es, k).c, es[k])
    ensures Rank(After(v, es, k + 1).c.state) < Rank(After(v, es, k).c.state)
    decreases |es|
  {
    StepKeeps(v, es[0]);
    if Overtaken(v.c, es[0]) {
      k := 0;
      AfterOneMore(v, es, 0);
    } else {
      k := OvertakenGoesBack(Step(v, es[0]), es[1..]);
      k := k + 1;
    }
  }

  /** The state only moves forward in a run exactly when no other thread's shutdown() tests
      the state before handleClose and stores kDisconnecting after it. */
  lemma StateIsMonotoneExactly<C>(v: View<C>, es: seq<Event<C>>)
    requires Good(v) && CanRun(v, es)
    ensures OnlyForward(v, es) <==> NeverOvertaken(v, es)
  {
    if NeverOvertaken(v, es) {
      forall j: nat, k: nat | j <= k <= |es|
        ensures Rank(After(v, es, j).c.state) <= Rank(After(v, es, k).c.state)
      {
        ForwardBetween(v, es, j, k);
      }
    } else {
      var k := OvertakenGoesBack(v, es);
      assert k <= k + 1 <= |es|;
    }
  }

  // ---------------------------------------------------------------------
  // Output conservation
  // ---------------------------------------------------------------------

  // The payloads of all sendInLoop calls that are not dropped, in order.
  ghost function Accepted<C>(v: View<C>, es: seq<Event<C>>): seq<byte>
    requires CanRun(v, es)
    decreases |es|
  {
    if es == [] then [] else Payload(v.c, es[0]) + Accepted(Step(v, es[0]), es[1..])
  }

  lemma Regroup<T>(front: seq<T>, a: seq<T>, b: seq<T>, c: seq<T>, d: seq<T>)
    requires c + d == a + b
    ensures (front + a) + b == front + c + d
  {
    assert (front + a) + b == front + (a + b);
  }

  lemma StepConserves<C>(v: View<C>, e: Event<C>)
    requires Good(v) && Enabled(v, e)
    ensures Wire(Step(v, e).c.log) + Step(v, e).c.output.data ==
            Wire(v.c.log) + v.c.output.data + Payload(v.c, e)
  {
    if !e.EvOthers? {
      var more := StepFacts(v, e);
      ReadConcat(v.c.log, more);
      Regroup(Wire(v.c.log), Wire(more), Step(v, e).c.output.data, v.c.output.data, Payload(v.c, e));
    }
  }

  /** What the kernel has, then what is still buffered: nothing lost, repeated or reordered. */
  lemma {:induction false} OutputConservation<C>(v: View<C>, es: seq<Event<C>>)
    requires Good(v) && CanRun(v, es)
    ensures Wire(Run(v, es).c.log) + Run(v, es).c.output.data ==
            Wire(v.c.log) + v.c.output.data + Accepted(v, es)
    decreases |es|
  {
    if es != [] {
      StepKeeps(v, es[0]);
      StepConserves(v, es[0]);
      OutputConservation(Step(v, es[0]), es[1..]);
    }
  }

  // ---------------------------------------------------------------------
  // Half-close
  // ---------------------------------------------------------------------

  ghost predicate NeverLate<C>(v: View<C>, es: seq<Event<C>>)
    requires CanRun(v, es)
    decreases |es|
  {
    es == [] || (!Late(v.c, es[0]) && NeverLate(Step(v, es[0]), es[1..]))
  }

  lemma {:induction false} LogGrows<C>(v: View<C>, es: seq<Event<C>>)
    requires Good(v) && CanRun(v, es)
    ensures Good(Run(v, es)) && v.c.log <= Run(v, es).c.log
    decreases |es|
  {
    if es != [] {
      StepKeeps(v, es[0]);
      LogGrows(Step(v, es[0]), es[1..]);
    }
  }

  /** The half-close protocol (once, nothing unsent, no write after) holds in a run exactly
      when no functor posted by another thread runs against an already shut write side. */
  lemma {:induction false} HalfCloseIsExact<C>(v: View<C>, es: seq<Event<C>>)
    requires Good(v) && HalfCloseClean(v.c.log) && CanRun(v, es)
    ensures HalfCloseClean(Run(v, es).c.log) <==> NeverLate(v, es)
    decreases |es|
  {
    if es != [] {
      var u := Step(v, es[0]);
      StepKeeps(v, es[0]);
      if Late(v.c, es[0]) {
        LogGrows(u, es[1..]);
        if HalfCloseClean(Run(v, es).c.log) {
          CleanPrefix(u.c.log, Run(v, es).c.log);
        }
      } else {
        HalfCloseIsExact(u, es[1..]);
      }
    }
  }

  // send and shutdown called on the loop's own thread.
  predicate OnLoopThread<C>(e: Event<C>) {
    && !e.EvRemoteSend? && !e.EvQueuedSend?
    && !e.EvTestShutdown? && !e.EvStoreShutdown? && !e.EvPostShutdown? && !e.EvQueuedShutdown?
    && !e.EvDestroyedOverStore?
  }

  lemma {:induction false} LoopThreadIsNeverLate<C>(v: View<C>, es: seq<Event<C>>)
    requires CanRun(v, es) && forall e :: e in es ==> OnLoopThread(e)
    ensures NeverLate(v, es) && NeverOvertaken(v, es)
    decreases |es|
  {
    if es != [] {
      assert OnLoopThread(es[0]);
      LoopThreadIsNeverLate(Step(v, es[0]), es[1..]);
    }
  }

  /** For a connection driven from its loop thread: at most one half-close in any run, no
      write after it, and by then every accepted byte is with the kernel, for good. */
  lemma GracefulHalfClose<C>(self: C, fd: int, mark: nat, notify: bool, p: Poller<C>, es: seq<Event<C>>)
    requires fd !in p.channels && fd !in p.kernel
    requires CanRun(View(NewConn(self, fd, mark, notify), p), es)
    requires forall e :: e in es ==> OnLoopThread(e)
    ensures var v := View(NewConn(self, fd, mark, notify), p);
            var c := Run(v, es).c;
            && HalfCloseClean(c.log)
            && (HalfClosed(c.log) ==> c.output.data == [] && Wire(c.log) == Accepted(v, es))
  {
    var v := View(NewConn(self, fd, mark, notify), p);
    NewConnInv(self, fd, mark, notify, p);
    LoopThreadIsNeverLate(v, es);
    HalfCloseIsExact(v, es);
    LogGrows(v, es);
    OutputConservation(v, es);
    assert Wire(v.c.log) + v.c.output.data + Accepted(v, es) == Accepted(v, es);
  }

  // ---------------------------------------------------------------------
  // Pending output is scheduled
  // ---------------------------------------------------------------------

  /** From establishment to destruction the output buffer is non-empty exactly when the
      kernel is asked for EPOLLOUT on this fd; and the fd is in the kernel's set. */
  lemma PendingOutputIsScheduled<C>(v: View<C>, es: seq<Event<C>>, k: nat)
    requires Good(v) && CanRun(v, es) && k <= |es|
    ensures var u := After(v, es, k);
            u.c.state != Connecting && !u.c.destroyed ==>
              && u.c.ch.fd in u.p.kernel
              && (u.c.output.data != [] <==> EPOLLOUT in u.p.kernel[u.c.ch.fd])
              && (u.c.output.data != [] <==> u.c.ch.IsWriting())
  {
    AfterIsGood(v, es, k);
  }

  // ---------------------------------------------------------------------
  // Callback accounting
  // ---------------------------------------------------------------------

  ghost function SendCalls<C>(v: View<C>, es: seq<Event<C>>): nat
    requires CanRun(v, es)
    decreases |es|
  {
    if es == [] then 0 else Count(CallsSendInLoop(v.c, es[0])) + SendCalls(Step(v, es[0]), es[1..])
  }

  // How often the buffered length goes from below the mark to the mark or above.
  ghost function Crossings<C>(v: View<C>, es: seq<Event<C>>): nat
    requires CanRun(v, es)
    decreases |es|
  {
    if es == [] then 0 else
      var u := Step(v, es[0]);
      Count(CrossesMark(v.c.mark, |v.c.output.data|, |u.c.output.data|)) + Crossings(u, es[1..])
  }

  ghost predicate CompletesWithNothingLeft(log: seq<Action>) {
    forall i :: 0 <= i < |log| && log[i].QueueWriteComplete? ==> log[i].unsent == 0
  }

  lemma CompletesConcat(log: seq<Action>, more: seq<Action>)
    requires CompletesWithNothingLeft(log) && CompletesWithNothingLeft(more)
    ensures CompletesWithNothingLeft(log + more)
  {
  }

  lemma StepAccounts<C>(v: View<C>, e: Event<C>)
    requires Good(v) && Enabled(v, e) && CompletesWithNothingLeft(v.c.log)
    ensures Step(v, e).c.mark == v.c.mark
    ensures var u := Step(v, e);
            && WriteCompletes(u.c.log) + Count(u.c.output.data != []) <=
                 WriteCompletes(v.c.log) + Count(v.c.output.data != []) + Count(CallsSendInLoop(v.c, e))
            && CompletesWithNothingLeft(u.c.log)
            && HighWaters(u.c.log) == HighWaters(v.c.log) +
                 Count(CrossesMark(v.c.mark, |v.c.output.data|, |u.c.output.data|))
  {
    if !e.EvOthers? {
      var more := StepFacts(v, e);
      ReadConcat(v.c.log, more);
      CompletesConcat(v.c.log, more);
    }
  }

  /** Write-completes never outnumber sendInLoop calls and are queued with nothing buffered;
      high-water notifications are exactly the upward crossings of the mark. */
  lemma {:induction false} CallbackAccounting<C>(v: View<C>, es: seq<Event<C>>)
    requires Good(v) && CanRun(v, es) && CompletesWithNothingLeft(v.c.log)
    ensures var w := Run(v, es);
            && WriteCompletes(w.c.log) + Count(w.c.output.data != []) <=
                 WriteCompletes(v.c.log) + Count(v.c.output.data != []) + SendCalls(v, es)
            && CompletesWithNothingLeft(w.c.log)
            && HighWaters(w.c.log) == HighWaters(v.c.log) + Crossings(v, es)
    decreases |es|
  {
    if es != [] {
      StepKeeps(v, es[0]);
      StepAccounts(v, es[0]);
      CallbackAccounting(Step(v, es[0]), es[1..]);
    }
  }

  lemma {:induction false} AccountsStay<C>(v: View<C>, es: seq<Event<C>>, k: nat)
    requires Good(v) && CanRun(v, es) && CompletesWithNothingLeft(v.c.log) && k <= |es|
    ensures CompletesWithNothingLeft(After(v, es, k).c.log) && After(v, es, k).c.mark == v.c.mark
    decreases k
  {
    if k > 0 {
      StepKeeps(v, es[0]);
      StepAccounts(v, es[0]);
      AccountsStay(Step(v, es[0]), es[1..], k - 1);
    }
  }

  /** Event k queues a high-water notification exactly when it takes the buffered length from
      below the mark to it or above; so between two of them the length was below the mark. */
  lemma HighWaterIsACrossing<C>(v: View<C>, es: seq<Event<C>>, k: nat)
    requires Good(v) && CanRun(v, es) && CompletesWithNothingLeft(v.c.log) && k < |es|
    ensures var before, after := After(v, es, k).c, After(v, es, k + 1).c;
            HighWaters(after.log) - HighWaters(before.log) ==
              if |before.output.data| < v.c.mark <= |after.output.data| then 1 else 0
  {
    AfterIsGood(v, es, k);
    AccountsStay(v, es, k);
    AfterOneMore(v, es, k);
    StepAccounts(After(v, es, k), es[k]);
  }

  // ---------------------------------------------------------------------
  // Input conservation
  // ---------------------------------------------------------------------

  function Got<C>(e: Event<C>): seq<byte> {
    if e.EvReadable? && e.rd.Delivered? then e.rd.bytes else []
  }

  function Taken<C>(c: Conn<C>, e: Event<C>): seq<byte> {
    if !e.EvConsume? then [] else if e.n <= |c.input.data| then c.input.data[..e.n] else c.input.data
  }

  ghost function Received<C>(es: seq<Event<C>>): seq<byte> {
    if es == [] then [] else Got(es[0]) + Received(es[1..])
  }

  ghost function Consumed<C>(v: View<C>, es: seq<Event<C>>): seq<byte>
    requires CanRun(v, es)
    decreases |es|
  {
    if es == [] then [] else Taken(v.c, es[0]) + Consumed(Step(v, es[0]), es[1..])
  }

  lemma SendKeepsInput<C>(v: View<C>, data: seq<byte>, r: WriteResult)
    requires v.c.Valid() && KernelCanWrite(|data|, r)
    ensures SendInLoop(v, data, r).c.input == v.c.input
  {
  }

  lemma WriteKeepsInput<C>(v: View<C>, w: WriteResult)
    requires v.c.Valid() && KernelCanWrite(|v.c.output.data|, w)
    ensures HandleWrite(v, w).c.input == v.c.input
  {
  }

  // connectEstablished, connectDistroyed, and what shutdowns and remote calls do.
  lemma OtherEventsKeepInput<C>(v: View<C>, e: Event<C>)
    requires Enabled(v, e) && !CallsSendInLoop(v.c, e) && !e.EvWritable? && !e.EvReadable? && !e.EvConsume?
    ensures Step(v, e).c.input == v.c.input
  {
  }

  lemma ReadInput<C>(v: View<C>, rd: ReadResult)
    requires v.c.Valid() && KernelCanRead(v.c.input, rd)
    ensures HandleRead(v.c, rd).input.data == v.c.input.data + if rd.Delivered? then rd.bytes else []
  {
  }

  lemma StepInput<C>(v: View<C>, e: Event<C>)
    requires Enabled(v, e)
    ensures Taken(v.c, e) + Step(v, e).c.input.data == v.c.input.data + Got(e)
  {
    if CallsSendInLoop(v.c, e) {
      SendKeepsInput(if e.EvQueuedSend? then v.(c := TakeSend(v.c)) else v, e.data, e.r);
    } else if e.EvWritable? {
      WriteKeepsInput(v, e.w);
    } else if e.EvReadable? {
      ReadInput(v, e.rd);
    } else if e.EvConsume? {
      assert v.c.input.data[|v.c.input.data|..] == [];
    } else {
      OtherEventsKeepInput(v, e);
    }
  }

  lemma Chain<T>(t: seq<T>, u: seq<T>, i: seq<T>, g: seq<T>, rest: seq<T>, end: seq<T>, later: seq<T>)
    requires t + u == i + g && rest + end == u + later
    ensures (t + rest) + end == i + (g + later)
  {
    assert (t + rest) + end == t + (rest + end);
    assert t + (u + later) == (t + u) + later;
  }

  /** The application gets the received stream in order, the rest waits in the buffer. */
  lemma {:induction false} InputConservation<C>(v: View<C>, es: seq<Event<C>>)
    requires Good(v) && CanRun(v, es)
    ensures Consumed(v, es) + Run(v, es).c.input.data == v.c.input.data + Received(es)
    decreases |es|
  {
    if es != [] {
      var u := Step(v, es[0]);
      StepKeeps(v, es[0]);
      StepInput(v, es[0]);
      InputConservation(u, es[1..]);
      Chain(Taken(v.c, es[0]), u.c.input.data, v.c.input.data, Got(es[0]),
            Consumed(u, es[1..]), Run(u, es[1..]).c.input.data, Received(es[1..]));
    }
  }
}
