// src/TcpServer.cc over many loops: accept on the base loop, establish on an
// io loop, close on the io loop, erase on the base loop, destroy on the io
// loop. Every hop is a functor in some loop's queue. A step is one handler,
// one functor or one turn of a loop; steps of different loops interleave
// freely. Loop 0 is the base loop, the io loops are 1 to n.
module ServerSpec {
  import opened PollerSpec
  import opened BufferSpec
  import CS = ConnectionSpec
  import opened TaskQueue
  import opened ThreadPools
  import opened ConnectionNames

  // A connection is named by its nextConnId_; loop is where it lives.
  datatype Live = Live(loop: nat, conn: CS.Conn<nat>)

  // Each of these functors holds the TcpConnectionPtr.
  datatype Functor = Establish(c: nat) | RemoveInLoop(c: nat) | Destroy(c: nat)

  // active: the channels that epoll_wait returned and that are still to be handled.
  datatype Phase = AtPoll | Dispatch(active: seq<nat>) | RunningBatch

  datatype LoopState = LoopState(phase: Phase, queue: Queue<Functor>, poller: Poller<nat>)

  // fault is set when code runs on a connection object that is no more.
  datatype Server = Server(
    name: string, ipPort: string, notify: bool,
    pool: Pool<nat>, loops: seq<LoopState>,
    conns: map<nat, Live>,                 // the TcpConnection objects in existence
    connections: map<string, nat>,         // connections_
    nextId: nat, fault: bool)
  {
    function NameOf(c: nat): string {
      ConnName(name, ipPort, c)
    }

    predicate Usable(c: nat) {
      c in conns && conns[c].loop < |loops| && conns[c].conn.Valid()
    }

    function ViewOf(c: nat): CS.View<nat>
      requires Usable(c)
    {
      CS.View(conns[c].conn, loops[conns[c].loop].poller)
    }

    // The connection and its loop's poller become those of v.
    function WithView(c: nat, v: CS.View<nat>): Server
      requires Usable(c)
    {
      var l := conns[c].loop;
      this.(conns := conns[c := Live(l, v.c)], loops := loops[l := loops[l].(poller := v.p)])
    }

    function Post(l: nat, f: Functor): Server
      requires l < |loops|
    {
      this.(loops := loops[l := loops[l].(queue := Push(loops[l].queue, f))])
    }

    function WithPhase(l: nat, phase: Phase): Server
      requires l < |loops|
    {
      this.(loops := loops[l := loops[l].(phase := phase)])
    }

    // A shared_ptr to c outside the application: in connections_ or in a queued functor.
    ghost predicate Held(c: nat) {
      || (exists nm :: nm in connections && connections[nm] == c)
      || (exists l, f :: 0 <= l < |loops| && f in loops[l].queue.All() && f.c == c)
    }
  }

  function IoLoops(n: nat): seq<nat> {
    seq(n, i => i + 1)
  }

  function NewServer(name: string, ipPort: string, notify: bool, n: nat): Server {
    Server(name, ipPort, notify, Pool(0, IoLoops(n), 0),
           seq(n + 1, _ => LoopState(AtPoll, Queue([], []), Poller(map[], map[], 0))),
           map[], map[], 1, false)
  }

  // removeConnectionInLoop, on the base loop.
  function Erase(s: Server, c: nat): Server
    requires s.Usable(c)
  {
    s.(connections := s.connections - {s.NameOf(c)}).Post(s.conns[c].loop, Destroy(c))
  }

  // removeConnection, called on loop l: runInLoop runs at once when l is the base loop.
  function RemoveConnection(s: Server, l: nat, c: nat): Server
    requires s.Usable(c)
  {
    if l == 0 then Erase(s, c) else s.Post(0, RemoveInLoop(c))
  }

  function Execute(s: Server, f: Functor): Server {
    if !s.Usable(f.c) then s.(fault := true) else
      match f
      case Establish(c) => s.WithView(c, CS.ConnectEstablished(s.ViewOf(c)))
      case RemoveInLoop(c) => Erase(s, c)
      case Destroy(c) => s.WithView(c, CS.ConnectDestroyed(s.ViewOf(c)))
  }

  // newConnection, on the base loop.
  function NewConnection(s: Server, fd: int): Server
    requires s.pool.Valid()
  {
    var (l, pool) := NextLoop(s.pool);
    var id := s.nextId;
    var s1 := s.(pool := pool, nextId := id + 1,
                 conns := s.conns[id := Live(l, CS.NewConn(id, fd, CS.HIGH_WATER_MARK, s.notify))],
                 connections := s.connections[s.NameOf(id) := id]);
    if l >= |s.loops| then s.(fault := true)
    else if l == 0 then Execute(s1, Establish(id))
    else s1.Post(l, Establish(id))
  }

  // What the channel callbacks can be: handleWrite, handleRead, handleClose.
  predicate IsChannelEvent(e: CS.Event<nat>) {
    e.EvWritable? || e.EvReadable? || e.EvHangup?
  }

  // What the application calls on the connection's own loop thread.
  predicate IsUserEvent(e: CS.Event<nat>) {
    e.EvSend? || e.EvShutdown? || e.EvConsume?
  }

  predicate KernelAllows(c: CS.Conn<nat>, e: CS.Event<nat>)
    requires c.Valid()
  {
    match e
    case EvSend(data, r) => CS.KernelCanWrite(|data|, r)
    case EvWritable(w) => CS.KernelCanWrite(|c.output.data|, w)
    case EvReadable(rd) => KernelCanRead(c.input, rd)
    case _ => true
  }

  function OnEvent(v: CS.View<nat>, e: CS.Event<nat>): CS.View<nat>
    requires v.c.Valid() && KernelAllows(v.c, e) && (IsChannelEvent(e) || IsUserEvent(e))
  {
    match e
    case EvWritable(w) => CS.HandleWrite(v, w)
    case EvReadable(rd) => v.(c := CS.HandleRead(v.c, rd))
    case EvHangup => v.(c := CS.HandleClose(v.c))
    case EvSend(data, r) => if v.c.state == CS.Connected then CS.SendInLoop(v, data, r) else v
    case EvShutdown => v.(c := CS.Shutdown(v.c))
    case EvConsume(n) => v.(c := v.c.(input := Retrieve(v.c.input, n)))
  }

  datatype Step =
    | Accept(fd: int)                              // the acceptor's handler on the base loop
    | PollReturns(l: nat, active: seq<nat>)
    | Handle(l: nat, e: CS.Event<nat>)             // one callback of the first active channel
    | NextActive(l: nat)
    | SwapQueue(l: nat)
    | RunFunctor(l: nat)
    | EndBatch(l: nat)
    | User(l: nat, c: nat, e: CS.Event<nat>)       // application code in a handler or functor of l
    | Release(c: nat)                              // the last reference goes: ~TcpConnection closes the fd

  // epoll_wait reports fds of the kernel's set; here each stands for its channel.
  ghost predicate CanReport(p: Poller<nat>, c: nat) {
    exists fd :: fd in p.kernel && fd in p.channels && p.channels[fd] == c
  }

  ghost predicate Enabled(s: Server, step: Step) {
    match step
    case Accept(fd) =>
      && 0 < |s.loops| && s.loops[0].phase.Dispatch? && s.pool.Valid()
      && (forall c :: c in s.conns ==> s.conns[c].conn.ch.fd != fd)
      && Fits(s.ipPort, s.nextId)
    case PollReturns(l, active) =>
      && l < |s.loops| && s.loops[l].phase.AtPoll?
      && forall i :: 0 <= i < |active| ==> CanReport(s.loops[l].poller, active[i])
    case Handle(l, e) =>
      && l < |s.loops| && s.loops[l].phase.Dispatch? && s.loops[l].phase.active != []
      && IsChannelEvent(e)
      && var c := s.loops[l].phase.active[0];
         s.Usable(c) ==> KernelAllows(s.conns[c].conn, e)
    case NextActive(l) => l < |s.loops| && s.loops[l].phase.Dispatch? && s.loops[l].phase.active != []
    case SwapQueue(l) => l < |s.loops| && s.loops[l].phase == Dispatch([]) && s.loops[l].queue.batch == []
    case RunFunctor(l) => l < |s.loops| && s.loops[l].phase.RunningBatch? && s.loops[l].queue.batch != []
    case EndBatch(l) => l < |s.loops| && s.loops[l].phase.RunningBatch? && s.loops[l].queue.batch == []
    case User(l, c, e) =>
      && l < |s.loops| && !s.loops[l].phase.AtPoll?
      && s.Usable(c) && s.conns[c].loop == l && IsUserEvent(e) && KernelAllows(s.conns[c].conn, e)
    case Release(c) => c in s.conns && !s.Held(c)
  }

  function Next(s: Server, step: Step): Server
    requires Enabled(s, step)
  {
    match step
    case Accept(fd) => NewConnection(s, fd)
    case PollReturns(l, active) => s.WithPhase(l, Dispatch(active))
    case Handle(l, e) =>
      var c := s.loops[l].phase.active[0];
      if !s.Usable(c) then s.(fault := true) else
        var s1 := s.WithView(c, OnEvent(s.ViewOf(c), e));
        if CS.Closes(e) then Close(s1, l, c) else s1
    case NextActive(l) => s.WithPhase(l, Dispatch(s.loops[l].phase.active[1..]))
    case SwapQueue(l) =>
      s.(loops := s.loops[l := s.loops[l].(phase := RunningBatch, queue := Swap(s.loops[l].queue))])
    case RunFunctor(l) =>
      Execute(s.(loops := s.loops[l := s.loops[l].(queue := Pop(s.loops[l].queue))]), s.loops[l].queue.batch[0])
    case EndBatch(l) => s.WithPhase(l, AtPoll)
    case User(l, c, e) => s.WithView(c, OnEvent(s.ViewOf(c), e))
    case Release(c) =>
      var l, fd := s.conns[c].loop, s.conns[c].conn.ch.fd;
      var s1 := s.(conns := s.conns - {c});
      if l >= |s.loops| then s1 else
        var p := s.loops[l].poller;
        s1.(loops := s.loops[l := s.loops[l].(poller := p.(kernel := p.kernel - {fd}))])
  }

  // closeCallback_, the last call of handleClose.
  function Close(s: Server, l: nat, c: nat): Server {
    if s.Usable(c) then RemoveConnection(s, l, c) else s.(fault := true)
  }

  ghost predicate CanRun(s: Server, steps: seq<Step>)
    decreases |steps|
  {
    steps == [] || (Enabled(s, steps[0]) && CanRun(Next(s, steps[0]), steps[1..]))
  }

  ghost function Run(s: Server, steps: seq<Step>): Server
    requires CanRun(s, steps)
    decreases |steps|
  {
    if steps == [] then s else Run(Next(s, steps[0]), steps[1..])
  }
}
