// src/TcpConnection.cc as functions on values. A connection is its state_,
// its channel, its two buffers and a log of what it has done to the outside:
// calls of ::write and ::shutdown, callbacks run, callbacks queued on its
// loop. Each handler takes the connection together with the poller of its
// loop (a View) to the next View; what the kernel answers is an argument.
module ConnectionSpec {
  import opened BufferSpec
  import opened PollerSpec

  const HIGH_WATER_MARK: nat := 64 * 1024 * 1024

  datatype ConnState = Connecting | Connected | Disconnecting | Disconnected

  datatype Errno = EWOULDBLOCK | EPIPE | ECONNRESET | EOTHER

  // The answer of write(2).
  datatype WriteResult = Wrote(n: nat) | Failed(errno: Errno)

  predicate KernelCanWrite(len: nat, r: WriteResult) {
    r.Wrote? ==> r.n <= len
  }

  predicate PeerGone(r: WriteResult) {
    r.Failed? && (r.errno == EPIPE || r.errno == ECONNRESET)
  }

  datatype Action =
    | ConnUp                                // connectionCallback_ of connectEstablished
    | ConnDown                              // connectionCallback_ of handleClose or connectDistroyed
    | Message                               // messageCallback_
    | CloseCallback                         // closeCallback_, that is TcpServer::removeConnection
    | Write(accepted: seq<byte>)            // one ::write, with the bytes the kernel took
    | HalfClose(unsent: nat)                // ::shutdown(SHUT_WR), with the length still buffered
    | QueueWriteComplete(unsent: nat)       // writeCompleteCallback_ queued, likewise
    | QueueHighWater(len: nat)              // highWaterMarkCallback_ queued

  // What other threads have under way. sends: payloads of queued sendInLoop functors.
  // tested: threads in shutdown() that have found kConnected and not yet stored
  // kDisconnecting. stored: those that have stored it and not yet queued shutdownInLoop.
  // posted: shutdownInLoop functors in the loop's queue.
  datatype Foreign = Foreign(sends: seq<seq<byte>>, tested: nat, stored: nat, posted: nat)

  const NOTHING_FOREIGN := Foreign([], 0, 0, 0)

  // notify: writeCompleteCallback_ is set. destroyed: connectDistroyed has run.
  datatype Conn<C> = Conn(
    self: C, ch: Chan, state: ConnState, input: Buf, output: Buf,
    mark: nat, notify: bool, foreign: Foreign, destroyed: bool, log: seq<Action>)
  {
    predicate Valid() {
      input.Valid() && output.Valid()
    }

    // The guard of the direct write in sendInLoop.
    predicate Idle() {
      !ch.IsWriting() && output.data == []
    }

    function Note(a: Action): Conn<C> {
      this.(log := log + [a])
    }
  }

  datatype View<C> = View(c: Conn<C>, p: Poller<C>)

  function NewConn<C>(self: C, fd: int, mark: nat, notify: bool): Conn<C> {
    Conn(self, Chan(fd, NONE_EVENT, New), Connecting, NEW_BUFFER, NEW_BUFFER, mark, notify, NOTHING_FOREIGN, false, [])
  }

  function CallChannel<C>(v: View<C>, op: ChannelOp): View<C> {
    var (q, ch) := Apply(v.p, v.c.self, v.c.ch, op);
    View(v.c.(ch := ch), q)
  }

  predicate CrossesMark(mark: nat, before: nat, after: nat) {
    before < mark <= after
  }

  // The tail of sendInLoop: buffer what the kernel did not take.
  function BufferRest<C>(v: View<C>, rest: seq<byte>): View<C>
    requires v.c.Valid()
  {
    if rest == [] then v else
      var oldLen := |v.c.output.data|;
      var c1 := if CrossesMark(v.c.mark, oldLen, oldLen + |rest|)
                then v.c.Note(QueueHighWater(oldLen + |rest|)) else v.c;
      var v2 := View(c1.(output := Append(c1.output, rest)), v.p);
      if v2.c.ch.IsWriting() then v2 else CallChannel(v2, EnableWriting)
  }

  function SendInLoop<C>(v: View<C>, data: seq<byte>, r: WriteResult): View<C>
    requires v.c.Valid() && KernelCanWrite(|data|, r)
  {
    var c := v.c;
    if c.state == Disconnected then v
    else if c.Idle() then
      match r
      case Wrote(n) =>
        var c1 := c.Note(Write(data[..n]));
        if n == |data| then
          v.(c := if c.notify then c1.Note(QueueWriteComplete(|c1.output.data|)) else c1)
        else
          BufferRest(v.(c := c1), data[n..])
      case Failed(_) =>
        var v1 := v.(c := c.Note(Write([])));
        if PeerGone(r) then v1 else BufferRest(v1, data)
    else BufferRest(v, data)
  }

  function ShutdownInLoop<C>(c: Conn<C>): Conn<C> {
    if c.ch.IsWriting() then c else c.Note(HalfClose(|c.output.data|))
  }

  // What handleWrite does once the buffer is empty.
  function Drained<C>(v: View<C>): View<C> {
    var v1 := CallChannel(v, DisableWriting);
    var c2 := if v1.c.notify then v1.c.Note(QueueWriteComplete(|v1.c.output.data|)) else v1.c;
    v1.(c := if c2.state == Disconnecting then ShutdownInLoop(c2) else c2)
  }

  function HandleWrite<C>(v: View<C>, r: WriteResult): View<C>
    requires v.c.Valid() && KernelCanWrite(|v.c.output.data|, r)
  {
    if !v.c.ch.IsWriting() then v else
      match r
      case Failed(_) => v.(c := v.c.Note(Write([])))
      case Wrote(n) =>
        var c1 := v.c.Note(Write(v.c.output.data[..n]));
        if n == 0 then v.(c := c1) else
          var v2 := v.(c := c1.(output := Retrieve(c1.output, n)));
          if v2.c.output.data == [] then Drained(v2) else v2
  }

  function HandleClose<C>(c: Conn<C>): Conn<C> {
    c.(state := Disconnected).Note(ConnDown).Note(CloseCallback)
  }

  function HandleRead<C>(c: Conn<C>, r: ReadResult): Conn<C>
    requires c.Valid() && KernelCanRead(c.input, r)
  {
    var c1 := c.(input := ReadFd(c.input, r));
    if r.ReadFailed? then c1
    else if r.bytes == [] then HandleClose(c1)
    else c1.Note(Message)
  }

  function ConnectEstablished<C>(v: View<C>): View<C> {
    var v1 := CallChannel(v.(c := v.c.(state := Connected)), EnableReading);
    v1.(c := v1.c.Note(ConnUp))
  }

  function ConnectDestroyed<C>(v: View<C>): View<C> {
    var v1 :=
      if v.c.state == Connected then
        var v0 := CallChannel(v.(c := v.c.(state := Disconnected)), DisableAll);
        v0.(c := v0.c.Note(ConnDown))
      else v;
    var v2 := CallChannel(v1, Remove);
    v2.(c := v2.c.(destroyed := true))
  }

  // shutdown() on the loop thread: nothing of that thread's comes between test and store.
  function Shutdown<C>(c: Conn<C>): Conn<C> {
    if c.state == Connected then ShutdownInLoop(c.(state := Disconnecting)) else c
  }

  // shutdown() on another thread: the test, the store and the post are three accesses.
  function TestShutdown<C>(c: Conn<C>): Conn<C> {
    if c.state == Connected then c.(foreign := c.foreign.(tested := c.foreign.tested + 1)) else c
  }

  function StoreShutdown<C>(c: Conn<C>): Conn<C>
    requires c.foreign.tested > 0
  {
    var f := c.foreign;
    c.(state := Disconnecting, foreign := f.(tested := f.tested - 1, stored := f.stored + 1))
  }

  function PostShutdown<C>(c: Conn<C>): Conn<C>
    requires c.foreign.stored > 0
  {
    var f := c.foreign;
    c.(foreign := f.(stored := f.stored - 1, posted := f.posted + 1))
  }

  // The three in a row, with nothing in between.
  function RemoteShutdown<C>(c: Conn<C>): Conn<C> {
    if c.state == Connected then PostShutdown(StoreShutdown(TestShutdown(c))) else c
  }

  // connectDistroyed with that store between its test of kConnected and its own store, which
  // wins.
  function DestroyedOverStore<C>(v: View<C>): View<C>
    requires v.c.foreign.tested > 0
  {
    var v1, f := ConnectDestroyed(v), v.c.foreign;
    v1.(c := v1.c.(foreign := f.(tested := f.tested - 1, stored := f.stored + 1)))
  }

  // send() on another thread. Between test and post nothing is stored, so they are one step.
  function PostSend<C>(c: Conn<C>, data: seq<byte>): Conn<C> {
    if c.state == Connected then c.(foreign := c.foreign.(sends := c.foreign.sends + [data])) else c
  }

  // The functor at the head of the queue leaves it to run.
  function TakeSend<C>(c: Conn<C>): Conn<C>
    requires c.foreign.sends != []
  {
    c.(foreign := c.foreign.(sends := c.foreign.sends[1..]))
  }

  function TakeShutdown<C>(c: Conn<C>): Conn<C>
    requires c.foreign.posted > 0
  {
    c.(foreign := c.foreign.(posted := c.foreign.posted - 1))
  }

  // ---------------------------------------------------------------------
  // Everything that can happen to one connection
  // ---------------------------------------------------------------------

  datatype Event<C> =
    | EvEstablished
    | EvSend(data: seq<byte>, r: WriteResult)        // send() on the loop thread
    | EvRemoteSend(data: seq<byte>)                  // send() on another thread
    | EvQueuedSend(data: seq<byte>, r: WriteResult)  // the sendInLoop functor it posted
    | EvWritable(w: WriteResult)
    | EvReadable(rd: ReadResult)
    | EvHangup                                       // EPOLLHUP, straight to handleClose
    | EvConsume(n: nat)                              // the application retrieves input
    | EvShutdown                                     // shutdown() on the loop thread
    | EvTestShutdown                                 // shutdown() on another thread tests state_,
    | EvStoreShutdown                                // stores kDisconnecting,
    | EvPostShutdown                                 // and queues shutdownInLoop
    | EvQueuedShutdown                               // that functor runs
    | EvDestroyed
    | EvDestroyedOverStore                           // with another thread's store in the middle
    | EvOthers(q: Poller<C>)                         // calls on other channels of the poller

  // What makes the connection run handleClose: a hang-up, or an end of file on reading.
  predicate Closes<C>(e: Event<C>) {
    e.EvHangup? || (e.EvReadable? && e.rd == Delivered([]))
  }

  // Channel events need a channel in the poller; functors need to have been posted.
  ghost predicate Enabled<C>(v: View<C>, e: Event<C>) {
    var c := v.c;
    c.Valid() &&
    match e
    case EvEstablished => c.state == Connecting
    case EvSend(data, r) => KernelCanWrite(|data|, r)
    case EvQueuedSend(data, r) => c.foreign.sends != [] && data == c.foreign.sends[0] && KernelCanWrite(|data|, r)
    case EvWritable(w) => c.state != Connecting && !c.destroyed && KernelCanWrite(|c.output.data|, w)
    case EvReadable(rd) => c.state != Connecting && !c.destroyed && KernelCanRead(c.input, rd)
    case EvHangup => c.state != Connecting && !c.destroyed
    case EvStoreShutdown => c.foreign.tested > 0
    case EvPostShutdown => c.foreign.stored > 0
    case EvQueuedShutdown => c.foreign.posted > 0
    case EvDestroyed => c.state != Connecting
    case EvDestroyedOverStore => c.state == Connected && c.foreign.tested > 0
    case EvOthers(q) => SameAt(v.p, q, c.ch.fd)
    case _ => true
  }

  function Step<C>(v: View<C>, e: Event<C>): View<C>
    requires Enabled(v, e)
  {
    match e
    case EvEstablished => ConnectEstablished(v)
    case EvSend(data, r) => if v.c.state == Connected then SendInLoop(v, data, r) else v
    case EvRemoteSend(data) => v.(c := PostSend(v.c, data))
    case EvQueuedSend(data, r) => SendInLoop(v.(c := TakeSend(v.c)), data, r)
    case EvWritable(w) => HandleWrite(v, w)
    case EvReadable(rd) => v.(c := HandleRead(v.c, rd))
    case EvHangup => v.(c := HandleClose(v.c))
    case EvConsume(n) => v.(c := v.c.(input := Retrieve(v.c.input, n)))
    case EvShutdown => v.(c := Shutdown(v.c))
    case EvTestShutdown => v.(c := TestShutdown(v.c))
    case EvStoreShutdown => v.(c := StoreShutdown(v.c))
    case EvPostShutdown => v.(c := PostShutdown(v.c))
    case EvQueuedShutdown => v.(c := ShutdownInLoop(TakeShutdown(v.c)))
    case EvDestroyed => ConnectDestroyed(v)
    case EvDestroyedOverStore => DestroyedOverStore(v)
    case EvOthers(q) => v.(p := q)
  }

  ghost predicate CanRun<C>(v: View<C>, es: seq<Event<C>>)
    decreases |es|
  {
    es == [] || (Enabled(v, es[0]) && CanRun(Step(v, es[0]), es[1..]))
  }

  ghost function Run<C>(v: View<C>, es: seq<Event<C>>): View<C>
    requires CanRun(v, es)
    decreases |es|
  {
    if es == [] then v else Run(Step(v, es[0]), es[1..])
  }
}
