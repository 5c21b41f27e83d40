# SZMuduo, verified

A Dafny model of the reactor in `src/`: byte buffers, channels and the epoll
poller, one TCP connection's output path and shutdown, the cross-thread functor
queue of an event loop, and the life of many connections across many loops.

The parts compose. A connection is two buffers, a channel and a log of what it
has done to the outside; a server is loops (functor queue, poller, event phase)
and connections. Every connection of every server run is shown to be a run of
the single-connection model, made of exactly the events that the server's steps
were for it; so the stream, half-close and scheduling laws hold for the sends
and shutdowns made in that run, under every interleaving of the loops. And every
loop of every server run is shown to be a run of the interleaved event-loop
model with the same queue, so no functor that carries a connection from loop to
loop is left waiting at a poll.

Each component has up to three layers:

- `*Spec` modules give its state and steps as values and functions. What the
  kernel answers (how many bytes a `write` takes, what `readv` delivers, which
  errors occur, which channels `epoll_wait` reports) is an argument, limited
  only by its legal range.
- The other modules named after a component prove what holds after every run of
  those steps.
- `Buffer.dfy`, `Poller.dfy`, `TcpConnection.dfy`, `EventLoop.dfy`,
  `EventLoopThreadPool.dfy` and `TcpServer.dfy` hold classes that update their
  fields in place as the source does; each method's postcondition equates the
  new abstract state with the specification function of the old one.

`dafny verify dfyconfig.toml` checks the whole project.

Five laws hold of this code only under a condition. For each the exact condition
is proved:

- The half-close protocol (at most one `shutdownWrite`, nothing unsent, no write
  after it) can fail when another thread calls `send` or `shutdown`. A run keeps
  it if and only if no functor posted by another thread runs against an already
  shut write side, or against pending output that nothing will send
  (`HalfCloseIsExact`). `QueuedSendAfterHalfClose`, `RemoteShutdownClosesTwice`
  and `RemoteShutdownOverOutput` are runs that break it; loop-thread calls never
  do (`LoopThreadIsNeverLate`).
- `shutdown()` tests `state_` and stores to it in two accesses. On another thread
  `handleClose` can come in between, and the store then takes the state back from
  kDisconnected (`RemoteShutdownGoesBack`). The state only moves forward, and the
  application is told exactly of the disconnected, if and only if that does not
  happen (`StateIsMonotoneExactly`, `ToldExactlyUnlessOvertaken`).
- A functor that the loop thread queues outside handlers and functors sends no
  wakeup. It is left waiting at the next poll if and only if no other wakeup has
  been written or is on its way when it is queued (`EarlyPostExactly`,
  `EarlyPostIsStranded`).
- Connection names are cut by `snprintf` to 63 characters. The names of ids
  1..n differ if and only if the longest fits (`NamesDifferIffTheyFit`,
  `CutCollides`); a 32-bit id after an IPv4 address and port always fits
  (`IntIdsFit`).
- `retrieveAsString(len)` copies before comparing `len` with the readable
  length, so the result is the front of the queue if and only if `len` is at
  most that length (`Buffers.Buffer.RetrieveAsString`).

## Model

| member | source | states |
|---|---|---|
| BufferSpec.EnsureWritable | src/Buffer.h:76-82 | Room for n bytes results, no readable byte changes, and the array grows only to less than 8 + 2 * (readable + n) |
| BufferSpec.Append | src/Buffer.h:85-90 | The queue gains exactly d at the end; the same growth bound |
| BufferSpec.Retrieve | src/Buffer.h:45-55 | Drops the first n bytes, or everything if fewer are there; the array keeps its size |
| BufferSpec.ReadFd | src/Buffer.cc:12-42 | For every answer of readv the old bytes are followed by exactly the delivered ones, in order, also across the spill array and a compaction or growth |
| BufferSpec.RoomIsMadeLazily | src/Buffer.h:116-131 | Nothing moves while there is room behind the writer; the array grows if and only if the bytes would not fit behind the prepend area, and then stays in place; otherwise they slide down all the way |
| BufferSpec.AppendLiesInTheRoom | src/Buffer.h:85-90 | append adds its bytes to what makeSpace has left |
| BufferSpec.EmptiedIsReset | src/Buffer.h:45-61 | Retrieving everything, or more, gives the whole array back; retrieving less moves the start only |
| BufferSpec.ReadFillsTheArrayFirst | src/Buffer.cc:27-39 | What fits the tail is read in place; the rest, at most 65536 bytes and only behind a tail shorter than that, is appended to a full array |
| BufferSpec.WhatReadvMayDeliver | src/Buffer.cc:17-26 | Exactly which counts readv can return: the tail, and 65536 more if the tail is shorter than that |
| BufferSpec.NewBufferIs | src/Buffer.h:13-21 | 1032 bytes, 1024 of them free |
| BufferRuns.BufferRefinesQueue | src/Buffer.h:45-131 | After any sequence of appends, retrieves and scatter reads the readable bytes are those of a plain byte queue, and the indices stay in order |
| BufferRuns.SizeBoundFrom | src/Buffer.h:116-131 | The size never shrinks and never passes a bound above its start and 8 + 2 * peak |
| BufferRuns.SpaceBound | src/Buffer.h:116-131 | From a new buffer the size is at most max(1032, 8 + 2 * peak readable length) in every run |
| BufferRuns.SizeNeverShrinks | src/Buffer.h:116-131 | At any earlier moment of a run the size was no greater |
| Buffers.CopyWithin | src/Buffer.h:125-127 | The forward copy is right when source and target overlap with the target below, and touches nothing else |
| Buffers.CopyInto | src/Buffer.h:88 | Copies a block into the array and leaves the rest |
| Buffers.Buffer.constructor | src/Buffer.h:16-21 | An empty queue in an array of 1032 bytes, whatever initialSize is |
| Buffers.Buffer.ReadableBytes | src/Buffer.h:23-26 | The length of the queue |
| Buffers.Buffer.WritableBytes | src/Buffer.h:28-31 | What still fits behind the queue |
| Buffers.Buffer.RetrieveAll | src/Buffer.h:57-61 | Empties the queue, indices back to the prepend area |
| Buffers.Buffer.Retrieve | src/Buffer.h:45-55 | Refines BufferSpec.Retrieve in place |
| Buffers.Buffer.RetrieveAsString | src/Buffer.h:69-74 | The result is the front of the queue if and only if len bytes were readable, otherwise it runs on into what lies behind them in the array; then retrieves |
| Buffers.Buffer.RetrieveAllAsString | src/Buffer.h:64-67 | Returns the whole queue and empties it |
| Buffers.Buffer.Resize | src/Buffer.h:120 | A longer array, old contents kept, zeros after them |
| Buffers.Buffer.MakeSpace | src/Buffer.h:116-131 | Refines BufferSpec.EnsureWritable by growth or by the overlapping copy, which is legal because the reader index is past the prepend area |
| Buffers.Buffer.EnsureWritableBytes | src/Buffer.h:76-82 | Refines BufferSpec.EnsureWritable |
| Buffers.Buffer.Fill | src/Buffer.h:88-89 | Bytes put at the writer index extend the queue by exactly those bytes |
| Buffers.Buffer.Append | src/Buffer.h:85-90 | Refines BufferSpec.Append in place |
| Buffers.Buffer.ReadFd | src/Buffer.cc:12-42 | Refines BufferSpec.ReadFd over the array and the 65536-byte spill array, and returns n or -1 |
| Buffers.Buffer.WriteFd | src/Buffer.cc:44-52 | What write takes is a prefix of the queue, which is left as it is |
| PollerSpec.ApplyKeepsAgreement | src/EPollPoller.cc:85-134 | Every enable, disable, disableAll or remove keeps kernel entry, mask, channels_ and index_ of its channel in agreement, is never refused (ADD finds the fd absent, MOD and DEL find it present) and touches no other fd |
| PollerSpec.AgreementIsLocal | src/EPollPoller.cc:85-134 | Agreement depends on the entries of the channel's own fd only |
| PollerSpec.MaskBits | src/Channel.h:47-51 | Bit by bit, what each operation sets and clears, the other bits keeping their value |
| PollerSpec.KernelRefuses | src/EPollPoller.cc:137-158 | Which epoll_ctl calls are refused, counted and without effect, and what the others leave in the kernel's set |
| PollerSpec.UpdateIsExact | src/EPollPoller.cc:85-118 | After any call but remove a registered channel is in the kernel's set if and only if it asks for something, any other always; index_ says which; channels_ changes only for a new one |
| PollerSpec.DisableAllLeavesTheKernel | src/EPollPoller.cc:108-112 | disableAll takes a registered fd out of the kernel's set but not out of channels_, and the next update adds it again |
| PollerSpec.OneChannelPerFd | src/Poller.cc:10-15 | Two channels that hasChannel confirms for one fd are the same |
| PollerRuns.NextKeepsRegistered | src/EPollPoller.cc:85-134 | Opening, calling and closing channels with distinct fds keeps all of them in agreement |
| PollerRuns.RegistrationAgreement | src/EPollPoller.cc:85-134 | After any run over any channels the kernel holds an fd exactly when a channel with it is Added, with that channel's events; hasChannel is true exactly when index_ is not kNew; no epoll_ctl has failed |
| PollerRuns.RemoveIsIdempotentAndLocal | src/EPollPoller.cc:120-134 | Removing twice is removing once, and other fds' entries stay |
| Pollers.Channel.constructor | src/Channel.cc:12-16 | A channel starts with no events and index kNew |
| Pollers.Channel.EnableReading | src/Channel.h:47 | Channel and poller move as PollerSpec.Apply says |
| Pollers.Channel.DisableReading | src/Channel.h:48 | Likewise |
| Pollers.Channel.EnableWriting | src/Channel.h:49 | Likewise |
| Pollers.Channel.DisableWriting | src/Channel.h:50 | Likewise |
| Pollers.Channel.DisableAll | src/Channel.h:51 | Likewise |
| Pollers.Channel.Remove | src/EPollPoller.cc:120-134 | Likewise |
| Pollers.EPollPoller.Update | src/EPollPoller.cc:137-158 | One epoll_ctl, refused for ADD of a present and for MOD or DEL of an absent fd |
| Pollers.EPollPoller.UpdateChannel | src/EPollPoller.cc:85-118 | Refines PollerSpec.UpdateChannel on the object's fields |
| Pollers.EPollPoller.RemoveChannel | src/EPollPoller.cc:120-134 | Refines PollerSpec.RemoveChannel on the object's fields |
| Pollers.EPollPoller.HasChannel | src/Poller.cc:10-15 | For a channel in agreement, true exactly when its index_ is not kNew |
| ConnectionRuns.NewConnInv | src/TcpConnection.cc:22-49 | A new connection on an fd its poller does not know satisfies the invariant |
| ConnectionRuns.CallKeeps | src/Channel.h:47-51 | A channel call changes only the channel and its own entries |
| ConnectionRuns.BufferRestKeeps | src/TcpConnection.cc:212-230 | All of the rest is buffered and scheduled; a high-water note exactly on a crossing of the mark |
| ConnectionRuns.SendInLoopEffect | src/TcpConnection.cc:168-231 | Old buffer plus payload equals bytes taken plus new buffer, unless the payload is dropped whole (disconnected, EPIPE or ECONNRESET on the direct write); a direct write exactly on an idle connection; the write-complete exactly when that write takes everything |
| ConnectionRuns.DrainedEffect | src/TcpConnection.cc:89-107 | The write that empties the buffer switches EPOLLOUT off, queues the callback and does the deferred half-close, in that order |
| ConnectionRuns.HandleWriteFacts | src/TcpConnection.cc:82-117 | For every answer of write: invariant, stream, order of calls and callback counts |
| ConnectionRuns.EstablishedFacts | src/TcpConnection.cc:234-242 | Likewise for connectEstablished |
| ConnectionRuns.DestroyedFacts | src/TcpConnection.cc:245-255 | Likewise for connectDistroyed, first or repeated |
| ConnectionRuns.DestroyedOverStoreFacts | src/TcpConnection.cc:245-265 | Likewise with another thread's store of kDisconnecting between its test and its own store |
| ConnectionRuns.ShutdownInLoopFacts | src/TcpConnection.cc:267-274 | Likewise for shutdownInLoop |
| ConnectionRuns.CloseFacts | src/TcpConnection.cc:120-128 | Likewise for handleClose, first or repeated |
| ConnectionRuns.HandleReadFacts | src/TcpConnection.cc:60-80 | Likewise for handleRead: one message callback for bytes, the close for end of file, nothing for an error |
| ConnectionRuns.StepFacts | src/TcpConnection.cc:60-274 | Likewise for every event of a connection |
| ConnectionTheorems.StepKeeps | src/TcpConnection.cc:60-274 | Every event of any thread keeps the invariant; the state moves back exactly when another thread's shutdown is overtaken by handleClose; a clean half-close is spoilt exactly by a late functor of another thread |
| ConnectionTheorems.EstablishedFirstAndOnce | src/TcpConnection.cc:234-242 | At every moment of every run connectEstablished came first and once, and the log has only grown |
| ConnectionTheorems.StateIsMonotoneExactly | src/TcpConnection.cc:258-265 | In a run the state only moves forward if and only if no other thread tests it in shutdown before handleClose and stores kDisconnecting after it |
| ConnectionTheorems.OutputConservation | src/TcpConnection.cc:168-231 | In any run, bytes given to the kernel followed by the buffered ones are the payloads of all undropped sendInLoop calls, in order |
| ConnectionTheorems.HalfCloseIsExact | src/TcpConnection.cc:258-274 | A run keeps the half-close protocol if and only if no other thread's functor comes late |
| ConnectionTheorems.LoopThreadIsNeverLate | src/TcpConnection.cc:147-165 | Loop-thread calls satisfy that condition |
| ConnectionTheorems.GracefulHalfClose | src/TcpConnection.cc:258-274 | Driven from its loop thread, a connection half-closes at most once, only with every accepted byte at the kernel, and never writes after |
| ConnectionCounterexamples.QueuedSendAfterHalfClose | src/TcpConnection.cc:147-165 | A run in which another thread's send writes after the half-close |
| ConnectionCounterexamples.RemoteShutdownClosesTwice | src/TcpConnection.cc:258-274 | A run in which another thread's shutdown half-closes twice |
| ConnectionCounterexamples.RemoteShutdownOverOutput | src/TcpConnection.cc:245-274 | A run in which it half-closes over output still pending, the connection having been destroyed in between |
| ConnectionCounterexamples.RemoteShutdownGoesBack | src/TcpConnection.cc:258-265 | A run in which it takes the state back from kDisconnected after the application has been told |
| ConnectionTheorems.PendingOutputIsScheduled | src/TcpConnection.cc:212-230 | At every moment from establishment to destruction the buffer is non-empty exactly when the channel is writing, and exactly when the kernel's mask for the fd has EPOLLOUT |
| ConnectionTheorems.CallbackAccounting | src/TcpConnection.cc:184-225 | Write-completes never outnumber sendInLoop calls and are queued with an empty buffer; high-water notes equal the upward crossings of the mark |
| ConnectionTheorems.HighWaterIsACrossing | src/TcpConnection.cc:214-223 | An event queues a high-water note exactly when it takes the buffered length from below the mark to it or above, so between two notes the length was below it |
| ConnectionTheorems.InputConservation | src/TcpConnection.cc:60-80 | What the application has retrieved, then what is buffered, is what was received, in order |
| ConnectionLog.SendLogs | src/TcpConnection.cc:168-231 | The calls and callbacks of sendInLoop, one by one: at most one write, the write-complete if and only if it took everything, the high-water note if and only if the mark is crossed |
| ConnectionLog.StepLogs | src/TcpConnection.cc:60-274 | The same for every event: a table of exactly what is called and queued, in order |
| ConnectionLog.CallbacksExactly | src/TcpConnection.cc:60-274 | Over any run, as many callbacks of each kind, write-completes, high-water notes and half-closes as there were occasions for them |
| ConnectionLog.MessagesExactly | src/TcpConnection.cc:65-68 | The message callback has run once for each read that delivered bytes |
| ConnectionThreads.RemoteSendsInOrder | src/TcpConnection.cc:157-162 | What other threads sent while connected is run in the order of their calls, each payload once; the rest is queued in that order |
| ConnectionThreads.RemoteShutdownsOnce | src/TcpConnection.cc:258-274 | Each shutdown of another thread that passed its test is stored, posted and run once |
| ConnectionStates.StateFromEvents | src/TcpConnection.cc:120-265 | state_ after any run is that of a four-state machine on the events alone; destroyed means connectDistroyed has run |
| ConnectionStates.StepMovesChannel | src/TcpConnection.cc:82-255 | For every event, what the channel asks for and whether it is registered, from the lengths of the output buffer around it |
| ConnectionStates.BuffersStaySmall | src/Buffer.h:116-131 | Both buffers of a connection keep the space bound of a buffer over any run, and never shrink |
| ConnectionCallbacks.EventCallbacks | src/TcpConnection.cc:60-274 | The close callback comes exactly with a hang-up or end of file, once, right after the down callback; the down callback otherwise only when a connected connection is destroyed, once; one message exactly when bytes came |
| ConnectionCallbacks.StepTells | src/TcpConnection.cc:60-274 | No event of any thread leaves a connection disconnected untold, or forgets a pending shutdown |
| ConnectionCallbacks.ShutdownIsHonoured | src/TcpConnection.cc:258-274 | In every run, however threads interleave: whoever is disconnected has been told, and a shutdown whose bytes are all gone has half-closed unless its functor is still to be queued or run |
| ConnectionCallbacks.ToldExactlyUnlessOvertaken | src/TcpConnection.cc:120-128 | At every moment of a run exactly the disconnected have been told, if and only if no other thread's shutdown is overtaken by handleClose |
| TcpConnections.TcpConnection.constructor | src/TcpConnection.cc:22-49 | A fresh connection in state Connecting with mark 64 MiB |
| TcpConnections.TcpConnection.TryWrite | src/TcpConnection.cc:181-206 | The direct write notes what the kernel took, queues the callback only when that was all, and reports a fault only for EPIPE and ECONNRESET |
| TcpConnections.TcpConnection.SendInLoop | src/TcpConnection.cc:168-231 | The object moves as ConnectionSpec.SendInLoop says, for every answer of write |
| TcpConnections.TcpConnection.BufferRest | src/TcpConnection.cc:212-230 | Likewise for its tail |
| TcpConnections.TcpConnection.Send | src/TcpConnection.cc:147-165 | At once on the loop thread, the event EvSend; queued from another, the event EvRemoteSend |
| TcpConnections.TcpConnection.RunQueuedSend | src/TcpConnection.cc:157-162 | The queued functor is the event EvQueuedSend |
| TcpConnections.TcpConnection.ShutdownInLoop | src/TcpConnection.cc:267-274 | Refines ConnectionSpec.ShutdownInLoop |
| TcpConnections.TcpConnection.TestShutdown | src/TcpConnection.cc:260 | The test of another thread's shutdown, an access of its own |
| TcpConnections.TcpConnection.StoreShutdown | src/TcpConnection.cc:262 | Its store, whatever the state has become since the test |
| TcpConnections.TcpConnection.PostShutdown | src/TcpConnection.cc:263 | Its post |
| TcpConnections.TcpConnection.Shutdown | src/TcpConnection.cc:258-265 | On the loop thread the event EvShutdown; on another the three accesses in a row |
| TcpConnections.TcpConnection.HandleWrite | src/TcpConnection.cc:82-117 | Refines ConnectionSpec.HandleWrite, for every answer of write |
| TcpConnections.TcpConnection.Drained | src/TcpConnection.cc:92-107 | Refines ConnectionSpec.Drained |
| TcpConnections.TcpConnection.HandleClose | src/TcpConnection.cc:120-128 | Refines ConnectionSpec.HandleClose |
| TcpConnections.TcpConnection.HandleRead | src/TcpConnection.cc:60-80 | Refines ConnectionSpec.HandleRead, for every answer of readv |
| TcpConnections.TcpConnection.ConnectEstablished | src/TcpConnection.cc:234-242 | Refines ConnectionSpec.ConnectEstablished |
| TcpConnections.TcpConnection.ConnectDestroyed | src/TcpConnection.cc:245-255 | Refines ConnectionSpec.ConnectDestroyed |
| EventLoopTheorems.NextKeepsInv | src/EventLoop.cc:65-192 | Every step of the loop thread or of any other thread keeps the invariant of mutex, queue, eventfd and flags |
| EventLoopTheorems.RunKeepsInv | src/EventLoop.cc:65-192 | So does every interleaving |
| EventLoopTheorems.NoLostWakeup | src/EventLoop.cc:136-160 | At the blocking poll with functors pending the eventfd is readable or some thread is between its push and its eventfd write |
| EventLoopTheorems.EarlyPostExactly | src/EventLoop.cc:136-149 | In every reachable state, a loop-thread post outside handlers and functors is stranded by the next poll if and only if no wakeup has been written and none is on its way; without that post nothing is |
| EventLoopTheorems.EarlyPostIsStranded | src/EventLoop.cc:143-148 | Such a post before the first poll is enough |
| EventLoopTheorems.NoLostQuit | src/EventLoop.cc:77-121 | A quit that finds the loop at poll makes it readable or is about to; at exit, executed plus pending are all functors posted |
| EventLoopTheorems.StepLockOrder | src/EventLoop.cc:136-149 | One step adds to the history exactly the functor whose poster takes the mutex |
| EventLoopTheorems.ExactlyOnceInLockOrder | src/EventLoop.cc:136-192 | Executed, rest of the batch, pending and the one being pushed are always the posted functors, each once, in the order in which the mutex was taken |
| EventLoopTheorems.StepRefinesQueue | src/EventLoop.cc:136-192 | A step does to the functor queue nothing, one push, the swap of an empty batch, or one pop |
| EventLoopTheorems.BatchIsFixedAtSwap | src/EventLoop.cc:177-192 | Between swaps the batch only loses its head, once per functor run, whatever is posted meanwhile |
| EventLoopTheorems.MutexFreeForUserCode | src/EventLoop.cc:187-190 | No functor or handler starts with the loop thread holding the mutex, and at most one thread holds it |
| EventLoopTheorems.RunAllRuns | src/EventLoop.cc:187-191 | A batch can be run to its end, whatever its length |
| EventLoopTheorems.AwakenedLoopDrains | src/EventLoop.cc:84-104 | A loop at poll with functors pending or quit set runs, in one turn on its own, every functor posted so far, and after a quit it exits |
| EventLoopAccounts.EventfdIsExact | src/EventLoop.cc:65-74 | The eventfd holds one for each wakeup written since the last read, capped; the loop thread's posts write one exactly from functors; a read takes all |
| EventLoopAccounts.EndsExactlyOnQuit | src/EventLoop.cc:84-121 | quit_ is set if and only if someone called quit; the loop ends only then, and its next test ends it |
| EventLoopAccounts.PlacesOnceInOrder | src/EventLoop.cc:84-192 | Every turn of the loop and every post and quit of every thread goes through its stages once and in order |
| EventLoops.EventLoop.constructor | src/EventLoop.cc:32-55 | The fields start as the step machine does |
| EventLoops.EventLoop.Wakeup | src/EventLoop.cc:151-160 | The counter rises by one unless saturated |
| EventLoops.EventLoop.HandleRead | src/EventLoop.cc:65-74 | One read consumes all wakeups, as the step HandleRead |
| EventLoops.EventLoop.Quit | src/EventLoop.cc:113-121 | The code is the steps of quit, with a wakeup exactly from another thread |
| EventLoops.EventLoop.PushBack | src/EventLoop.cc:138-141 | The locked section is lock, push, unlock, for any caller |
| EventLoops.EventLoop.QueueInLoop | src/EventLoop.cc:136-149 | The code is the steps of a post by that caller; the eventfd is readable after it when the caller is another thread or a functor |
| EventLoops.EventLoop.PostAll | src/EventLoop.cc:136-149 | Any number of posts in a row by any threads: order kept, wakeup kept |
| EventLoops.EventLoop.SwapFunctors | src/EventLoop.cc:182-185 | The locked section takes all of pendingFunctors_ and leaves it empty |
| EventLoops.EventLoop.RunFunctor | src/EventLoop.cc:187-190 | One functor leaves the batch; what it and other threads post meanwhile is pending and wakes the loop; it may call quit |
| EventLoops.EventLoop.RunBatch | src/EventLoop.cc:187-190 | Runs the batch once and in order, to its end even if a functor calls quit; what is posted meanwhile is pending, with the eventfd readable |
| EventLoops.EventLoop.DoPendingFunctors | src/EventLoop.cc:177-192 | Runs exactly what was pending at the swap |
| EventLoops.EventLoop.WaitForEvents | src/EventLoop.cc:88 | The poll, with posts and a quit of other threads meanwhile |
| EventLoops.EventLoop.HandleEvents | src/EventLoop.cc:90-94 | The event phase: posts and a quit before and after the wakeup channel's turn |
| EventLoops.EventLoop.OneTurn | src/EventLoop.cc:84-104 | A turn runs, in order, what was pending, what came during the poll and what came during the event phase |
| EventLoops.EndsExactlyOnQuit | src/EventLoop.cc:84 | The turns end if and only if a handler, another thread or one of the executed functors calls quit |
| EventLoops.EventLoop.Loop | src/EventLoop.cc:77-108 | The loop runs turn after turn, ends exactly with the first in which anyone calls quit, and has executed or still holds every functor posted |
| ConnectionNames.DecimalInjective | src/TcpServer.cc:77-80 | Different ids are printed differently |
| ConnectionNames.DecimalReadsBack | src/TcpServer.cc:77 | The printed id has digits only, no leading zero, and reads back as the id |
| ConnectionNames.FittingName | src/TcpServer.cc:77-80 | A name that fits is server name, dash, address, hash and id |
| ConnectionNames.FittingNamesDiffer | src/TcpServer.cc:77-80 | Ids that fit the buffer get different names |
| ConnectionNames.CutCollides | src/TcpServer.cc:76-80 | An id that does not fit shares its name with an earlier one |
| ConnectionNames.NamesDifferIffTheyFit | src/TcpServer.cc:76-80 | The names of ids 1 to n differ if and only if the last one fits |
| ConnectionNames.IntIdsFit | src/TcpServer.cc:76-80 | An int id after an IPv4 address and port always fits |
| ThreadPools.RoundRobin | src/EventLoopThreadPool.cc:44-59 | The k-th loop handed out is loop k mod n, counted from the next one |
| ThreadPools.GivenTo | src/EventLoopThreadPool.cc:44-59 | How often loop j is among the first k loops handed out |
| ThreadPools.AssignedEvenly | src/EventLoopThreadPool.cc:44-59 | Among the loops handed out so far, any two differ by at most one in how often |
| ThreadPools.AllLoopsAreGivenOut | src/EventLoopThreadPool.cc:61-70 | The loops listed are exactly those that getNextLoop ever hands out |
| ThreadPools.EventLoopThreadPool.constructor | src/EventLoopThreadPool.cc:6-14 | No loops, next_ at zero |
| ThreadPools.EventLoopThreadPool.SetThreadNum | src/EventLoopThreadPool.h:21 | Fixes how many loops Start will add, and nothing else |
| ThreadPools.EventLoopThreadPool.Start | src/EventLoopThreadPool.cc:21-40 | Appends the new threads' loops in order |
| ThreadPools.EventLoopThreadPool.GetNextLoop | src/EventLoopThreadPool.cc:44-59 | Refines NextLoop |
| ThreadPools.EventLoopThreadPool.GetAllLoops | src/EventLoopThreadPool.cc:61-70 | Returns the loops that getNextLoop ever hands out, and no others |
| ServerInvariant.ChangeKeepsInv | src/TcpServer.cc:71-135 | A change to one connection, its own fd's entries and its own functors keeps the whole server's invariant |
| ServerSteps.QuietEventKeepsInv | src/TcpConnection.cc:60-117 | Reads, writes and application calls keep it |
| ServerSteps.CloseKeepsInv | src/TcpServer.cc:118-123 | handleClose with removeConnection keeps it, on any loop and however often |
| ServerSteps.RunOnIoKeepsInv | src/TcpServer.cc:114-115 | connectEstablished and connectDistroyed, run as functors, keep it |
| ServerSteps.RunEraseKeepsInv | src/TcpServer.cc:125-135 | removeConnectionInLoop keeps it, first or repeated |
| ServerRuns.AcceptKeepsInv | src/TcpServer.cc:71-116 | newConnection keeps it, with and without io loops |
| ServerRuns.UnheldIsGone | src/TcpServer.cc:125-135 | A connection nobody holds has been destroyed and is in no poller |
| ServerRuns.NextKeepsInv | src/TcpServer.cc:71-135 | Every step of every loop keeps it |
| ServerRuns.RunKeepsInv | src/TcpServer.cc:71-135 | So does every interleaving |
| ServerProjection.StepProjects | src/TcpServer.cc:71-135 | Seen from one connection a server step is one event of its own or calls on other channels of its poller |
| ServerHistories.RunKeepsHistory | src/TcpServer.cc:71-135 | After every server run a connection is where exactly the events that the run's steps were for it, in order, have brought it |
| ServerHistories.RunConserves | src/TcpConnection.cc:168-231 | Over any stretch of a server run, bytes at the kernel and buffered grow by exactly the payloads of the application's own undropped sends in it, in order |
| ServerTheorems.OwnershipAcrossLoops | src/TcpServer.cc:71-135 | A connection with its channel in a poller is held by connections_ or a queued functor; every poller entry is that of a live connection of that loop with that fd; no code runs on a dead connection; no epoll_ctl fails; live fds differ |
| ServerTheorems.RemovalIsLocal | src/EPollPoller.cc:120-134 | connectDistroyed, first or repeated, erases by fd no entry but its own, although fds are reused |
| ServerTheorems.TeardownIsComplete | src/TcpServer.cc:118-135 | However often handleClose has fired, once no functor of a disconnected connection is queued it is absent from connections_, every poller and every kernel set, and may be destroyed |
| ServerTheorems.TeardownIsOnItsWay | src/TcpServer.cc:118-135 | A disconnected connection still registered has its removal or destruction queued; one not disconnected is in connections_ under its name; Connecting means exactly that connectEstablished is queued |
| ServerTheorems.DispatchIsStable | src/EventLoop.cc:86-103 | Every channel still to be handled in an event phase is registered with that loop and its connection is held |
| ServerDispatch.TurnsInOrder | src/EventLoop.cc:90-94 | During an event phase the channels whose turn has ended, followed by those still to be handled, are those it started with |
| ServerDispatch.EventPhaseHandlesAll | src/EventLoop.cc:86-103 | From what epoll_wait returned to the swap, in every interleaving, each reported channel gets its turn once and in order, and the swap finds them all done |
| ServerTheorems.NoRemovalDuringDispatch | src/EventLoop.cc:86-103 | No step of any thread removes or replaces an entry of a dispatching loop's poller |
| ServerTheorems.ThreadConfinement | src/TcpServer.cc:71-135 | connections_ changes only on the base loop, a connection and a poller only on their io loop |
| ServerTheorems.StatesMoveForward | src/TcpConnection.cc:234-265 | Over any stretch of a server run each connection's state only moves forward and its log only grows |
| ServerTheorems.EstablishedFirstAndOnce | src/TcpServer.cc:114-115 | connectEstablished is the first thing a connection does and is done once, whichever loop runs it |
| ServerTheorems.EveryConnectionIsARun | src/TcpConnection.cc:168-274 | Every connection of every server run is a run of the events its steps were for it; the kernel and the buffer have the application's undropped sends of that run in order; half-close is graceful and pending output scheduled |
| ServerTheorems.ShutdownsAreHonoured | src/TcpConnection.cc:89-107 | Of every connection of every server run: disconnected exactly when told, and a shutdown whose bytes are all gone has half-closed |
| ServerTheorems.RemovalFollowsTheCallback | src/TcpServer.cc:111-123 | A handler leads to removeConnection exactly when it has just called the close callback; otherwise it changes its own connection and poller only |
| ServerAccounts.MessagesOfEveryConnection | src/TcpConnection.cc:65-68 | Over a server run, one message callback for each of the connection's reads that delivered bytes |
| ServerAccounts.CallbacksOfEveryConnection | src/TcpConnection.cc:60-274 | Over a server run, as many callbacks, write-completes, high-water notes and half-closes of each connection as its steps were due |
| ServerAccounts.EveryCloseTakesDown | src/TcpServer.cc:118-135 | Each close of a connection, first or repeated, brings exactly one connectDistroyed, run or on its way; connections_ has the connection if and only if none has been posted |
| ServerAccounts.AcceptAddsOne | src/TcpServer.cc:71-116 | One connection more with the accepted fd, on the next loop, under its own name only, established at once or queued to be, once |
| ServerPlacement.PlacementAndNaming | src/TcpServer.cc:71-102 | The connection with id k + 1 lives on io loop k mod n; a new name is never in use; every entry of connections_ is a live connection under its own name |
| ServerPlacement.PlacementIsEven | src/EventLoopThreadPool.cc:44-59 | After any number of accepts two io loops have been given equally many connections, or one of them one more |
| ServerLoops.StepMirrors | src/EventLoop.cc:136-192 | A step of the server is, for each of its loops, some steps of the interleaved event loop |
| ServerLoops.EveryLoopIsARun | src/EventLoop.cc:77-192 | Every loop of every server run is a run of the interleaved event loop with the same queue and the same functors executed; at poll with functors pending its eventfd is readable |
| TcpServers.TcpServer.constructor | src/TcpServer.cc:21-39 | The fields start as the server state machine does |
| TcpServers.TcpServer.AddConnection | src/TcpServer.cc:74-102 | The connection object is made on the loop handed out and entered under its name |
| TcpServers.TcpServer.EstablishInLoop | src/TcpServer.cc:115 | connectEstablished runs at once on the base loop and is posted to an io loop |
| TcpServers.TcpServer.NewConnection | src/TcpServer.cc:71-116 | The two in a row are the step Accept; no entry of connections_ is overwritten |
| TcpServers.TcpServer.RemoveConnectionInLoop | src/TcpServer.cc:125-135 | Erases that connection's name only and posts connectDistroyed to its own loop |
| TcpServers.TcpServer.RemoveConnection | src/TcpServer.cc:118-123 | At once on the base loop, posted from an io loop |
| TcpServers.TcpServer.RunRemoveInLoop | src/TcpServer.cc:125-135 | The posted functor is the step that runs it |

## Left out

- Raw system calls: socket, bind, listen, accept, setsockopt, getsockname, epoll_create and eventfd creation are not modelled; `read`, `write`, `readv`, `epoll_ctl` and `epoll_wait` are, by their results.
- The user-data union written in `src/EPollPoller.cc:144-145`: the later store of the fd overlays the pointer. The kernel set is a map from fd to mask, and no claim is made that `fillActiveChannels` recovers a pointer; a reported fd stands for its channel.
- Which callback `handleEventWithGuard` picks for given event bits: any callbacks, any number of them, may follow a report.
- Interleaving inside class methods: methods run uninterrupted; threads interleave in `EventLoopSpec` (inside a post, a quit, a turn), in `ConnectionSpec` (inside `shutdown`, between `send` and its functor) and in `ServerSpec` (between handlers, functors and turns).
- EventLoops.EventLoop.Loop: other threads call during the poll, between handlers and while functors run, each call in one go, and a finite list of turns stands for the world; finer interleavings are those of EventLoopTheorems.
- EventLoops.EventLoop.Quit: on the loop thread, from a handler or a functor only; before `loop()` a quit is overwritten by the source, and this class starts after that.
- Cross-thread `send` binds a raw `c_str()`: its payload is a value here, so the lifetime of that pointer is not modelled.
- TcpConnections.TcpConnection.Shutdown: on another thread a functor holding a raw `this` may outlive the connection; its lifetime is not modelled.
- TcpConnections.TcpConnection.ConnectDestroyed: the case of another thread's store between its test and its own store is the event EvDestroyedOverStore, not a path of this method.
- Application calls in the server model come from the connection's own loop thread; calls from other threads are events of ConnectionSpec.
- The queues of ServerSpec hold only the functors of the life cycle. Write-complete, high-water and application functors would only add holders; a connection may be released here as soon as no life-cycle holder is left, which is earlier than in the source.
- Accepting a connection requires that the id fits the name buffer, which `IntIdsFit` shows for every int id and IPv4 address; and that the new fd is not one still open, as the kernel promises.
- The wakeup channel and the acceptor's channel are not entries of the pollers in ServerSpec.
- Calling an unset highWaterMarkCallback_: the source queues it without testing that it is set.
- Errors of `write` are EWOULDBLOCK, EPIPE, ECONNRESET or another; what `handleError` reads with getsockopt is only logged and is left out.
- The 10 s poll timeout is not relied on: a poll may return with nothing to report at any time.
- `TcpServer::~TcpServer` and the destructors of Acceptor and EventLoop: destruction while functors holding raw pointers are queued.
- Start handshakes of Thread and EventLoopThread, and the thread-init callback: they would add easy members only.
- Logger, Timestamp, InetAddress, Socket, CurrentThread, DefaultPoller and the example program: formatting and thin wrappers.
- Overflow of `size_t` indices and of the int connection counter: naturals are used.
