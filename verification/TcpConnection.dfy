// src/TcpConnection.cc: a connection object over its Channel and its two
// Buffers. Each handler is proved to take View() through the function of the
// same name in ConnectionSpec, so ConnectionTheorems speaks about it.
module TcpConnections {
  import opened BufferSpec
  import opened Buffers
  import opened PollerSpec
  import opened Pollers
  import CS = ConnectionSpec
  import opened ConnectionSpec

  class TcpConnection {
    const channel: Channel
    const inputBuffer: Buffer
    const outputBuffer: Buffer
    const highWaterMark: nat
    const hasWriteComplete: bool        // writeCompleteCallback_ is set
    var state: ConnState
    ghost var foreign: Foreign          // what other threads have under way
    ghost var destroyed: bool
    ghost var log: seq<Action>          // calls to the outside, in order

    ghost predicate Valid()
      reads this, inputBuffer, outputBuffer
    {
      && inputBuffer.Valid() && outputBuffer.Valid()
      && inputBuffer != outputBuffer && inputBuffer.buffer != outputBuffer.buffer
    }

    ghost function Conn(): Conn<Channel>
      reads this, channel, inputBuffer, outputBuffer, inputBuffer.buffer, outputBuffer.buffer
      requires Valid()
    {
      CS.Conn(channel, channel.State(), state, inputBuffer.State(), outputBuffer.State(),
              highWaterMark, hasWriteComplete, foreign, destroyed, log)
    }

    ghost function View(): (v: View<Channel>)
      reads this, channel, channel.poller, inputBuffer, outputBuffer, inputBuffer.buffer, outputBuffer.buffer
      requires Valid()
      ensures v.c.Valid()
    {
      CS.View(Conn(), channel.poller.State())
    }

    constructor (poller: EPollPoller, sockfd: int, hasWriteComplete: bool)
      ensures Valid() && channel.poller == poller
      ensures View().c == NewConn(channel, sockfd, HIGH_WATER_MARK, hasWriteComplete)
      ensures channel.fd == sockfd && this.hasWriteComplete == hasWriteComplete && highWaterMark == 0x400_0000
    {
      this.channel := new Channel(poller, sockfd);
      var input := new Buffer();
      var output := new Buffer();
      this.inputBuffer, this.outputBuffer := input, output;
      this.highWaterMark, this.hasWriteComplete := HIGH_WATER_MARK, hasWriteComplete;
      state := Connecting;
      foreign, destroyed, log := NOTHING_FOREIGN, false, [];
    }

    ghost method Note(a: Action)
      requires Valid()
      modifies this`log
      ensures Valid() && log == old(log) + [a]
      ensures View() == old(View()).(c := old(View()).c.Note(a))
    {
      log := log + [a];
    }

    // outputBuffer_.append and channel_->enableWriting, seen from the connection.
    method AppendOutput(rest: seq<byte>)
      requires Valid()
      modifies outputBuffer, outputBuffer.buffer
      ensures Valid() && (outputBuffer.buffer == old(outputBuffer.buffer) || fresh(outputBuffer.buffer))
      ensures View() == old(View()).(c := old(View()).c.(output := Append(old(View()).c.output, rest)))
    {
      outputBuffer.Append(rest);
    }

    method StartWriting()
      requires Valid()
      modifies channel, channel.poller
      ensures Valid() && View() == CallChannel(old(View()), ChannelOp.EnableWriting)
    {
      channel.EnableWriting();
    }

    // The direct ::write, on an idle connection.
    method TryWrite(data: seq<byte>, r: WriteResult) returns (nwrote: nat, faultError: bool)
      requires Valid() && KernelCanWrite(|data|, r)
      modifies this`log
      ensures Valid() && nwrote == (if r.Wrote? then r.n else 0) && faultError == PeerGone(r)
      ensures var c1 := old(View()).c.Note(Write(if r.Wrote? then data[..r.n] else []));
              View() == old(View()).(c :=
                if r.Wrote? && r.n == |data| && c1.notify then c1.Note(QueueWriteComplete(|c1.output.data|)) else c1)
    {
      nwrote, faultError := 0, false;
      match r {
        case Wrote(n) =>
          nwrote := n;
          Note(Write(data[..n]));
          if |data| - n == 0 && hasWriteComplete {
            Note(QueueWriteComplete(outputBuffer.ReadableBytes()));
          }
        case Failed(errno) =>
          Note(Write([]));
          if errno != EWOULDBLOCK {
            if errno == EPIPE || errno == ECONNRESET {
              faultError := true;
            }
          }
      }
    }

    /** r is the kernel's answer to the direct ::write, should it be made. */
    method SendInLoop(data: seq<byte>, r: WriteResult)
      requires Valid() && KernelCanWrite(|data|, r)
      modifies this`log, channel, channel.poller, outputBuffer, outputBuffer.buffer
      ensures Valid() && (outputBuffer.buffer == old(outputBuffer.buffer) || fresh(outputBuffer.buffer))
      ensures View() == CS.SendInLoop(old(View()), data, r)
    {
      var nwrote: nat, faultError := 0, false;
      if state == Disconnected {
        return;
      }
      if !channel.IsWriting() && outputBuffer.ReadableBytes() == 0 {
        nwrote, faultError := TryWrite(data, r);
      }
      var remaining := |data| - nwrote;
      assert data[0..] == data;
      if !faultError && remaining > 0 {
        BufferRest(data[nwrote..]);
      }
    }

    // The last part of sendInLoop, from the high-water test on.
    method BufferRest(rest: seq<byte>)
      requires Valid() && rest != []
      modifies this`log, channel, channel.poller, outputBuffer, outputBuffer.buffer
      ensures Valid() && (outputBuffer.buffer == old(outputBuffer.buffer) || fresh(outputBuffer.buffer))
      ensures View() == CS.BufferRest(old(View()), rest)
    {
      var oldLen := outputBuffer.ReadableBytes();
      if oldLen + |rest| >= highWaterMark && oldLen < highWaterMark && highWaterMark != 0 {
        Note(QueueHighWater(oldLen + |rest|));
      }
      AppendOutput(rest);
      if !channel.IsWriting() {
        StartWriting();
      }
    }

    /** On another thread the payload is queued for sendInLoop; r is then not asked for. */
    method Send(data: seq<byte>, r: WriteResult, onLoopThread: bool)
      requires Valid() && KernelCanWrite(|data|, r)
      modifies this`log, this`foreign, channel, channel.poller, outputBuffer, outputBuffer.buffer
      ensures Valid() && (outputBuffer.buffer == old(outputBuffer.buffer) || fresh(outputBuffer.buffer))
      ensures View() == CS.Step(old(View()), if onLoopThread then EvSend(data, r) else EvRemoteSend(data))
    {
      if state == Connected {
        if onLoopThread {
          SendInLoop(data, r);
        } else {
          foreign := foreign.(sends := foreign.sends + [data]);
        }
      }
    }

    // The functor that Send queued has come to run.
    method RunQueuedSend(data: seq<byte>, r: WriteResult)
      requires Valid() && KernelCanWrite(|data|, r) && foreign.sends != [] && data == foreign.sends[0]
      modifies this`log, this`foreign, channel, channel.poller, outputBuffer, outputBuffer.buffer
      ensures Valid() && (outputBuffer.buffer == old(outputBuffer.buffer) || fresh(outputBuffer.buffer))
      ensures View() == CS.Step(old(View()), EvQueuedSend(data, r))
    {
      foreign := foreign.(sends := foreign.sends[1..]);
      SendInLoop(data, r);
    }

    method ShutdownInLoop()
      requires Valid()
      modifies this`log
      ensures Valid() && View() == old(View()).(c := CS.ShutdownInLoop(old(View()).c))
    {
      if !channel.IsWriting() {
        Note(HalfClose(outputBuffer.ReadableBytes()));
      }
    }

    // shutdown() of another thread makes these three accesses; handlers of the loop thread
    // may run in between.
    method TestShutdown() returns (passed: bool)
      requires Valid()
      modifies this`foreign
      ensures Valid() && View() == old(View()).(c := CS.TestShutdown(old(View()).c))
      ensures passed <==> old(state) == Connected
    {
      passed := state == Connected;
      if passed {
        foreign := foreign.(tested := foreign.tested + 1);
      }
    }

    method StoreShutdown()
      requires Valid() && foreign.tested > 0
      modifies this`foreign, this`state
      ensures Valid() && View() == old(View()).(c := CS.StoreShutdown(old(View()).c))
    {
      state := Disconnecting;
      foreign := foreign.(tested := foreign.tested - 1, stored := foreign.stored + 1);
    }

    method PostShutdown()
      requires Valid() && foreign.stored > 0
      modifies this`foreign
      ensures Valid() && View() == old(View()).(c := CS.PostShutdown(old(View()).c))
    {
      foreign := foreign.(stored := foreign.stored - 1, posted := foreign.posted + 1);
    }

    method Shutdown(onLoopThread: bool)
      requires Valid()
      modifies this`log, this`state, this`foreign
      ensures Valid()
      ensures View() ==
              old(View()).(c := if onLoopThread then CS.Shutdown(old(View()).c) else RemoteShutdown(old(View()).c))
      ensures old(state) == Connected ==> state == Disconnecting
      ensures !onLoopThread ==>
                foreign == if old(state) == Connected then old(foreign).(posted := old(foreign).posted + 1)
                           else old(foreign)
    {
      if onLoopThread {
        if state == Connected {
          state := Disconnecting;
          ShutdownInLoop();
        }
      } else {
        var passed := TestShutdown();
        if passed {
          StoreShutdown();
          PostShutdown();
        }
      }
    }

    method HandleWrite(r: WriteResult)
      requires Valid() && KernelCanWrite(outputBuffer.ReadableBytes(), r)
      modifies this`log, channel, channel.poller, outputBuffer
      ensures Valid() && outputBuffer.buffer == old(outputBuffer.buffer)
      ensures View() == CS.HandleWrite(old(View()), r)
    {
      if channel.IsWriting() {
        var n: int := -1;
        var sent := [];
        if r.Wrote? {
          n := r.n;
          sent := outputBuffer.WriteFd(r.n);
        }
        Note(Write(sent));
        if n > 0 {
          outputBuffer.Retrieve(n);
          if outputBuffer.ReadableBytes() == 0 {
            Drained();
          }
        }
      }
    }

    // What handleWrite does once the buffer is empty.
    method Drained()
      requires Valid()
      modifies this`log, channel, channel.poller
      ensures Valid() && View() == CS.Drained(old(View()))
    {
      channel.DisableWriting();
      if hasWriteComplete {
        Note(QueueWriteComplete(outputBuffer.ReadableBytes()));
      }
      if state == Disconnecting {
        ShutdownInLoop();
      }
    }

    method HandleClose()
      requires Valid()
      modifies this`log, this`state
      ensures Valid() && View() == old(View()).(c := CS.HandleClose(old(View()).c))
    {
      state := Disconnected;
      Note(ConnDown);
      Note(CloseCallback);
    }

    method HandleRead(r: ReadResult)
      requires Valid() && KernelCanRead(inputBuffer.State(), r)
      modifies this`log, this`state, inputBuffer, inputBuffer.buffer
      ensures Valid() && (inputBuffer.buffer == old(inputBuffer.buffer) || fresh(inputBuffer.buffer))
      ensures View() == old(View()).(c := CS.HandleRead(old(View()).c, r))
    {
      var n := inputBuffer.ReadFd(r);
      if n > 0 {
        Note(Message);
      } else if n == 0 {
        HandleClose();
      }
    }

    method ConnectEstablished()
      requires Valid()
      modifies this`log, this`state, channel, channel.poller
      ensures Valid() && View() == CS.ConnectEstablished(old(View()))
    {
      state := Connected;
      channel.EnableReading();
      Note(ConnUp);
    }

    method ConnectDestroyed()
      requires Valid()
      modifies this`log, this`state, this`destroyed, channel, channel.poller
      ensures Valid() && View() == CS.ConnectDestroyed(old(View()))
    {
      if state == Connected {
        state := Disconnected;
        channel.DisableAll();
        Note(ConnDown);
      }
      channel.Remove();
      destroyed := true;
    }
  }
}
