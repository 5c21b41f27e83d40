// src/EPollPoller.cc, src/Poller.cc and src/Channel.h as objects that change
// their fields. State() of each is moved by the functions of PollerSpec.
module Pollers {
  import opened PollerSpec

  class Channel {
    const poller: EPollPoller      // the poller of the owning loop
    const fd: int
    var events: Mask
    var index: Index

    constructor (poller: EPollPoller, fd: int)
      ensures this.poller == poller && State() == Chan(fd, NONE_EVENT, New)
    {
      this.poller, this.fd := poller, fd;
      events, index := NONE_EVENT, New;
    }

    function State(): Chan
      reads this
    {
      Chan(fd, events, index)
    }

    predicate IsNoneEvent()
      reads this
    {
      events == NONE_EVENT
    }

    predicate IsWriting()
      reads this
    {
      events * WRITE_EVENT != {}
    }

    method EnableReading()
      modifies this, poller
      ensures (poller.State(), State()) == old(Apply(poller.State(), this, State(), ChannelOp.EnableReading))
    {
      events := events + READ_EVENT;
      poller.UpdateChannel(this);
    }

    method DisableReading()
      modifies this, poller
      ensures (poller.State(), State()) == old(Apply(poller.State(), this, State(), ChannelOp.DisableReading))
    {
      events := events - READ_EVENT;
      poller.UpdateChannel(this);
    }

    method EnableWriting()
      modifies this, poller
      ensures (poller.State(), State()) == old(Apply(poller.State(), this, State(), ChannelOp.EnableWriting))
    {
      events := events + WRITE_EVENT;
      poller.UpdateChannel(this);
    }

    method DisableWriting()
      modifies this, poller
      ensures (poller.State(), State()) == old(Apply(poller.State(), this, State(), ChannelOp.DisableWriting))
    {
      events := events - WRITE_EVENT;
      poller.UpdateChannel(this);
    }

    method DisableAll()
      modifies this, poller
      ensures (poller.State(), State()) == old(Apply(poller.State(), this, State(), ChannelOp.DisableAll))
    {
      events := NONE_EVENT;
      poller.UpdateChannel(this);
    }

    method Remove()
      modifies this, poller
      ensures (poller.State(), State()) == old(Apply(poller.State(), this, State(), ChannelOp.Remove))
    {
      poller.RemoveChannel(this);
    }
  }

  class EPollPoller {
    var channels: map<int, Channel>
    var kernel: map<int, Mask>      // the interest set the kernel keeps for epollfd_
    var failures: nat               // epoll_ctl calls refused so far

    constructor ()
      ensures State() == Poller(map[], map[], 0)
    {
      channels, kernel, failures := map[], map[], 0;
    }

    function State(): Poller<Channel>
      reads this
    {
      Poller(channels, kernel, failures)
    }

    // update(): one epoll_ctl call with the channel's fd and mask.
    method Update(op: CtlOp, channel: Channel)
      modifies this
      ensures State() == EpollCtl(old(State()), op, channel.fd, channel.events)
    {
      var present := channel.fd in kernel;
      match op {
        case CtlAdd =>
          if present { failures := failures + 1; } else { kernel := kernel[channel.fd := channel.events]; }
        case CtlMod =>
          if present { kernel := kernel[channel.fd := channel.events]; } else { failures := failures + 1; }
        case CtlDel =>
          if present { kernel := kernel - {channel.fd}; } else { failures := failures + 1; }
      }
    }

    method UpdateChannel(channel: Channel)
      modifies this, channel`index
      ensures (State(), channel.State()) == old(PollerSpec.UpdateChannel(State(), channel, channel.State()))
    {
      var index := channel.index;
      if index == New || index == Deleted {
        if index == New {
          channels := channels[channel.fd := channel];
        }
        channel.index := Added;
        Update(CtlAdd, channel);
      } else {
        if channel.IsNoneEvent() {
          Update(CtlDel, channel);
          channel.index := Deleted;
        } else {
          Update(CtlMod, channel);
        }
      }
    }

    method RemoveChannel(channel: Channel)
      modifies this, channel`index
      ensures (State(), channel.State()) == old(PollerSpec.RemoveChannel(State(), channel.State()))
    {
      channels := channels - {channel.fd};
      if channel.index == Added {
        Update(CtlDel, channel);
      }
      channel.index := New;
    }

    /** For a channel in agreement with its poller, the query tells kNew from the others. */
    predicate HasChannel(channel: Channel): (b: bool)
      reads this, channel
      ensures b <==> PollerSpec.HasChannel(State(), channel, channel.State())
      ensures Agrees(State(), channel, channel.State()) ==> (b <==> channel.index != New)
    {
      channel.fd in channels && channels[channel.fd] == channel
    }
  }
}
