// Registration of channels with epoll: src/EPollPoller.cc, src/Poller.cc and
// the interest mask of src/Channel.h, as functions on values. C is whatever
// identifies a channel (an object reference, a connection number).
module PollerSpec {

  datatype EventBit = EPOLLIN | EPOLLPRI | EPOLLOUT
  type Mask = set<EventBit>

  const NONE_EVENT: Mask := {}
  const READ_EVENT: Mask := {EPOLLIN, EPOLLPRI}
  const WRITE_EVENT: Mask := {EPOLLOUT}

  datatype Index = New | Added | Deleted

  datatype Chan = Chan(fd: int, events: Mask, index: Index) {
    predicate IsNoneEvent() {
      events == NONE_EVENT
    }

    predicate IsWriting(): (b: bool)
      ensures b <==> EPOLLOUT in events
    {
      assert EPOLLOUT in events ==> EPOLLOUT in events * WRITE_EVENT;
      events * WRITE_EVENT != {}
    }
  }

  // channels_ of the poller, and the kernel's interest set behind its epollfd_.
  // failures counts the epoll_ctl calls the kernel has refused.
  datatype Poller<C> = Poller(channels: map<int, C>, kernel: map<int, Mask>, failures: nat)

  datatype CtlOp = CtlAdd | CtlMod | CtlDel

  // epoll_ctl: EEXIST for an ADD of a present fd, ENOENT for a MOD or DEL of an absent one.
  function EpollCtl<C>(p: Poller<C>, op: CtlOp, fd: int, mask: Mask): Poller<C> {
    if (fd in p.kernel) == op.CtlAdd? then
      p.(failures := p.failures + 1)
    else if op.CtlDel? then
      p.(kernel := p.kernel - {fd})
    else
      p.(kernel := p.kernel[fd := mask])
  }

  function UpdateChannel<C>(p: Poller<C>, c: C, ch: Chan): (Poller<C>, Chan) {
    if ch.index == New || ch.index == Deleted then
      var p1 := if ch.index == New then p.(channels := p.channels[ch.fd := c]) else p;
      (EpollCtl(p1, CtlAdd, ch.fd, ch.events), ch.(index := Added))
    else if ch.IsNoneEvent() then
      (EpollCtl(p, CtlDel, ch.fd, ch.events), ch.(index := Deleted))
    else
      (EpollCtl(p, CtlMod, ch.fd, ch.events), ch)
  }

  function RemoveChannel<C>(p: Poller<C>, ch: Chan): (Poller<C>, Chan) {
    var p1 := p.(channels := p.channels - {ch.fd});
    (if ch.index == Added then EpollCtl(p1, CtlDel, ch.fd, ch.events) else p1, ch.(index := New))
  }

  predicate HasChannel<C(==)>(p: Poller<C>, c: C, ch: Chan) {
    ch.fd in p.channels && p.channels[ch.fd] == c
  }

  datatype ChannelOp = EnableReading | DisableReading | EnableWriting | DisableWriting | DisableAll | Remove

  function NewMask(events: Mask, op: ChannelOp): Mask {
    match op
    case EnableReading => events + READ_EVENT
    case DisableReading => events - READ_EVENT
    case EnableWriting => events + WRITE_EVENT
    case DisableWriting => events - WRITE_EVENT
    case DisableAll => NONE_EVENT
    case Remove => events
  }

  // One call on a channel, down to the kernel.
  function Apply<C>(p: Poller<C>, c: C, ch: Chan, op: ChannelOp): (Poller<C>, Chan) {
    if op.Remove? then RemoveChannel(p, ch)
    else UpdateChannel(p, c, ch.(events := NewMask(ch.events, op)))
  }

  // ---------------------------------------------------------------------
  // Agreement between one channel and its poller
  // ---------------------------------------------------------------------

  ghost predicate Agrees<C>(p: Poller<C>, c: C, ch: Chan) {
    && (ch.fd in p.kernel <==> ch.index == Added)
    && (ch.fd in p.kernel ==> p.kernel[ch.fd] == ch.events)
    && (HasChannel(p, c, ch) <==> ch.index != New)
    && (ch.index == New ==> ch.fd !in p.channels)
  }

  // Nothing but the entries of this fd may differ.
  ghost predicate SameElsewhere<C>(p: Poller<C>, q: Poller<C>, fd: int) {
    && (forall f :: f != fd ==> (f in p.channels <==> f in q.channels))
    && (forall f :: f != fd && f in p.channels ==> p.channels[f] == q.channels[f])
    && (forall f :: f != fd ==> (f in p.kernel <==> f in q.kernel))
    && (forall f :: f != fd && f in p.kernel ==> p.kernel[f] == q.kernel[f])
  }

  // The entries of this fd are the same in both.
  ghost predicate SameAt<C>(p: Poller<C>, q: Poller<C>, fd: int) {
    && (fd in p.channels <==> fd in q.channels)
    && (fd in p.channels ==> p.channels[fd] == q.channels[fd])
    && (fd in p.kernel <==> fd in q.kernel)
    && (fd in p.kernel ==> p.kernel[fd] == q.kernel[fd])
  }

  /** Every call keeps its channel in agreement, is never refused by the kernel (so an ADD
      finds the fd absent, a MOD or DEL finds it present) and touches no other fd. */
  lemma ApplyKeepsAgreement<C>(p: Poller<C>, c: C, ch: Chan, op: ChannelOp)
    requires Agrees(p, c, ch)
    ensures var (q, ch') := Apply(p, c, ch, op);
            && Agrees(q, c, ch') && ch'.fd == ch.fd
            && ch'.events == NewMask(ch.events, op)
            && q.failures == p.failures
            && SameElsewhere(p, q, ch.fd)
  {
  }

  lemma AgreementIsLocal<C>(p: Poller<C>, q: Poller<C>, c: C, ch: Chan)
    requires Agrees(p, c, ch) && SameAt(p, q, ch.fd)
    ensures Agrees(q, c, ch)
  {
  }

  // ---------------------------------------------------------------------
  // What a call comes to, in terms of bits and of the kernel's set
  // ---------------------------------------------------------------------

  /** Which bits an operation sets and clears; the others keep their value. */
  lemma MaskBits(events: Mask, op: ChannelOp, bit: EventBit)
    ensures var forReading := bit == EPOLLIN || bit == EPOLLPRI;
            bit in NewMask(events, op) <==>
              || (op.EnableReading? && forReading) || (op.EnableWriting? && !forReading)
              || (bit in events && !op.DisableAll? &&
                    !(op.DisableReading? && forReading) && !(op.DisableWriting? && !forReading))
  {
  }

  /** The kernel refuses an ADD of an fd it holds and a MOD or DEL of one it does not, and
      then changes nothing; otherwise it holds the fd with this mask, or no longer. */
  lemma KernelRefuses<C>(p: Poller<C>, op: CtlOp, fd: int, mask: Mask)
    ensures var q, refused := EpollCtl(p, op, fd, mask), (fd in p.kernel) == op.CtlAdd?;
            && q.channels == p.channels
            && q.failures == p.failures + (if refused then 1 else 0)
            && (refused ==> q.kernel == p.kernel)
            && (!refused ==> (fd in q.kernel <==> !op.CtlDel?) && (fd in q.kernel ==> q.kernel[fd] == mask))
            && SameElsewhere(p, q, fd)
  {
  }

  /** No two channels are registered with one fd. */
  lemma OneChannelPerFd<C>(p: Poller<C>, c: C, ch: Chan, d: C, dh: Chan)
    requires HasChannel(p, c, ch) && HasChannel(p, d, dh) && ch.fd == dh.fd
    ensures c == d && p.channels[ch.fd] == c
  {
  }

  /** Any call but remove: a registered channel stays in the kernel's set exactly while it
      asks for something; one not in the set is added whatever it asks for; and channels_
      gets an entry only where it had none. */
  lemma UpdateIsExact<C>(p: Poller<C>, c: C, ch: Chan, op: ChannelOp)
    requires Agrees(p, c, ch) && !op.Remove?
    ensures var (q, ch') := Apply(p, c, ch, op);
            var mask := NewMask(ch.events, op);
            && ch'.index == (if ch.index == Added && mask == NONE_EVENT then Deleted else Added)
            && (ch.fd in q.kernel <==> !(ch.index == Added && mask == NONE_EVENT))
            && (ch.fd in q.kernel ==> q.kernel[ch.fd] == mask)
            && ch.fd in q.channels && q.channels[ch.fd] == c
            && (ch.index != New ==> q.channels == p.channels)
  {
  }

  /** After disableAll the fd of a registered channel is out of the kernel's set and still in
      channels_; the next update adds it again. */
  lemma DisableAllLeavesTheKernel<C>(p: Poller<C>, c: C, ch: Chan, op: ChannelOp)
    requires Agrees(p, c, ch) && ch.index == Added && !op.Remove?
    ensures var (q, ch1) := Apply(p, c, ch, DisableAll);
            && ch.fd !in q.kernel && HasChannel(q, c, ch1)
            && var (q', ch2) := Apply(q, c, ch1, op);
               ch.fd in q'.kernel && q'.kernel[ch.fd] == NewMask({}, op) && q'.channels == p.channels
  {
    UpdateIsExact(p, c, ch, DisableAll);
    ApplyKeepsAgreement(p, c, ch, DisableAll);
    var (q, ch1) := Apply(p, c, ch, DisableAll);
    UpdateIsExact(q, c, ch1, op);
  }
}
