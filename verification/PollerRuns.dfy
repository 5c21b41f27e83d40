// Any number of channels on one poller, and any sequence of calls on them.
module PollerRuns {
  import opened PollerSpec

  datatype World<C> = World(chans: map<C, Chan>, poller: Poller<C>)

  datatype Step<C> =
    | Open(c: C, fd: int)            // a Channel is constructed for an fd no live channel has
    | Call(c: C, op: ChannelOp)
    | Close(c: C)                    // a removed Channel dies and its fd is closed

  ghost predicate Enabled<C>(w: World<C>, s: Step<C>) {
    match s
    case Open(c, fd) => c !in w.chans && forall d :: d in w.chans ==> w.chans[d].fd != fd
    case Call(c, _) => c in w.chans
    case Close(c) => c in w.chans && w.chans[c].index == New
  }

  ghost function Next<C>(w: World<C>, s: Step<C>): World<C>
    requires Enabled(w, s)
  {
    match s
    case Open(c, fd) => w.(chans := w.chans[c := Chan(fd, NONE_EVENT, New)])
    case Call(c, op) =>
      var (p, ch) := Apply(w.poller, c, w.chans[c], op);
      World(w.chans[c := ch], p)
    case Close(c) => w.(chans := w.chans - {c})
  }

  ghost predicate CanRun<C>(w: World<C>, steps: seq<Step<C>>)
    decreases |steps|
  {
    steps == [] || (Enabled(w, steps[0]) && CanRun(Next(w, steps[0]), steps[1..]))
  }

  ghost function Run<C>(w: World<C>, steps: seq<Step<C>>): World<C>
    requires CanRun(w, steps)
    decreases |steps|
  {
    if steps == [] then w else Run(Next(w, steps[0]), steps[1..])
  }

  ghost predicate Registered<C>(w: World<C>) {
    && (forall c :: c in w.chans ==> Agrees(w.poller, c, w.chans[c]))
    && (forall c, d :: c in w.chans && d in w.chans && c != d ==> w.chans[c].fd != w.chans[d].fd)
    && (forall fd :: fd in w.poller.channels ==>
          w.poller.channels[fd] in w.chans && w.chans[w.poller.channels[fd]].fd == fd)
    && w.poller.kernel.Keys <= w.poller.channels.Keys
    && w.poller.failures == 0
  }

  lemma NextKeepsRegistered<C>(w: World<C>, s: Step<C>)
    requires Registered(w) && Enabled(w, s)
    ensures Registered(Next(w, s))
  {
    if s.Call? {
      var w' := Next(w, s);
      ApplyKeepsAgreement(w.poller, s.c, w.chans[s.c], s.op);
      forall d | d in w'.chans
        ensures Agrees(w'.poller, d, w'.chans[d])
      {
        if d != s.c {
          AgreementIsLocal(w.poller, w'.poller, d, w.chans[d]);
        }
      }
    } else if s.Open? {
      forall fd | fd in w.poller.channels
        ensures fd != s.fd
      {
        assert w.chans[w.poller.channels[fd]].fd == fd;
      }
    } else {
      forall fd | fd in w.poller.channels
        ensures w.poller.channels[fd] != s.c
      {
        assert Agrees(w.poller, s.c, w.chans[s.c]);
      }
    }
  }

  /** After any sequence of calls on any set of channels with distinct fds: the kernel holds
      an fd exactly when some channel with that fd is Added, and then with that channel's
      events; hasChannel says exactly whether a channel's index is not New; and the kernel
      has refused nothing. */
  lemma {:induction false} RegistrationAgreement<C>(w: World<C>, steps: seq<Step<C>>)
    requires Registered(w) && CanRun(w, steps)
    ensures var w' := Run(w, steps);
            && Registered(w')
            && w'.poller.failures == 0
            && (forall c :: c in w'.chans ==>
                 (HasChannel(w'.poller, c, w'.chans[c]) <==> w'.chans[c].index != New))
            && (forall fd :: fd in w'.poller.kernel <==>
                 exists c :: c in w'.chans && w'.chans[c].fd == fd && w'.chans[c].index == Added)
            && (forall c :: c in w'.chans && w'.chans[c].index == Added ==>
                 w'.chans[c].fd in w'.poller.kernel && w'.poller.kernel[w'.chans[c].fd] == w'.chans[c].events)
    decreases |steps|
  {
    if steps == [] {
      forall fd | fd in w.poller.kernel
        ensures exists c :: c in w.chans && w.chans[c].fd == fd && w.chans[c].index == Added
      {
        var c := w.poller.channels[fd];
        assert Agrees(w.poller, c, w.chans[c]);
      }
    } else {
      NextKeepsRegistered(w, steps[0]);
      RegistrationAgreement(Next(w, steps[0]), steps[1..]);
    }
  }

  /** Removing a channel, even one already removed, leaves every other channel's entries. */
  lemma RemoveIsIdempotentAndLocal<C>(p: Poller<C>, c: C, ch: Chan)
    requires Agrees(p, c, ch)
    ensures var (q, ch1) := Apply(p, c, ch, Remove);
            && ch.fd !in q.channels && ch.fd !in q.kernel
            && SameElsewhere(p, q, ch.fd)
            && Apply(q, c, ch1, Remove) == (q, ch1)
  {
    var (q, ch1) := Apply(p, c, ch, Remove);
    assert q.channels - {ch.fd} == q.channels;
  }
}
