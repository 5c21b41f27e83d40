// The invariant of ServerSpec, and that every step keeps it.
module ServerInvariant {
  import opened PollerSpec
  import opened BufferSpec
  import CS = ConnectionSpec
  import CR = ConnectionRuns
  import opened TaskQueue
  import opened ThreadPools
  import opened ConnectionNames
  import opened ServerSpec

  // ---------------------------------------------------------------------
  // One connection
  // ---------------------------------------------------------------------

  function Bag(ls: LoopState): multiset<Functor> {
    multiset(ls.queue.All())
  }

  // Who knows connection c: connections_, and how many functors of each kind are queued
  // where they belong.
  datatype Holders = Holders(inMap: bool, establish: nat, remove: nat, destroy: nat)

  function HoldersOf(s: Server, c: nat): Holders
    requires c in s.conns && s.conns[c].loop < |s.loops|
  {
    var bag := Bag(s.loops[s.conns[c].loop]);
    Holders(s.NameOf(c) in s.connections && s.connections[s.NameOf(c)] == c,
            bag[Establish(c)], Bag(s.loops[0])[RemoveInLoop(c)], bag[Destroy(c)])
  }

  // Where a connection is in its life, by its state and by who holds it.
  ghost predicate StageOk(k: CS.Conn<nat>, h: Holders) {
    && (k.state == CS.Connecting ==> h == Holders(true, 1, 0, 0))
    && (k.state != CS.Connecting ==> h.establish == 0)
    && (h.remove > 0 || h.destroy > 0 ==> k.state == CS.Disconnected)
    && (k.state != CS.Disconnected ==> h.inMap)
    && (k.state == CS.Disconnected && h.inMap ==> h.remove > 0)
    && (k.state == CS.Disconnected && !h.inMap && !k.destroyed ==> h.destroy > 0)
    && (h.destroy > 0 || k.destroyed ==> !h.inMap)
    && (k.destroyed ==> k.state == CS.Disconnected && k.ch.index == New)
    && k.foreign == CS.NOTHING_FOREIGN
  }

  ghost predicate ConnOk(s: Server, c: nat)
    requires |s.loops| > 0
  {
    && s.Usable(c)
    && 1 <= c < s.nextId
    && s.conns[c].conn.self == c
    && Fits(s.ipPort, c)
    && CR.Inv(s.ViewOf(c))
    && StageOk(s.conns[c].conn, HoldersOf(s, c))
  }

  // ---------------------------------------------------------------------
  // The whole server
  // ---------------------------------------------------------------------

  ghost predicate Shape(s: Server) {
    && |s.loops| > 0 && !s.fault && s.nextId >= 1
    && s.pool.Valid() && s.pool.base == 0 && s.pool.loops == IoLoops(|s.loops| - 1)
  }

  // A queued functor finds its connection alive, and is on the loop it belongs to.
  ghost predicate FunctorOk(s: Server, l: nat, f: Functor) {
    && f.c in s.conns
    && (if f.RemoveInLoop? then l == 0 else l == s.conns[f.c].loop)
  }

  ghost predicate FunctorsOk(s: Server) {
    forall l: nat, f: Functor :: l < |s.loops| && f in Bag(s.loops[l]) ==> FunctorOk(s, l, f)
  }

  ghost predicate NamesOk(s: Server) {
    forall nm :: nm in s.connections ==> s.connections[nm] in s.conns && nm == s.NameOf(s.connections[nm])
  }

  ghost predicate FdsDiffer(s: Server) {
    forall c, d :: c in s.conns && d in s.conns && c != d ==> s.conns[c].conn.ch.fd != s.conns[d].conn.ch.fd
  }

  // Every entry of a poller belongs to a live connection of that loop.
  ghost predicate EntryOk(s: Server, l: nat, fd: int)
    requires l < |s.loops|
  {
    var p := s.loops[l].poller;
    fd in p.channels ==>
      var c := p.channels[fd];
      c in s.conns && s.conns[c].loop == l && s.conns[c].conn.ch.fd == fd
  }

  ghost predicate PollerOk(s: Server, l: nat)
    requires l < |s.loops|
  {
    && (forall fd :: EntryOk(s, l, fd))
    && (forall fd :: fd in s.loops[l].poller.kernel ==> fd in s.loops[l].poller.channels)
    && s.loops[l].poller.failures == 0
  }

  // A channel still to be handled is that of a live, registered connection of this loop.
  ghost predicate ActiveOk(s: Server, l: nat, c: nat) {
    && c in s.conns && s.conns[c].loop == l
    && s.conns[c].conn.state != CS.Connecting && !s.conns[c].conn.destroyed
  }

  ghost predicate PhaseOk(s: Server, l: nat)
    requires l < |s.loops|
  {
    && (s.loops[l].phase.Dispatch? ==>
          forall i :: 0 <= i < |s.loops[l].phase.active| ==> ActiveOk(s, l, s.loops[l].phase.active[i]))
    && (s.loops[l].queue.batch != [] ==> s.loops[l].phase.RunningBatch?)
  }

  // Every connection but c.
  ghost predicate OthersOk(s: Server, c: nat)
    requires |s.loops| > 0
  {
    forall d :: d in s.conns && d != c ==> ConnOk(s, d)
  }

  ghost predicate ConnsOk(s: Server)
    requires |s.loops| > 0
  {
    forall c :: c in s.conns ==> ConnOk(s, c)
  }

  ghost predicate PollersOk(s: Server) {
    forall l: nat :: l < |s.loops| ==> PollerOk(s, l)
  }

  ghost predicate PhasesOk(s: Server) {
    forall l: nat :: l < |s.loops| ==> PhaseOk(s, l)
  }

  ghost predicate Inv(s: Server) {
    && Shape(s) && ConnsOk(s)
    && FunctorsOk(s) && NamesOk(s) && FdsDiffer(s)
    && PollersOk(s) && PhasesOk(s)
  }

  lemma NewServerInv(name: string, ipPort: string, notify: bool, n: nat)
    ensures Inv(NewServer(name, ipPort, notify, n))
  {
  }

  // ---------------------------------------------------------------------
  // Steps of one connection
  // ---------------------------------------------------------------------

  ghost predicate SameExcept(s: Server, s': Server, c: nat) {
    && c in s.conns && c in s'.conns && s.conns[c].loop < |s.loops| == |s'.loops|
    && s'.name == s.name && s'.ipPort == s.ipPort && s'.notify == s.notify
    && s'.pool == s.pool && s'.nextId == s.nextId && s'.fault == s.fault
    && s'.conns == s.conns[c := s'.conns[c]]
    && s'.conns[c].loop == s.conns[c].loop
    && s'.conns[c].conn.self == s.conns[c].conn.self
    && s'.conns[c].conn.ch.fd == s.conns[c].conn.ch.fd
    && s.connections - {s.NameOf(c)} == s'.connections - {s.NameOf(c)}
    && (s.NameOf(c) in s'.connections ==>
          s.NameOf(c) in s.connections && s'.connections[s.NameOf(c)] == s.connections[s.NameOf(c)])
    && (forall l: nat :: l < |s.loops| && l != s.conns[c].loop ==> s'.loops[l].poller == s.loops[l].poller)
    && var p, q := s.loops[s.conns[c].loop].poller, s'.loops[s.conns[c].loop].poller;
       q.failures == p.failures && SameElsewhere(p, q, s.conns[c].conn.ch.fd)
  }

  // Functors of other connections are queued as before, those of c where they belong.
  ghost predicate OnlyFunctorsOf(s: Server, s': Server, c: nat)
    requires |s.loops| == |s'.loops|
  {
    forall l: nat, f: Functor :: l < |s.loops| ==>
      (f.c != c ==> Bag(s'.loops[l])[f] == Bag(s.loops[l])[f]) &&
      (f.c == c && f in Bag(s'.loops[l]) ==> FunctorOk(s', l, f))
  }

  lemma NamesDiffer(s: Server, c: nat, d: nat)
    requires Fits(s.ipPort, c) && Fits(s.ipPort, d) && c != d
    ensures s.NameOf(c) != s.NameOf(d)
  {
    FittingNamesDiffer(s.name, s.ipPort, c, d);
  }

  // Removing at most the entry nm from m, whatever else is asked at another key.
  lemma OtherKey<V>(m: map<string, V>, m': map<string, V>, nm: string, other: string)
    requires m - {nm} == m' - {nm} && other != nm
    ensures other in m <==> other in m'
    ensures other in m ==> m[other] == m'[other]
  {
    assert other in m <==> other in m - {nm};
    assert other in m' <==> other in m' - {nm};
    if other in m {
      assert m[other] == (m - {nm})[other] == (m' - {nm})[other] == m'[other];
    }
  }

  lemma CountStays(s: Server, s': Server, c: nat, l: nat, f: Functor)
    requires |s.loops| == |s'.loops| && OnlyFunctorsOf(s, s', c) && l < |s.loops| && f.c != c
    ensures Bag(s'.loops[l])[f] == Bag(s.loops[l])[f]
  {
  }

  lemma HoldersStay(s: Server, s': Server, c: nat, d: nat)
    requires SameExcept(s, s', c) && OnlyFunctorsOf(s, s', c)
    requires d in s.conns && d != c && s.NameOf(d) != s.NameOf(c) && s.conns[d].loop < |s.loops|
    ensures d in s'.conns && s'.conns[d] == s.conns[d]
    ensures s'.nextId == s.nextId && |s'.loops| == |s.loops| && s'.ipPort == s.ipPort
    ensures HoldersOf(s', d) == HoldersOf(s, d)
  {
    OtherKey(s.connections, s'.connections, s.NameOf(c), s.NameOf(d));
    var l := s.conns[d].loop;
    CountStays(s, s', c, l, Establish(d));
    CountStays(s, s', c, l, Destroy(d));
    CountStays(s, s', c, 0, RemoveInLoop(d));
  }

  lemma ConnectionInvIsLocal(k: CS.Conn<nat>, p: Poller<nat>, q: Poller<nat>)
    requires CR.Inv(CS.View(k, p)) && SameAt(p, q, k.ch.fd)
    ensures CR.Inv(CS.View(k, q))
  {
    AgreementIsLocal(p, q, k.self, k.ch);
  }

  lemma ViewStaysOk(s: Server, s': Server, c: nat, d: nat)
    requires SameExcept(s, s', c) && d in s.conns && d != c && s.Usable(d)
    requires CR.Inv(s.ViewOf(d)) && s.conns[c].conn.ch.fd != s.conns[d].conn.ch.fd
    ensures s'.Usable(d) && CR.Inv(s'.ViewOf(d))
  {
    var l := s.conns[d].loop;
    ConnectionInvIsLocal(s.conns[d].conn, s.loops[l].poller, s'.loops[l].poller);
  }

  lemma OthersStayOk(s: Server, s': Server, c: nat, d: nat)
    requires SameExcept(s, s', c) && OnlyFunctorsOf(s, s', c)
    requires d in s.conns && d != c && ConnOk(s, d) && Fits(s.ipPort, c)
    requires s.conns[c].conn.ch.fd != s.conns[d].conn.ch.fd
    ensures ConnOk(s', d)
  {
    NamesDiffer(s, c, d);
    HoldersStay(s, s', c, d);
    ViewStaysOk(s, s', c, d);
  }

  lemma PollersStayOk(s: Server, s': Server, c: nat, l: nat)
    requires SameExcept(s, s', c) && l < |s.loops|
    requires PollerOk(s, l)
    requires Agrees(s'.loops[s.conns[c].loop].poller, c, s'.conns[c].conn.ch)
    ensures PollerOk(s', l)
  {
    forall fd
      ensures EntryOk(s', l, fd)
      ensures fd in s'.loops[l].poller.kernel ==> fd in s'.loops[l].poller.channels
    {
      assert EntryOk(s, l, fd);
    }
  }

  lemma PollersAllStayOk(s: Server, s': Server, c: nat)
    requires SameExcept(s, s', c) && s'.Usable(c) && CR.Inv(s'.ViewOf(c)) && s'.conns[c].conn.self == c
    requires PollersOk(s)
    ensures PollersOk(s')
  {
    forall l: nat | l < |s'.loops| ensures PollerOk(s', l) {
      PollersStayOk(s, s', c, l);
    }
  }

  lemma FunctorsStayOk(s: Server, s': Server, c: nat)
    requires SameExcept(s, s', c) && OnlyFunctorsOf(s, s', c) && FunctorsOk(s)
    ensures FunctorsOk(s')
  {
    forall l: nat, f: Functor | l < |s'.loops| && f in Bag(s'.loops[l]) ensures FunctorOk(s', l, f) {
      if f.c != c {
        CountStays(s, s', c, l, f);
        assert FunctorOk(s, l, f);
      }
    }
  }

  lemma NamesStayOk(s: Server, s': Server, c: nat)
    requires SameExcept(s, s', c) && NamesOk(s)
    ensures NamesOk(s')
  {
    forall nm | nm in s'.connections
      ensures s'.connections[nm] in s'.conns && nm == s'.NameOf(s'.connections[nm])
    {
      if nm != s.NameOf(c) {
        OtherKey(s.connections, s'.connections, s.NameOf(c), nm);
      }
    }
  }

  lemma FdsStayDifferent(s: Server, s': Server, c: nat)
    requires SameExcept(s, s', c) && FdsDiffer(s)
    ensures FdsDiffer(s')
  {
  }

  // Connection c itself, wherever between two of its stages it may be.
  ghost predicate Numbered(s: Server, c: nat) {
    s.Usable(c) && 1 <= c < s.nextId && s.conns[c].conn.self == c && Fits(s.ipPort, c)
  }

  // The invariant, except that connection c may be between two of its stages.
  ghost predicate InvBut(s: Server, c: nat) {
    && Shape(s) && Numbered(s, c) && OthersOk(s, c)
    && FunctorsOk(s) && NamesOk(s) && FdsDiffer(s) && PollersOk(s)
  }

  lemma InvImpliesInvBut(s: Server, c: nat)
    requires Inv(s) && c in s.conns
    ensures InvBut(s, c) && ConnOk(s, c)
  {
    assert ConnOk(s, c);
    ButOthers(s, c);
  }

  lemma ButOthers(s: Server, c: nat)
    requires |s.loops| > 0 && ConnsOk(s)
    ensures OthersOk(s, c)
  {
  }

  lemma ConnsStayOk(s: Server, s': Server, c: nat)
    requires SameExcept(s, s', c) && OnlyFunctorsOf(s, s', c) && Fits(s.ipPort, c)
    requires FdsDiffer(s) && |s.loops| > 0 && OthersOk(s, c) && ConnOk(s', c)
    ensures ConnsOk(s')
  {
    forall d | d in s'.conns ensures ConnOk(s', d) {
      if d != c {
        assert ConnOk(s, d);
        OthersStayOk(s, s', c, d);
      }
    }
  }

  // What connection c must come out as.
  ghost predicate Settled(s: Server, c: nat) {
    && |s.loops| > 0 && s.Usable(c)
    && CR.Inv(s.ViewOf(c)) && StageOk(s.conns[c].conn, HoldersOf(s, c))
  }

  lemma SettledIsOk(s: Server, s': Server, c: nat)
    requires SameExcept(s, s', c) && Numbered(s, c) && Settled(s', c)
    ensures ConnOk(s', c)
  {
  }

  lemma ShapeStays(s: Server, s': Server, c: nat)
    requires SameExcept(s, s', c) && Shape(s)
    ensures Shape(s')
  {
  }

  /** A change to connection c alone keeps the invariant if c itself comes out right. */
  lemma ChangeKeepsInv(s: Server, s': Server, c: nat)
    requires InvBut(s, c) && SameExcept(s, s', c) && OnlyFunctorsOf(s, s', c)
    requires Settled(s', c) && PhasesOk(s')
    ensures Inv(s')
  {
    assert Shape(s') by { ShapeStays(s, s', c); }
    assert ConnOk(s', c) by { SettledIsOk(s, s', c); }
    assert ConnsOk(s') by { ConnsStayOk(s, s', c); }
    assert FunctorsOk(s') by { FunctorsStayOk(s, s', c); }
    assert NamesOk(s') by { NamesStayOk(s, s', c); }
    assert FdsDiffer(s') by { FdsStayDifferent(s, s', c); }
    assert PollersOk(s') by { PollersAllStayOk(s, s', c); }
  }
}
