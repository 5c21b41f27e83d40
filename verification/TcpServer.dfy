// src/TcpServer.cc as an object: the thread pool, nextConnId_ and connections_
// as it changes them. The connection objects and the loops belong to other
// threads; they are the ghost field world, which each statement changes by what
// it does to them. Each method is proved to be a step, or a part of a step, of
// ServerSpec.
module TcpServers {
  import CS = ConnectionSpec
  import opened ServerSpec
  import opened ServerInvariant
  import opened ServerSteps
  import opened ServerRuns
  import opened ThreadPools
  import opened ConnectionNames

  // What runInLoop does to the fields of the server: nothing.
  lemma EstablishLeavesFields(s: Server, l: nat, c: nat)
    requires l < |s.loops|
    ensures var s' := if l == 0 then Execute(s, Establish(c)) else s.Post(l, Establish(c));
            && s'.name == s.name && s'.ipPort == s.ipPort && s'.nextId == s.nextId
            && s'.connections == s.connections && s'.pool == s.pool
  {
  }

  lemma FreshName(s: Server, fd: int)
    requires Inv(s) && Enabled(s, Accept(fd))
    ensures s.NameOf(s.nextId) !in s.connections
  {
    FreshId(s);
  }

  class TcpServer {
    const name: string
    const ipPort: string
    const notify: bool                     // writeCompleteCallback_ is set
    const threadPool: EventLoopThreadPool<nat>
    var nextConnId: nat
    var connections: map<string, nat>
    ghost var world: Server

    ghost predicate Valid()
      reads this, threadPool
    {
      && world.name == name && world.ipPort == ipPort && world.notify == notify
      && world.nextId == nextConnId && world.connections == connections
      && world.pool == threadPool.State()
    }

    /** pool is the base loop's, started with its io loops; loops 1 to n. */
    constructor (name: string, ipPort: string, pool: EventLoopThreadPool<nat>, notify: bool, ghost n: nat)
      requires pool.State() == Pool(0, IoLoops(n), 0)
      ensures Valid() && world == NewServer(name, ipPort, notify, n) && threadPool == pool
    {
      this.name, this.ipPort, this.notify, this.threadPool := name, ipPort, notify, pool;
      nextConnId, connections := 1, map[];
      world := NewServer(name, ipPort, notify, n);
    }

    // ioLoop->runInLoop(connectEstablished), on the base loop (0).
    method EstablishInLoop(ioLoop: nat, conn: nat)
      requires Valid() && ioLoop < |world.loops|
      modifies this`world
      ensures Valid()
      ensures world == if ioLoop == 0 then Execute(old(world), Establish(conn))
                       else old(world).Post(ioLoop, Establish(conn))
    {
      EstablishLeavesFields(world, ioLoop, conn);
      if ioLoop == 0 {
        world := Execute(world, Establish(conn));
      } else {
        world := world.Post(ioLoop, Establish(conn));
      }
    }

    // The new TcpConnection, under its name in connections_.
    method AddConnection(sockfd: int) returns (conn: nat, ioLoop: nat)
      requires Valid() && world.pool.Valid()
      modifies this`nextConnId, this`connections, this`world, threadPool`next
      ensures Valid() && conn == old(nextConnId) && ioLoop == NextLoop(old(world).pool).0
      ensures connections == old(connections)[ConnName(name, ipPort, conn) := conn]
      ensures world == Born(old(world), sockfd)
    {
      ioLoop := threadPool.GetNextLoop();
      world := world.(pool := threadPool.State());
      conn := nextConnId;
      nextConnId := nextConnId + 1;
      world := world.(nextId := nextConnId);
      var connName := ConnName(name, ipPort, conn);
      world := world.(conns := world.conns[conn := Live(ioLoop, CS.NewConn(conn, sockfd, CS.HIGH_WATER_MARK, notify))]);
      connections := connections[connName := conn];
      world := world.(connections := connections);
    }

    /** Called by the acceptor on the base loop with the fd that accept returned: the step
        Accept. No live connection loses its entry. */
    method NewConnection(sockfd: int) returns (conn: nat, ioLoop: nat)
      requires Valid() && Inv(world) && Enabled(world, Accept(sockfd))
      modifies this`nextConnId, this`connections, this`world, threadPool`next
      ensures Valid() && world == Next(old(world), Accept(sockfd))
      ensures ConnName(name, ipPort, conn) !in old(connections)
      ensures connections == old(connections)[ConnName(name, ipPort, conn) := conn]
    {
      FreshName(world, sockfd);
      AcceptIs(world, sockfd);
      conn, ioLoop := AddConnection(sockfd);
      EstablishInLoop(ioLoop, conn);
    }

    /** On the base loop: erased, and connectDistroyed queued on the connection's own loop. */
    method RemoveConnectionInLoop(conn: nat)
      requires Valid() && world.Usable(conn)
      modifies this`connections, this`world
      ensures Valid() && world == Erase(old(world), conn)
      ensures connections == old(connections) - {ConnName(name, ipPort, conn)}
    {
      connections := connections - {ConnName(name, ipPort, conn)};
      world := world.(connections := connections);
      world := world.Post(world.conns[conn].loop, Destroy(conn));
    }

    /** The close callback, called on loop l: at once on the base loop, posted to it from an
        io loop. */
    method RemoveConnection(l: nat, conn: nat)
      requires Valid() && world.Usable(conn)
      modifies this`connections, this`world
      ensures Valid() && world == ServerSpec.RemoveConnection(old(world), l, conn)
    {
      if l == 0 {
        RemoveConnectionInLoop(conn);
      } else {
        world := world.Post(0, RemoveInLoop(conn));
      }
    }

    /** The functor that RemoveConnection posted, at the head of the base loop's batch. */
    method RunRemoveInLoop(conn: nat)
      requires Valid() && world.Usable(conn) && Enabled(world, RunFunctor(0))
      requires world.loops[0].queue.batch[0] == RemoveInLoop(conn)
      modifies this`connections, this`world
      ensures Valid() && world == Next(old(world), RunFunctor(0))
    {
      world := Popped(world, 0);
      RemoveConnectionInLoop(conn);
    }
  }
}
