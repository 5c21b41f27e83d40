// Which loop and which name an accepted connection gets.
module ServerPlacement {
  import opened ThreadPools
  import opened ConnectionNames
  import opened ServerSpec
  import opened ServerInvariant
  import opened ServerRuns
  import opened ServerProjection
  import opened ServerTheorems

  // The io loop of the connection with this id, the ids starting at 1.
  function LoopFor(n: nat, c: nat): nat
    requires c >= 1
  {
    if n == 0 then 0 else (c - 1) % n + 1
  }

  ghost predicate Placed(s: Server, n: nat) {
    && |s.loops| == n + 1 && s.nextId >= 1
    && s.pool.next == LoopFor(n, s.nextId) - (if n == 0 then 0 else 1)
    && forall c :: c in s.conns ==> c >= 1 && s.conns[c].loop == LoopFor(n, c)
  }

  lemma StepKeepsPlaced(s: Server, n: nat, step: Step)
    requires Inv(s) && Placed(s, n) && Enabled(s, step)
    ensures Placed(Next(s, step), n)
  {
    var s' := Next(s, step);
    StepKeepsConstants(s, step);
    forall c | c in s'.conns ensures c >= 1 && s'.conns[c].loop == LoopFor(n, c) {
      if c in s.conns {
        StepProjects(s, step, c);
      } else {
        OnlyAcceptCreates(s, step, c);
        AcceptFrame(s, step.fd);
        AcceptPlaces(s, n);
      }
    }
    PoolAfter(s, n, step);
  }

  // What the pool hands out next, and where it is afterwards.
  lemma AcceptPlaces(s: Server, n: nat)
    requires Shape(s) && |s.loops| == n + 1 && s.pool.next == LoopFor(n, s.nextId) - (if n == 0 then 0 else 1)
    ensures NextLoop(s.pool).0 == LoopFor(n, s.nextId)
    ensures NextLoop(s.pool).1.next == LoopFor(n, s.nextId + 1) - (if n == 0 then 0 else 1)
  {
    if n > 0 {
      ModStep(s.nextId - 1, n);
    }
  }

  lemma PoolAfterAccept(s: Server, n: nat, fd: int)
    requires Inv(s) && Placed(s, n) && Enabled(s, Accept(fd))
    ensures var s' := Next(s, Accept(fd));
            s'.nextId >= 1 && s'.pool.next == LoopFor(n, s'.nextId) - (if n == 0 then 0 else 1)
  {
    AcceptFrame(s, fd);
    AcceptPlaces(s, n);
  }

  lemma PoolAfter(s: Server, n: nat, step: Step)
    requires Inv(s) && Placed(s, n) && Enabled(s, step)
    ensures var s' := Next(s, step);
            s'.nextId >= 1 && s'.pool.next == LoopFor(n, s'.nextId) - (if n == 0 then 0 else 1)
  {
    if step.Accept? {
      PoolAfterAccept(s, n, step.fd);
    } else {
      assert Next(s, step).pool == s.pool && Next(s, step).nextId == s.nextId by { PoolStays(s, step); }
    }
  }

  lemma PoolStays(s: Server, step: Step)
    requires Inv(s) && Enabled(s, step) && !step.Accept?
    ensures Next(s, step).pool == s.pool && Next(s, step).nextId == s.nextId
  {
    if step.Release? {
      LiveConnOk(s, step.c);
      ReleaseFrame(s, step.c);
    } else {
      StepFrame(s, step);
    }
  }

  lemma {:induction false} RunKeepsPlaced(s: Server, n: nat, steps: seq<Step>)
    requires Inv(s) && Placed(s, n) && CanRun(s, steps)
    ensures Placed(Run(s, steps), n)
    decreases |steps|
  {
    if steps != [] {
      StepKeepsPlaced(s, n, steps[0]);
      NextKeepsInv(s, steps[0]);
      RunKeepsPlaced(Next(s, steps[0]), n, steps[1..]);
    }
  }

  lemma NewServerPlaced(name: string, ipPort: string, notify: bool, n: nat)
    ensures Placed(NewServer(name, ipPort, notify, n), n)
  {
    if n > 0 { Divides(0, n, 0, 0); }
  }

  lemma FreshName(s: Server)
    requires Inv(s) && Fits(s.ipPort, s.nextId)
    ensures s.NameOf(s.nextId) !in s.connections
  {
    FreshId(s);
  }

  /** With n io loops the k-th accepted connection (from zero, so with id k + 1) lives on io
      loop k mod n; a new name is never one in use. */
  lemma PlacementAndNaming(s: Server, n: nat, steps: seq<Step>)
    requires Reached(s, n, steps)
    ensures forall c :: c in s.conns ==> c >= 1 && s.conns[c].loop == LoopFor(n, c)
    ensures Fits(s.ipPort, s.nextId) ==> s.NameOf(s.nextId) !in s.connections
    ensures forall nm :: nm in s.connections ==> s.connections[nm] in s.conns && nm == s.NameOf(s.connections[nm])
  {
    ReachedInv(s, n, steps);
    NewServerInv(s.name, s.ipPort, s.notify, n);
    NewServerPlaced(s.name, s.ipPort, s.notify, n);
    RunKeepsPlaced(NewServer(s.name, s.ipPort, s.notify, n), n, steps);
    if Fits(s.ipPort, s.nextId) {
      FreshName(s);
    }
  }
  // ---------------------------------------------------------------------
  // How evenly
  // ---------------------------------------------------------------------

  // The loop of the connection that this step accepts.
  ghost function PlacedBy(s: Server, step: Step): seq<nat>
    requires Enabled(s, step)
  {
    var s' := Next(s, step);
    if step.Accept? && s.nextId in s'.conns then [s'.conns[s.nextId].loop] else []
  }

  // The loops of all connections accepted in a run, in order.
  ghost function Placements(s: Server, steps: seq<Step>): seq<nat>
    requires CanRun(s, steps)
    decreases |steps|
  {
    if steps == [] then [] else PlacedBy(s, steps[0]) + Placements(Next(s, steps[0]), steps[1..])
  }

  lemma StepPlaces(s: Server, step: Step)
    requires Inv(s) && Enabled(s, step)
    ensures s.pool.Valid() && Next(s, step).pool.Valid()
    ensures if step.Accept? then PlacedBy(s, step) == [NextLoop(s.pool).0] && Next(s, step).pool == NextLoop(s.pool).1
            else PlacedBy(s, step) == [] && Next(s, step).pool == s.pool
  {
    if step.Accept? {
      AcceptFrame(s, step.fd);
    } else {
      PoolStays(s, step);
    }
  }

  lemma {:induction false} RunPlaces(s: Server, steps: seq<Step>)
    requires Inv(s) && CanRun(s, steps)
    ensures s.pool.Valid() && Placements(s, steps) == Assigned(s.pool, |Placements(s, steps)|).0
    decreases |steps|
  {
    if steps != [] {
      var s' := Next(s, steps[0]);
      assert Inv(s') by { NextKeepsInv(s, steps[0]); }
      RunPlaces(s', steps[1..]);
      StepPlaces(s, steps[0]);
      if steps[0].Accept? {
        AssignedFirst(s.pool, |Placements(s', steps[1..])|);
      }
    }
  }

  /** After any number of accepts two io loops have been given equally many connections, or
      one of them one more. */
  lemma PlacementIsEven(s: Server, n: nat, steps: seq<Step>, i: nat, j: nat)
    requires Reached(s, n, steps) && 1 <= i <= n && 1 <= j <= n
    ensures var given := multiset(Placements(NewServer(s.name, s.ipPort, s.notify, n), steps));
            given[i] <= given[j] + 1
  {
    var s0 := NewServer(s.name, s.ipPort, s.notify, n);
    assert s0.pool == Pool(0, IoLoops(n), 0);
    var k := |Placements(s0, steps)|;
    assert Placements(s0, steps) == Assigned(s0.pool, k).0 by {
      NewServerInv(s.name, s.ipPort, s.notify, n);
      RunPlaces(s0, steps);
    }
    IoLoopsGivenEvenly(s0.pool, n, k, i, j);
  }

  lemma IoLoopsGivenEvenly(p: Pool<nat>, n: nat, k: nat, i: nat, j: nat)
    requires p == Pool(0, IoLoops(n), 0) && 1 <= i <= n && 1 <= j <= n
    ensures p.Valid() && var given := multiset(Assigned(p, k).0); given[i] <= given[j] + 1
  {
    assert p.loops[i - 1] == i && p.loops[j - 1] == j;
    assert Distinct(p.loops) by {
      forall a, b | 0 <= a < b < |p.loops| ensures p.loops[a] != p.loops[b] {}
    }
    AssignedEvenly(p, k, i - 1, j - 1);
  }
}
