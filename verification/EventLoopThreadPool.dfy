// src/EventLoopThreadPool.cc: round-robin over the io loops. L identifies a loop.
module ThreadPools {

  datatype Pool<L> = Pool(base: L, loops: seq<L>, next: nat) {
    predicate Valid() {
      if loops == [] then next == 0 else next < |loops|
    }
  }

  function NextLoop<L>(p: Pool<L>): (r: (L, Pool<L>))
    requires p.Valid()
    ensures r.1.Valid() && r.1.loops == p.loops && r.1.base == p.base
  {
    if p.loops == [] then (p.base, p)
    else (p.loops[p.next], p.(next := if p.next + 1 >= |p.loops| then 0 else p.next + 1))
  }

  // The loops given out by k calls in a row.
  function Assigned<L>(p: Pool<L>, k: nat): (r: (seq<L>, Pool<L>))
    requires p.Valid()
    ensures r.1.Valid() && r.1.loops == p.loops && r.1.base == p.base
    ensures |r.0| == k
  {
    if k == 0 then ([], p) else
      var (ls, p1) := Assigned(p, k - 1);
      var (l, p2) := NextLoop(p1);
      (ls + [l], p2)
  }

  lemma ModStep(k: nat, n: nat)
    requires n > 0
    ensures (k + 1) % n == if k % n + 1 == n then 0 else k % n + 1
    ensures (k + 1) / n == if k % n + 1 == n then k / n + 1 else k / n
  {
    var q, r := k / n, k % n;
    assert k == q * n + r;
    if r + 1 == n {
      assert k + 1 == (q + 1) * n;
      Divides(k + 1, n, q + 1, 0);
    } else {
      Divides(k + 1, n, q, r + 1);
    }
  }

  lemma Divides(k: int, n: int, q: int, r: int)
    requires 0 <= r < n && k == q * n + r
    ensures k / n == q && k % n == r
  {
    var d := k / n - q;
    assert d * n == r - k % n by {
      assert k == (k / n) * n + k % n;
      assert (k / n - q) * n == (k / n) * n - q * n;
    }
    if d >= 1 {
      AtLeast(d, n);
    } else if d <= -1 {
      AtLeast(-d, n);
    }
  }

  lemma AtLeast(d: int, n: int)
    requires d >= 1 && n > 0
    ensures d * n >= n
  {
  }

  /** The k-th loop given out (from zero) is loop k mod n past the first. */
  lemma {:induction false} RoundRobin<L>(p: Pool<L>, k: nat)
    requires p.Valid() && p.loops != []
    ensures var (ls, p') := Assigned(p, k);
            && p'.next == (p.next + k) % |p.loops|
            && forall i :: 0 <= i < k ==> ls[i] == p.loops[(p.next + i) % |p.loops|]
  {
    if k == 0 {
      Divides(p.next, |p.loops|, 0, p.next);
    } else {
      RoundRobin(p, k - 1);
      ModStep(p.next + k - 1, |p.loops|);
    }
  }

  // How many of the first k assignments go to slot j.
  function Share(k: nat, n: nat, j: nat): nat
    requires n > 0
  {
    if k == 0 then 0 else Share(k - 1, n, j) + if (k - 1) % n == j then 1 else 0
  }

  lemma {:induction false} ShareIs(k: nat, n: nat, j: nat)
    requires n > 0 && j < n
    ensures Share(k, n, j) == k / n + if j < k % n then 1 else 0
  {
    if k == 0 {
      Divides(0, n, 0, 0);
    } else {
      ShareIs(k - 1, n, j);
      ModStep(k - 1, n);
    }
  }

  lemma CountSnoc<L>(ls: seq<L>, l: L, loop: L)
    ensures multiset(ls + [l])[loop] == multiset(ls)[loop] + if l == loop then 1 else 0
  {
  }

  ghost predicate Distinct<L>(ls: seq<L>) {
    forall i, j :: 0 <= i < j < |ls| ==> ls[i] != ls[j]
  }

  lemma DistinctAt<L>(ls: seq<L>, i: nat, j: nat)
    requires Distinct(ls) && i < |ls| && j < |ls|
    ensures ls[i] == ls[j] <==> i == j
  {
    assert i < j ==> ls[i] != ls[j];
    assert j < i ==> ls[j] != ls[i];
  }

  lemma AssignedLast<L>(p: Pool<L>, k: nat)
    requires p.Valid() && p.loops != []
    ensures var (ls, p1) := Assigned(p, k);
            p1.next < |p.loops| && Assigned(p, k + 1).0 == ls + [p.loops[p1.next]]
  {
  }

  // One more assignment, after k.
  lemma OneMoreGiven<L>(p: Pool<L>, k: nat, j: nat)
    requires p.Valid() && p.next == 0 && Distinct(p.loops) && j < |p.loops|
    ensures multiset(Assigned(p, k + 1).0)[p.loops[j]] ==
            multiset(Assigned(p, k).0)[p.loops[j]] + if k % |p.loops| == j then 1 else 0
  {
    var (ls, p1) := Assigned(p, k);
    assert p1.next == k % |p.loops| by { RoundRobin(p, k); }
    AssignedLast(p, k);
    DistinctAt(p.loops, p1.next, j);
    CountSnoc(ls, p.loops[p1.next], p.loops[j]);
  }

  // How often loop j is among the first k loops given out.
  lemma {:induction false} GivenTo<L>(p: Pool<L>, k: nat, j: nat)
    requires p.Valid() && p.next == 0 && Distinct(p.loops) && j < |p.loops|
    ensures multiset(Assigned(p, k).0)[p.loops[j]] == Share(k, |p.loops|, j)
  {
    if k > 0 {
      GivenTo(p, k - 1, j);
      OneMoreGiven(p, k - 1, j);
    }
  }

  /** After any number of assignments two loops have been given out equally often, or one of
      them once more. */
  lemma AssignedEvenly<L>(p: Pool<L>, k: nat, i: nat, j: nat)
    requires p.Valid() && p.next == 0 && Distinct(p.loops) && i < |p.loops| && j < |p.loops|
    ensures var given := multiset(Assigned(p, k).0);
            given[p.loops[i]] <= given[p.loops[j]] + 1
  {
    GivenTo(p, k, i);
    GivenTo(p, k, j);
    ShareIs(k, |p.loops|, i);
    ShareIs(k, |p.loops|, j);
  }

  // The first of k + 1 assignments, and then the others.
  lemma {:induction false} AssignedFirst<L>(p: Pool<L>, k: nat)
    requires p.Valid()
    ensures var (l, p1) := NextLoop(p);
            && Assigned(p, k + 1).0 == [l] + Assigned(p1, k).0
            && Assigned(p, k + 1).1 == Assigned(p1, k).1
  {
    if k == 0 {
      assert Assigned(p, 1).0 == [] + [NextLoop(p).0];
    } else {
      AssignedFirst(p, k - 1);
    }
  }

  // Some number of calls of NextLoop gives out this loop.
  ghost predicate GivesOut<L>(p: Pool<L>, l: L)
    requires p.Valid()
  {
    exists k: nat :: l in Assigned(p, k).0
  }

  function AllLoops<L>(p: Pool<L>): seq<L> {
    if p.loops == [] then [p.base] else p.loops
  }

  lemma GivesOutLoop<L>(p: Pool<L>, j: nat)
    requires p.Valid() && j < |p.loops|
    ensures GivesOut(p, p.loops[j])
  {
    var n := |p.loops|;
    var i := if j >= p.next then j - p.next else j - p.next + n;
    RoundRobin(p, i + 1);
    Divides(p.next + i, n, if j >= p.next then 0 else 1, j);
    assert Assigned(p, i + 1).0[i] == p.loops[j];
  }

  lemma {:induction false} AssignedFromAll<L>(p: Pool<L>, k: nat)
    requires p.Valid()
    ensures forall l :: l in Assigned(p, k).0 ==> l in AllLoops(p)
  {
    if k > 0 {
      AssignedFromAll(p, k - 1);
    }
  }

  /** getAllLoops lists the loops that getNextLoop ever hands out, and no others. */
  lemma AllLoopsAreGivenOut<L>(p: Pool<L>)
    requires p.Valid()
    ensures forall l :: l in AllLoops(p) <==> GivesOut(p, l)
  {
    forall l ensures l in AllLoops(p) <==> GivesOut(p, l) {
      if l in AllLoops(p) {
        if p.loops == [] {
          assert Assigned(p, 1).0 == [] + [p.base];
          assert l in Assigned(p, 1).0;
        } else {
          var j :| 0 <= j < |p.loops| && p.loops[j] == l;
          GivesOutLoop(p, j);
        }
      }
      if GivesOut(p, l) {
        var k: nat :| l in Assigned(p, k).0;
        AssignedFromAll(p, k);
      }
    }
  }

  class EventLoopThreadPool<L> {
    const baseLoop: L
    var started: bool
    var numThreads: nat
    var next: nat
    var loops: seq<L>

    ghost predicate Valid()
      reads this
    {
      State().Valid()
    }

    function State(): Pool<L>
      reads this
    {
      Pool(baseLoop, loops, next)
    }

    constructor (baseLoop: L)
      ensures Valid() && State() == Pool(baseLoop, [], 0) && !started && numThreads == 0
    {
      this.baseLoop := baseLoop;
      started, numThreads, next, loops := false, 0, 0, [];
    }

    method SetThreadNum(numThreads: nat)
      requires Valid()
      modifies this`numThreads
      ensures Valid() && this.numThreads == numThreads
    {
      this.numThreads := numThreads;
    }

    /** threadLoops[i] is the loop that the i-th new thread reports from startLoop(). */
    method Start(threadLoops: seq<L>)
      requires Valid() && |threadLoops| == numThreads
      modifies this`started, this`loops
      ensures Valid() && started && State() == old(State()).(loops := old(loops) + threadLoops)
    {
      started := true;
      for i := 0 to numThreads
        invariant Valid() && started && loops == old(loops) + threadLoops[..i]
      {
        loops := loops + [threadLoops[i]];
      }
      assert threadLoops[..numThreads] == threadLoops;
    }

    method GetNextLoop() returns (loop: L)
      requires Valid()
      modifies this`next
      ensures Valid() && (loop, State()) == NextLoop(old(State()))
    {
      loop := baseLoop;
      if loops != [] {
        loop := loops[next];
        next := next + 1;
        if next >= |loops| {
          next := 0;
        }
      }
    }

    /** The loops that GetNextLoop ever hands out, and no others. */
    method GetAllLoops() returns (all: seq<L>)
      requires Valid()
      ensures forall l :: l in all <==> GivesOut(State(), l)
      ensures loops != [] ==> |all| == |loops|
    {
      AllLoopsAreGivenOut(State());
      if loops == [] {
        all := [baseLoop];
      } else {
        all := loops;
      }
    }
  }
}
