// A first fill puts a node with nothing conditional below it back fewer times than
// the longest chain of dependencies below it is long, on every graph.
module FillDepth {
  import opened Attempts
  import opened DagGraph
  import opened Scratch
  import opened Engine
  import opened Actions
  import opened Pops
  import opened FirstFill

  /** The number of nodes on the longest chain of derived dependencies that ends at n. */
  function Depth(g: Graph, n: Id): (depth: int)
    requires Valid(g) && n in Nodes(g)
    ensures 0 <= depth
    decreases g.rank[n], 1, 0
  {
    if n in g.inputs then 0
    else
      assert forall d | d in g.fixed[n] :: Edge(g, n, d);
      1 + DeepestOf(g, g.fixed[n], g.rank[n])
  }

  function DeepestOf(g: Graph, ds: seq<Id>, r: int): (depth: int)
    requires Valid(g) && forall d | d in ds :: d in Nodes(g) && g.rank[d] < r
    ensures 0 <= depth && forall d | d in ds :: Depth(g, d) <= depth
    decreases r, 0, |ds|
  {
    if ds == [] then 0
    else
      var rest := DeepestOf(g, ds[1..], r);
      assert forall d | d in ds :: d == ds[0] || d in ds[1..];
      if rest < Depth(g, ds[0]) then Depth(g, ds[0]) else rest
  }

  /** The registered nodes of rank below r. */
  function Below(g: Graph, ds: seq<Id>, r: int): (count: int)
    requires forall d | d in ds :: d in g.rank
    ensures 0 <= count <= |ds|
  {
    if ds == [] then 0
    else (if g.rank[ds[0]] < r then 1 else 0) + Below(g, ds[1..], r)
  }

  lemma {:induction false} BelowGrows(g: Graph, ds: seq<Id>, r: int, d: Id, q: int)
    requires (forall d | d in ds :: d in g.rank) && d in ds && g.rank[d] < r && q <= g.rank[d]
    ensures Below(g, ds, q) < Below(g, ds, r)
  {
    BelowMonotone(g, ds[1..], q, r);
    if d != ds[0] {
      BelowGrows(g, ds[1..], r, d, q);
    }
  }

  lemma {:induction false} BelowMonotone(g: Graph, ds: seq<Id>, q: int, r: int)
    requires (forall d | d in ds :: d in g.rank) && q <= r
    ensures Below(g, ds, q) <= Below(g, ds, r)
  {
    if ds != [] {
      BelowMonotone(g, ds[1..], q, r);
    }
  }

  /** A chain is no longer than the number of registered nodes. */
  lemma {:induction false} DepthBounded(g: Graph, n: Id)
    requires Valid(g) && n in Nodes(g)
    ensures Depth(g, n) <= |g.registered|
  {
    RegisteredHaveRanks(g);
    DepthBelow(g, n);
    if Derived(g, n) {
      assert n in g.registered;
      BelowGrows(g, g.registered, g.rank[n] + 1, n, g.rank[n]);
    }
  }

  lemma RegisteredHaveRanks(g: Graph)
    requires Valid(g)
    ensures forall d | d in g.registered :: d in g.rank
  {
  }

  lemma {:induction false} DepthBelow(g: Graph, n: Id)
    requires Valid(g) && n in Nodes(g) && forall d | d in g.registered :: d in g.rank
    ensures Depth(g, n) <= Below(g, g.registered, g.rank[n]) + (if Derived(g, n) then 1 else 0)
    decreases g.rank[n], 1, 0
  {
    if Derived(g, n) {
      assert forall d | d in g.fixed[n] :: Edge(g, n, d);
      DeepestBelow(g, g.fixed[n], g.rank[n]);
    }
  }

  lemma {:induction false} DeepestBelow(g: Graph, ds: seq<Id>, r: int)
    requires Valid(g) && (forall d | d in ds :: d in Nodes(g) && g.rank[d] < r)
    requires forall d | d in g.registered :: d in g.rank
    ensures DeepestOf(g, ds, r) <= Below(g, g.registered, r)
    decreases r, 0, |ds|
  {
    if ds != [] {
      var d := ds[0];
      DeepestBelow(g, ds[1..], r);
      DepthBelow(g, d);
      if Derived(g, d) {
        assert d in g.registered;
        BelowGrows(g, g.registered, r, d, g.rank[d]);
      } else {
        BelowMonotone(g, g.registered, g.rank[d], r);
      }
    }
  }

  /** Neither n nor anything it depends on narrows its dependencies. */
  ghost predicate Unconditional(g: Graph, n: Id)
    requires Valid(g) && n in Nodes(g)
    decreases g.rank[n]
  {
    || n in g.inputs
    || (g.branches[n] == [] && forall d | d in g.fixed[n] :: (assert Edge(g, n, d); Unconditional(g, d)))
  }

  /**
   * A queued unconditional node has been put back fewer times than its depth, and
   * at most once more than each of its dependencies that is still queued before it.
   */
  ghost predicate Waited(g: Graph, q: Queue)
    requires Valid(g)
  {
    && (forall n {:trigger Count(q.requeues, n)} | Derived(g, n) && Unconditional(g, n) && n in q.scheduled ::
          0 <= Count(q.requeues, n) < Depth(g, n))
    && (forall n, d {:trigger Edge(g, n, d)} |
          Edge(g, n, d) && Unconditional(g, n) && n in q.scheduled && d in q.scheduled ::
          if q.scheduled[n] <= q.scheduled[d] then Count(q.requeues, n) <= Count(q.requeues, d)
          else Count(q.requeues, n) <= Count(q.requeues, d) + 1)
  }

  /** The earliest node was put back fewer times than the queued dependency it waits for allows. */
  lemma EarliestMayWait(g: Graph, q: Queue, e: Event, d: Id)
    requires Valid(g) && Derived(g, e.node) && Unconditional(g, e.node)
    requires InStep(q) && Next(g, q, e) && Waited(g, q)
    requires Derived(g, d) && d in g.fixed[e.node] && d in q.scheduled
    ensures 0 <= Count(q.requeues, e.node) && Count(q.requeues, e.node) + 1 < Depth(g, e.node) <= |g.registered|
  {
    var n := e.node;
    var ds := g.fixed[n];
    assert q.events[e] == 1 && q.events[Event(q.scheduled[d], d)] == 1;
    assert forall c | c in ds :: Edge(g, n, c);
    assert Count(q.requeues, n) <= Count(q.requeues, d) < Depth(g, d);
    assert Depth(g, d) <= DeepestOf(g, ds, g.rank[n]);
    DepthBounded(g, n);
  }

  /** Putting the earliest node back behind a queued dependency keeps the bounds, and cannot raise. */
  lemma RequeueKeepsWaited(g: Graph, q: Queue, e: Event, rest: Queue)
    requires Valid(g) && Derived(g, e.node) && Unconditional(g, e.node)
    requires InStep(q) && Next(g, q, e) && Waited(g, q)
    requires forall m | m in q.scheduled :: Derived(g, m)
    requires rest == Queue(q.events - multiset{e}, q.scheduled - {e.node}, q.requeues)
    requires AnyQueued(rest, g.fixed[e.node])
    ensures Count(q.requeues, e.node) < |g.registered|
    ensures Waited(g, Requeued(rest, g.fixed[e.node], e.node))
  {
    var n, p := e.node, Requeued(rest, g.fixed[e.node], e.node);
    var d :| d in g.fixed[n] && d in rest.scheduled;
    EarliestMayWait(g, q, e, d);
    assert q.events[e] == 1 && q.scheduled[n] == e.at;
    assert forall m | m != n :: Count(p.requeues, m) == Count(q.requeues, m);
    forall m, c | Edge(g, m, c) && Unconditional(g, m) && m in p.scheduled && c in p.scheduled
      ensures if p.scheduled[m] <= p.scheduled[c] then Count(p.requeues, m) <= Count(p.requeues, c)
              else Count(p.requeues, m) <= Count(p.requeues, c) + 1
    {
      assert g.branches[m] == [];
      WaitedPair(g, q, e, rest, m, c);
    }
  }

  /** One edge of the queue after the requeue of its earliest node. */
  lemma WaitedPair(g: Graph, q: Queue, e: Event, rest: Queue, m: Id, c: Id)
    requires Valid(g) && Derived(g, e.node) && InStep(q) && Next(g, q, e) && Waited(g, q)
    requires rest == Queue(q.events - multiset{e}, q.scheduled - {e.node}, q.requeues)
    requires e.node in q.scheduled && q.scheduled[e.node] == e.at
    requires Edge(g, m, c) && Unconditional(g, m) && c in g.fixed[m] && m in q.scheduled && c in q.scheduled
    ensures var p := Requeued(rest, g.fixed[e.node], e.node);
            if p.scheduled[m] <= p.scheduled[c] then Count(p.requeues, m) <= Count(p.requeues, c)
            else Count(p.requeues, m) <= Count(p.requeues, c) + 1
  {
    assert q.events[Event(q.scheduled[m], m)] == 1 && q.events[Event(q.scheduled[c], c)] == 1;
    if m == e.node {
      assert c in rest.scheduled;
    }
  }

  /** A pop keeps the bounds. */
  lemma PopKeepsWaited(g: Graph, f: (Id, seq<Attempt>) -> Attempt, s: State, base: int, e: Event)
    requires Pure(g, f) && Succeeding(f)
    requires Filling(g, f, s, base) && Waited(g, s.q) && Next(g, s.q, e) && Pop(g, s, e).1
    ensures Waited(g, Pop(g, s, e).0.q)
  {
    FillVerdict(g, f, s, base, e);
    if Judge(g, Take(s, e), e.node) == Ready {
      ReadyPopKeepsWaited(g, f, s, base, e);
    } else {
      DeferredPopKeepsWaited(g, f, s, base, e);
    }
  }

  lemma ReadyPopKeepsWaited(g: Graph, f: (Id, seq<Attempt>) -> Attempt, s: State, base: int, e: Event)
    requires Pure(g, f) && Succeeding(f)
    requires Filling(g, f, s, base) && Waited(g, s.q) && e in s.q.events && Derived(g, e.node)
    requires Judge(g, Take(s, e), e.node) == Ready
    ensures Pop(g, s, e).1 && Waited(g, Pop(g, s, e).0.q)
  {
    PoppedIsPending(g, f, s, base, e);
    var u := ReadyPop(g, f, s, e);
    FilledQueue(g, f, s, base, e, u);
    LeavingKeepsWaited(g, s.q, u.q, e.node);
  }

  /** n left the queue, and its count is forgotten; the others are where they were. */
  lemma LeavingKeepsWaited(g: Graph, q: Queue, p: Queue, n: Id)
    requires Valid(g) && Waited(g, q) && p.requeues == q.requeues
    requires forall m | m in p.scheduled :: m != n && m in q.scheduled && p.scheduled[m] == q.scheduled[m]
    ensures Waited(g, ForgetRequeues(p, n))
  {
    var r := ForgetRequeues(p, n);
    assert forall m | m != n :: Count(r.requeues, m) == Count(q.requeues, m);
    OthersKeepWaited(g, q, r, n);
  }

  /** Nothing is asked of n, because it left the queue or is conditional; the others are where they were. */
  lemma OthersKeepWaited(g: Graph, q: Queue, p: Queue, n: Id)
    requires Valid(g) && Waited(g, q)
    requires n in p.scheduled ==> Derived(g, n) && !Unconditional(g, n)
    requires forall m | m in p.scheduled && m != n :: m in q.scheduled && p.scheduled[m] == q.scheduled[m]
    requires forall m | m != n :: Count(p.requeues, m) == Count(q.requeues, m)
    ensures Waited(g, p)
  {
    forall m, c | Edge(g, m, c) && Unconditional(g, m) && m in p.scheduled && c in p.scheduled
      ensures if p.scheduled[m] <= p.scheduled[c] then Count(p.requeues, m) <= Count(p.requeues, c)
              else Count(p.requeues, m) <= Count(p.requeues, c) + 1
    {
      assert g.branches[m] == [] && c in g.fixed[m];
    }
  }

  lemma DeferredPopKeepsWaited(g: Graph, f: (Id, seq<Attempt>) -> Attempt, s: State, base: int, e: Event)
    requires Filling(g, f, s, base) && Waited(g, s.q) && Next(g, s.q, e) && Pop(g, s, e).1
    requires Judge(g, Take(s, e), e.node) == Deferred
    ensures Waited(g, Pop(g, s, e).0.q)
  {
    var q := PutBack(g, f, s, base, e);
    if Unconditional(g, e.node) {
      NothingNarrowed(g, s.book.attempt, e.node);
      RequeueKeepsWaited(g, s.q, e, q);
    } else {
      ConditionalKeepsWaited(g, s.q, q, Active(g, s.book.attempt, e.node), e.node);
    }
  }

  /** The queue without the popped node, which goes back behind its dependencies. */
  lemma PutBack(g: Graph, f: (Id, seq<Attempt>) -> Attempt, s: State, base: int, e: Event) returns (q: Queue)
    requires Filling(g, f, s, base) && Next(g, s.q, e) && Pop(g, s, e).1
    requires Judge(g, Take(s, e), e.node) == Deferred
    ensures q == Queue(s.q.events - multiset{e}, s.q.scheduled - {e.node}, s.q.requeues)
    ensures AnyQueued(q, Active(g, s.book.attempt, e.node))
    ensures Pop(g, s, e).0.q == Requeued(q, Active(g, s.book.attempt, e.node), e.node)
    ensures InStep(s.q) && forall m | m in s.q.scheduled :: Derived(g, m)
  {
    var u := PopActs(g, s, e);
    q := Take(s, e).q;
    assert s.book.attempt[e.node].Pending?;
  }

  lemma ConditionalKeepsWaited(g: Graph, q: Queue, rest: Queue, ds: seq<Id>, n: Id)
    requires Valid(g) && Waited(g, q) && Derived(g, n) && !Unconditional(g, n)
    requires rest.scheduled == q.scheduled - {n} && rest.requeues == q.requeues
    ensures Waited(g, Requeued(rest, ds, n))
  {
    var p := Requeued(rest, ds, n);
    assert forall m | m != n :: Count(p.requeues, m) == Count(q.requeues, m);
    OthersKeepWaited(g, q, p, n);
  }

  lemma NothingNarrowed(g: Graph, a: map<Id, Attempt>, n: Id)
    requires Valid(g) && Nodes(g) <= a.Keys && Derived(g, n) && Unconditional(g, n)
    ensures Active(g, a, n) == g.fixed[n]
  {
    assert forall d | d in g.fixed[n] :: Edge(g, n, d);
    var chosen := g.choose(n, AttemptsOf(a, g.fixed[n]));
    ChosenAmong(chosen, g.branches[n]);
  }

  /** Whatever the pop order, the bounds hold. */
  lemma {:induction false} FillKeepsWaited(g: Graph, f: (Id, seq<Attempt>) -> Attempt, s: State, base: int,
                                           acts: seq<Action>, t: State)
    requires Pure(g, f) && Succeeding(f)
    requires Filling(g, f, s, base) && Waited(g, s.q) && OkRun(g, s, acts, t) && OnlyDrains(acts)
    ensures WellFormed(g, t) && Waited(g, t.q)
    ensures forall n | n in t.q.scheduled :: Derived(g, n)
    decreases |acts|
  {
    if acts != [] {
      var u := FillStep(g, f, s, base, acts, t);
      FillKeepsWaited(g, f, u, base, acts[1..], t);
    }
  }

  lemma FillStep(g: Graph, f: (Id, seq<Attempt>) -> Attempt, s: State, base: int, acts: seq<Action>, t: State)
    returns (u: State)
    requires Pure(g, f) && Succeeding(f)
    requires Filling(g, f, s, base) && Waited(g, s.q) && OkRun(g, s, acts, t) && OnlyDrains(acts) && acts != []
    ensures Filling(g, f, u, base) && Waited(g, u.q) && OkRun(g, u, acts[1..], t) && OnlyDrains(acts[1..])
  {
    assert acts[0].Drain?;
    u := Pop(g, s, acts[0].event).0;
    PopKeepsWaited(g, f, s, base, acts[0].event);
    PopKeepsFilling(g, f, s, base, acts[0].event);
  }

  /** No node of a first fill with nothing conditional below it waits as often as its depth. */
  lemma WaitsLessThanDepth(g: Graph, f: (Id, seq<Attempt>) -> Attempt, s: State, acts: seq<Action>, t: State, n: Id)
    requires Pure(g, f) && Succeeding(f)
    requires Unfilled(g, s) && Run(g, s, acts, t) && OnlyDrains(acts) && n in t.q.scheduled
    requires n in Nodes(g) && Unconditional(g, n)
    ensures Derived(g, n) && Count(t.q.requeues, n) < Depth(g, n) <= |g.registered|
  {
    UnfilledIsFilling(g, f, s);
    FirstFillNeverRaises(g, f, s, acts, t, n);
    FillKeepsWaited(g, f, s, |s.calls|, acts, t);
    DepthBounded(g, n);
  }
}
