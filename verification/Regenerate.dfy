// The code-stale sweep: a worklist over every declared dependency.
module Regenerate {
  import opened Attempts
  import opened DagGraph
  import opened Engine
  import opened Actions
  import opened Closure
  import opened WhatIf

  /** Everything a sweep from the roots could meet. */
  function Universe(deps: Deps, roots: seq<Id>): set<Id> {
    Members(roots) + set n, d | n in deps && d in deps[n] :: d
  }

  ghost predicate ReachedFrom(deps: Deps, roots: seq<Id>, m: Id) {
    exists r | r in roots :: Reaches(deps, r, m)
  }

  lemma ReachedThrough(deps: Deps, roots: seq<Id>, n: Id)
    requires ReachedFrom(deps, roots, n)
    ensures forall d | d in DepsOf(deps, n) :: ReachedFrom(deps, roots, d) && d in Universe(deps, roots)
  {
    forall d | d in DepsOf(deps, n) ensures ReachedFrom(deps, roots, d) && d in Universe(deps, roots) {
      var r :| r in roots && Reaches(deps, r, n);
      ReachesSelf(deps, d);
      ReachesAppend(deps, r, n, d);
    }
  }

  lemma ReachesAppend(deps: Deps, r: Id, n: Id, d: Id)
    requires Reaches(deps, r, n) && d in DepsOf(deps, n)
    ensures Reaches(deps, r, d)
  {
    var path :| IsPath(deps, path) && path[0] == r && path[|path| - 1] == n;
    var longer := path + [d];
    forall i | 0 <= i < |longer| - 1 ensures longer[i + 1] in DepsOf(deps, longer[i]) {
      if i < |path| - 1 {
        assert longer[i] == path[i] && longer[i + 1] == path[i + 1];
      }
    }
    assert IsPath(deps, longer);
  }

  /** What has been seen and what is still queued, in the middle of a sweep. */
  ghost predicate Sweeping(deps: Deps, roots: seq<Id>, seen: set<Id>, queue: seq<Id>) {
    && (forall n | n in seen || n in queue :: ReachedFrom(deps, roots, n) && n in Universe(deps, roots))
    && (forall r | r in roots :: r in seen || r in queue)
    && (forall n, d | n in seen && d in DepsOf(deps, n) :: d in seen || d in queue)
  }

  lemma SweepAll(deps: Deps, roots: seq<Id>, seen: set<Id>, m: Id)
    requires Sweeping(deps, roots, seen, [])
    ensures m in seen <==> ReachedFrom(deps, roots, m)
  {
    if ReachedFrom(deps, roots, m) {
      var r :| r in roots && Reaches(deps, r, m);
      var path :| IsPath(deps, path) && path[0] == r && path[|path| - 1] == m;
      ClosedHoldsReached(deps, seen, path);
    }
  }

  /** Taking a node that was seen before. */
  lemma SeenAgain(deps: Deps, roots: seq<Id>, seen: set<Id>, queue: seq<Id>, rest: seq<Id>, node: Id)
    requires IsLast(queue, rest, node) && Sweeping(deps, roots, seen, queue) && node in seen
    ensures Sweeping(deps, roots, seen, rest)
  {
  }

  /** node is at the end of the queue, behind `rest`. */
  ghost predicate IsLast(queue: seq<Id>, rest: seq<Id>, node: Id) {
    |rest| < |queue| && forall n :: n in queue <==> n in rest || n == node
  }

  lemma LastOf(queue: seq<Id>)
    requires queue != []
    ensures IsLast(queue, queue[..|queue| - 1], queue[|queue| - 1])
  {
    assert queue == queue[..|queue| - 1] + [queue[|queue| - 1]];
  }

  /** Taking a new node queues all its dependencies. */
  lemma SeenFirst(deps: Deps, roots: seq<Id>, seen: set<Id>, queue: seq<Id>, rest: seq<Id>, node: Id)
    requires IsLast(queue, rest, node) && Sweeping(deps, roots, seen, queue)
    ensures Sweeping(deps, roots, seen + {node}, rest + DepsOf(deps, node)) && node in Universe(deps, roots)
  {
    ReachedThrough(deps, roots, node);
  }

  lemma SweepStarts(deps: Deps, roots: seq<Id>)
    ensures Sweeping(deps, roots, {}, roots)
  {
    forall r | r in roots ensures ReachedFrom(deps, roots, r) {
      ReachesSelf(deps, r);
    }
  }

  /** `stale` lists the seen nodes that need work, each once. */
  ghost predicate Picked(deps: Deps, needs: set<Id>, seen: set<Id>, stale: seq<Id>) {
    Distinct(stale) && forall m :: m in stale <==> m in deps && m in needs && m in seen
  }

  lemma PickedGrows(deps: Deps, needs: set<Id>, seen: set<Id>, stale: seq<Id>, node: Id)
    requires Picked(deps, needs, seen, stale) && node !in seen
    ensures Picked(deps, needs, seen + {node}, if node in deps && node in needs then stale + [node] else stale)
  {
    assert node !in stale;
    assert forall m :: m in stale + [node] <==> m in stale || m == node;
  }

  lemma Ended(deps: Deps, needs: set<Id>, roots: seq<Id>, seen: set<Id>, stale: seq<Id>)
    requires Sweeping(deps, roots, seen, []) && Picked(deps, needs, seen, stale)
    ensures Distinct(stale)
    ensures forall m :: m in stale <==> m in deps && m in needs && ReachedFrom(deps, roots, m)
  {
    forall m ensures m in seen <==> ReachedFrom(deps, roots, m) {
      SweepAll(deps, roots, seen, m);
    }
  }

  /**
   * schedule_code_stale_nodes on any graph, cyclic ones included. `needs` holds
   * the nodes whose code or dependencies moved on; nodes without an entry in
   * `deps` are inputs.
   */
  method Sweep(deps: Deps, needs: set<Id>, roots: seq<Id>) returns (stale: seq<Id>)
    ensures Distinct(stale)
    ensures forall m :: m in stale <==> m in deps && m in needs && ReachedFrom(deps, roots, m)
  {
    var seen: set<Id> := {};
    var queue := roots;
    stale := [];
    SweepStarts(deps, roots);
    while queue != []
      invariant Sweeping(deps, roots, seen, queue)
      invariant Picked(deps, needs, seen, stale)
      decreases Universe(deps, roots) - seen, |queue|
    {
      var node, rest := queue[|queue| - 1], queue[..|queue| - 1];
      LastOf(queue);
      if node in seen {
        SeenAgain(deps, roots, seen, queue, rest, node);
        queue := rest;
      } else {
        SeenFirst(deps, roots, seen, queue, rest, node);
        PickedGrows(deps, needs, seen, stale, node);
        seen := seen + {node};
        queue := rest + DepsOf(deps, node);
        if node in deps && node in needs {
          stale := stale + [node];
        }
      }
    }
    Ended(deps, needs, roots, seen, stale);
  }

  // ---------------------------------------------------------- in the engine

  function ScheduleEach(s: State, ns: seq<Id>): State
    decreases |ns|
  {
    if ns == [] then s else ScheduleEach(Schedule(s, ns[0]), ns[1..])
  }

  /** t is s with the nodes ns queued as well; no entry is moved or lost, and nothing else changes but the clock. */
  ghost predicate Queued(s: State, ns: seq<Id>, t: State) {
    && t == s.(q := t.q, clock := t.clock) && s.clock <= t.clock
    && Keeps(s.q, t.q) && (InStep(s.q) ==> InStep(t.q))
    && forall n :: n in t.q.scheduled <==> n in s.q.scheduled || n in ns
  }

  lemma {:induction false} SweptAreScheduled(s: State, ns: seq<Id>)
    ensures Queued(s, ns, ScheduleEach(s, ns))
    decreases |ns|
  {
    if ns != [] {
      EnqueueKeeps(s.q, ns[0], s.clock + 1);
      SweptAreScheduled(Schedule(s, ns[0]), ns[1..]);
      assert forall n :: n in ns <==> n == ns[0] || n in ns[1..];
    }
  }

  /** The sweep over the engine's graph: every declared dependency, never the narrowed set. */
  method SweepEngine(g: Graph, s: State, roots: seq<Id>) returns (stale: seq<Id>, t: State)
    requires WellFormed(g, s)
    ensures Distinct(stale)
    ensures forall m :: m in stale <==> Derived(g, m) && ReachedFrom(GraphDeps(g), roots, m) && IsStale(g, s.book, m)
    ensures Queued(s, stale, t)
  {
    var needs := set n | n in g.fixed && IsStale(g, s.book, n);
    stale := Sweep(GraphDeps(g), needs, roots);
    t := ScheduleEach(s, stale);
    SweptAreScheduled(s, stale);
  }
}
