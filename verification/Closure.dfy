// The dependency closure of a set of targets, dependencies first, on any
// graph; and the same search in place.
module Closure {
  import opened Attempts

  /** Declared dependencies; a node without an entry has none. */
  type Deps = map<Id, seq<Id>>

  function DepsOf(deps: Deps, n: Id): seq<Id> {
    if n in deps then deps[n] else []
  }

  /** The nodes that can still be visited: each one is visited at most once. */
  function Unvisited(deps: Deps, visited: set<Id>): int {
    |deps.Keys - visited|
  }

  lemma FewerUnvisited(deps: Deps, visited: set<Id>, larger: set<Id>, n: Id)
    requires visited <= larger
    ensures Unvisited(deps, larger) <= Unvisited(deps, visited)
    ensures n in deps && n !in visited && n in larger ==> Unvisited(deps, larger) < Unvisited(deps, visited)
  {
    Subset(deps.Keys - larger, deps.Keys - visited);
    if n in deps && n !in visited && n in larger {
      Subset(deps.Keys - larger, deps.Keys - visited - {n});
    }
  }

  lemma Subset(a: set<Id>, b: set<Id>)
    requires a <= b
    ensures |a| <= |b|
  {
    if a != b {
      assert |b| == |a| + |b - a| by {
        assert b == a + (b - a);
      }
    }
  }

  datatype Walk = Walk(visited: set<Id>, order: seq<Id>)

  /** One visit of the depth-first search: the node follows its dependencies in the order. */
  function Visit(deps: Deps, w: Walk, n: Id): (r: Walk)
    ensures w.visited <= r.visited && n in r.visited && w.order <= r.order
    decreases Unvisited(deps, w.visited), 1, 0
  {
    if n in w.visited then w
    else if n !in deps then Walk(w.visited + {n}, w.order + [n])
    else
      FewerUnvisited(deps, w.visited, w.visited + {n}, n);
      var inner := VisitAll(deps, w.(visited := w.visited + {n}), deps[n]);
      inner.(order := inner.order + [n])
  }

  function VisitAll(deps: Deps, w: Walk, ds: seq<Id>): (r: Walk)
    ensures w.visited <= r.visited && w.order <= r.order && forall d | d in ds :: d in r.visited
    decreases Unvisited(deps, w.visited), 2, |ds|
  {
    if ds == [] then w
    else
      var next := Visit(deps, w, ds[0]);
      FewerUnvisited(deps, w.visited, next.visited, ds[0]);
      VisitAll(deps, next, ds[1..])
  }

  /** All nodes reachable from the targets, dependencies first. */
  function ClosureOf(deps: Deps, targets: seq<Id>): seq<Id> {
    VisitAll(deps, Walk({}, []), targets).order
  }

  // ------------------------------------------------------- what is reached

  /** A path of declared dependencies from its first node to its last. */
  ghost predicate IsPath(deps: Deps, path: seq<Id>) {
    path != [] && forall i | 0 <= i < |path| - 1 :: path[i + 1] in DepsOf(deps, path[i])
  }

  ghost predicate Reaches(deps: Deps, n: Id, m: Id) {
    exists path :: IsPath(deps, path) && path[0] == n && path[|path| - 1] == m
  }

  lemma ReachesSelf(deps: Deps, n: Id)
    ensures Reaches(deps, n, n)
  {
    assert IsPath(deps, [n]);
  }

  lemma ReachesThrough(deps: Deps, n: Id, d: Id, m: Id)
    requires d in DepsOf(deps, n) && Reaches(deps, d, m)
    ensures Reaches(deps, n, m)
  {
    var path :| IsPath(deps, path) && path[0] == d && path[|path| - 1] == m;
    var longer := [n] + path;
    forall i | 0 <= i < |longer| - 1 ensures longer[i + 1] in DepsOf(deps, longer[i]) {
      if i > 0 {
        assert longer[i] == path[i - 1] && longer[i + 1] == path[i];
      }
    }
    assert IsPath(deps, longer);
  }

  /** A set closed under dependencies holds everything its members reach. */
  lemma {:induction false} ClosedHoldsReached(deps: Deps, closed: set<Id>, path: seq<Id>)
    requires IsPath(deps, path) && path[0] in closed
    requires forall n, d | n in closed && d in DepsOf(deps, n) :: d in closed
    ensures path[|path| - 1] in closed
    decreases |path|
  {
    if |path| > 1 {
      var rest := path[1..];
      forall i | 0 <= i < |rest| - 1 ensures rest[i + 1] in DepsOf(deps, rest[i]) {
        var j := i + 1;
        assert path[j + 1] in DepsOf(deps, path[j]);
      }
      ClosedHoldsReached(deps, closed, rest);
    }
  }

  /** The nodes of a sequence. */
  function Members(s: seq<Id>): set<Id> {
    set x | x in s
  }

  ghost predicate Distinct(s: seq<Id>) {
    forall i, j | 0 <= i < j < |s| :: s[i] != s[j]
  }

  /** From w to r the finished nodes are exactly the newly visited ones, each once, reached from ds, and closed. */
  ghost predicate Explored(deps: Deps, w: Walk, r: Walk, ds: seq<Id>) {
    && w.visited <= r.visited && w.order <= r.order
    && Members(r.order) == Members(w.order) + (r.visited - w.visited)
    && (Distinct(w.order) && Members(w.order) <= w.visited ==> Distinct(r.order))
    && (forall m | m in r.visited && m !in w.visited :: exists d | d in ds :: Reaches(deps, d, m))
    && (forall m, d | m in r.visited && m !in w.visited && d in DepsOf(deps, m) :: d in r.visited)
  }

  lemma {:induction false} VisitExplores(deps: Deps, w: Walk, n: Id)
    ensures Explored(deps, w, Visit(deps, w, n), [n])
    decreases Unvisited(deps, w.visited), 1, 0
  {
    ReachesSelf(deps, n);
    if n !in w.visited {
      var w1 := w.(visited := w.visited + {n});
      if n in deps {
        FewerUnvisited(deps, w.visited, w1.visited, n);
        VisitAllExplores(deps, w1, deps[n]);
        FinishExplores(deps, w, VisitAll(deps, w1, deps[n]), n);
      } else {
        FinishExplores(deps, w, w1, n);
      }
    }
  }

  /** Appending n after its dependencies were explored. */
  lemma FinishExplores(deps: Deps, w: Walk, inner: Walk, n: Id)
    requires n !in w.visited && Explored(deps, w.(visited := w.visited + {n}), inner, DepsOf(deps, n))
    requires forall d | d in DepsOf(deps, n) :: d in inner.visited
    ensures Explored(deps, w, inner.(order := inner.order + [n]), [n])
  {
    var r := inner.(order := inner.order + [n]);
    assert Members(r.order) == Members(inner.order) + {n};
    ReachesSelf(deps, n);
    forall m | m in r.visited && m !in w.visited ensures exists d | d in [n] :: Reaches(deps, d, m) {
      if m != n {
        var d :| d in DepsOf(deps, n) && Reaches(deps, d, m);
        ReachesThrough(deps, n, d, m);
      }
      assert Reaches(deps, n, m) && n in [n];
    }
    if Distinct(w.order) && Members(w.order) <= w.visited {
      assert n !in Members(inner.order);
    }
  }

  lemma {:induction false} VisitAllExplores(deps: Deps, w: Walk, ds: seq<Id>)
    ensures Explored(deps, w, VisitAll(deps, w, ds), ds)
    decreases Unvisited(deps, w.visited), 2, |ds|
  {
    if ds != [] {
      var next := Visit(deps, w, ds[0]);
      VisitExplores(deps, w, ds[0]);
      FewerUnvisited(deps, w.visited, next.visited, ds[0]);
      VisitAllExplores(deps, next, ds[1..]);
      ExploredTransitive(deps, w, next, VisitAll(deps, next, ds[1..]), ds);
    }
  }

  lemma ExploredTransitive(deps: Deps, w: Walk, next: Walk, r: Walk, ds: seq<Id>)
    requires ds != [] && Explored(deps, w, next, [ds[0]]) && Explored(deps, next, r, ds[1..])
    ensures Explored(deps, w, r, ds)
  {
    forall m | m in r.visited && m !in w.visited ensures exists d | d in ds :: Reaches(deps, d, m) {
      if m in next.visited {
        assert Reaches(deps, ds[0], m) && ds[0] in ds;
      } else {
        var d :| d in ds[1..] && Reaches(deps, d, m);
        assert d in ds;
      }
    }
  }

  /** The closure is exactly what the targets reach, each node once; cyclic graphs included. */
  lemma ClosureIsReachable(deps: Deps, targets: seq<Id>, m: Id)
    ensures Distinct(ClosureOf(deps, targets))
    ensures m in ClosureOf(deps, targets) <==> exists t | t in targets :: Reaches(deps, t, m)
  {
    var w := Walk({}, []);
    var r := VisitAll(deps, w, targets);
    VisitAllExplores(deps, w, targets);
    assert Members(r.order) == r.visited;
    assert m in ClosureOf(deps, targets) <==> m in Members(r.order);
    if t :| t in targets && Reaches(deps, t, m) {
      var path :| IsPath(deps, path) && path[0] == t && path[|path| - 1] == m;
      ClosedHoldsReached(deps, r.visited, path);
    }
  }

  // ---------------------------------------------------- dependencies first

  ghost predicate Ranked(deps: Deps, rank: map<Id, int>) {
    forall n, d {:trigger d in DepsOf(deps, n)} | d in DepsOf(deps, n) :: n in rank && d in rank && rank[d] < rank[n]
  }

  /** Every dependency of a finished node is finished before it. */
  ghost predicate DependenciesFirst(deps: Deps, order: seq<Id>) {
    forall i, d | 0 <= i < |order| && d in DepsOf(deps, order[i]) :: d in order[..i]
  }

  /** The nodes being visited are upstream of nothing that is still to come. */
  ghost predicate Above(rank: map<Id, int>, w: Walk, n: Id) {
    forall x | x in w.visited && x !in w.order :: x in rank && n in rank ==> rank[n] < rank[x]
  }

  lemma {:induction false} VisitOrders(deps: Deps, rank: map<Id, int>, w: Walk, n: Id)
    requires Ranked(deps, rank) && DependenciesFirst(deps, w.order) && Above(rank, w, n)
    requires n !in rank ==> DepsOf(deps, n) == []
    ensures DependenciesFirst(deps, Visit(deps, w, n).order)
    decreases Unvisited(deps, w.visited), 1, 0
  {
    if n !in w.visited {
      var w1 := w.(visited := w.visited + {n});
      if n in deps {
        FewerUnvisited(deps, w.visited, w1.visited, n);
        forall d | d in deps[n] ensures d in rank && Above(rank, w1, d) {
          assert d in DepsOf(deps, n);
        }
        VisitAllOrders(deps, rank, w1, deps[n]);
        VisitAllExplores(deps, w1, deps[n]);
        var inner := VisitAll(deps, w1, deps[n]);
        forall d | d in DepsOf(deps, n) ensures d in inner.order {
          assert d in inner.visited;
          assert d in Members(inner.order) || d in w1.visited;
        }
        AppendOrders(deps, inner.order, n);
      } else {
        AppendOrders(deps, w.order, n);
      }
    }
  }

  lemma AppendOrders(deps: Deps, order: seq<Id>, n: Id)
    requires DependenciesFirst(deps, order) && forall d | d in DepsOf(deps, n) :: d in order
    ensures DependenciesFirst(deps, order + [n])
  {
    var r := order + [n];
    forall i, d | 0 <= i < |r| && d in DepsOf(deps, r[i]) ensures d in r[..i] {
      if i < |order| {
        assert r[..i] == order[..i] && r[i] == order[i];
      } else {
        assert r[..i] == order;
      }
    }
  }

  lemma {:induction false} VisitAllOrders(deps: Deps, rank: map<Id, int>, w: Walk, ds: seq<Id>)
    requires Ranked(deps, rank) && DependenciesFirst(deps, w.order)
    requires forall d | d in ds :: Above(rank, w, d) && (d !in rank ==> DepsOf(deps, d) == [])
    ensures DependenciesFirst(deps, VisitAll(deps, w, ds).order)
    decreases Unvisited(deps, w.visited), 2, |ds|
  {
    if ds != [] {
      var next := Visit(deps, w, ds[0]);
      assert Above(rank, w, ds[0]);
      VisitOrders(deps, rank, w, ds[0]);
      VisitExplores(deps, w, ds[0]);
      FewerUnvisited(deps, w.visited, next.visited, ds[0]);
      forall d | d in ds[1..] ensures Above(rank, next, d) && (d !in rank ==> DepsOf(deps, d) == []) {
        assert d in ds && Above(rank, w, d);
        forall x | x in next.visited && x !in next.order ensures x in w.visited && x !in w.order {
          assert x !in Members(next.order);
        }
      }
      VisitAllOrders(deps, rank, next, ds[1..]);
    }
  }

  lemma DependentIsRanked(deps: Deps, rank: map<Id, int>, n: Id)
    requires Ranked(deps, rank) && DepsOf(deps, n) != []
    ensures n in rank
  {
    assert DepsOf(deps, n)[0] in DepsOf(deps, n);
  }

  /** On an acyclic graph every node of the closure comes after all its dependencies. */
  lemma ClosureIsOrdered(deps: Deps, rank: map<Id, int>, targets: seq<Id>)
    requires Ranked(deps, rank)
    ensures DependenciesFirst(deps, ClosureOf(deps, targets))
  {
    forall d | d in targets && d !in rank ensures DepsOf(deps, d) == [] {
      if DepsOf(deps, d) != [] {
        DependentIsRanked(deps, rank, d);
      }
    }
    VisitAllOrders(deps, rank, Walk({}, []), targets);
  }

  // ------------------------------------------------------------- in place

  /** The walk of one closure: nested visits share these two fields. */
  class Walker {
    var visited: set<Id>
    var order: seq<Id>

    constructor ()
      ensures visited == {} && order == []
    {
      visited, order := {}, [];
    }

    function Current(): Walk
      reads this
    {
      Walk(visited, order)
    }

    method VisitNode(deps: Deps, n: Id)
      modifies this
      ensures Current() == Visit(deps, old(Current()), n)
      decreases Unvisited(deps, visited), 1, 0
    {
      if n in visited {
        return;
      }
      FewerUnvisited(deps, visited, visited + {n}, n);
      visited := visited + {n};
      if n in deps {
        VisitDependencies(deps, deps[n]);
      }
      order := order + [n];
    }

    method VisitDependencies(deps: Deps, ds: seq<Id>)
      modifies this
      ensures Current() == VisitAll(deps, old(Current()), ds)
      decreases Unvisited(deps, visited), 2
    {
      ghost var start := Current();
      var i := 0;
      while i < |ds|
        invariant 0 <= i <= |ds| && start.visited <= visited
        invariant VisitAll(deps, Current(), ds[i..]) == VisitAll(deps, start, ds)
      {
        VisitsNext(deps, Current(), ds, i);
        FewerUnvisited(deps, start.visited, visited, ds[i]);
        VisitNode(deps, ds[i]);
        i := i + 1;
      }
    }
  }

  lemma VisitsNext(deps: Deps, w: Walk, ds: seq<Id>, i: int)
    requires 0 <= i < |ds|
    ensures VisitAll(deps, w, ds[i..]) == VisitAll(deps, Visit(deps, w, ds[i]), ds[i + 1..])
    ensures w.visited <= Visit(deps, w, ds[i]).visited
  {
    assert ds[i..][0] == ds[i] && ds[i..][1..] == ds[i + 1..];
  }

  method ComputeClosure(deps: Deps, targets: seq<Id>) returns (order: seq<Id>)
    ensures order == ClosureOf(deps, targets)
  {
    var walker := new Walker();
    var i := 0;
    while i < |targets|
      invariant 0 <= i <= |targets|
      invariant VisitAll(deps, walker.Current(), targets[i..]) == VisitAll(deps, Walk({}, []), targets)
    {
      VisitsNext(deps, walker.Current(), targets, i);
      walker.VisitNode(deps, targets[i]);
      i := i + 1;
    }
    order := walker.order;
  }
}
