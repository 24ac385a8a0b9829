// What-if evaluation: the closure of the targets is staged under overridden
// inputs, recomputing only what an override reaches.
module WhatIf {
  import opened Attempts
  import opened DagGraph
  import opened Scratch
  import opened Closure
  import opened Engine

  type Staging = map<Id, Attempt>

  /** latest_attempt during an evaluation: the staged attempt shadows the live one. */
  function Shadow(live: map<Id, Attempt>, staging: Staging): map<Id, Attempt> {
    live + staging
  }

  /** A what-if call of compute: any raised failure becomes an impossible attempt. */
  function Settled(o: Outcome): Attempt {
    match o
    case Returned(a) => a
    case Transient(e, _) => Impossible(e)
  }

  predicate AnyStaged(staging: Staging, ds: seq<Id>) {
    exists d | d in ds :: d in staging
  }

  datatype Stage = Stage(staging: Staging, calls: seq<Call>)

  /** _stage_node: stage n's hypothetical attempt when an active dependency is staged. */
  function StageNode(g: Graph, live: map<Id, Attempt>, st: Stage, n: Id): (r: Stage)
    requires Valid(g) && Nodes(g) <= live.Keys
    ensures r.staging.Keys <= st.staging.Keys + {n}
    ensures forall m | m in st.staging :: m in r.staging && r.staging[m] == st.staging[m]
  {
    if n in st.staging || !Derived(g, n) then st
    else
      var view := Shadow(live, st.staging);
      var ds := Active(g, view, n);
      if !AnyStaged(st.staging, ds) then st
      else
        var atts := AttemptsOf(view, ds);
        if AnyPending(atts) then st.(staging := st.staging[n := Pending])
        else if AnyImpossible(atts) then st.(staging := st.staging[n := Impossible(DepFailed(n, Causes(atts)))])
        else
          var outcome := g.world(n, atts, 0);
          Stage(st.staging[n := Settled(outcome)], st.calls + [Call(n, atts, outcome)])
  }

  function StageAll(g: Graph, live: map<Id, Attempt>, st: Stage, order: seq<Id>): (r: Stage)
    requires Valid(g) && Nodes(g) <= live.Keys
    ensures forall m | m in st.staging :: m in r.staging && r.staging[m] == st.staging[m]
    decreases |order|
  {
    if order == [] then st else StageAll(g, live, StageNode(g, live, st, order[0]), order[1..])
  }

  /** Overrides as succeeded attempts (build_staging). */
  function Overridden(overrides: map<Id, Value>): Staging {
    map n | n in overrides :: Succeeded(overrides[n])
  }

  function GraphDeps(g: Graph): Deps
    requires Valid(g)
  {
    map n | n in g.fixed :: g.fixed[n] + g.branches[n]
  }

  function Evaluated(g: Graph, live: map<Id, Attempt>, targets: seq<Id>, overrides: map<Id, Value>): Stage
    requires Valid(g) && Nodes(g) <= live.Keys
  {
    StageAll(g, live, Stage(Overridden(overrides), []), ClosureOf(GraphDeps(g), targets))
  }

  // --------------------------------------------------- the full recomputation

  /** n recomputed from the overrides and the real inputs, everything in between included. */
  function Recomputed(g: Graph, f: (Id, seq<Attempt>) -> Attempt, live: map<Id, Attempt>, overrides: map<Id, Value>,
                      n: Id): Attempt
    requires Valid(g) && Nodes(g) <= live.Keys && n in Nodes(g)
    decreases g.rank[n], 1, 0
  {
    if n in overrides then Succeeded(overrides[n])
    else if n in g.inputs then live[n]
    else
      assert forall d | d in g.fixed[n] :: Edge(g, n, d);
      var conditions := AllRecomputed(g, f, live, overrides, g.fixed[n], g.rank[n]);
      var active := g.fixed[n] + g.choose(n, conditions);
      assert forall d | d in active :: Edge(g, n, d);
      Evaluate(f, n, AllRecomputed(g, f, live, overrides, active, g.rank[n]))
  }

  function AllRecomputed(g: Graph, f: (Id, seq<Attempt>) -> Attempt, live: map<Id, Attempt>, overrides: map<Id, Value>,
                         ds: seq<Id>, r: int): (atts: seq<Attempt>)
    requires Valid(g) && Nodes(g) <= live.Keys
    requires forall d | d in ds :: d in Nodes(g) && g.rank[d] < r
    ensures |atts| == |ds|
    decreases r, 0, |ds|
  {
    if ds == [] then []
    else [Recomputed(g, f, live, overrides, ds[0])] + AllRecomputed(g, f, live, overrides, ds[1..], r)
  }

  /** Both succeed with the same value, or neither succeeds. */
  predicate Agree(a: Attempt, b: Attempt) {
    (a.Succeeded? <==> b.Succeeded?) && (a.Succeeded? ==> a == b)
  }

  predicate AllAgree(a: seq<Attempt>, b: seq<Attempt>) {
    |a| == |b| && forall i | 0 <= i < |a| :: Agree(a[i], b[i])
  }

  predicate AllSucceeded(a: seq<Attempt>) {
    forall i | 0 <= i < |a| :: a[i].Succeeded?
  }

  lemma SucceededOrBlocked(a: seq<Attempt>)
    ensures AllSucceeded(a) <==> !AnyImpossible(a) && !AnyPending(a)
  {
    if i :| 0 <= i < |a| && !a[i].Succeeded? {
      assert a[i].Impossible? || a[i].Pending?;
    }
  }

  /** Attempts that agree are equal if they all succeed, and block n alike if not. */
  lemma AgreeingAttempts(f: (Id, seq<Attempt>) -> Attempt, n: Id, a: seq<Attempt>, b: seq<Attempt>)
    requires AllAgree(a, b)
    ensures Agree(Evaluate(f, n, a), Evaluate(f, n, b))
    ensures AllSucceeded(a) ==> a == b
    ensures AllSucceeded(a) <==> AllSucceeded(b)
    ensures AllSucceeded(a) <==> !AnyImpossible(a) && !AnyPending(a)
  {
    if AllSucceeded(a) {
      assert a == b;
    } else {
      var i :| 0 <= i < |a| && !a[i].Succeeded?;
      assert !b[i].Succeeded?;
      assert a[i].Impossible? || a[i].Pending?;
      assert b[i].Impossible? || b[i].Pending?;
    }
  }

  /** The real attempt of n agrees with its own computation on the real attempts of its dependencies. */
  ghost predicate RealConsistent(g: Graph, f: (Id, seq<Attempt>) -> Attempt, live: map<Id, Attempt>, n: Id)
    requires Valid(g) && Nodes(g) <= live.Keys && Derived(g, n)
  {
    Agree(live[n], Evaluate(f, n, ActiveAttempts(g, live, n)))
  }

  /** The attempts of ds in `view` agree with their recomputation. */
  lemma {:induction false} ViewAgrees(g: Graph, f: (Id, seq<Attempt>) -> Attempt, live: map<Id, Attempt>,
                                      overrides: map<Id, Value>, view: map<Id, Attempt>, ds: seq<Id>, r: int)
    requires Valid(g) && Nodes(g) <= live.Keys && Nodes(g) <= view.Keys
    requires forall d | d in ds ::
               d in Nodes(g) && g.rank[d] < r && Agree(view[d], Recomputed(g, f, live, overrides, d))
    ensures AllAgree(AttemptsOf(view, ds), AllRecomputed(g, f, live, overrides, ds, r))
    decreases |ds|
  {
    if ds != [] {
      assert forall d | d in ds[1..] :: d in ds;
      ViewAgrees(g, f, live, overrides, view, ds[1..], r);
      AttemptsHead(view, ds);
      AgreeCons(view[ds[0]], AttemptsOf(view, ds[1..]), Recomputed(g, f, live, overrides, ds[0]),
                AllRecomputed(g, f, live, overrides, ds[1..], r));
    }
  }

  lemma AttemptsHead(view: map<Id, Attempt>, ds: seq<Id>)
    requires ds != [] && forall d | d in ds :: d in view
    ensures AttemptsOf(view, ds) == [view[ds[0]]] + AttemptsOf(view, ds[1..])
  {
  }

  lemma AgreeCons(a: Attempt, seen: seq<Attempt>, b: Attempt, computed: seq<Attempt>)
    requires Agree(a, b) && AllAgree(seen, computed)
    ensures AllAgree([a] + seen, [b] + computed)
  {
  }

  /** n's recomputation is its evaluation on what the view shows, up to agreement. */
  lemma EvaluationAgrees(g: Graph, f: (Id, seq<Attempt>) -> Attempt, live: map<Id, Attempt>,
                         overrides: map<Id, Value>, view: map<Id, Attempt>, n: Id)
    requires Valid(g) && Nodes(g) <= live.Keys && Nodes(g) <= view.Keys && Derived(g, n) && n !in overrides
    requires forall d | Edge(g, n, d) :: Agree(view[d], Recomputed(g, f, live, overrides, d))
    ensures Agree(Evaluate(f, n, ActiveAttempts(g, view, n)), Recomputed(g, f, live, overrides, n))
  {
    var r := g.rank[n];
    var fixed := g.fixed[n];
    assert forall d | d in fixed :: Edge(g, n, d);
    ViewAgrees(g, f, live, overrides, view, fixed, r);
    var seen, conditions := AttemptsOf(view, fixed), AllRecomputed(g, f, live, overrides, fixed, r);
    AgreeingAttempts(f, n, seen, conditions);
    var active := fixed + g.choose(n, conditions);
    assert forall d | d in active :: Edge(g, n, d);
    if AllSucceeded(seen) {
      assert Active(g, view, n) == active;
      ViewAgrees(g, f, live, overrides, view, active, r);
      AgreeingAttempts(f, n, AttemptsOf(view, active), AllRecomputed(g, f, live, overrides, active, r));
    } else {
      var i :| 0 <= i < |seen| && !seen[i].Succeeded?;
      assert AttemptsOf(view, Active(g, view, n))[i] == seen[i];
      RecomputedAt(g, f, live, overrides, fixed, r, i);
      RecomputedAt(g, f, live, overrides, active, r, i);
      BlockedEvaluation(f, n, AttemptsOf(view, Active(g, view, n)), i);
      BlockedEvaluation(f, n, AllRecomputed(g, f, live, overrides, active, r), i);
    }
  }

  lemma BlockedEvaluation(f: (Id, seq<Attempt>) -> Attempt, n: Id, atts: seq<Attempt>, i: int)
    requires 0 <= i < |atts| && !atts[i].Succeeded?
    ensures !Evaluate(f, n, atts).Succeeded?
  {
    assert atts[i].Impossible? || atts[i].Pending?;
  }

  lemma {:induction false} RecomputedAt(g: Graph, f: (Id, seq<Attempt>) -> Attempt, live: map<Id, Attempt>,
                                       overrides: map<Id, Value>, ds: seq<Id>, r: int, i: int)
    requires Valid(g) && Nodes(g) <= live.Keys && 0 <= i < |ds|
    requires forall d | d in ds :: d in Nodes(g) && g.rank[d] < r
    ensures AllRecomputed(g, f, live, overrides, ds, r)[i] == Recomputed(g, f, live, overrides, ds[i])
    decreases |ds|
  {
    if i > 0 {
      RecomputedAt(g, f, live, overrides, ds[1..], r, i - 1);
    }
  }

  // ------------------------------------------------------------ the staging loop

  /** After the nodes of `done`: each shows its recomputation, and nothing else was staged. */
  ghost predicate Staged(g: Graph, f: (Id, seq<Attempt>) -> Attempt, live: map<Id, Attempt>, overrides: map<Id, Value>,
                         st: Stage, done: seq<Id>)
    requires Valid(g) && Nodes(g) <= live.Keys
  {
    && (forall m | m in done :: m in Nodes(g) &&
          Agree(Shadow(live, st.staging)[m], Recomputed(g, f, live, overrides, m)))
    && (forall m | m in overrides :: m in st.staging && st.staging[m] == Succeeded(overrides[m]))
    && (forall m | m in st.staging :: m in overrides || m in done)
  }

  /** Staging the next node of the order, whose dependencies are all done. */
  lemma StageNodeAgrees(g: Graph, f: (Id, seq<Attempt>) -> Attempt, live: map<Id, Attempt>, overrides: map<Id, Value>,
                        st: Stage, done: seq<Id>, n: Id)
    requires Valid(g) && Nodes(g) <= live.Keys && Pure(g, f)
    requires Staged(g, f, live, overrides, st, done) && n in Nodes(g) && n !in done
    requires Derived(g, n) ==> RealConsistent(g, f, live, n)
    requires forall d | Edge(g, n, d) :: d in done
    ensures Staged(g, f, live, overrides, StageNode(g, live, st, n), done + [n])
  {
    var next := StageNode(g, live, st, n);
    var view := Shadow(live, st.staging);
    NewNodeAgrees(g, f, live, overrides, st, done, n);
    forall m | m in done + [n]
      ensures m in Nodes(g) && Agree(Shadow(live, next.staging)[m], Recomputed(g, f, live, overrides, m)) {
      if m != n {
        assert Shadow(live, next.staging)[m] == view[m];
      }
    }
  }

  /** The node itself: staged on what the view shows, or as consistent as the live graph where nothing is staged. */
  lemma NewNodeAgrees(g: Graph, f: (Id, seq<Attempt>) -> Attempt, live: map<Id, Attempt>, overrides: map<Id, Value>,
                      st: Stage, done: seq<Id>, n: Id)
    requires Valid(g) && Nodes(g) <= live.Keys && Pure(g, f)
    requires Staged(g, f, live, overrides, st, done) && n in Nodes(g) && n !in done
    requires Derived(g, n) ==> RealConsistent(g, f, live, n)
    requires forall d | Edge(g, n, d) :: d in done
    ensures Agree(Shadow(live, StageNode(g, live, st, n).staging)[n], Recomputed(g, f, live, overrides, n))
  {
    var view := Shadow(live, st.staging);
    if n !in st.staging && Derived(g, n) {
      EvaluationAgrees(g, f, live, overrides, view, n);
      var ds := Active(g, view, n);
      if !AnyStaged(st.staging, ds) {
        assert forall d | d in ds :: Edge(g, n, d) && view[d] == live[d];
        SameView(g, view, live, n);
      }
    }
  }

  lemma NextIsNew(done: seq<Id>, rest: seq<Id>)
    requires rest != [] && Distinct(done + rest)
    ensures rest[0] !in done
  {
    var all := done + rest;
    forall i | 0 <= i < |done| ensures done[i] != rest[0] {
      assert all[i] == done[i] && all[|done|] == rest[0];
    }
  }

  lemma {:induction false} StageAllAgrees(g: Graph, f: (Id, seq<Attempt>) -> Attempt, live: map<Id, Attempt>,
                                          overrides: map<Id, Value>, st: Stage, done: seq<Id>, rest: seq<Id>)
    requires Valid(g) && Nodes(g) <= live.Keys && Pure(g, f)
    requires Staged(g, f, live, overrides, st, done)
    requires Distinct(done + rest) && DependenciesFirst(GraphDeps(g), done + rest)
    requires forall m | m in rest :: m in Nodes(g) && (Derived(g, m) ==> RealConsistent(g, f, live, m))
    ensures Staged(g, f, live, overrides, StageAll(g, live, st, rest), done + rest)
    decreases |rest|
  {
    if rest == [] {
      assert done + rest == done;
    } else {
      var n, all := rest[0], done + rest;
      Regrouped(done, rest);
      forall d | Edge(g, n, d) ensures d in done {
        assert d in DepsOf(GraphDeps(g), all[|done|]);
      }
      NextIsNew(done, rest);
      StageNodeAgrees(g, f, live, overrides, st, done, n);
      assert done + [n] + rest[1..] == all;
      assert forall m | m in rest[1..] :: m in rest;
      StageAllAgrees(g, f, live, overrides, StageNode(g, live, st, n), done + [n], rest[1..]);
    }
  }

  lemma GraphDepsRanked(g: Graph)
    requires Valid(g)
    ensures Ranked(GraphDeps(g), g.rank)
  {
    forall n, d | d in DepsOf(GraphDeps(g), n) ensures n in g.rank && d in g.rank && g.rank[d] < g.rank[n] {
      DeclaredAreEdges(g, n, d);
    }
  }

  lemma DeclaredAreEdges(g: Graph, n: Id, d: Id)
    requires Valid(g)
    ensures d in DepsOf(GraphDeps(g), n) <==> Edge(g, n, d)
    ensures Edge(g, n, d) ==> n in g.rank && d in g.rank && g.rank[d] < g.rank[n]
  {
    assert DepsOf(GraphDeps(g), n) == if n in g.fixed then g.fixed[n] + g.branches[n] else [];
  }

  lemma ReachedAreNodes(g: Graph, targets: seq<Id>, m: Id)
    requires Valid(g) && (forall t | t in targets :: t in Nodes(g)) && m in ClosureOf(GraphDeps(g), targets)
    ensures m in Nodes(g)
  {
    ClosureIsReachable(GraphDeps(g), targets, m);
    var t :| t in targets && Reaches(GraphDeps(g), t, m);
    var path :| IsPath(GraphDeps(g), path) && path[0] == t && path[|path| - 1] == m;
    forall n, d | n in Nodes(g) && d in DepsOf(GraphDeps(g), n) ensures d in Nodes(g) {
      assert Edge(g, n, d);
    }
    ClosedHoldsReached(GraphDeps(g), Nodes(g), path);
  }

  /**
   * What-if equals full recompute: if the real attempts are consistent, each
   * target's staged result succeeds exactly when recomputing the whole closure
   * under the overrides succeeds, and with the same value.
   */
  lemma WhatIfIsRecomputation(g: Graph, f: (Id, seq<Attempt>) -> Attempt, live: map<Id, Attempt>, targets: seq<Id>,
                              overrides: map<Id, Value>, t: Id)
    requires Valid(g) && Nodes(g) <= live.Keys && Pure(g, f)
    requires forall m | Derived(g, m) :: RealConsistent(g, f, live, m)
    requires (forall m | m in targets :: m in Nodes(g)) && t in targets
    ensures Agree(Shadow(live, Evaluated(g, live, targets, overrides).staging)[t], Recomputed(g, f, live, overrides, t))
  {
    var order := ClosureOf(GraphDeps(g), targets);
    GraphDepsRanked(g);
    ClosureIsOrdered(GraphDeps(g), g.rank, targets);
    ClosureIsReachable(GraphDeps(g), targets, t);
    ReachesSelf(GraphDeps(g), t);
    forall m | m in order ensures m in Nodes(g) {
      ReachedAreNodes(g, targets, m);
    }
    assert [] + order == order;
    StageAllAgrees(g, f, live, overrides, Stage(Overridden(overrides), []), [], order);
  }

  // -------------------------------------------------------- minimality, purity

  /** The call of n is justified: n is not overridden, and an active dependency of it is staged. */
  ghost predicate Justified(g: Graph, live: map<Id, Attempt>, overrides: map<Id, Value>, staging: Staging, c: Call)
    requires Valid(g) && Nodes(g) <= live.Keys
  {
    && Derived(g, c.node) && c.node !in overrides
    && AnyStaged(staging, Active(g, Shadow(live, staging), c.node))
    && c.atts == ActiveAttempts(g, Shadow(live, staging), c.node)
    && AllSucceeded(c.atts)
  }

  /** Later stagings of other nodes do not change what a justified call saw. */
  lemma StaysJustified(g: Graph, live: map<Id, Attempt>, overrides: map<Id, Value>, a: Staging, b: Staging,
                       c: Call, done: seq<Id>, n: Id)
    requires Valid(g) && Nodes(g) <= live.Keys && Justified(g, live, overrides, a, c)
    requires forall d | Edge(g, c.node, d) :: d in done
    requires n !in done && (forall m | m in a :: m in b && b[m] == a[m]) && b.Keys <= a.Keys + {n}
    ensures Justified(g, live, overrides, b, c)
  {
    var ds := Active(g, Shadow(live, a), c.node);
    assert forall d | d in ds :: Edge(g, c.node, d);
    SameView(g, Shadow(live, a), Shadow(live, b), c.node);
  }

  ghost predicate AllJustified(g: Graph, live: map<Id, Attempt>, overrides: map<Id, Value>, st: Stage, done: seq<Id>)
    requires Valid(g) && Nodes(g) <= live.Keys
  {
    && (forall i | 0 <= i < |st.calls| ::
          st.calls[i].node in done && Justified(g, live, overrides, st.staging, st.calls[i]))
    && (forall i, j | 0 <= i < j < |st.calls| :: st.calls[i].node != st.calls[j].node)
    && (forall m | m in overrides :: m in st.staging)
    && (forall m | m in st.staging :: m in overrides || m in done)
  }

  lemma StageNodeJustified(g: Graph, live: map<Id, Attempt>, overrides: map<Id, Value>, st: Stage, done: seq<Id>, n: Id)
    requires Valid(g) && Nodes(g) <= live.Keys && AllJustified(g, live, overrides, st, done) && n !in done
    requires forall d | Edge(g, n, d) :: d in done
    requires forall m, d | m in done && Edge(g, m, d) :: d in done
    ensures AllJustified(g, live, overrides, StageNode(g, live, st, n), done + [n])
  {
    var next := StageNode(g, live, st, n);
    forall i | 0 <= i < |st.calls| ensures Justified(g, live, overrides, next.staging, st.calls[i]) {
      StaysJustified(g, live, overrides, st.staging, next.staging, st.calls[i], done, n);
    }
    if |next.calls| > |st.calls| {
      NewCallJustified(g, live, overrides, st, done, n);
    }
    JustifiedTogether(g, live, overrides, st, next, done, n);
  }

  /** The old calls and the new one, if there is one, in the log. */
  lemma JustifiedTogether(g: Graph, live: map<Id, Attempt>, overrides: map<Id, Value>, st: Stage, next: Stage,
                          done: seq<Id>, n: Id)
    requires Valid(g) && Nodes(g) <= live.Keys && AllJustified(g, live, overrides, st, done) && n !in done
    requires forall i | 0 <= i < |st.calls| :: Justified(g, live, overrides, next.staging, st.calls[i])
    requires || next.calls == st.calls
             || exists c: Call ::
                  c.node == n && next.calls == st.calls + [c] && Justified(g, live, overrides, next.staging, c)
    requires next.staging.Keys <= st.staging.Keys + {n}
    requires forall m | m in st.staging :: m in next.staging
    ensures AllJustified(g, live, overrides, next, done + [n])
  {
  }

  lemma NewCallJustified(g: Graph, live: map<Id, Attempt>, overrides: map<Id, Value>, st: Stage, done: seq<Id>, n: Id)
    requires Valid(g) && Nodes(g) <= live.Keys && n !in done
    requires forall m | m in overrides :: m in st.staging
    requires forall d | Edge(g, n, d) :: d in done
    requires |StageNode(g, live, st, n).calls| > |st.calls|
    ensures var next := StageNode(g, live, st, n);
            exists c: Call ::
              c.node == n && next.calls == st.calls + [c] && Justified(g, live, overrides, next.staging, c)
  {
    var next, view := StageNode(g, live, st, n), Shadow(live, st.staging);
    var ds := Active(g, view, n);
    var atts := AttemptsOf(view, ds);
    assert forall d | d in ds :: Edge(g, n, d);
    SameView(g, view, Shadow(live, next.staging), n);
    SucceededOrBlocked(atts);
    assert Justified(g, live, overrides, next.staging, Call(n, atts, g.world(n, atts, 0)));
  }

  lemma Regrouped(done: seq<Id>, rest: seq<Id>)
    requires rest != []
    ensures (done + rest)[|done|] == rest[0] && (done + rest)[..|done|] == done
    ensures done + [rest[0]] + rest[1..] == done + rest
  {
    assert [rest[0]] + rest[1..] == rest;
  }

  lemma {:induction false} StageAllJustified(g: Graph, live: map<Id, Attempt>, overrides: map<Id, Value>, st: Stage,
                                             done: seq<Id>, rest: seq<Id>)
    requires Valid(g) && Nodes(g) <= live.Keys && AllJustified(g, live, overrides, st, done)
    requires Distinct(done + rest) && DependenciesFirst(GraphDeps(g), done + rest)
    ensures AllJustified(g, live, overrides, StageAll(g, live, st, rest), done + rest)
    decreases |rest|
  {
    if rest == [] {
      assert done + rest == done;
    } else {
      var n, all := rest[0], done + rest;
      Regrouped(done, rest);
      forall d | Edge(g, n, d) ensures d in done {
        assert d in DepsOf(GraphDeps(g), all[|done|]);
      }
      forall m, d | m in done && Edge(g, m, d) ensures d in done {
        var i :| 0 <= i < |done| && done[i] == m;
        assert d in DepsOf(GraphDeps(g), all[i]);
        assert d in all[..i] && all[..i] == done[..i];
      }
      NextIsNew(done, rest);
      StageNodeJustified(g, live, overrides, st, done, n);
      StageAllJustified(g, live, overrides, StageNode(g, live, st, n), done + [n], rest[1..]);
    }
  }

  /**
   * Minimality: compute is called at most once per node, only on nodes of the
   * closure that are not overridden and have a staged active dependency, and
   * only on succeeded attempts.
   */
  lemma WhatIfIsMinimal(g: Graph, live: map<Id, Attempt>, targets: seq<Id>, overrides: map<Id, Value>)
    requires Valid(g) && Nodes(g) <= live.Keys
    ensures var r := Evaluated(g, live, targets, overrides);
      && (forall i | 0 <= i < |r.calls| ::
            && r.calls[i].node in ClosureOf(GraphDeps(g), targets)
            && Justified(g, live, overrides, r.staging, r.calls[i]))
      && (forall i, j | 0 <= i < j < |r.calls| :: r.calls[i].node != r.calls[j].node)
  {
    var order := ClosureOf(GraphDeps(g), targets);
    GraphDepsRanked(g);
    ClosureIsOrdered(GraphDeps(g), g.rank, targets);
    if order != [] {
      ClosureIsReachable(GraphDeps(g), targets, order[0]);
    }
    assert [] + order == order;
    StageAllJustified(g, live, overrides, Stage(Overridden(overrides), []), [], order);
  }

  // ------------------------------------------------------------- what is called

  /** Every call's node shows what compute answered; a call that raised, retryable or not, answers its failure. */
  ghost predicate CallsAnswered(st: Stage) {
    forall c | c in st.calls :: c.node in st.staging && Answers(c.outcome, st.staging[c.node])
  }

  lemma {:induction false} StageAllAnswers(g: Graph, live: map<Id, Attempt>, st: Stage, order: seq<Id>)
    requires Valid(g) && Nodes(g) <= live.Keys && CallsAnswered(st)
    ensures CallsAnswered(StageAll(g, live, st, order))
    decreases |order|
  {
    if order != [] {
      StageAllAnswers(g, live, StageNode(g, live, st, order[0]), order[1..]);
    }
  }

  /**
   * Whatever compute does, raising a transient failure included: an evaluation
   * shows for each node it called the answer of that call, and the outcome of
   * the call is compute's on the attempts it was given.
   */
  lemma EvaluationShowsAnswers(g: Graph, live: map<Id, Attempt>, targets: seq<Id>, overrides: map<Id, Value>, c: Call)
    requires Valid(g) && Nodes(g) <= live.Keys && c in Evaluated(g, live, targets, overrides).calls
    ensures var staging := Evaluated(g, live, targets, overrides).staging;
      && c.node in staging && c.outcome == g.world(c.node, c.atts, 0)
      && match c.outcome
         case Returned(a) => staging[c.node] == a
         case Transient(e, _) => staging[c.node] == Impossible(e)
  {
    var st := Stage(Overridden(overrides), []);
    StageAllAnswers(g, live, st, ClosureOf(GraphDeps(g), targets));
    StageAllCalls(g, live, st, ClosureOf(GraphDeps(g), targets));
  }

  lemma {:induction false} StageAllCalls(g: Graph, live: map<Id, Attempt>, st: Stage, order: seq<Id>)
    requires Valid(g) && Nodes(g) <= live.Keys
    requires forall c | c in st.calls :: c.outcome == g.world(c.node, c.atts, 0)
    ensures forall c | c in StageAll(g, live, st, order).calls :: c.outcome == g.world(c.node, c.atts, 0)
    decreases |order|
  {
    if order != [] {
      StageAllCalls(g, live, StageNode(g, live, st, order[0]), order[1..]);
    }
  }

  /** An override is shown as it was given, whatever the node would compute. */
  lemma OverridesAreShown(g: Graph, live: map<Id, Attempt>, targets: seq<Id>, overrides: map<Id, Value>, x: Id)
    requires Valid(g) && Nodes(g) <= live.Keys && x in overrides
    ensures Shadow(live, Evaluated(g, live, targets, overrides).staging)[x] == Succeeded(overrides[x])
  {
    assert x in Overridden(overrides);
  }

  // ------------------------------------------------------------------ evaluate

  /** evaluate: the staging dictionary is local, so no real attempt is touched. */
  method EvaluateWhatIf(g: Graph, live: map<Id, Attempt>, targets: seq<Id>, overrides: map<Id, Value>)
    returns (results: map<Id, Attempt>, calls: seq<Call>)
    requires Valid(g) && Nodes(g) <= live.Keys && forall t | t in targets :: t in Nodes(g)
    ensures results.Keys == Members(targets)
    ensures forall t | t in targets :: results[t] == Shadow(live, Evaluated(g, live, targets, overrides).staging)[t]
    ensures calls == Evaluated(g, live, targets, overrides).calls
  {
    var order := ComputeClosure(GraphDeps(g), targets);
    var st := Stage(Overridden(overrides), []);
    var i := 0;
    while i < |order|
      invariant 0 <= i <= |order|
      invariant StageAll(g, live, st, order[i..]) == Evaluated(g, live, targets, overrides)
    {
      st := StageNode(g, live, st, order[i]);
      i := i + 1;
    }
    results := map t | t in Members(targets) :: Shadow(live, st.staging)[t];
    calls := st.calls;
  }
}
