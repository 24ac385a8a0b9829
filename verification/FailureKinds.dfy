// What-if and refresh order their two tests differently: a node behind a pending
// and a failed dependency is pending in one and impossible in the other. Nothing
// else tells them apart.
module FailureKinds {
  import opened Attempts
  import opened DagGraph
  import opened Scratch
  import opened Closure
  import opened WhatIf

  /** Attempts on which the order of the two tests shows. */
  predicate Blended(atts: seq<Attempt>) {
    AnyPending(atts) && AnyImpossible(atts)
  }

  /** Staging gives a node what a refresh on the same attempts would, unless they are blended. */
  lemma StagedKind(g: Graph, f: (Id, seq<Attempt>) -> Attempt, live: map<Id, Attempt>, st: Stage, n: Id)
    requires Valid(g) && Nodes(g) <= live.Keys && Pure(g, f) && Derived(g, n) && n !in st.staging
    requires AnyStaged(st.staging, Active(g, Shadow(live, st.staging), n))
    ensures var atts := ActiveAttempts(g, Shadow(live, st.staging), n);
      var r := StageNode(g, live, st, n).staging;
      && n in r
      && (r[n] == Evaluate(f, n, atts) <==> !Blended(atts))
  {
  }

  /** The attempts n's recomputation binds. */
  function RecomputedBound(g: Graph, f: (Id, seq<Attempt>) -> Attempt, live: map<Id, Attempt>,
                           overrides: map<Id, Value>, n: Id): seq<Attempt>
    requires Valid(g) && Nodes(g) <= live.Keys && Derived(g, n)
  {
    assert forall d | d in g.fixed[n] :: Edge(g, n, d);
    var conditions := AllRecomputed(g, f, live, overrides, g.fixed[n], g.rank[n]);
    var active := g.fixed[n] + g.choose(n, conditions);
    assert forall d | d in active :: Edge(g, n, d);
    AllRecomputed(g, f, live, overrides, active, g.rank[n])
  }

  lemma {:induction false} ViewEquals(g: Graph, f: (Id, seq<Attempt>) -> Attempt, live: map<Id, Attempt>,
                                      overrides: map<Id, Value>, view: map<Id, Attempt>, ds: seq<Id>, r: int)
    requires Valid(g) && Nodes(g) <= live.Keys && Nodes(g) <= view.Keys
    requires forall d | d in ds ::
               d in Nodes(g) && g.rank[d] < r && view[d] == Recomputed(g, f, live, overrides, d)
    ensures AttemptsOf(view, ds) == AllRecomputed(g, f, live, overrides, ds, r)
    decreases |ds|
  {
    if ds != [] {
      assert forall d | d in ds[1..] :: d in ds;
      ViewEquals(g, f, live, overrides, view, ds[1..], r);
      AttemptsHead(view, ds);
    }
  }

  /** A view that shows every dependency's recomputation binds what n's recomputation binds. */
  lemma BoundEquals(g: Graph, f: (Id, seq<Attempt>) -> Attempt, live: map<Id, Attempt>,
                    overrides: map<Id, Value>, view: map<Id, Attempt>, n: Id)
    requires Valid(g) && Nodes(g) <= live.Keys && Nodes(g) <= view.Keys && Derived(g, n)
    requires forall d | Edge(g, n, d) :: view[d] == Recomputed(g, f, live, overrides, d)
    ensures ActiveAttempts(g, view, n) == RecomputedBound(g, f, live, overrides, n)
  {
    assert forall d | d in g.fixed[n] :: Edge(g, n, d);
    ViewEquals(g, f, live, overrides, view, g.fixed[n], g.rank[n]);
    ViewEquals(g, f, live, overrides, view, Active(g, view, n), g.rank[n]);
  }

  /** n's real attempt is its own computation on the real attempts of its dependencies, failures included. */
  ghost predicate RealExact(g: Graph, f: (Id, seq<Attempt>) -> Attempt, live: map<Id, Attempt>, n: Id)
    requires Valid(g) && Nodes(g) <= live.Keys && Derived(g, n)
  {
    live[n] == Evaluate(f, n, ActiveAttempts(g, live, n))
  }

  /** m was recomputed by the evaluation, on dependencies of which one is pending and another failed. */
  ghost predicate StagedBlended(g: Graph, f: (Id, seq<Attempt>) -> Attempt, live: map<Id, Attempt>,
                                overrides: map<Id, Value>, staging: Staging, m: Id)
    requires Valid(g) && Nodes(g) <= live.Keys
  {
    m in staging && m !in overrides && Derived(g, m) && Blended(RecomputedBound(g, f, live, overrides, m))
  }

  /** After the nodes of `done`: each shows exactly its recomputation, and nothing else was staged. */
  ghost predicate Exact(g: Graph, f: (Id, seq<Attempt>) -> Attempt, live: map<Id, Attempt>, overrides: map<Id, Value>,
                        st: Stage, done: seq<Id>)
    requires Valid(g) && Nodes(g) <= live.Keys
  {
    && (forall m | m in done :: m in Nodes(g) && Shadow(live, st.staging)[m] == Recomputed(g, f, live, overrides, m))
    && (forall m | m in overrides :: m in st.staging && st.staging[m] == Succeeded(overrides[m]))
    && (forall m | m in st.staging :: m in overrides || m in done)
  }

  /** The next node of the order, whose dependencies are all done. */
  lemma NewNodeExact(g: Graph, f: (Id, seq<Attempt>) -> Attempt, live: map<Id, Attempt>, overrides: map<Id, Value>,
                     st: Stage, done: seq<Id>, n: Id)
    requires Valid(g) && Nodes(g) <= live.Keys && Pure(g, f)
    requires Exact(g, f, live, overrides, st, done) && n in Nodes(g) && n !in done
    requires Derived(g, n) ==> RealExact(g, f, live, n)
    requires forall d | Edge(g, n, d) :: d in done
    ensures var next := StageNode(g, live, st, n).staging;
      (Shadow(live, next)[n] == Recomputed(g, f, live, overrides, n))
      <==> !StagedBlended(g, f, live, overrides, next, n)
  {
    var view := Shadow(live, st.staging);
    if n !in overrides && Derived(g, n) {
      BoundEquals(g, f, live, overrides, view, n);
      var ds := Active(g, view, n);
      if AnyStaged(st.staging, ds) {
        StagedKind(g, f, live, st, n);
      } else {
        assert forall d | d in ds :: Edge(g, n, d) && view[d] == live[d];
        SameView(g, view, live, n);
      }
    }
  }

  lemma NextExact(g: Graph, f: (Id, seq<Attempt>) -> Attempt, live: map<Id, Attempt>, overrides: map<Id, Value>,
                  st: Stage, done: seq<Id>, n: Id)
    requires Valid(g) && Nodes(g) <= live.Keys && n in Nodes(g)
    requires Exact(g, f, live, overrides, st, done)
    requires var next := StageNode(g, live, st, n).staging;
      Shadow(live, next)[n] == Recomputed(g, f, live, overrides, n)
    ensures Exact(g, f, live, overrides, StageNode(g, live, st, n), done + [n])
  {
    var next := StageNode(g, live, st, n);
    forall m | m in done + [n]
      ensures m in Nodes(g) && Shadow(live, next.staging)[m] == Recomputed(g, f, live, overrides, m) {
      if m != n {
        assert Shadow(live, next.staging)[m] == Shadow(live, st.staging)[m];
      }
    }
  }

  /** The loop stages only nodes it visits. */
  lemma {:induction false} OthersStayUnstaged(g: Graph, live: map<Id, Attempt>, st: Stage, rest: seq<Id>, n: Id)
    requires Valid(g) && Nodes(g) <= live.Keys && n !in rest
    ensures var r := StageAll(g, live, st, rest).staging;
      (n in r <==> n in st.staging) && Shadow(live, r).Keys >= Shadow(live, st.staging).Keys
    ensures n in Nodes(g) ==> Shadow(live, StageAll(g, live, st, rest).staging)[n] == Shadow(live, st.staging)[n]
    decreases |rest|
  {
    if rest != [] {
      OthersStayUnstaged(g, live, StageNode(g, live, st, rest[0]), rest[1..], n);
    }
  }

  ghost predicate AllExact(g: Graph, f: (Id, seq<Attempt>) -> Attempt, live: map<Id, Attempt>,
                           overrides: map<Id, Value>, staging: Staging, ms: seq<Id>)
    requires Valid(g) && Nodes(g) <= live.Keys && forall m | m in ms :: m in Nodes(g)
  {
    forall m | m in ms :: Shadow(live, staging)[m] == Recomputed(g, f, live, overrides, m)
  }

  ghost predicate NoneBlended(g: Graph, f: (Id, seq<Attempt>) -> Attempt, live: map<Id, Attempt>,
                              overrides: map<Id, Value>, staging: Staging, ms: seq<Id>)
    requires Valid(g) && Nodes(g) <= live.Keys
  {
    forall m | m in ms :: !StagedBlended(g, f, live, overrides, staging, m)
  }

  lemma {:induction false} StageAllExactIff(g: Graph, f: (Id, seq<Attempt>) -> Attempt, live: map<Id, Attempt>,
                                            overrides: map<Id, Value>, st: Stage, done: seq<Id>, rest: seq<Id>)
    requires Valid(g) && Nodes(g) <= live.Keys && Pure(g, f)
    requires Exact(g, f, live, overrides, st, done)
    requires Distinct(done + rest) && DependenciesFirst(GraphDeps(g), done + rest)
    requires forall m | m in rest :: m in Nodes(g) && (Derived(g, m) ==> RealExact(g, f, live, m))
    ensures var r := StageAll(g, live, st, rest).staging;
      AllExact(g, f, live, overrides, r, rest) <==> NoneBlended(g, f, live, overrides, r, rest)
    decreases |rest|
  {
    if rest != [] {
      var n, next := rest[0], StageNode(g, live, st, rest[0]);
      NextInOrder(g, done, rest);
      NewNodeExact(g, f, live, overrides, st, done, n);
      OthersStayUnstaged(g, live, next, rest[1..], n);
      if Shadow(live, next.staging)[n] == Recomputed(g, f, live, overrides, n) {
        NextExact(g, f, live, overrides, st, done, n);
        assert forall m | m in rest[1..] :: m in rest;
        StageAllExactIff(g, f, live, overrides, next, done + [n], rest[1..]);
      }
      HeadAndTail(g, f, live, overrides, StageAll(g, live, st, rest).staging, rest);
    }
  }

  lemma HeadAndTail(g: Graph, f: (Id, seq<Attempt>) -> Attempt, live: map<Id, Attempt>, overrides: map<Id, Value>,
                    staging: Staging, ms: seq<Id>)
    requires Valid(g) && Nodes(g) <= live.Keys && ms != [] && forall m | m in ms :: m in Nodes(g)
    ensures forall m | m in ms[1..] :: m in Nodes(g)
    ensures AllExact(g, f, live, overrides, staging, ms)
      <==> Shadow(live, staging)[ms[0]] == Recomputed(g, f, live, overrides, ms[0])
           && AllExact(g, f, live, overrides, staging, ms[1..])
    ensures NoneBlended(g, f, live, overrides, staging, ms)
      <==> !StagedBlended(g, f, live, overrides, staging, ms[0])
           && NoneBlended(g, f, live, overrides, staging, ms[1..])
  {
    assert forall m :: m in ms <==> m == ms[0] || m in ms[1..];
  }

  /** The first of the remaining nodes is new, and its dependencies are done. */
  lemma NextInOrder(g: Graph, done: seq<Id>, rest: seq<Id>)
    requires Valid(g) && rest != [] && Distinct(done + rest) && DependenciesFirst(GraphDeps(g), done + rest)
    ensures rest[0] !in done && rest[0] !in rest[1..]
    ensures done + [rest[0]] + rest[1..] == done + rest
    ensures forall d | Edge(g, rest[0], d) :: d in done
  {
    var n, all := rest[0], done + rest;
    Regrouped(done, rest);
    NextIsNew(done, rest);
    forall d | Edge(g, n, d) ensures d in done {
      DeclaredAreEdges(g, n, d);
      assert d in DepsOf(GraphDeps(g), all[|done|]);
    }
    forall i | 0 <= i < |rest[1..]| ensures rest[1..][i] != n {
      assert all[|done|] == n && all[|done| + 1 + i] == rest[1..][i];
    }
  }

  /**
   * The exact condition: from attempts that are their own computations, an
   * evaluation shows every node of the closure exactly as recomputing does,
   * failures included, if and only if no node that it recomputed has both a
   * pending and a failed dependency.
   */
  lemma WhatIfIsExactIff(g: Graph, f: (Id, seq<Attempt>) -> Attempt, live: map<Id, Attempt>, targets: seq<Id>,
                         overrides: map<Id, Value>)
    requires Valid(g) && Nodes(g) <= live.Keys && Pure(g, f)
    requires forall m | Derived(g, m) :: RealExact(g, f, live, m)
    requires forall m | m in targets :: m in Nodes(g)
    ensures var order := ClosureOf(GraphDeps(g), targets);
      var staging := Evaluated(g, live, targets, overrides).staging;
      && (forall m | m in order :: m in Nodes(g))
      && (AllExact(g, f, live, overrides, staging, order) <==> NoneBlended(g, f, live, overrides, staging, order))
  {
    var order := ClosureOf(GraphDeps(g), targets);
    ClosureInOrder(g, targets);
    OnlyOverridden(g, f, live, overrides);
    assert [] + order == order;
    StageAllExactIff(g, f, live, overrides, Stage(Overridden(overrides), []), [], order);
  }

  lemma OnlyOverridden(g: Graph, f: (Id, seq<Attempt>) -> Attempt, live: map<Id, Attempt>, overrides: map<Id, Value>)
    requires Valid(g) && Nodes(g) <= live.Keys
    ensures Exact(g, f, live, overrides, Stage(Overridden(overrides), []), [])
  {
  }

  lemma ClosureInOrder(g: Graph, targets: seq<Id>)
    requires Valid(g) && forall m | m in targets :: m in Nodes(g)
    ensures var order := ClosureOf(GraphDeps(g), targets);
      Distinct(order) && DependenciesFirst(GraphDeps(g), order) && forall m | m in order :: m in Nodes(g)
  {
    var order := ClosureOf(GraphDeps(g), targets);
    GraphDepsRanked(g);
    ClosureIsOrdered(GraphDeps(g), g.rank, targets);
    ClosureIsReachable(GraphDeps(g), targets, Id(""));
    forall m | m in order ensures m in Nodes(g) {
      ReachedAreNodes(g, targets, m);
    }
  }

  // --------------------------------------------------------------- the difference

  const X := Id("x")
  const P := Id("p")
  const Q := Id("q")
  const N := Id("n")

  const DEPS := [X, P, Q]

  /** n depends on the inputs x, p and q. */
  const G := Graph(
    {X, P, Q}, [N], map[N := DEPS], map[N := []], map[X := [N], P := [N], Q := [N], N := []],
    map[X := 0, P := 0, Q := 0, N := 1], map[N := 1],
    (n, atts) => [],
    (n, atts, t) => Returned(Ignored(n, atts)))

  function Ignored(n: Id, atts: seq<Attempt>): Attempt { Succeeded(Nothing) }

  /** What the lemmas use of it. */
  ghost predicate Here(g: Graph) {
    && Valid(g) && Pure(g, Ignored)
    && g.inputs == {X, P, Q} && g.fixed == map[N := DEPS] && g.branches == map[N := []]
    && forall atts :: g.choose(N, atts) == []
  }

  lemma GIsHere()
    ensures Here(G)
  {
    GIsValid();
    assert forall n, atts, t :: G.world(n, atts, t) == Returned(Ignored(n, atts));
  }

  lemma GIsValid()
    ensures Valid(G)
  {
    assert Nodes(G) == {X, P, Q, N} && G.rank.Keys == {X, P, Q, N} && G.dependents.Keys == {X, P, Q, N};
    forall n, d ensures Edge(G, n, d) <==> n == N && d in DEPS {
      Edges(n, d);
    }
  }

  lemma Edges(n: Id, d: Id)
    ensures Edge(G, n, d) <==> n == N && d in DEPS
    ensures d in G.dependents && n in G.dependents[d] <==> n == N && d in DEPS
  {
  }

  function Broken(): Failure { Raised(Q, 1) }
  function Blocked(): Attempt { Impossible(DepFailed(N, [Broken()])) }

  /** p is unset and q has failed, so a refresh left n failed. */
  function Now(x: int): map<Id, Attempt> {
    map[X := Succeeded(Just(x)), P := Pending, Q := Impossible(Broken()), N := Blocked()]
  }

  function Given(): map<Id, Value> { map[X := Just(2)] }

  /** n behind its three dependencies, for any value of x. */
  lemma BlockedOn(g: Graph, x: int)
    requires Here(g)
    ensures Nodes(g) <= Now(x).Keys
    ensures Active(g, Now(x), N) == DEPS
    ensures ActiveAttempts(g, Now(x), N) == Bound(x)
  {
    assert g.fixed[N] + [] == DEPS;
  }

  function Bound(x: int): seq<Attempt> {
    [Succeeded(Just(x)), Pending, Impossible(Broken())]
  }

  lemma BoundIsBlocked(x: int)
    ensures AnyPending(Bound(x)) && AnyImpossible(Bound(x)) && Evaluate(Ignored, N, Bound(x)) == Blocked()
  {
    var atts := Bound(x);
    assert atts[1].Pending? && atts[2].Impossible?;
    assert atts[1..] == [Pending, Impossible(Broken())] && atts[1..][1..] == [Impossible(Broken())];
    assert Causes(atts[1..][1..]) == [Broken()];
    assert Causes(atts[1..]) == [Broken()];
  }

  /** The dependencies come first, in their order. */
  lemma ClosureHere(deps: Deps)
    requires deps == map[N := DEPS]
    ensures ClosureOf(deps, [N]) == DEPS + [N]
  {
    var w := Walk({N}, []);
    var x := Leaf(deps, w, X, [P, Q]);
    var p := Leaf(deps, x, P, [Q]);
    var q := Leaf(deps, p, Q, []);
    assert DEPS == [X] + [P, Q] && [P, Q] == [P] + [Q] && [Q] == [Q] + [];
    assert VisitAll(deps, w, DEPS) == q;
    var root := Walk({}, []);
    assert root.(visited := {} + {N}) == w;
    assert Visit(deps, root, N) == q.(order := q.order + [N]);
    assert VisitAll(deps, root, [N]) == VisitAll(deps, Visit(deps, root, N), [N][1..]);
  }

  lemma Leaf(deps: Deps, w: Walk, n: Id, ds: seq<Id>) returns (next: Walk)
    requires n !in deps && n !in w.visited
    ensures next == Walk(w.visited + {n}, w.order + [n])
    ensures VisitAll(deps, w, [n] + ds) == VisitAll(deps, next, ds)
  {
    next := Visit(deps, w, n);
    assert ([n] + ds)[1..] == ds;
  }

  /** Only n is staged beside the override, and it is pending. */
  lemma StagedHere(g: Graph, st: Stage)
    requires Here(g) && st.staging == map[X := Succeeded(Just(2))]
    ensures Nodes(g) <= Now(1).Keys
    ensures StageAll(g, Now(1), st, DEPS + [N]).staging == map[X := Succeeded(Just(2)), N := Pending]
  {
    BlockedOn(g, 1);
    InOrder();
    InputStagesNothing(g, st, X, [P] + ([Q] + [N]));
    InputStagesNothing(g, st, P, [Q] + [N]);
    InputStagesNothing(g, st, Q, [N]);
    LastIsStaged(g, st);
  }

  lemma InOrder()
    ensures DEPS + [N] == [X] + ([P] + ([Q] + [N]))
  {
  }

  lemma LastIsStaged(g: Graph, st: Stage)
    requires Here(g) && st.staging == map[X := Succeeded(Just(2))] && Nodes(g) <= Now(1).Keys
    ensures StageAll(g, Now(1), st, [N]).staging == map[X := Succeeded(Just(2)), N := Pending]
  {
    NodeIsStaged(g, st);
    assert StageAll(g, Now(1), st, [N]) == StageAll(g, Now(1), StageNode(g, Now(1), st, N), [N][1..]);
  }

  lemma InputStagesNothing(g: Graph, st: Stage, x: Id, rest: seq<Id>)
    requires Here(g) && x in g.inputs && Nodes(g) <= Now(1).Keys
    ensures StageAll(g, Now(1), st, [x] + rest) == StageAll(g, Now(1), st, rest)
  {
    assert ([x] + rest)[1..] == rest;
  }

  lemma NodeIsStaged(g: Graph, st: Stage)
    requires Here(g) && st.staging == map[X := Succeeded(Just(2))] && Nodes(g) <= Now(1).Keys
    ensures StageNode(g, Now(1), st, N).staging == map[X := Succeeded(Just(2)), N := Pending]
  {
    BlockedOn(g, 2);
    BoundIsBlocked(2);
    assert Shadow(Now(1), st.staging) == Now(2);
    assert X in DEPS;
  }

  lemma RecomputedHere(g: Graph)
    requires Here(g) && Nodes(g) <= Now(1).Keys
    ensures Recomputed(g, Ignored, Now(1), Given(), N) == Blocked()
  {
    assert forall d | d in g.fixed[N] :: Edge(g, N, d);
    RecomputedInputs(g, g.rank[N]);
    assert g.fixed[N] + [] == DEPS;
    BoundIsBlocked(2);
  }

  lemma RecomputedInputs(g: Graph, r: int)
    requires Here(g) && Nodes(g) <= Now(1).Keys
    requires forall d | d in DEPS :: g.rank[d] < r
    ensures AllRecomputed(g, Ignored, Now(1), Given(), DEPS, r) == Bound(2)
  {
    assert DEPS[1..] == [P, Q] && [P, Q][1..] == [Q] && [Q][1..] == [];
    assert AllRecomputed(g, Ignored, Now(1), Given(), [Q], r) == [Impossible(Broken())];
    assert AllRecomputed(g, Ignored, Now(1), Given(), [P, Q], r) == [Pending, Impossible(Broken())];
  }

  /**
   * The hypotheses of WhatIfIsRecomputation do not give the same kind of failure:
   * from consistent attempts, one override leaves n pending in the evaluation and
   * impossible in the recomputation of the closure.
   */
  lemma KindsDiffer()
    ensures Valid(G) && Nodes(G) <= Now(1).Keys && Pure(G, Ignored)
    ensures forall m | Derived(G, m) :: RealConsistent(G, Ignored, Now(1), m)
    ensures Shadow(Now(1), Evaluated(G, Now(1), [N], Given()).staging)[N] == Pending
    ensures Recomputed(G, Ignored, Now(1), Given(), N) == Blocked()
  {
    GIsHere();
    KindsDifferThere(G);
  }

  lemma KindsDifferThere(g: Graph)
    requires Here(g)
    ensures Nodes(g) <= Now(1).Keys
    ensures forall m | Derived(g, m) :: RealConsistent(g, Ignored, Now(1), m)
    ensures Shadow(Now(1), Evaluated(g, Now(1), [N], Given()).staging)[N] == Pending
    ensures Recomputed(g, Ignored, Now(1), Given(), N) == Blocked()
  {
    BlockedOn(g, 1);
    BoundIsBlocked(1);
    assert GraphDeps(g) == map[N := DEPS] by { assert DEPS + [] == DEPS; }
    ClosureHere(GraphDeps(g));
    StagedHere(g, Stage(Overridden(Given()), []));
    RecomputedHere(g);
  }
}
