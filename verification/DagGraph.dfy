// The static graph: nodes, declared dependencies, the active-dependency rule,
// and what it means for an attempt to be a node's own computation.
module DagGraph {
  import opened Attempts

  /**
   * `fixed` are the dependencies that are active in every evaluation, in order.
   * `choose` picks further active dependencies out of `branches` by looking at
   * the attempts of the fixed ones: nothing for an ordinary node, the live
   * branch for an IfThenElseNode. `dependents[d]` lists the handlers on d's
   * signal in connection order. `world` is one call of compute: it sees the
   * node, the bound attempts and the moment of the call.
   */
  datatype Graph = Graph(
    inputs: set<Id>,
    registered: seq<Id>,
    fixed: map<Id, seq<Id>>,
    branches: map<Id, seq<Id>>,
    dependents: map<Id, seq<Id>>,
    rank: map<Id, int>,
    version: map<Id, int>,
    choose: (Id, seq<Attempt>) -> seq<Id>,
    world: (Id, seq<Attempt>, int) -> Outcome)

  ghost predicate Valid(g: Graph) {
    && g.inputs !! g.fixed.Keys
    && g.branches.Keys == g.fixed.Keys
    && g.version.Keys == g.fixed.Keys
    && g.rank.Keys == Nodes(g)
    && (forall n {:trigger g.rank[n]} | n in g.rank :: 0 <= g.rank[n])
    && g.dependents.Keys == Nodes(g)
    && (forall i, j | 0 <= i < j < |g.registered| :: g.registered[i] != g.registered[j])
    && (forall n {:trigger n in g.registered} :: n in g.registered <==> n in g.fixed)
    && (forall n, d {:trigger Edge(g, n, d)} | Edge(g, n, d) ::
          d in Nodes(g) && g.rank[d] < g.rank[n] && n in g.dependents[d])
    && (forall n, d {:trigger n in g.dependents[d]} | d in g.dependents && n in g.dependents[d] :: Edge(g, n, d))
    && (forall n, atts, d {:trigger d in g.choose(n, atts)} | n in g.fixed && d in g.choose(n, atts) ::
          d in g.branches[n])
  }

  /** n declares a dependency on d. */
  predicate Edge(g: Graph, n: Id, d: Id) {
    n in g.fixed && n in g.branches && (d in g.fixed[n] || d in g.branches[n])
  }

  function Nodes(g: Graph): set<Id> {
    g.inputs + g.fixed.Keys
  }

  predicate Derived(g: Graph, n: Id) {
    n in g.fixed
  }

  /** The attempts of `ds`, in order. */
  function AttemptsOf(a: map<Id, Attempt>, ds: seq<Id>): (r: seq<Attempt>)
    requires forall d | d in ds :: d in a
    ensures |r| == |ds| && forall i | 0 <= i < |ds| :: r[i] == a[ds[i]]
  {
    seq(|ds|, i requires 0 <= i < |ds| => a[ds[i]])
  }

  /** The dependencies of this evaluation (DerivedNode._get_active_deps). */
  function Active(g: Graph, a: map<Id, Attempt>, n: Id): (ds: seq<Id>)
    requires Valid(g) && Nodes(g) <= a.Keys && Derived(g, n)
    ensures forall d | d in ds :: Edge(g, n, d)
    ensures forall d | d in g.fixed[n] :: d in ds
  {
    assert forall d | d in g.fixed[n] :: Edge(g, n, d);
    g.fixed[n] + g.choose(n, AttemptsOf(a, g.fixed[n]))
  }

  /** The attempts this evaluation would bind. */
  function ActiveAttempts(g: Graph, a: map<Id, Attempt>, n: Id): seq<Attempt>
    requires Valid(g) && Nodes(g) <= a.Keys && Derived(g, n)
  {
    AttemptsOf(a, Active(g, a, n))
  }

  /**
   * `r` is a settled evaluation of n on the bound attempts: the failure chain
   * when a dependency failed, otherwise something compute answers on them (an
   * exhausted transient failure answers its own error). Nothing is a settled
   * evaluation while a dependency is pending.
   */
  ghost predicate Evaluates(g: Graph, n: Id, atts: seq<Attempt>, r: Attempt) {
    if AnyImpossible(atts) then r == Impossible(DepFailed(n, Causes(atts)))
    else !AnyPending(atts) && exists t :: Answers(g.world(n, atts, t), r)
  }

  predicate Answers(o: Outcome, r: Attempt) {
    match o
    case Returned(a) => r == a
    case Transient(e, _) => r == Impossible(e)
  }

  /** n's attempt is its own computation on its dependencies' current attempts. */
  ghost predicate Consistent(g: Graph, a: map<Id, Attempt>, n: Id)
    requires Valid(g) && Nodes(g) <= a.Keys && Derived(g, n)
  {
    Evaluates(g, n, ActiveAttempts(g, a, n), a[n])
  }

  /** Where there are no branches none is chosen. */
  lemma ChosenAmong(chosen: seq<Id>, branches: seq<Id>)
    requires forall d | d in chosen :: d in branches
    ensures branches == [] ==> chosen == []
  {
    if chosen != [] {
      assert chosen[0] in branches;
    }
  }

  /** The attempts n's evaluation looks at are the same in both maps. */
  lemma SameView(g: Graph, a: map<Id, Attempt>, b: map<Id, Attempt>, n: Id)
    requires Valid(g) && Nodes(g) <= a.Keys && Nodes(g) <= b.Keys && Derived(g, n)
    requires forall d | d in Active(g, a, n) :: a[d] == b[d]
    ensures Active(g, b, n) == Active(g, a, n)
    ensures ActiveAttempts(g, b, n) == ActiveAttempts(g, a, n)
  {
    assert forall d | d in g.fixed[n] :: Edge(g, n, d);
    SameAttempts(a, b, g.fixed[n]);
    SameAttempts(a, b, Active(g, a, n));
  }

  lemma SameAttempts(a: map<Id, Attempt>, b: map<Id, Attempt>, ds: seq<Id>)
    requires forall d | d in ds :: d in a && d in b && a[d] == b[d]
    ensures AttemptsOf(a, ds) == AttemptsOf(b, ds)
  {
    forall i | 0 <= i < |ds| ensures AttemptsOf(a, ds)[i] == AttemptsOf(b, ds)[i] {
      assert ds[i] in ds;
    }
  }
}
