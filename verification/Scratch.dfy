// Recomputing the whole graph from its inputs, as a recursion on the
// dependencies: the reference every drain is compared with.
module Scratch {
  import opened Attempts
  import opened DagGraph

  /** compute is a function of the bound attempts, and never transient. */
  ghost predicate Pure(g: Graph, f: (Id, seq<Attempt>) -> Attempt) {
    forall n, atts, t :: g.world(n, atts, t) == Returned(f(n, atts))
  }

  /** compute never answers pending. */
  ghost predicate Settling(f: (Id, seq<Attempt>) -> Attempt) {
    forall n, atts :: !f(n, atts).Pending?
  }

  function Evaluate(f: (Id, seq<Attempt>) -> Attempt, n: Id, atts: seq<Attempt>): Attempt {
    if AnyImpossible(atts) then Impossible(DepFailed(n, Causes(atts)))
    else if AnyPending(atts) then Pending
    else f(n, atts)
  }

  function FromScratch(g: Graph, f: (Id, seq<Attempt>) -> Attempt, inputs: map<Id, Attempt>, n: Id): Attempt
    requires Valid(g) && g.inputs <= inputs.Keys && n in Nodes(g)
    decreases g.rank[n], 1, 0
  {
    if n in g.inputs then inputs[n]
    else
      assert forall d | d in g.fixed[n] :: Edge(g, n, d);
      var conditions := AllFromScratch(g, f, inputs, g.fixed[n], g.rank[n]);
      var active := g.fixed[n] + g.choose(n, conditions);
      assert forall d | d in active :: Edge(g, n, d);
      Evaluate(f, n, AllFromScratch(g, f, inputs, active, g.rank[n]))
  }

  function AllFromScratch(g: Graph, f: (Id, seq<Attempt>) -> Attempt, inputs: map<Id, Attempt>,
                          ds: seq<Id>, r: int): (atts: seq<Attempt>)
    requires Valid(g) && g.inputs <= inputs.Keys
    requires forall d | d in ds :: d in Nodes(g) && g.rank[d] < r
    ensures |atts| == |ds|
    decreases r, 0, |ds|
  {
    if ds == [] then []
    else [FromScratch(g, f, inputs, ds[0])] + AllFromScratch(g, f, inputs, ds[1..], r)
  }

  /** The attempt map `a` agrees with the recursion on the nodes of `ds`. */
  lemma {:induction false} AttemptsFromScratch(g: Graph, f: (Id, seq<Attempt>) -> Attempt, a: map<Id, Attempt>,
                                               ds: seq<Id>, r: int)
    requires Valid(g) && Nodes(g) <= a.Keys
    requires forall d | d in ds :: d in Nodes(g) && g.rank[d] < r && a[d] == FromScratch(g, f, a, d)
    ensures AttemptsOf(a, ds) == AllFromScratch(g, f, a, ds, r)
    decreases |ds|
  {
    if ds != [] {
      assert forall d | d in ds[1..] :: d in ds;
      AttemptsFromScratch(g, f, a, ds[1..], r);
      assert AttemptsOf(a, ds) == [a[ds[0]]] + AttemptsOf(a, ds[1..]);
    }
  }

  /** Every dependency exact and n's own attempt its evaluation: n is exact. */
  lemma ExactFromDependencies(g: Graph, f: (Id, seq<Attempt>) -> Attempt, a: map<Id, Attempt>, n: Id)
    requires Valid(g) && Nodes(g) <= a.Keys && Derived(g, n)
    requires forall d | d in Active(g, a, n) :: a[d] == FromScratch(g, f, a, d)
    requires a[n] == Evaluate(f, n, ActiveAttempts(g, a, n))
    ensures a[n] == FromScratch(g, f, a, n)
  {
    assert forall d | d in Active(g, a, n) :: Edge(g, n, d);
    assert forall d | d in g.fixed[n] :: Edge(g, n, d);
    AttemptsFromScratch(g, f, a, g.fixed[n], g.rank[n]);
    AttemptsFromScratch(g, f, a, Active(g, a, n), g.rank[n]);
  }

  lemma ConsistentEvaluates(g: Graph, f: (Id, seq<Attempt>) -> Attempt, a: map<Id, Attempt>, n: Id)
    requires Valid(g) && Nodes(g) <= a.Keys && Derived(g, n) && Pure(g, f) && Consistent(g, a, n)
    ensures a[n] == Evaluate(f, n, ActiveAttempts(g, a, n))
  {
  }

  /** A graph whose every node is consistent equals its recomputation from the inputs. */
  lemma {:induction false} ConsistentIsExact(g: Graph, f: (Id, seq<Attempt>) -> Attempt, a: map<Id, Attempt>, n: Id)
    requires Valid(g) && Nodes(g) <= a.Keys && Pure(g, f) && n in Nodes(g)
    requires forall m | Derived(g, m) :: Consistent(g, a, m)
    ensures a[n] == FromScratch(g, f, a, n)
    decreases g.rank[n]
  {
    if Derived(g, n) {
      forall d | d in Active(g, a, n) ensures a[d] == FromScratch(g, f, a, d) {
        assert Edge(g, n, d);
        ConsistentIsExact(g, f, a, d);
      }
      ConsistentEvaluates(g, f, a, n);
      ExactFromDependencies(g, f, a, n);
    }
  }
}
