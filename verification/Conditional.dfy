// The conditional node, and why it fits the graph's active-dependency rule.
module Conditional {
  import opened Attempts
  import opened DagGraph

  /** What an IfThenElseNode is built from; `holds` is its predicate over the condition sources. */
  datatype Choice = Choice(conditions: seq<Id>, holds: seq<Attempt> -> bool, thenBranch: Id, elseBranch: Option<Id>)

  /** IfThenElseNode._get_active_deps. */
  function LiveDeps(c: Choice, a: map<Id, Attempt>): seq<Id>
    requires forall d | d in c.conditions :: d in a
  {
    if c.holds(AttemptsOf(a, c.conditions)) then c.conditions + [c.thenBranch]
    else if c.elseBranch.Some? then c.conditions + [c.elseBranch.value]
    else c.conditions
  }

  /** IfThenElseNode.compute. */
  function Answer(c: Choice, args: seq<Attempt>): Attempt {
    if |args| > |c.conditions| then args[|args| - 1] else Succeeded(Nothing)
  }

  /** n is declared in g as the conditional node c. */
  ghost predicate IsConditional(g: Graph, n: Id, c: Choice)
    requires Valid(g) && Derived(g, n)
  {
    && g.fixed[n] == c.conditions
    && g.branches[n] == [c.thenBranch] + (if c.elseBranch.Some? then [c.elseBranch.value] else [])
    && (forall atts :: g.choose(n, atts) ==
          if c.holds(atts) then [c.thenBranch] else if c.elseBranch.Some? then [c.elseBranch.value] else [])
    && forall atts, t :: g.world(n, atts, t) == Returned(Answer(c, atts))
  }

  /** The graph's rule gives a conditional node exactly its own active dependencies. */
  lemma ConditionalActive(g: Graph, n: Id, c: Choice, a: map<Id, Attempt>)
    requires Valid(g) && Nodes(g) <= a.Keys && Derived(g, n) && IsConditional(g, n, c)
    ensures (forall d | d in c.conditions :: d in a) && Active(g, a, n) == LiveDeps(c, a)
  {
    assert forall d | d in c.conditions :: Edge(g, n, d);
  }

  /**
   * A consistent conditional node that succeeded holds exactly what its live
   * branch holds, and nothing when no branch is live; the other branch may
   * hold anything, failures included.
   */
  lemma ConditionalHoldsItsBranch(g: Graph, n: Id, c: Choice, a: map<Id, Attempt>)
    requires Valid(g) && Nodes(g) <= a.Keys && Derived(g, n) && IsConditional(g, n, c)
    requires Consistent(g, a, n) && a[n].Succeeded?
    ensures forall d | d in c.conditions :: d in a && a[d].Succeeded?
    ensures var conditions := AttemptsOf(a, c.conditions);
      if c.holds(conditions) then c.thenBranch in a && a[n] == a[c.thenBranch]
      else if c.elseBranch.Some? then c.elseBranch.value in a && a[n] == a[c.elseBranch.value]
      else a[n] == Succeeded(Nothing)
  {
    ConditionalActive(g, n, c, a);
    var ds := Active(g, a, n);
    var atts := AttemptsOf(a, ds);
    assert forall d | d in ds :: Edge(g, n, d);
    assert !AnyImpossible(atts) && !AnyPending(atts);
    forall d | d in c.conditions ensures d in a && a[d].Succeeded? {
      var i :| 0 <= i < |c.conditions| && c.conditions[i] == d;
      assert ds[i] == d && Edge(g, n, d);
      assert !atts[i].Impossible? && !atts[i].Pending?;
    }
    if |ds| > |c.conditions| {
      assert ds[|ds| - 1] in ds;
    }
  }

  /**
   * Once its conditions and its live branch have values, a consistent conditional
   * node has one: the live branch's, or nothing where no branch is live. It never
   * waits for, or fails with, the other branch.
   */
  lemma ConditionalAnswers(g: Graph, n: Id, c: Choice, a: map<Id, Attempt>)
    requires Valid(g) && Nodes(g) <= a.Keys && Derived(g, n) && IsConditional(g, n, c) && Consistent(g, a, n)
    requires forall d | d in c.conditions :: d in a && a[d].Succeeded?
    requires var conditions := AttemptsOf(a, c.conditions);
      if c.holds(conditions) then c.thenBranch in a && a[c.thenBranch].Succeeded?
      else c.elseBranch.Some? ==> c.elseBranch.value in a && a[c.elseBranch.value].Succeeded?
    ensures a[n].Succeeded?
    ensures a[n] == if c.holds(AttemptsOf(a, c.conditions)) then a[c.thenBranch]
                    else if c.elseBranch.Some? then a[c.elseBranch.value]
                    else Succeeded(Nothing)
  {
    ConditionalActive(g, n, c, a);
    var ds := Active(g, a, n);
    forall d | d in ds ensures a[d].Succeeded? {
      assert d in LiveDeps(c, a);
    }
    assert forall i | 0 <= i < |ds| :: ds[i] in ds && AttemptsOf(a, ds)[i] == a[ds[i]];
  }
}
