// Where the engine's guarantees end: each lemma exhibits what the code does, or
// says exactly when it does it.
module Limits {
  import opened Attempts
  import opened DagGraph
  import opened Engine
  import opened Pops
  import opened Termination

  // ------------------------------------------- Retry-After never runs out

  /** n alone is queued, its dependencies succeeded, and the provider always answers with a Retry-After. */
  ghost predicate Hammered(g: Graph, s: State, n: Id) {
    && Steady(g, s) && Derived(g, n)
    && s.q.scheduled.Keys == {n}
    && Count(s.retries, n) < MAX_RETRIES
    && (forall d | d in Active(g, s.book.attempt, n) :: s.book.attempt[d].Succeeded?)
    && forall atts, t :: g.world(n, atts, t).Transient? && g.world(n, atts, t).retryAfter.Some?
  }

  lemma HammeredIsReady(g: Graph, s: State, n: Id)
    requires Hammered(g, s, n)
    ensures var e := Event(s.q.scheduled[n], n);
      && Next(g, s.q, e) && Judge(g, Take(s, e), n) == Ready && Take(s, e).q.scheduled.Keys == {}
  {
    AloneIsNext(g, s, n);
    SucceededBlockNothing(g, s.book, n);
    assert forall d | d in Active(g, s.book.attempt, n) :: Edge(g, n, d) && d != n;
  }

  /** The only scheduled node is popped next. */
  lemma AloneIsNext(g: Graph, s: State, n: Id)
    requires Steady(g, s) && Derived(g, n) && s.q.scheduled.Keys == {n}
    ensures Next(g, s.q, Event(s.q.scheduled[n], n))
  {
    assert s.q.events[Event(s.q.scheduled[n], n)] == 1;
    forall x | x in s.q.events ensures s.q.scheduled[n] <= x.at {
      assert s.q.events[x] == 1;
    }
  }

  lemma SucceededBlockNothing(g: Graph, b: Book, n: Id)
    requires WellFormedBook(g, b) && Derived(g, n)
    requires forall d | d in Active(g, b.attempt, n) :: b.attempt[d].Succeeded?
    ensures !AnyImpossible(Bind(g, b, n).atts) && !AnyPending(Bind(g, b, n).atts)
  {
    var ds := Active(g, b.attempt, n);
    forall i | 0 <= i < |ds| ensures AttemptsOf(b.attempt, ds)[i].Succeeded? {
      assert ds[i] in ds;
    }
  }

  /** A retry with a Retry-After leaves the counter where it is. */
  lemma RetryAfterKeepsCount(g: Graph, s: State, f: Flight)
    requires WellFormed(g, s) && Derived(g, f.node) && Count(s.retries, f.node) < MAX_RETRIES
    requires g.world(f.node, f.atts, s.clock).Transient? && g.world(f.node, f.atts, s.clock).retryAfter.Some?
    ensures var (s1, r) := RunCompute(g, s, f);
      && r == Pending && Count(s1.retries, f.node) == Count(s.retries, f.node)
      && f.node in s1.q.scheduled
      && forall m | m in s1.q.scheduled :: m in s.q.scheduled || m == f.node
  {
  }

  /** Storing a pending result moves neither the queue nor the counters, and announces nothing. */
  lemma PendingFinishIsQuiet(g: Graph, s: State, f: Flight)
    requires WellFormed(g, s) && Derived(g, f.node)
    ensures var t := Finish(g, s, f, Pending);
      && t.q == s.q && t.retries == s.retries && t.book.attempt == s.book.attempt[f.node := Pending]
  {
  }

  lemma HammeredRefresh(g: Graph, s: State, n: Id)
    requires WellFormed(g, s) && Derived(g, n) && Judge(g, s, n) == Ready && Count(s.retries, n) < MAX_RETRIES
    requires s.q.scheduled.Keys == {}
    requires forall atts, t :: g.world(n, atts, t).Transient? && g.world(n, atts, t).retryAfter.Some?
    ensures var u := Refresh(g, s, n);
      && u.book.attempt == s.book.attempt[n := Pending]
      && Count(u.retries, n) == Count(s.retries, n)
      && u.q.scheduled.Keys == {n}
  {
    var f := Bind(g, s.book, n);
    RetryAfterKeepsCount(g, s, f);
    PendingFinishIsQuiet(g, RunCompute(g, s, f).0, f);
  }

  lemma HammeredSettles(g: Graph, s: State, u: State, n: Id)
    requires WellFormed(g, s) && WellFormed(g, u) && Derived(g, n)
    requires u.book.attempt == s.book.attempt[n := Pending] && u.q.scheduled.Keys == {n}
    requires forall d | d in Active(g, s.book.attempt, n) :: s.book.attempt[d].Succeeded?
    ensures Settle(g, u, n) == (u, true)
    ensures forall d | d in Active(g, u.book.attempt, n) :: u.book.attempt[d].Succeeded?
  {
    var ds := Active(g, s.book.attempt, n);
    assert forall d | d in ds :: Edge(g, n, d) && d != n;
    SameView(g, s.book.attempt, u.book.attempt, n);
  }

  lemma HammeredPop(g: Graph, s: State, n: Id) returns (t: State)
    requires Hammered(g, s, n)
    ensures var e := Event(s.q.scheduled[n], n); Next(g, s.q, e) && Pop(g, s, e) == (t, true)
    ensures WellFormed(g, t) && t.q.scheduled.Keys == {n} && Count(t.retries, n) == Count(s.retries, n)
    ensures forall d | d in Active(g, t.book.attempt, n) :: t.book.attempt[d].Succeeded?
  {
    var e := Event(s.q.scheduled[n], n);
    HammeredIsReady(g, s, n);
    HammeredRefresh(g, Take(s, e), n);
    t := Refresh(g, Take(s, e), n);
    HammeredSettles(g, Take(s, e), t, n);
  }

  /** Each pop of a hammered node queues it again with the same counter. */
  lemma HammeredStays(g: Graph, s: State, n: Id)
    requires Hammered(g, s, n)
    ensures var e := Event(s.q.scheduled[n], n); Next(g, s.q, e) && Pop(g, s, e).1 && Hammered(g, Pop(g, s, e).0, n)
  {
    var t := HammeredPop(g, s, n);
    PopStaysSteady(g, s, Event(s.q.scheduled[n], n));
    assert Hammered(g, t, n);
  }

  lemma PopStaysSteady(g: Graph, s: State, e: Event)
    requires Steady(g, s) && e in s.q.events && Derived(g, e.node)
    ensures Steady(g, Pop(g, s, e).0)
  {
    var u := PopActs(g, s, e);
  }

  /** Drains are finite only without Retry-After: a hammered node is popped for ever. */
  least lemma HammeredNeverHalts(g: Graph, s: State, n: Id)
    requires Halts(g, s) && Hammered(g, s, n)
    ensures false
  {
    HammeredStays(g, s, n);
    HammeredNeverHalts(g, Pop(g, s, Event(s.q.scheduled[n], n)).0, n);
  }

  lemma RetryAfterNeverHalts(g: Graph, s: State, n: Id)
    requires Hammered(g, s, n)
    ensures !Halts(g, s)
  {
    if Halts(g, s) {
      HammeredNeverHalts(g, s, n);
    }
  }

  // ---------------------------------------------------- the requeue error

  /**
   * A pop raises the requeue error if and only if its node is pending behind a
   * queued dependency and was put back as often as there are registered nodes.
   */
  lemma RaisesIff(g: Graph, s: State, e: Event)
    requires Steady(g, s) && e in s.q.events && Derived(g, e.node)
    ensures Pop(g, s, e).1 <==>
            !(&& s.book.attempt[e.node].Pending? && Judge(g, Take(s, e), e.node) == Deferred
              && Count(s.q.requeues, e.node) >= |g.registered|)
  {
    var u := PopActs(g, s, e);
  }
}
