// One pop of a synchronous drain: what is left of the queue, and the invariant
// every synchronous run keeps.
module Pops {
  import opened Attempts
  import opened DagGraph
  import opened Engine
  import opened Frames
  import opened Actions
  import opened Refreshes

  /** What the end of a pop did to the queue, given the state u after the refresh. */
  ghost predicate Settled(g: Graph, s: State, u: State, t: State, ok: bool, n: Id, v: Verdict)
    requires WellFormed(g, s) && WellFormed(g, u) && Derived(g, n)
  {
    && t == u.(q := t.q)
    && if !u.book.attempt[n].Pending? then ok && t.q == ForgetRequeues(u.q, n)
       else if v != Deferred then ok && t == u
       else if ok then
         Count(s.q.requeues, n) < |g.registered| && t.q == Requeued(s.q, Active(g, s.book.attempt, n), n)
       else t.q == ForgetRequeues(s.q, n) && Count(s.q.requeues, n) >= |g.registered|
  }

  lemma SameActive(g: Graph, s: State, u: State, n: Id)
    requires WellFormed(g, s) && WellFormed(g, u) && Derived(g, n)
    requires u.book == s.book || OnlyAt(g, s.book, u.book, n)
    ensures Active(g, u.book.attempt, n) == Active(g, s.book.attempt, n)
  {
    assert forall d | d in Active(g, s.book.attempt, n) :: Edge(g, n, d);
    SameView(g, s.book.attempt, u.book.attempt, n);
  }

  lemma NotDeferredNotQueued(g: Graph, s: State, u: State, n: Id)
    requires WellFormed(g, s) && Derived(g, n) && Refreshed(g, s, u, n)
    requires u.book.attempt[n].Pending? && Judge(g, s, n) != Deferred
    ensures !AnyQueued(u.q, Active(g, u.book.attempt, n))
  {
    SameActive(g, s, u, n);
    forall d | d in Active(g, s.book.attempt, n) ensures d !in u.q.scheduled {
      assert Edge(g, n, d) && !Edge(g, d, n);
    }
  }

  lemma SettleSettles(g: Graph, s: State, u: State, n: Id, v: Verdict)
    requires WellFormed(g, s) && WellFormed(g, u) && Derived(g, n)
    requires Active(g, u.book.attempt, n) == Active(g, s.book.attempt, n)
    requires v == Deferred ==> AnyQueued(s.q, Active(g, s.book.attempt, n)) && u.q == s.q
    requires v != Deferred && u.book.attempt[n].Pending? ==> !AnyQueued(u.q, Active(g, u.book.attempt, n))
    ensures Settled(g, s, u, Settle(g, u, n).0, Settle(g, u, n).1, n, v)
  {
  }

  /** The invariant of synchronous runs. */
  ghost predicate Steady(g: Graph, s: State) {
    && WellFormed(g, s) && SoundBook(g, s.book, s.clock)
    && InStep(s.q)
    && (forall m {:trigger QuietNode(g, s.book, m)} | m in Nodes(g) :: QuietNode(g, s.book, m))
    && (forall m | m in s.q.scheduled :: Derived(g, m) && IsStale(g, s.book, m))
  }

  lemma ActedKeepsSteady(g: Graph, s: State, t: State, n: Id)
    requires Steady(g, s) && n in Nodes(g) && n !in s.q.scheduled && Acted(g, s, t, n)
    ensures Steady(g, t)
  {
    forall m | m in Nodes(g) ensures QuietNode(g, t.book, m) {
      assert QuietNode(g, s.book, m);
      assert QuietNode(g, s.book, n);
    }
    forall m | m in t.q.scheduled ensures Derived(g, m) && IsStale(g, t.book, m) {
      if m in s.q.scheduled && t.book != s.book {
        StaleSurvives(g, s.book, t.book, n, s.clock, m);
      }
    }
  }

  lemma TakeKeepsSteady(g: Graph, s: State, e: Event)
    requires Steady(g, s) && e in s.q.events
    ensures Steady(g, Take(s, e)) && e.node !in Take(s, e).q.scheduled
    ensures Derived(g, e.node) && IsStale(g, s.book, e.node) && s.q.scheduled[e.node] == e.at
    ensures forall x | x in Take(s, e).q.events :: x in s.q.events
  {
    TakeKeepsStep(s, e);
  }

  lemma TakeKeepsStep(s: State, e: Event)
    requires InStep(s.q) && e in s.q.events
    ensures InStep(Take(s, e).q) && e.node !in Take(s, e).q.scheduled
    ensures e.node in s.q.scheduled && s.q.scheduled[e.node] == e.at
    ensures forall m | m in Take(s, e).q.scheduled :: m in s.q.scheduled
    ensures forall m | m in s.q.scheduled && m != e.node :: m in Take(s, e).q.scheduled
    ensures forall x | x in Take(s, e).q.events :: x in s.q.events
  {
    var q := Take(s, e).q;
    assert s.q.events[e] == 1;
    forall x: Event
      ensures q.events[x] == (if x.node in q.scheduled && q.scheduled[x.node] == x.at then 1 else 0) {
      assert s.q.events[x] == (if x.node in s.q.scheduled && s.q.scheduled[x.node] == x.at then 1 else 0);
    }
  }

  lemma SettledKeepsSteady(g: Graph, s: State, u: State, t: State, ok: bool, n: Id, v: Verdict)
    requires Steady(g, u) && WellFormed(g, s) && Derived(g, n) && n !in s.q.scheduled
    requires Settled(g, s, u, t, ok, n, v) && (v == Deferred ==> u.q == s.q)
    ensures Steady(g, t)
  {
    assert forall m | m in Nodes(g) :: QuietNode(g, u.book, m);
    if t.q.scheduled != u.q.scheduled {
      RequeueKeepsStep(s.q, Active(g, s.book.attempt, n), n);
    }
  }

  lemma RequeueKeepsStep(q: Queue, ds: seq<Id>, n: Id)
    requires InStep(q) && n !in q.scheduled
    ensures InStep(Requeued(q, ds, n))
  {
  }

  /** One pop keeps the invariant; u is the state between the refresh and the bookkeeping. */
  lemma PopActs(g: Graph, s: State, e: Event) returns (u: State)
    requires Steady(g, s) && e in s.q.events
    ensures Derived(g, e.node) && IsStale(g, s.book, e.node) && e.node in s.q.scheduled
    ensures Steady(g, Take(s, e)) && e.node !in Take(s, e).q.scheduled
    ensures Refreshed(g, Take(s, e), u, e.node) && Steady(g, u)
    ensures Settled(g, Take(s, e), u, Pop(g, s, e).0, Pop(g, s, e).1, e.node, Judge(g, Take(s, e), e.node))
    ensures Steady(g, Pop(g, s, e).0)
  {
    var n, s1 := e.node, Take(s, e);
    TakeKeepsSteady(g, s, e);
    u := Refresh(g, s1, n);
    RefreshActs(g, s1, n);
    RefreshedSettles(g, s1, u, n);
    ActedKeepsSteady(g, s1, u, n);
    SettledKeepsSteady(g, s1, u, Pop(g, s, e).0, Pop(g, s, e).1, n, Judge(g, s1, n));
  }

  lemma RefreshedSettles(g: Graph, s: State, u: State, n: Id)
    requires WellFormed(g, s) && WellFormed(g, u) && Derived(g, n) && Refreshed(g, s, u, n)
    ensures Settled(g, s, u, Settle(g, u, n).0, Settle(g, u, n).1, n, Judge(g, s, n))
    ensures Judge(g, s, n) == Deferred ==> u.q == s.q
  {
    SameActive(g, s, u, n);
    if u.book.attempt[n].Pending? && Judge(g, s, n) != Deferred {
      NotDeferredNotQueued(g, s, u, n);
    }
    SettleSettles(g, s, u, n, Judge(g, s, n));
  }

  lemma WriteKeepsSteady(g: Graph, s: State, x: Id, a: Attempt)
    requires Steady(g, s) && x in g.inputs
    ensures Steady(g, Write(g, s, x, a))
  {
    WriteActs(g, s, x, a);
    ActedKeepsSteady(g, s, Write(g, s, x, a), x);
  }
}
