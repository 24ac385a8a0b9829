// The first fill: from all inputs set and all derived nodes pending and queued
// in any order, a drain computes every node exactly once, from final
// dependencies, and ends in the recomputation from scratch.
module FirstFill {
  import opened Attempts
  import opened DagGraph
  import opened Scratch
  import opened Engine
  import opened Frames
  import opened Actions
  import opened Refreshes
  import opened Pops
  import opened FillBound

  /** compute succeeds whatever it is bound to. */
  ghost predicate Succeeding(f: (Id, seq<Attempt>) -> Attempt) {
    forall n, atts :: f(n, atts).Succeeded?
  }

  /** n is final: it holds its own computation, is up to date, and depends on final nodes only. */
  ghost predicate Final(g: Graph, f: (Id, seq<Attempt>) -> Attempt, s: State, n: Id)
    requires WellFormed(g, s) && Derived(g, n)
  {
    && s.book.attempt[n].Succeeded?
    && s.book.attempt[n] == Evaluate(f, n, ActiveAttempts(g, s.book.attempt, n))
    && !IsStale(g, s.book, n)
    && forall d | d in Active(g, s.book.attempt, n) :: d !in s.q.scheduled
  }

  /** The logged calls since `base` are of final nodes, on the attempts their dependencies still hold. */
  ghost predicate CallsAreFinal(g: Graph, s: State, base: int)
    requires WellFormed(g, s) && 0 <= base
  {
    forall i | base <= i < |s.calls| ::
      && Derived(g, s.calls[i].node) && s.calls[i].node !in s.q.scheduled
      && s.calls[i].atts == ActiveAttempts(g, s.book.attempt, s.calls[i].node)
  }

  ghost predicate CallsDistinct(calls: seq<Call>, base: int)
    requires 0 <= base
  {
    forall i, j | base <= i < j < |calls| :: calls[i].node != calls[j].node
  }

  ghost predicate Called(calls: seq<Call>, base: int, n: Id)
    requires 0 <= base
  {
    exists i :: base <= i < |calls| && calls[i].node == n
  }

  /** One call since `base` for each node outside the queue, and no other. */
  ghost predicate CallsOfFinalNodes(g: Graph, s: State, base: int)
    requires WellFormed(g, s)
  {
    && 0 <= base <= |s.calls|
    && CallsAreFinal(g, s, base)
    && CallsDistinct(s.calls, base)
    && forall n {:trigger Called(s.calls, base, n)} | Derived(g, n) && n !in s.q.scheduled :: Called(s.calls, base, n)
  }

  /** Everything outside the queue is final. */
  ghost predicate RestIsFinal(g: Graph, f: (Id, seq<Attempt>) -> Attempt, s: State)
    requires WellFormed(g, s)
  {
    forall n {:trigger Final(g, f, s, n)} | Derived(g, n) && n !in s.q.scheduled :: Final(g, f, s, n)
  }

  /** The inputs hold values and the queued nodes nothing. */
  ghost predicate QueuedArePending(g: Graph, b: Book, q: Queue)
    requires WellFormedBook(g, b)
  {
    && (forall x {:trigger b.attempt[x]} | x in g.inputs :: b.attempt[x].Succeeded?)
    && (forall n {:trigger b.attempt[n]} | Derived(g, n) && n in q.scheduled :: b.attempt[n].Pending?)
  }

  /** The invariant of a first fill. */
  ghost predicate Filling(g: Graph, f: (Id, seq<Attempt>) -> Attempt, s: State, base: int) {
    Steady(g, s) && QueuedArePending(g, s.book, s.q) && RestIsFinal(g, f, s) && CallsOfFinalNodes(g, s, base)
  }

  /** While filling, a popped node is either behind a queued dependency or ready to compute. */
  lemma FillVerdict(g: Graph, f: (Id, seq<Attempt>) -> Attempt, s: State, base: int, e: Event)
    requires Filling(g, f, s, base) && e in s.q.events && Derived(g, e.node)
    ensures Judge(g, Take(s, e), e.node) == Deferred || Judge(g, Take(s, e), e.node) == Ready
  {
    var n, s1 := e.node, Take(s, e);
    TakeKeepsSteady(g, s, e);
    var ds := Active(g, s.book.attempt, n);
    forall i | 0 <= i < |ds|
      ensures !AttemptsOf(s.book.attempt, ds)[i].Impossible?
      ensures AttemptsOf(s.book.attempt, ds)[i].Pending? ==> ds[i] in s1.q.scheduled
    {
      assert ds[i] in ds && Edge(g, n, ds[i]);
      if Derived(g, ds[i]) && ds[i] !in s.q.scheduled {
        assert Final(g, f, s, ds[i]);
      }
    }
  }

  lemma FilledView(g: Graph, s: State, u: State, n: Id, r: Attempt)
    requires WellFormed(g, s) && WellFormed(g, u) && Derived(g, n)
    requires Stamps(g, s.book, u.book, n, s.clock) && Computed(g, s, u, n, r)
    ensures Active(g, u.book.attempt, n) == Active(g, s.book.attempt, n)
    ensures ActiveAttempts(g, u.book.attempt, n) == ActiveAttempts(g, s.book.attempt, n)
    ensures Bind(g, u.book, n).stamps == u.book.meta[n].depStamps
  {
    SameActive(g, s, u, n);
    var ds := Active(g, s.book.attempt, n);
    assert forall d | d in ds :: Edge(g, n, d);
    SameView(g, s.book.attempt, u.book.attempt, n);
    assert forall d | d in ds :: u.book.meta[d] == s.book.meta[d];
  }

  ghost predicate OneMoreCall(calls: seq<Call>, later: seq<Call>, n: Id, atts: seq<Attempt>) {
    exists c: Call :: later == calls + [c] && c.node == n && c.atts == atts
  }

  /** u is s after n completed its first compute: n is final, and only stale dependents were queued. */
  ghost predicate Filled(g: Graph, f: (Id, seq<Attempt>) -> Attempt, s: State, u: State, n: Id)
    requires WellFormed(g, s) && WellFormed(g, u) && Derived(g, n)
  {
    && OnlyAt(g, s.book, u.book, n)
    && OneMoreCall(s.calls, u.calls, n, ActiveAttempts(g, u.book.attempt, n))
    && Final(g, f, u, n) && n !in u.q.scheduled
    && (forall m | m in s.q.scheduled :: m in u.q.scheduled)
    && forall m | m in u.q.scheduled && m !in s.q.scheduled ::
         Derived(g, m) && m in g.dependents[n] && IsStale(g, u.book, m)
  }

  /** A node that completed its first compute is final. */
  lemma FilledIsFinal(g: Graph, f: (Id, seq<Attempt>) -> Attempt, s: State, u: State, n: Id)
    requires Pure(g, f) && Succeeding(f)
    requires Steady(g, s) && Steady(g, u) && Derived(g, n) && n !in s.q.scheduled
    requires s.book.attempt[n].Pending?
    requires Refreshed(g, s, u, n) && Judge(g, s, n) == Ready
    requires !AnyQueued(s.q, Active(g, s.book.attempt, n))
    ensures Filled(g, f, s, u, n)
  {
    var r :| Computed(g, s, u, n, r);
    FilledView(g, s, u, n, r);
    assert QuietNode(g, u.book, n);
    EqualStampsAreFresh(g, u.book, u.clock, n);
    DependenciesStayOff(g, s, u, n);
  }

  /** A completion queues only dependents, so no dependency of its own. */
  lemma DependenciesStayOff(g: Graph, s: State, u: State, n: Id)
    requires WellFormed(g, s) && WellFormed(g, u) && Derived(g, n)
    requires Active(g, u.book.attempt, n) == Active(g, s.book.attempt, n)
    requires !AnyQueued(s.q, Active(g, s.book.attempt, n))
    requires forall m | m in u.q.scheduled :: m in s.q.scheduled || m == n || m in g.dependents[n]
    ensures forall d | d in Active(g, u.book.attempt, n) :: d !in u.q.scheduled
  {
    forall d | d in Active(g, u.book.attempt, n) ensures d !in u.q.scheduled {
      assert Edge(g, n, d) && !Edge(g, d, n);
    }
  }

  /** A final node stays final while another node is filled. */
  lemma OthersStayFinal(g: Graph, f: (Id, seq<Attempt>) -> Attempt, s: State, u: State, n: Id, m: Id)
    requires WellFormed(g, s) && WellFormed(g, u) && OnlyAt(g, s.book, u.book, n)
    requires Derived(g, m) && m != n && Final(g, f, s, m) && n in s.q.scheduled
    requires forall d | d in u.q.scheduled && d !in s.q.scheduled :: d in g.dependents[n] && IsStale(g, u.book, d)
    ensures ActiveAttempts(g, u.book.attempt, m) == ActiveAttempts(g, s.book.attempt, m)
    ensures Active(g, u.book.attempt, m) == Active(g, s.book.attempt, m)
    ensures !IsStale(g, u.book, m)
  {
    assert forall d | d in Active(g, s.book.attempt, m) :: Edge(g, m, d);
    SameView(g, s.book.attempt, u.book.attempt, m);
    forall d | d in Active(g, u.book.attempt, m) ensures !Moved(g, u.book, m, d) {
      assert !Moved(g, s.book, m, d);
    }
  }

  /** Filling one node queues nothing: everything outside the queue is final and stays up to date. */
  lemma NothingRequeued(g: Graph, f: (Id, seq<Attempt>) -> Attempt, s: State, u: State, n: Id)
    requires WellFormed(g, s) && WellFormed(g, u) && RestIsFinal(g, f, s) && Derived(g, n) && n in s.q.scheduled
    requires OnlyAt(g, s.book, u.book, n) && n !in u.q.scheduled
    requires forall m | m in s.q.scheduled && m != n :: m in u.q.scheduled
    requires forall m | m in u.q.scheduled && m !in s.q.scheduled ::
               Derived(g, m) && m in g.dependents[n] && IsStale(g, u.book, m)
    ensures u.q.scheduled.Keys == s.q.scheduled.Keys - {n}
    ensures forall m | Derived(g, m) && m !in s.q.scheduled :: Final(g, f, u, m)
  {
    forall m | Derived(g, m) && m !in s.q.scheduled ensures m !in u.q.scheduled {
      assert Final(g, f, s, m);
      OthersStayFinal(g, f, s, u, n, m);
    }
    forall m | Derived(g, m) && m !in s.q.scheduled ensures Final(g, f, u, m) {
      assert Final(g, f, s, m);
      OthersStayFinal(g, f, s, u, n, m);
    }
  }

  lemma OldCallsStayFinal(g: Graph, f: (Id, seq<Attempt>) -> Attempt, s: State, base: int, n: Id, u: State, i: int)
    requires WellFormed(g, s) && WellFormed(g, u) && n in s.q.scheduled && RestIsFinal(g, f, s)
    requires 0 <= base && CallsAreFinal(g, s, base) && base <= i < |s.calls|
    requires forall m | m in Nodes(g) && m != n :: u.book.attempt[m] == s.book.attempt[m]
    ensures s.calls[i].atts == ActiveAttempts(g, u.book.attempt, s.calls[i].node)
  {
    var m := s.calls[i].node;
    assert Final(g, f, s, m);
    assert forall d | d in Active(g, s.book.attempt, m) :: Edge(g, m, d);
    SameView(g, s.book.attempt, u.book.attempt, m);
  }

  /** The log after filling n: the older calls still describe final nodes, and n's joins them. */
  lemma FilledCalls(g: Graph, f: (Id, seq<Attempt>) -> Attempt, s: State, base: int, n: Id, u: State)
    requires WellFormed(g, s) && WellFormed(g, u) && Derived(g, n) && n in s.q.scheduled
    requires CallsOfFinalNodes(g, s, base) && RestIsFinal(g, f, s)
    requires OneMoreCall(s.calls, u.calls, n, ActiveAttempts(g, u.book.attempt, n))
    requires u.q.scheduled.Keys == s.q.scheduled.Keys - {n}
    requires forall m | m in Nodes(g) && m != n :: u.book.attempt[m] == s.book.attempt[m]
    ensures CallsOfFinalNodes(g, u, base)
  {
    var c: Call :| u.calls == s.calls + [c] && c.node == n && c.atts == ActiveAttempts(g, u.book.attempt, n);
    forall i | base <= i < |s.calls| ensures s.calls[i].atts == ActiveAttempts(g, u.book.attempt, s.calls[i].node) {
      OldCallsStayFinal(g, f, s, base, n, u, i);
    }
    forall m | Derived(g, m) && m !in u.q.scheduled ensures Called(u.calls, base, m) {
      if m != n {
        assert Called(s.calls, base, m);
      }
      CalledLater(s.calls, base, m, c);
    }
  }

  lemma CalledLater(calls: seq<Call>, base: int, m: Id, c: Call)
    requires 0 <= base <= |calls| && (Called(calls, base, m) || c.node == m)
    ensures Called(calls + [c], base, m)
  {
    if Called(calls, base, m) {
      var i :| base <= i < |calls| && calls[i].node == m;
      assert (calls + [c])[i].node == m;
    } else {
      assert (calls + [c])[|calls|].node == m;
    }
  }

  lemma ReadyKeepsFilling(g: Graph, f: (Id, seq<Attempt>) -> Attempt, s: State, base: int, e: Event, u: State)
    requires Pure(g, f) && Succeeding(f)
    requires Filling(g, f, s, base) && Derived(g, e.node) && e.node in s.q.scheduled
    requires Steady(g, u) && Filled(g, f, Take(s, e), u, e.node)
    ensures Filling(g, f, u, base)
  {
    var n := e.node;
    NothingRequeued(g, f, s, u, n);
    FilledCalls(g, f, s, base, n, u);
  }

  /** A pop that computed takes its node off the queue and forgets its waits. */
  lemma ReadyPop(g: Graph, f: (Id, seq<Attempt>) -> Attempt, s: State, e: Event) returns (u: State)
    requires Pure(g, f) && Succeeding(f) && Steady(g, s) && e in s.q.events && Derived(g, e.node)
    requires s.book.attempt[e.node].Pending? && Judge(g, Take(s, e), e.node) == Ready
    ensures Steady(g, u) && Filled(g, f, Take(s, e), u, e.node) && e.node in s.q.scheduled
    ensures Acted(g, Take(s, e), u, e.node)
    ensures Pop(g, s, e) == (u.(q := ForgetRequeues(u.q, e.node)), true)
  {
    u := PopActs(g, s, e);
    FilledIsFinal(g, f, Take(s, e), u, e.node);
  }

  lemma ReadyPopKeepsFilling(g: Graph, f: (Id, seq<Attempt>) -> Attempt, s: State, base: int, e: Event)
    requires Pure(g, f) && Succeeding(f) && Filling(g, f, s, base) && e in s.q.events && Derived(g, e.node)
    requires Judge(g, Take(s, e), e.node) == Ready
    ensures Filling(g, f, Pop(g, s, e).0, base) && Pop(g, s, e).1
  {
    PoppedIsPending(g, f, s, base, e);
    var u := ReadyPop(g, f, s, e);
    ReadyKeepsFilling(g, f, s, base, e, u);
    ForgottenIsSteady(g, u, e.node);
    SameQueueKeepsFilling(g, f, u, u.(q := ForgetRequeues(u.q, e.node)), base);
  }

  lemma ForgottenIsSteady(g: Graph, u: State, n: Id)
    requires Steady(g, u)
    ensures Steady(g, u.(q := ForgetRequeues(u.q, n)))
  {
    assert forall m | m in Nodes(g) :: QuietNode(g, u.book, m);
  }

  /** A pop of a pending node behind a queued dependency moves its bookkeeping and its event only. */
  lemma DeferredPop(g: Graph, s: State, e: Event) returns (t: State)
    requires Steady(g, s) && e in s.q.events && Derived(g, e.node) && s.book.attempt[e.node].Pending?
    requires Judge(g, Take(s, e), e.node) == Deferred && Pop(g, s, e).1
    ensures t == Pop(g, s, e).0 && Steady(g, t) && e.node in s.q.scheduled
    ensures OnlyAt(g, s.book, t.book, e.node) && t.book.attempt == s.book.attempt
    ensures t.calls == s.calls && t.q.scheduled.Keys == s.q.scheduled.Keys
  {
    var u := PopActs(g, s, e);
    t := Pop(g, s, e).0;
    DeferredMoves(g, s, e, u, t);
  }

  lemma DeferredMoves(g: Graph, s: State, e: Event, u: State, t: State)
    requires WellFormed(g, s) && WellFormed(g, u) && Derived(g, e.node) && e.node in s.q.scheduled
    requires s.book.attempt[e.node].Pending?
    requires Judge(g, Take(s, e), e.node) == Deferred && Refreshed(g, Take(s, e), u, e.node)
    requires Settled(g, Take(s, e), u, t, true, e.node, Deferred)
    ensures OnlyAt(g, s.book, t.book, e.node) && t.book.attempt == s.book.attempt
    ensures t.calls == s.calls && t.q.scheduled.Keys == s.q.scheduled.Keys
  {
  }

  lemma DeferredPopKeepsFilling(g: Graph, f: (Id, seq<Attempt>) -> Attempt, s: State, base: int, e: Event)
    requires Filling(g, f, s, base) && e in s.q.events && Derived(g, e.node) && s.book.attempt[e.node].Pending?
    requires Judge(g, Take(s, e), e.node) == Deferred && Pop(g, s, e).1
    ensures Filling(g, f, Pop(g, s, e).0, base)
  {
    var t := DeferredPop(g, s, e);
    DeferredKeepsFilling(g, f, s, base, e.node, t);
  }

  /** A queued node holds nothing yet. */
  lemma PoppedIsPending(g: Graph, f: (Id, seq<Attempt>) -> Attempt, s: State, base: int, e: Event)
    requires Filling(g, f, s, base) && e in s.q.events && Derived(g, e.node)
    ensures s.book.attempt[e.node].Pending?
  {
    assert s.q.events[e] == 1;
  }

  /** Each pop of a first fill keeps the invariant, unless it raises. */
  lemma PopKeepsFilling(g: Graph, f: (Id, seq<Attempt>) -> Attempt, s: State, base: int, e: Event)
    requires Pure(g, f) && Succeeding(f) && Filling(g, f, s, base) && Next(g, s.q, e) && Pop(g, s, e).1
    ensures Filling(g, f, Pop(g, s, e).0, base)
  {
    FillVerdict(g, f, s, base, e);
    if Judge(g, Take(s, e), e.node) == Ready {
      ReadyPopKeepsFilling(g, f, s, base, e);
    } else {
      PoppedIsPending(g, f, s, base, e);
      DeferredPopKeepsFilling(g, f, s, base, e);
    }
  }

  lemma SameQueueKeepsFilling(g: Graph, f: (Id, seq<Attempt>) -> Attempt, u: State, t: State, base: int)
    requires Filling(g, f, u, base) && Steady(g, t)
    requires t.book == u.book && t.q.scheduled == u.q.scheduled && t.calls == u.calls
    ensures Filling(g, f, t, base)
  {
    forall m | Derived(g, m) && m !in t.q.scheduled ensures Final(g, f, t, m) {
      assert Final(g, f, u, m);
    }
  }

  lemma DeferredKeepsFilling(g: Graph, f: (Id, seq<Attempt>) -> Attempt, s: State, base: int, n: Id, t: State)
    requires Filling(g, f, s, base) && Derived(g, n) && n in s.q.scheduled && Steady(g, t)
    requires OnlyAt(g, s.book, t.book, n) && t.book.attempt == s.book.attempt
    requires t.calls == s.calls && t.q.scheduled.Keys == s.q.scheduled.Keys
    ensures Filling(g, f, t, base)
  {
    forall m | Derived(g, m) && m !in t.q.scheduled ensures Final(g, f, t, m) {
      assert Final(g, f, s, m);
      forall d | d in Active(g, t.book.attempt, m) ensures !Moved(g, t.book, m, d) {
        assert !Moved(g, s.book, m, d) && Edge(g, m, d);
      }
    }
  }

  /** Filling n takes it off the queue and moves no other event. */
  lemma FilledQueue(g: Graph, f: (Id, seq<Attempt>) -> Attempt, s: State, base: int, e: Event, u: State)
    requires Filling(g, f, s, base) && Derived(g, e.node) && e.node in s.q.scheduled
    requires Steady(g, u) && Filled(g, f, Take(s, e), u, e.node) && Keeps(Take(s, e).q, u.q)
    ensures forall m | m in u.q.scheduled :: m != e.node && m in s.q.scheduled && u.q.scheduled[m] == s.q.scheduled[m]
  {
    NothingRequeued(g, f, s, u, e.node);
  }

  /** Where a first fill starts: inputs set, every derived node pending and queued, in any order. */
  ghost predicate Unfilled(g: Graph, s: State) {
    && Steady(g, s) && QueuedArePending(g, s.book, s.q)
    && s.q.scheduled.Keys == g.fixed.Keys && s.q.requeues == map[]
  }

  ghost predicate OnlyDrains(acts: seq<Action>) {
    forall i | 0 <= i < |acts| :: acts[i].Drain?
  }

  lemma RunHead(g: Graph, s: State, acts: seq<Action>, t: State) returns (u: State)
    requires WellFormed(g, s) && Run(g, s, acts, t) && acts != [] && OnlyDrains(acts)
    ensures var e := acts[0].event; Next(g, s.q, e) && u == Pop(g, s, e).0
    ensures WellFormed(g, u) && Run(g, u, acts[1..], t) && OnlyDrains(acts[1..])
    ensures Pop(g, s, acts[0].event).1 && OkRun(g, u, acts[1..], t) ==> OkRun(g, s, acts, t)
  {
    assert acts[0].Drain?;
    u := Pop(g, s, acts[0].event).0;
  }

  // ------------------------------------------------- how often a node waits

  function MomentOf(g: Graph, s: State): Moment
    requires WellFormed(g, s)
  {
    Moment(s.q.scheduled, s.q.requeues, map n | n in g.fixed :: Active(g, s.book.attempt, n))
  }

  lemma MomentIsShaped(g: Graph, s: State)
    requires Steady(g, s)
    ensures Shaped(g, MomentOf(g, s))
  {
  }

  /** A node keeps its active dependencies while its fixed ones keep their attempts. */
  lemma ViewIsFrozen(g: Graph, s: State, t: State, n: Id, x: Id)
    requires WellFormed(g, s) && WellFormed(g, t) && Derived(g, x) && n !in g.fixed[x]
    requires forall d | d in Nodes(g) && d != n :: t.book.attempt[d] == s.book.attempt[d]
    ensures Active(g, t.book.attempt, x) == Active(g, s.book.attempt, x)
  {
    assert forall d | d in g.fixed[x] :: Edge(g, x, d);
    SameAttempts(s.book.attempt, t.book.attempt, g.fixed[x]);
  }

  lemma EarliestIsFirst(g: Graph, s: State, e: Event)
    requires Steady(g, s) && Next(g, s.q, e) && e.node in s.q.scheduled
    ensures forall x | x in s.q.scheduled :: s.q.scheduled[e.node] <= s.q.scheduled[x]
  {
    assert s.q.events[e] == 1;
    forall x | x in s.q.scheduled ensures s.q.scheduled[e.node] <= s.q.scheduled[x] {
      assert s.q.events[Event(s.q.scheduled[x], x)] == 1;
    }
  }

  /** Nothing but n's attempt, event and count moves. */
  ghost predicate OnlyMoves(g: Graph, s: State, t: State, n: Id)
    requires WellFormed(g, s) && WellFormed(g, t)
  {
    && (forall d | d in Nodes(g) && d != n :: t.book.attempt[d] == s.book.attempt[d])
    && (forall x | x != n && x in s.q.scheduled :: x in t.q.scheduled && t.q.scheduled[x] == s.q.scheduled[x])
    && (forall x | x != n :: Count(t.q.requeues, x) == Count(s.q.requeues, x))
    && (forall x | x in t.q.scheduled :: x in s.q.scheduled)
  }

  /** Such a pop is one step of the fill's moments. */
  lemma PopIsBeside(g: Graph, s: State, e: Event, t: State)
    requires Steady(g, s) && Steady(g, t) && Next(g, s.q, e) && e.node in s.q.scheduled
    requires OnlyMoves(g, s, t, e.node)
    ensures Beside(g, MomentOf(g, s), e.node, MomentOf(g, t))
  {
    var m, n := MomentOf(g, s), e.node;
    MomentIsShaped(g, s);
    MomentIsShaped(g, t);
    EarliestIsFirst(g, s, e);
    forall x | x in g.fixed && !SomeQueued(m, g.fixed[x]) ensures MomentOf(g, t).active[x] == m.active[x] {
      assert n in m.scheduled;
      ViewIsFrozen(g, s, t, n, x);
    }
  }

  /** The queue without n answers the same question about n's dependencies. */
  lemma WaitingIsQueued(g: Graph, s: State, e: Event)
    requires WellFormed(g, s) && Derived(g, e.node)
    ensures Waiting(MomentOf(g, s), e.node) <==> AnyQueued(Take(s, e).q, Active(g, s.book.attempt, e.node))
  {
    assert forall d | d in Active(g, s.book.attempt, e.node) :: Edge(g, e.node, d) && d != e.node;
  }

  lemma ReadyPopIsPopped(g: Graph, f: (Id, seq<Attempt>) -> Attempt, s: State, base: int, e: Event) returns (t: State)
    requires Pure(g, f) && Succeeding(f) && Filling(g, f, s, base) && Next(g, s.q, e)
    requires Judge(g, Take(s, e), e.node) == Ready
    ensures Pop(g, s, e) == (t, true) && WellFormed(g, t) && Popped(g, MomentOf(g, s), e.node, MomentOf(g, t))
  {
    t := ReadyPopMoves(g, f, s, base, e);
    PopIsBeside(g, s, e, t);
    WaitingIsQueued(g, s, e);
  }

  lemma ReadyPopMoves(g: Graph, f: (Id, seq<Attempt>) -> Attempt, s: State, base: int, e: Event) returns (t: State)
    requires Pure(g, f) && Succeeding(f) && Filling(g, f, s, base) && Next(g, s.q, e)
    requires Judge(g, Take(s, e), e.node) == Ready
    ensures Pop(g, s, e) == (t, true) && Steady(g, t) && e.node in s.q.scheduled
    ensures OnlyMoves(g, s, t, e.node) && e.node !in t.q.scheduled
    ensures !AnyQueued(Take(s, e).q, Active(g, s.book.attempt, e.node))
  {
    PoppedIsPending(g, f, s, base, e);
    var u := ReadyPop(g, f, s, e);
    FilledQueue(g, f, s, base, e, u);
    t := u.(q := ForgetRequeues(u.q, e.node));
    ForgottenIsSteady(g, u, e.node);
    FilledMoves(g, f, s, e, u);
  }

  lemma FilledMoves(g: Graph, f: (Id, seq<Attempt>) -> Attempt, s: State, e: Event, u: State)
    requires WellFormed(g, s) && WellFormed(g, u) && Derived(g, e.node) && Filled(g, f, Take(s, e), u, e.node)
    requires forall m | m in u.q.scheduled :: m != e.node && m in s.q.scheduled && u.q.scheduled[m] == s.q.scheduled[m]
    requires u.q.requeues == s.q.requeues
    ensures OnlyMoves(g, s, u.(q := ForgetRequeues(u.q, e.node)), e.node)
  {
  }

  lemma RequeuedIsPopped(g: Graph, s: State, e: Event, t: State)
    requires Steady(g, s) && Next(g, s.q, e) && e.node in s.q.scheduled && Steady(g, t)
    requires t.book.attempt == s.book.attempt && AnyQueued(Take(s, e).q, Active(g, s.book.attempt, e.node))
    requires t.q == Requeued(Take(s, e).q, Active(g, s.book.attempt, e.node), e.node)
    ensures Popped(g, MomentOf(g, s), e.node, MomentOf(g, t))
  {
    RequeuedMoves(g, s, e, t);
    PopIsBeside(g, s, e, t);
    WaitingIsQueued(g, s, e);
    RequeuedIsPutBack(g, s, e, t);
  }

  lemma RequeuedMoves(g: Graph, s: State, e: Event, t: State)
    requires WellFormed(g, s) && WellFormed(g, t) && Derived(g, e.node) && e.node in s.q.scheduled
    requires t.book.attempt == s.book.attempt
    requires t.q == Requeued(Take(s, e).q, Active(g, s.book.attempt, e.node), e.node)
    ensures OnlyMoves(g, s, t, e.node)
  {
  }

  lemma RequeuedIsPutBack(g: Graph, s: State, e: Event, t: State)
    requires WellFormed(g, s) && WellFormed(g, t) && Derived(g, e.node)
    requires t.q == Requeued(Take(s, e).q, Active(g, s.book.attempt, e.node), e.node)
    ensures PutBack(MomentOf(g, s), e.node, MomentOf(g, t))
  {
    assert forall d | d in Active(g, s.book.attempt, e.node) :: Edge(g, e.node, d) && d != e.node;
  }

  /** The deferred pop of a pending node, with what became of its event. */
  lemma DeferredPopIsPopped(g: Graph, s: State, e: Event) returns (t: State)
    requires Steady(g, s) && Next(g, s.q, e) && s.book.attempt[e.node].Pending?
    requires Judge(g, Take(s, e), e.node) == Deferred && Count(s.q.requeues, e.node) < |g.registered|
    ensures Pop(g, s, e) == (t, true) && WellFormed(g, t) && Popped(g, MomentOf(g, s), e.node, MomentOf(g, t))
  {
    var u := PopActs(g, s, e);
    t := Pop(g, s, e).0;
    DeferredMoves(g, s, e, u, t);
    RequeuedIsPopped(g, s, e, t);
  }

  /** A fill under way: the moments since its start, ending now. */
  ghost predicate UnderWay(g: Graph, s: State, ms: seq<Moment>, ns: seq<Id>)
    requires WellFormed(g, s)
  {
    && History(g, ms, ns) && ms[|ns|] == MomentOf(g, s)
    && (forall n :: Count(ms[0].counts, n) == 0)
  }

  lemma UnderWayFurther(g: Graph, s: State, ms: seq<Moment>, ns: seq<Id>, n: Id, t: State)
    requires WellFormed(g, s) && UnderWay(g, s, ms, ns) && WellFormed(g, t)
    requires Popped(g, MomentOf(g, s), n, MomentOf(g, t))
    ensures UnderWay(g, t, ms + [MomentOf(g, t)], ns + [n])
  {
    HistoryGrows(g, ms, ns, n, MomentOf(g, t));
  }

  lemma UnderWayBelow(g: Graph, s: State, ms: seq<Moment>, ns: seq<Id>, n: Id)
    requires WellFormed(g, s) && UnderWay(g, s, ms, ns) && n in s.q.scheduled
    ensures Count(s.q.requeues, n) < |g.registered|
  {
    assert ShapedAt(g, ms, 0) && ShapedAt(g, ms, |ns|);
    WaitersStayBelow(g, ms, ns, n);
    assert ms[0].scheduled.Keys <= (set x | x in g.registered);
    Fits(ms[0].scheduled.Keys, set x | x in g.registered);
    FewElements(g.registered);
  }

  lemma {:induction false} FewElements(ds: seq<Id>)
    ensures |set x | x in ds| <= |ds|
  {
    if ds != [] {
      assert (set x | x in ds) == {ds[0]} + (set x | x in ds[1..]);
      FewElements(ds[1..]);
    }
  }

  /** A pop of a fill under way does not raise and is one more of its moments. */
  lemma PopStaysUnderWay(g: Graph, f: (Id, seq<Attempt>) -> Attempt, s: State, base: int, e: Event,
                    ms: seq<Moment>, ns: seq<Id>) returns (t: State)
    requires Pure(g, f) && Succeeding(f) && Filling(g, f, s, base) && Next(g, s.q, e) && UnderWay(g, s, ms, ns)
    ensures Pop(g, s, e) == (t, true) && WellFormed(g, t)
    ensures UnderWay(g, t, ms + [MomentOf(g, t)], ns + [e.node])
  {
    FillVerdict(g, f, s, base, e);
    if Judge(g, Take(s, e), e.node) == Ready {
      t := ReadyPopIsPopped(g, f, s, base, e);
    } else {
      PoppedIsPending(g, f, s, base, e);
      TakeKeepsSteady(g, s, e);
      UnderWayBelow(g, s, ms, ns, e.node);
      t := DeferredPopIsPopped(g, s, e);
    }
    UnderWayFurther(g, s, ms, ns, e.node, t);
  }

  /** Whatever the pop order, the fill proceeds and no step raises. */
  lemma {:induction false} FillNeverRaises(g: Graph, f: (Id, seq<Attempt>) -> Attempt, s: State, base: int,
                                           acts: seq<Action>, t: State, ms: seq<Moment>, ns: seq<Id>)
    requires Pure(g, f) && Succeeding(f)
    requires Filling(g, f, s, base) && UnderWay(g, s, ms, ns) && Run(g, s, acts, t) && OnlyDrains(acts)
    ensures OkRun(g, s, acts, t) && Filling(g, f, t, base)
    ensures forall n | n in t.q.scheduled :: Count(t.q.requeues, n) < |g.registered|
    decreases |acts|
  {
    if acts != [] {
      var e := acts[0].event;
      var u := RunHead(g, s, acts, t);
      var _ := PopStaysUnderWay(g, f, s, base, e, ms, ns);
      PopKeepsFilling(g, f, s, base, e);
      FillNeverRaises(g, f, u, base, acts[1..], t, ms + [MomentOf(g, u)], ns + [e.node]);
    } else {
      forall n | n in t.q.scheduled ensures Count(t.q.requeues, n) < |g.registered| {
        UnderWayBelow(g, t, ms, ns, n);
      }
    }
  }

  // ------------------------------------------------------------ the theorem

  lemma {:induction false} FinalIsExact(g: Graph, f: (Id, seq<Attempt>) -> Attempt, t: State, n: Id)
    requires WellFormed(g, t) && RestIsFinal(g, f, t) && t.q.scheduled.Keys == {} && n in Nodes(g)
    ensures t.book.attempt[n] == FromScratch(g, f, t.book.attempt, n)
    decreases g.rank[n]
  {
    if Derived(g, n) {
      assert Final(g, f, t, n);
      forall d | d in Active(g, t.book.attempt, n) ensures t.book.attempt[d] == FromScratch(g, f, t.book.attempt, d) {
        assert Edge(g, n, d);
        FinalIsExact(g, f, t, d);
      }
      ExactFromDependencies(g, f, t.book.attempt, n);
    }
  }

  lemma UnfilledIsFilling(g: Graph, f: (Id, seq<Attempt>) -> Attempt, s: State)
    requires Unfilled(g, s)
    ensures Filling(g, f, s, |s.calls|) && UnderWay(g, s, [MomentOf(g, s)], [])
  {
    MomentIsShaped(g, s);
  }

  /**
   * First fill: in whatever order the nodes were queued, no pop raises the
   * requeue error, and a node that is still queued was put back fewer times
   * than there are registered nodes.
   */
  lemma FirstFillNeverRaises(g: Graph, f: (Id, seq<Attempt>) -> Attempt, s: State, acts: seq<Action>, t: State, n: Id)
    requires Pure(g, f) && Succeeding(f)
    requires Unfilled(g, s) && Run(g, s, acts, t) && OnlyDrains(acts)
    ensures OkRun(g, s, acts, t)
    ensures n in t.q.scheduled ==> Count(t.q.requeues, n) < |g.registered|
  {
    UnfilledIsFilling(g, f, s);
    FillNeverRaises(g, f, s, |s.calls|, acts, t, [MomentOf(g, s)], []);
  }

  /**
   * When the queue is empty every node equals the recomputation from scratch,
   * and compute was called exactly once per derived node, on the final
   * attempts of its dependencies.
   */
  lemma FirstFillIsExact(g: Graph, f: (Id, seq<Attempt>) -> Attempt, s: State, acts: seq<Action>, t: State, n: Id)
    requires Pure(g, f) && Succeeding(f)
    requires Unfilled(g, s) && Run(g, s, acts, t) && OnlyDrains(acts) && Idle(t) && n in Nodes(g)
    ensures WellFormed(g, t) && t.book.attempt[n] == FromScratch(g, f, t.book.attempt, n)
    ensures CallsAreFinal(g, t, |s.calls|) && CallsDistinct(t.calls, |s.calls|)
    ensures Derived(g, n) ==> Called(t.calls, |s.calls|, n)
  {
    UnfilledIsFilling(g, f, s);
    FillNeverRaises(g, f, s, |s.calls|, acts, t, [MomentOf(g, s)], []);
    NothingScheduledWhenEmpty(t.q);
    FinalIsExact(g, f, t, n);
  }
}
