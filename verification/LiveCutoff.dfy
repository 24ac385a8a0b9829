// Early cutoff under interleaving: while refreshes are suspended and pushes come
// in between, the graph still ends in the recomputation from scratch.
module LiveCutoff {
  import opened Attempts
  import opened DagGraph
  import opened Scratch
  import opened Engine
  import opened Frames
  import opened Actions
  import opened Refreshes
  import opened Pops
  import opened Convergence
  import opened Interleaving

  /** A dependency n looks at has a value not yet stored. */
  ghost predicate AwaitsValue(g: Graph, a: map<Id, Attempt>, subs: seq<Submission>, n: Id)
    requires Valid(g) && Nodes(g) <= a.Keys && Derived(g, n)
  {
    exists d | d in Active(g, a, n) :: Outstanding(subs, d)
  }

  /** n is its own computation, or something that is still to come will make it so. */
  ghost predicate Heading(g: Graph, b: Book, q: Queue, subs: seq<Submission>, n: Id)
    requires WellFormedBook(g, b) && Derived(g, n)
  {
    || Consistent(g, b.attempt, n)
    || (n in q.scheduled && IsStale(g, b, n))
    || Waits(g, b.attempt, n)
    || AwaitsValue(g, b.attempt, subs, n)
  }

  /** The suspended node, if there is one. */
  predicate IsSuspended(l: Live, n: Id) {
    l.phase != Resting && l.phase.f.node == n
  }

  ghost predicate AllHeading(g: Graph, l: Live)
    requires WellFormed(g, l.s)
  {
    forall n {:trigger Heading(g, l.s.book, l.s.q, l.outstanding, n)} | Derived(g, n) && !IsSuspended(l, n) ::
      Heading(g, l.s.book, l.s.q, l.outstanding, n)
  }

  /** The invariant of interleavings that drop nothing. */
  ghost predicate Converges(g: Graph, l: Live) {
    && LiveInv(g, l) && Rooted(g, l) && AllHeading(g, l)
    && (l.phase.Answered? ==> !l.phase.result.Pending?)
  }

  /** A pop that re-stamps a settled node behind a queued dependency, or raises the requeue error. */
  ghost predicate Loses(g: Graph, l: Live, step: Step)
    requires WellFormed(g, l.s) && Possible(g, l, step)
  {
    step.Begin? &&
      var s1, n := Take(l.s, step.event), step.event.node;
      && Judge(g, s1, n) != Ready
      && ((Judge(g, s1, n) == Deferred && !l.s.book.attempt[n].Pending?) || !Settle(g, Refresh(g, s1, n), n).1)
  }

  ghost predicate CleanLiveRun(g: Graph, l: Live, steps: seq<Step>, r: Live)
    requires WellFormed(g, l.s)
    decreases |steps|
  {
    if steps == [] then l == r
    else
      && Possible(g, l, steps[0]) && !Loses(g, l, steps[0])
      && CleanLiveRun(g, Advance(g, l, steps[0]), steps[1..], r)
  }

  // --------------------------------------------------------- other nodes

  /** A write of n's row: announced, or of a pending result, or of an attempt that stays. */
  ghost predicate Fair(g: Graph, b: Book, subs: seq<Submission>, c: Book, p: Queue, left: seq<Submission>, n: Id)
    requires WellFormedBook(g, b) && WellFormedBook(g, c) && n in Nodes(g)
  {
    || Announced(g, c, p, n)
    || c.attempt[n].Pending?
    || (c.attempt == b.attempt && (Outstanding(subs, n) ==> Outstanding(left, n)))
  }

  /** A node that looks at n is scheduled and stale, waits for n, or sees no change. */
  lemma ReaderKeepsHeading(g: Graph, b: Book, q: Queue, subs: seq<Submission>, c: Book, p: Queue,
                           left: seq<Submission>, n: Id, clock: int, m: Id)
    requires SoundBook(g, b, clock) && Stamps(g, b, c, n, clock) && Derived(g, m) && m != n
    requires n in Active(g, c.attempt, m) && Heading(g, b, q, subs, m) && Fair(g, b, subs, c, p, left, n)
    requires forall x | x != n && Outstanding(subs, x) :: Outstanding(left, x)
    requires m in q.scheduled ==> m in p.scheduled
    ensures Heading(g, c, p, left, m)
  {
    assert Edge(g, m, n);
    StampedDependencyIsStale(g, b, c, n, clock, m);
  }

  lemma StrangerKeepsHeading(g: Graph, b: Book, q: Queue, subs: seq<Submission>, c: Book, p: Queue,
                             left: seq<Submission>, n: Id, clock: int, m: Id)
    requires SoundBook(g, b, clock) && Stamps(g, b, c, n, clock) && Derived(g, m) && m != n
    requires n !in Active(g, c.attempt, m) && Heading(g, b, q, subs, m)
    requires forall x | x != n && Outstanding(subs, x) :: Outstanding(left, x)
    requires m in q.scheduled ==> m in p.scheduled
    ensures Heading(g, c, p, left, m)
  {
    SeesSameWithout(g, b, c, n, m);
    if m in q.scheduled && IsStale(g, b, m) {
      StaleSurvives(g, b, c, n, clock, m);
    }
  }

  lemma OthersKeepHeading(g: Graph, b: Book, q: Queue, subs: seq<Submission>, c: Book, p: Queue,
                          left: seq<Submission>, n: Id, clock: int, m: Id)
    requires SoundBook(g, b, clock) && (c == b || Stamps(g, b, c, n, clock)) && Derived(g, m) && m != n
    requires n in Nodes(g) && Heading(g, b, q, subs, m)
    requires c == b ==> forall x | Outstanding(subs, x) :: Outstanding(left, x)
    requires c != b ==> Fair(g, b, subs, c, p, left, n)
    requires forall x | x != n && Outstanding(subs, x) :: Outstanding(left, x)
    requires m in q.scheduled ==> m in p.scheduled
    ensures Heading(g, c, p, left, m)
  {
    if c != b {
      if n in Active(g, c.attempt, m) {
        ReaderKeepsHeading(g, b, q, subs, c, p, left, n, clock, m);
      } else {
        StrangerKeepsHeading(g, b, q, subs, c, p, left, n, clock, m);
      }
    }
  }

  /** From l to r, at most n's row was written, fairly, and no event of another node was lost. */
  ghost predicate Beside(g: Graph, l: Live, r: Live, n: Id)
    requires WellFormed(g, l.s)
  {
    && WellFormed(g, r.s) && n in Nodes(g)
    && (r.s.book == l.s.book || Stamps(g, l.s.book, r.s.book, n, l.s.clock))
    && (r.s.book != l.s.book ==> Fair(g, l.s.book, l.outstanding, r.s.book, r.s.q, r.outstanding, n))
    && (r.s.book == l.s.book ==> forall x | Outstanding(l.outstanding, x) :: Outstanding(r.outstanding, x))
    && (forall x | x != n && Outstanding(l.outstanding, x) :: Outstanding(r.outstanding, x))
    && (forall m | m != n && m in l.s.q.scheduled :: m in r.s.q.scheduled)
    && (forall m | m != n && IsSuspended(l, m) :: IsSuspended(r, m))
  }

  lemma AllKeepHeading(g: Graph, l: Live, r: Live, n: Id)
    requires WellFormed(g, l.s) && SoundBook(g, l.s.book, l.s.clock) && AllHeading(g, l) && Beside(g, l, r, n)
    requires Derived(g, n) && !IsSuspended(r, n) ==> Heading(g, r.s.book, r.s.q, r.outstanding, n)
    ensures AllHeading(g, r)
  {
    forall m | Derived(g, m) && !IsSuspended(r, m) ensures Heading(g, r.s.book, r.s.q, r.outstanding, m) {
      if m != n {
        assert Heading(g, l.s.book, l.s.q, l.outstanding, m);
        OthersKeepHeading(g, l.s.book, l.s.q, l.outstanding, r.s.book, r.s.q, r.outstanding, n, l.s.clock, m);
      }
    }
  }

  // ---------------------------------------------------- the steps, one by one

  lemma AssignKeepsHeading(g: Graph, b: Book, q: Queue, subs: seq<Submission>, x: Id, a: Attempt, m: Id)
    requires WellFormedBook(g, b) && x in g.inputs && Derived(g, m) && Heading(g, b, q, subs, m)
    ensures Heading(g, b.(attempt := b.attempt[x := a]), q, subs + [Submission(x, a)], m)
  {
    OutstandingGrows(subs, Submission(x, a), x);
    if x !in g.fixed[m] {
      AssignSeesSame(g, b, x, a, m);
      if x !in Active(g, b.attempt, m) {
        AssignElsewhere(g, b, q, subs, x, a, m);
      }
    }
  }

  lemma AssignElsewhere(g: Graph, b: Book, q: Queue, subs: seq<Submission>, x: Id, a: Attempt, m: Id)
    requires WellFormedBook(g, b) && x in g.inputs && Derived(g, m) && Heading(g, b, q, subs, m)
    requires x !in g.fixed[m] && x !in Active(g, b.attempt, m)
    ensures Heading(g, b.(attempt := b.attempt[x := a]), q, subs + [Submission(x, a)], m)
  {
    AssignSeesSame(g, b, x, a, m);
    if AwaitsValue(g, b.attempt, subs, m) {
      var d :| d in Active(g, b.attempt, m) && Outstanding(subs, d);
      OutstandingGrows(subs, Submission(x, a), d);
    }
  }

  lemma AssignConverges(g: Graph, l: Live, x: Id, a: Attempt)
    requires Converges(g, l) && x in g.inputs
    ensures AllHeading(g, Advance(g, l, Assign(x, a)))
  {
    var r := Advance(g, l, Assign(x, a));
    forall m | Derived(g, m) && !IsSuspended(r, m) ensures Heading(g, r.s.book, r.s.q, r.outstanding, m) {
      assert Heading(g, l.s.book, l.s.q, l.outstanding, m);
      AssignKeepsHeading(g, l.s.book, l.s.q, l.outstanding, x, a, m);
    }
  }

  lemma ApplyConverges(g: Graph, l: Live)
    requires Converges(g, l) && Possible(g, l, Apply)
    ensures AllHeading(g, Advance(g, l, Apply))
  {
    ApplyStores(g, l);
    StoredIsBeside(g, l, Advance(g, l, Apply), l.outstanding[0].input);
    AllKeepHeading(g, l, Advance(g, l, Apply), l.outstanding[0].input);
  }

  lemma StoredIsBeside(g: Graph, l: Live, r: Live, x: Id)
    requires WellFormed(g, l.s) && SoundBook(g, l.s.book, l.s.clock) && Stored(g, l, r, x)
    ensures Beside(g, l, r, x)
  {
    assert SoundNode(g, l.s.book, l.s.clock, x);
  }

  lemma SuspendConverges(g: Graph, l: Live, e: Event)
    requires Converges(g, l) && Possible(g, l, Begin(e)) && Judge(g, Take(l.s, e), e.node) == Ready
    ensures AllHeading(g, Advance(g, l, Begin(e)))
  {
    AllKeepHeading(g, l, Advance(g, l, Begin(e)), e.node);
  }

  /** What a refresh that does not suspend leaves of its own node. */
  lemma RefreshedIsHeading(g: Graph, l: Live, s: State, u: State, q: Queue, n: Id)
    requires WellFormed(g, s) && WellFormed(g, u) && Derived(g, n) && s.book == l.s.book
    requires Refreshed(g, s, u, n) && Judge(g, s, n) != Ready
    requires Heading(g, l.s.book, l.s.q, l.outstanding, n)
    requires Judge(g, s, n) == Deferred ==> u.book.attempt[n].Pending? && n in q.scheduled
    ensures Heading(g, u.book, q, l.outstanding, n)
  {
    match Judge(g, s, n)
    case UpToDate =>
    case Blocked => WaitsWhenPendingBound(g, s.book.attempt, n);
    case Deferred =>
    case DependencyFailed => ComputedIsConsistent(g, s, u, n);
  }

  /** The queue after a refresh and its bookkeeping, in a step that loses nothing. */
  lemma SettledQueue(g: Graph, s: State, u: State, n: Id)
    requires WellFormed(g, s) && WellFormed(g, u) && Derived(g, n) && Refreshed(g, s, u, n) && Settle(g, u, n).1
    requires Judge(g, s, n) == Deferred ==> s.book.attempt[n].Pending?
    ensures var t := Settle(g, u, n).0;
      && t.book == u.book && t.clock == u.clock
      && (forall m | m in u.q.scheduled :: m in t.q.scheduled)
      && (Judge(g, s, n) == Deferred ==> u.book.attempt[n].Pending? && n in t.q.scheduled)
  {
    RefreshedSettles(g, s, u, n);
  }

  lemma RefreshConverges(g: Graph, l: Live, e: Event)
    requires Converges(g, l) && Possible(g, l, Begin(e)) && !Loses(g, l, Begin(e))
    requires Judge(g, Take(l.s, e), e.node) != Ready
    ensures AllHeading(g, Advance(g, l, Begin(e)))
  {
    var s, u, r := RefreshedStep(g, l, e);
    RefreshedMoves(g, l, s, u, r, e.node);
    AllKeepHeading(g, l, r, e.node);
  }

  lemma RefreshedMoves(g: Graph, l: Live, s: State, u: State, r: Live, n: Id)
    requires WellFormed(g, l.s) && AllHeading(g, l) && l.phase == Resting
    requires WellFormed(g, s) && WellFormed(g, u) && WellFormed(g, r.s) && Derived(g, n)
    requires s.book == l.s.book && s.clock == l.s.clock && Refreshed(g, s, u, n) && Judge(g, s, n) != Ready
    requires forall m | m != n && m in l.s.q.scheduled :: m in s.q.scheduled
    requires r.s.book == u.book && r.outstanding == l.outstanding && r.phase == l.phase
    requires forall m | m in u.q.scheduled :: m in r.s.q.scheduled
    requires Judge(g, s, n) == Deferred ==> u.book.attempt[n].Pending? && n in r.s.q.scheduled
    ensures Beside(g, l, r, n) && Heading(g, r.s.book, r.s.q, r.outstanding, n)
  {
    assert Heading(g, l.s.book, l.s.q, l.outstanding, n);
    RefreshedIsHeading(g, l, s, u, r.s.q, n);
    RefreshedIsBeside(g, l, s, u, r, n);
  }

  /** The states before and after the refresh, and after its bookkeeping. */
  lemma RefreshedStep(g: Graph, l: Live, e: Event) returns (s: State, u: State, r: Live)
    requires Converges(g, l) && Possible(g, l, Begin(e)) && !Loses(g, l, Begin(e))
    requires Judge(g, Take(l.s, e), e.node) != Ready
    ensures r == Advance(g, l, Begin(e)) && WellFormed(g, r.s)
    ensures WellFormed(g, s) && s.book == l.s.book && s.clock == l.s.clock && Judge(g, s, e.node) != Ready
    ensures forall m | m != e.node && m in l.s.q.scheduled :: m in s.q.scheduled
    ensures WellFormed(g, u) && Refreshed(g, s, u, e.node)
    ensures r.s.book == u.book && r.outstanding == l.outstanding && r.phase == l.phase
    ensures forall m | m in u.q.scheduled :: m in r.s.q.scheduled
    ensures Judge(g, s, e.node) == Deferred ==> u.book.attempt[e.node].Pending? && e.node in r.s.q.scheduled
  {
    s, r := Taken(g, l, e);
    u := Refresh(g, s, e.node);
    RefreshActs(g, s, e.node);
    SettledQueue(g, s, u, e.node);
  }

  /** A step that loses nothing, taken apart. */
  lemma Taken(g: Graph, l: Live, e: Event) returns (s: State, r: Live)
    requires Converges(g, l) && Possible(g, l, Begin(e)) && !Loses(g, l, Begin(e))
    requires Judge(g, Take(l.s, e), e.node) != Ready
    ensures WellFormed(g, s) && s.book == l.s.book && s.clock == l.s.clock && SoundBook(g, s.book, s.clock)
    ensures Judge(g, s, e.node) != Ready && e.node !in s.q.scheduled
    ensures Judge(g, s, e.node) == Deferred ==> s.book.attempt[e.node].Pending?
    ensures forall m | m != e.node && m in l.s.q.scheduled :: m in s.q.scheduled
    ensures r == Advance(g, l, Begin(e)) && Settle(g, Refresh(g, s, e.node), e.node) == (r.s, true)
    ensures r.outstanding == l.outstanding && r.phase == l.phase
  {
    s, r := Take(l.s, e), Advance(g, l, Begin(e));
  }

  lemma RefreshedIsBeside(g: Graph, l: Live, s: State, u: State, r: Live, n: Id)
    requires WellFormed(g, l.s) && WellFormed(g, s) && WellFormed(g, u) && Derived(g, n) && l.phase == Resting
    requires s.book == l.s.book && s.clock == l.s.clock && Refreshed(g, s, u, n)
    requires forall m | m != n && m in l.s.q.scheduled :: m in s.q.scheduled
    requires WellFormed(g, r.s) && r.s.book == u.book && forall m | m in u.q.scheduled :: m in r.s.q.scheduled
    requires r.outstanding == l.outstanding && r.phase == l.phase
    ensures Beside(g, l, r, n)
  {
    AnnouncedIfMoved(g, s, u, n);
  }

  /** A pure compute answers at once, with a result. */
  lemma AnswerConverges(g: Graph, f: (Id, seq<Attempt>) -> Attempt, l: Live)
    requires Pure(g, f) && Settling(f) && Converges(g, l) && Possible(g, l, Answer)
    ensures var r := Advance(g, l, Answer);
      AllHeading(g, r) && r.phase.Answered? && !r.phase.result.Pending?
  {
    var r := Advance(g, l, Answer);
    assert r.s.book == l.s.book && r.s.q == l.s.q;
    forall m | Derived(g, m) && !IsSuspended(r, m) ensures Heading(g, r.s.book, r.s.q, r.outstanding, m) {
      assert Heading(g, l.s.book, l.s.q, l.outstanding, m);
    }
  }

  /** A dependency that n still looks at changed since the binding: n is scheduled and stale, or a value is to come. */
  lemma ChangedIsHeading(g: Graph, l: Live, u: State, i: int)
    requires Converges(g, l) && l.phase.Answered? && Finished(g, l.s, u, l.phase.f, l.phase.result)
    requires 0 <= i < |l.phase.f.active| && !Holds(l.s.book, l.phase.f, i)
    requires l.phase.f.active[i] in Active(g, u.book.attempt, l.phase.f.node)
    ensures Heading(g, u.book, u.q, l.outstanding, l.phase.f.node)
  {
    var f := l.phase.f;
    var d := f.active[i];
    assert d in f.active && d in f.stamps && Edge(g, f.node, d);
    if l.s.book.meta[d].persistedAt != f.stamps[d] {
      MovedIsSuspect(g, l.s, u, f, l.phase.result, d);
      if f.node !in l.s.q.scheduled {
        var c :| c in g.fixed[f.node] && Outstanding(l.outstanding, c);
        assert c in Active(g, u.book.attempt, f.node);
      }
    }
  }

  /** With every bound attempt still held the completed node is its own computation. */
  lemma HeldIsConsistent(g: Graph, l: Live, u: State)
    requires Converges(g, l) && l.phase.Answered? && Finished(g, l.s, u, l.phase.f, l.phase.result)
    requires forall i | 0 <= i < |l.phase.f.active| :: Holds(l.s.book, l.phase.f, i)
    ensures Consistent(g, u.book.attempt, l.phase.f.node)
  {
    HeldView(g, l.s.book, u.book, l.phase.f);
  }

  lemma EndedIsHeading(g: Graph, l: Live, u: State)
    requires Converges(g, l) && l.phase.Answered? && Finished(g, l.s, u, l.phase.f, l.phase.result)
    ensures Heading(g, u.book, u.q, l.outstanding, l.phase.f.node)
  {
    var f, fixed := l.phase.f, g.fixed[l.phase.f.node];
    if i :| 0 <= i < |fixed| && !Holds(l.s.book, f, i) {
      assert f.active[i] == fixed[i] && fixed[i] in fixed;
      ChangedIsHeading(g, l, u, i);
    } else {
      HeldView(g, l.s.book, u.book, f);
      if i :| 0 <= i < |f.active| && !Holds(l.s.book, f, i) {
        ChangedIsHeading(g, l, u, i);
      } else {
        HeldIsConsistent(g, l, u);
      }
    }
  }

  lemma EndConverges(g: Graph, l: Live)
    requires Converges(g, l) && Possible(g, l, End)
    ensures AllHeading(g, Advance(g, l, End))
  {
    var f, r := l.phase.f, Advance(g, l, End);
    var u := Finish(g, l.s, f, l.phase.result);
    FinishActs(g, l.s, f, l.phase.result);
    SettleCovers(g, u, f.node);
    EndedIsHeading(g, l, u);
    FinishedIsBeside(g, l, u, r);
    AllKeepHeading(g, l, r, f.node);
  }

  lemma FinishedIsBeside(g: Graph, l: Live, u: State, r: Live)
    requires Converges(g, l) && l.phase.Answered? && Finished(g, l.s, u, l.phase.f, l.phase.result)
    requires WellFormed(g, r.s) && r.s.book == u.book && r.outstanding == l.outstanding
    requires forall m | m in u.q.scheduled :: m in r.s.q.scheduled
    ensures Beside(g, l, r, l.phase.f.node)
  {
    var n, a := l.phase.f.node, l.s.book.attempt;
    assert a[n := a[n]] == a;
  }

  // ------------------------------------------------------------ the theorem

  lemma StepConverges(g: Graph, f: (Id, seq<Attempt>) -> Attempt, l: Live, step: Step)
    requires Pure(g, f) && Settling(f) && Converges(g, l) && Possible(g, l, step) && !Loses(g, l, step)
    ensures Converges(g, Advance(g, l, step))
  {
    AdvanceKeeps(g, l, step);
    AdvanceKeepsRooted(g, l, step);
    match step
    case Assign(x, a) => AssignConverges(g, l, x, a);
    case Apply => ApplyConverges(g, l);
    case Begin(e) =>
      if Judge(g, Take(l.s, e), e.node) == Ready {
        SuspendConverges(g, l, e);
      } else {
        RefreshConverges(g, l, e);
      }
    case Answer => AnswerConverges(g, f, l);
    case End => EndConverges(g, l);
  }

  lemma {:induction false} CleanLiveRunConverges(g: Graph, f: (Id, seq<Attempt>) -> Attempt, l: Live,
                                                 steps: seq<Step>, r: Live)
    requires Pure(g, f) && Settling(f) && Converges(g, l) && CleanLiveRun(g, l, steps, r)
    ensures Converges(g, r)
    decreases |steps|
  {
    if steps != [] {
      StepConverges(g, f, l, steps[0]);
      CleanLiveRunConverges(g, f, Advance(g, l, steps[0]), steps[1..], r);
    }
  }

  /**
   * Live cutoff, on every graph: over any interleaving of suspended refreshes
   * and pushes in which no pop drops a node or raises, when nothing is
   * suspended, queued or waiting to be stored and every input is set, each node
   * equals the recomputation from scratch.
   */
  lemma LiveCutoffIsExact(g: Graph, f: (Id, seq<Attempt>) -> Attempt, l: Live, steps: seq<Step>, r: Live, n: Id)
    requires Pure(g, f) && Settling(f) && Converges(g, l) && CleanLiveRun(g, l, steps, r)
    requires r.phase == Resting && r.outstanding == [] && Idle(r.s) && WellFormed(g, r.s) && n in Nodes(g)
    requires forall x | x in g.inputs :: !r.s.book.attempt[x].Pending?
    ensures r.s.book.attempt[n] == FromScratch(g, f, r.s.book.attempt, n)
  {
    CleanLiveRunConverges(g, f, l, steps, r);
    assert r.s.q.scheduled.Keys == {};
    forall m | Derived(g, m) ensures Converging(g, r.s.book, r.s.q, m) {
      assert Heading(g, r.s.book, r.s.q, r.outstanding, m);
    }
    ConvergedIsExact(g, f, r.s, n);
  }
}
