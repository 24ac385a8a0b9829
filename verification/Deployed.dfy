// A start with new code over the rows of an older version: the fingerprints of the
// changed nodes no longer match, and a drain that drops no node ends in exactly
// what the new code computes.
module Deployed {
  import opened Attempts
  import opened DagGraph
  import opened Scratch
  import opened Engine
  import opened Frames
  import opened Actions
  import opened Pops
  import opened Convergence
  import opened Restart
  import opened Start

  /** Clocks alone, whatever code wrote the row: no time lies in the future, and a result has one. */
  ghost predicate TimedNode(g: Graph, b: Book, clock: int, m: Id)
    requires WellFormedBook(g, b) && m in Nodes(g)
  {
    && b.meta[m].persistedAt <= clock
    && (Derived(g, m) ==>
          b.meta[m].computedAt <= clock && (!b.attempt[m].Pending? ==> 0 < b.meta[m].computedAt))
  }

  ghost predicate Timed(g: Graph, b: Book, clock: int) {
    && WellFormedBook(g, b) && 0 <= clock
    && forall m {:trigger TimedNode(g, b, clock, m)} | m in Nodes(g) :: TimedNode(g, b, clock, m)
  }

  lemma TimedAfter(g: Graph, b: Book, c: Book, n: Id, clock: int, later: int)
    requires Timed(g, b, clock) && OnlyAt(g, b, c, n) && clock <= later && TimedNode(g, c, later, n)
    ensures Timed(g, c, later)
  {
    forall m | m in Nodes(g) ensures TimedNode(g, c, later, m) {
      assert TimedNode(g, b, clock, m);
    }
  }

  lemma TimedLater(g: Graph, b: Book, clock: int, later: int)
    requires Timed(g, b, clock) && clock <= later
    ensures Timed(g, b, later)
  {
    forall m | m in Nodes(g) ensures TimedNode(g, b, later, m) {
      assert TimedNode(g, b, clock, m);
    }
  }

  /** A fresh row of n makes every other node that actively depends on it stale. */
  lemma FreshRowIsSeen(g: Graph, b: Book, c: Book, n: Id, clock: int, m: Id)
    requires Timed(g, b, clock) && Stamps(g, b, c, n, clock)
    requires Derived(g, m) && m != n && n in Active(g, c.attempt, m)
    ensures IsStale(g, c, m)
  {
    assert TimedNode(g, b, clock, m);
    if !c.attempt[m].Pending? {
      assert Moved(g, c, m, n);
    }
  }

  // ------------------------------------------------------------- the invariant

  /** n converges, and a result of other code is queued or waits for a pending dependency. */
  ghost predicate Catching(g: Graph, b: Book, q: Queue, n: Id)
    requires WellFormedBook(g, b) && Derived(g, n)
  {
    && Converging(g, b, q, n)
    && (CodeIsStale(g, b, n) ==> n in q.scheduled || Waits(g, b.attempt, n))
  }

  /** Only stale nodes are queued, and the entries match the events. */
  ghost predicate Queueing(g: Graph, s: State) {
    && WellFormed(g, s) && Timed(g, s.book, s.clock) && InStep(s.q)
    && forall m | m in s.q.scheduled :: Derived(g, m) && IsStale(g, s.book, m)
  }

  ghost predicate CatchingUp(g: Graph, s: State) {
    && Queueing(g, s)
    && forall n {:trigger Catching(g, s.book, s.q, n)} | Derived(g, n) :: Catching(g, s.book, s.q, n)
  }

  /** n's clocks and attempt are as they were. */
  ghost predicate Unmoved(g: Graph, b: Book, c: Book, n: Id)
    requires WellFormedBook(g, b) && WellFormedBook(g, c) && n in Nodes(g)
  {
    && c.attempt[n] == b.attempt[n]
    && c.meta[n].persistedAt == b.meta[n].persistedAt && c.meta[n].computedAt == b.meta[n].computedAt
  }

  /** From s to t only n was written; a new attempt of it was announced. */
  ghost predicate Touched(g: Graph, s: State, t: State, n: Id)
    requires WellFormed(g, s)
  {
    && WellFormed(g, t) && s.clock <= t.clock && n in Nodes(g)
    && OnlyAt(g, s.book, t.book, n) && Timed(g, t.book, t.clock)
    && (Unmoved(g, s.book, t.book, n) || Stamps(g, s.book, t.book, n, s.clock))
    && (t.book.attempt[n] != s.book.attempt[n] ==> Announced(g, t.book, t.q, n))
    && (InStep(s.q) ==> InStep(t.q))
    && (forall m | m in s.q.scheduled :: m in t.q.scheduled)
    && Admits(g, t.book, s.q, t.q, n)
  }

  lemma StaysStale(g: Graph, s: State, t: State, n: Id, m: Id)
    requires WellFormed(g, s) && Timed(g, s.book, s.clock) && Touched(g, s, t, n)
    requires Derived(g, m) && m != n && IsStale(g, s.book, m)
    ensures IsStale(g, t.book, m)
  {
    var b, c := s.book, t.book;
    if !CodeIsStale(g, b, m) && b.meta[m].retryAt == None && !b.attempt[m].Pending? {
      var d :| d in Active(g, b.attempt, m) && Moved(g, b, m, d);
      if n in Active(g, c.attempt, m) && !Unmoved(g, b, c, n) {
        FreshRowIsSeen(g, b, c, n, s.clock, m);
      } else {
        SameLook(g, b, c, n, m);
        assert Edge(g, m, d) && Moved(g, c, m, d);
      }
    }
  }

  /** m does not look at n, or n holds what it held. */
  lemma SameLook(g: Graph, b: Book, c: Book, n: Id, m: Id)
    requires OnlyAt(g, b, c, n) && Derived(g, m) && m != n
    requires n !in Active(g, c.attempt, m) || c.attempt[n] == b.attempt[n]
    ensures SeesSame(g, b.attempt, c.attempt, m)
  {
    assert forall d | d in Active(g, c.attempt, m) :: Edge(g, m, d);
    SameView(g, c.attempt, b.attempt, m);
    WaitsWhenPendingBound(g, b.attempt, m);
    WaitsWhenPendingBound(g, c.attempt, m);
  }

  lemma OthersCatch(g: Graph, s: State, t: State, n: Id, m: Id)
    requires WellFormed(g, s) && Timed(g, s.book, s.clock) && Touched(g, s, t, n)
    requires Derived(g, m) && m != n && Catching(g, s.book, s.q, m)
    ensures Catching(g, t.book, t.q, m)
  {
    if n in Active(g, t.book.attempt, m) && t.book.attempt[n] != s.book.attempt[n] {
      FreshRowIsSeen(g, s.book, t.book, n, s.clock, m);
      assert Edge(g, m, n);
    } else {
      SameLook(g, s.book, t.book, n, m);
    }
  }

  /** A step keeps the invariant if it leaves its own node catching up. */
  lemma StepCatchesUp(g: Graph, s: State, t: State, n: Id)
    requires Queueing(g, s) && n !in s.q.scheduled && Touched(g, s, t, n)
    requires forall m | Derived(g, m) && m != n :: Catching(g, s.book, s.q, m)
    requires Derived(g, n) ==> Catching(g, t.book, t.q, n)
    ensures CatchingUp(g, t)
  {
    forall m | m in t.q.scheduled ensures Derived(g, m) && IsStale(g, t.book, m) {
      if m in s.q.scheduled {
        StaysStale(g, s, t, n, m);
      }
    }
    forall m | Derived(g, m) ensures Catching(g, t.book, t.q, m) {
      if m != n {
        OthersCatch(g, s, t, n, m);
      }
    }
  }

  // ------------------------------------------------------------------ one step

  /** Announcing a fresh row of n. */
  lemma AnnouncedTouches(g: Graph, s: State, t: State, n: Id)
    requires WellFormed(g, s) && WellFormed(g, t) && n in Nodes(g) && t.q == s.q && s.clock <= t.clock
    requires Stamps(g, s.book, t.book, n, s.clock) && Timed(g, t.book, t.clock)
    ensures Touched(g, s, Emit(g, t, n), n) && Emit(g, t, n).book == t.book
  {
    DependentsAreDerived(g, n);
    EmitNotifies(g, t, g.dependents[n]);
    TimedLater(g, t.book, t.clock, Emit(g, t, n).clock);
  }

  lemma PushCatchesUp(g: Graph, s: State, x: Id, a: Attempt)
    requires CatchingUp(g, s) && x in g.inputs
    ensures CatchingUp(g, Write(g, s, x, a))
  {
    var t := Store(g, s, x, a);
    TimedAfter(g, s.book, t.book, x, s.clock, t.clock);
    AnnouncedTouches(g, s, t, x);
    StepCatchesUp(g, s, Write(g, s, x, a), x);
  }

  /** n holds a result of the current code on what its dependencies hold. */
  ghost predicate Caught(g: Graph, b: Book, n: Id)
    requires WellFormedBook(g, b) && Derived(g, n)
  {
    !b.attempt[n].Pending? && Consistent(g, b.attempt, n) && !CodeIsStale(g, b, n)
  }

  lemma CompleteCatches(g: Graph, s: State, f: Flight, result: Attempt)
    requires WellFormed(g, s) && Timed(g, s.book, s.clock) && Derived(g, f.node) && !result.Pending?
    requires Evaluates(g, f.node, ActiveAttempts(g, s.book.attempt, f.node), result)
    ensures var t := Complete(g, s, f, result); Touched(g, s, t, f.node) && Caught(g, t.book, f.node)
  {
    var n, t := f.node, Record(g, s, f, result);
    RecordShape(g, s, f, result);
    TimedAfter(g, s.book, t.book, n, s.clock, t.clock);
    AnnouncedTouches(g, s, t, n);
    OwnView(g, s.book, t.book, n);
  }

  lemma PersistTouches(g: Graph, s: State, f: Flight)
    requires WellFormed(g, s) && Timed(g, s.book, s.clock) && Derived(g, f.node)
    ensures var t := PersistStatus(g, s, f);
      && Touched(g, s, t, f.node) && !CodeIsStale(g, t.book, f.node) && t.book.attempt == s.book.attempt
  {
    var t := PersistStatus(g, s, f);
    assert TimedNode(g, s.book, s.clock, f.node);
    TimedAfter(g, s.book, t.book, f.node, s.clock, t.clock);
  }

  /** The same value from the same inputs: only the code version moves, and only in memory. */
  lemma RecodedTouches(g: Graph, s: State, n: Id)
    requires WellFormed(g, s) && Timed(g, s.book, s.clock) && Derived(g, n)
    ensures var m := s.book.meta[n].(version := Some(g.version[n]));
      Touched(g, s, s.(book := s.book.(meta := s.book.meta[n := m])), n)
  {
    var m := s.book.meta[n].(version := Some(g.version[n]));
    var c := s.book.(meta := s.book.meta[n := m]);
    assert TimedNode(g, s.book, s.clock, n);
    assert TimedNode(g, c, s.clock, n);
    TimedAfter(g, s.book, c, n, s.clock, s.clock);
  }

  /** The early cutoff: the code is current afterwards, and the row is rewritten if its stamps moved. */
  lemma CutoffCatches(g: Graph, s: State, f: Flight, result: Attempt)
    requires WellFormed(g, s) && Timed(g, s.book, s.clock) && Derived(g, f.node)
    requires Identical(s.book, f.node, result)
    requires Evaluates(g, f.node, ActiveAttempts(g, s.book.attempt, f.node), result)
    ensures var t := Finish(g, s, f, result); Touched(g, s, t, f.node) && Caught(g, t.book, f.node)
  {
    var n, t := f.node, Finish(g, s, f, result);
    if f.stamps == s.book.meta[n].depStamps {
      OnlyTheCodeMoves(g, s, f, result);
      RecodedTouches(g, s, n);
    } else {
      PersistTouches(g, s, f);
    }
    OwnView(g, s.book, t.book, n);
  }

  lemma ReadyCatches(g: Graph, f: (Id, seq<Attempt>) -> Attempt, s: State, n: Id)
    requires Pure(g, f) && Settling(f)
    requires WellFormed(g, s) && Timed(g, s.book, s.clock) && Derived(g, n) && Judge(g, s, n) == Ready
    ensures var u := Refresh(g, s, n); Touched(g, s, u, n) && Caught(g, u.book, n)
  {
    var fl := Bind(g, s.book, n);
    var (s1, r) := RunCompute(g, s, fl);
    assert r == f(n, fl.atts) && Answers(g.world(n, fl.atts, s.clock), r);
    TimedLater(g, s.book, s.clock, s1.clock);
    if Identical(s1.book, n, r) {
      CutoffCatches(g, s1, fl, r);
    } else {
      CompleteCatches(g, s1, fl, r);
    }
    TouchedEarlier(g, s, s1, Refresh(g, s, n), n);
  }

  lemma TouchedEarlier(g: Graph, s: State, s1: State, t: State, n: Id)
    requires WellFormed(g, s) && s1.book == s.book && s1.q == s.q && s.clock <= s1.clock
    requires WellFormed(g, s1) && Touched(g, s1, t, n)
    ensures Touched(g, s, t, n)
  {
  }

  lemma FailedCatches(g: Graph, s: State, n: Id)
    requires WellFormed(g, s) && Timed(g, s.book, s.clock) && Derived(g, n) && Judge(g, s, n) == DependencyFailed
    ensures var u := Refresh(g, s, n); Touched(g, s, u, n) && Caught(g, u.book, n)
  {
    var fl := Bind(g, s.book, n);
    var s1 := s.(retries := s.retries[n := 0]);
    CompleteCatches(g, s1, fl, Impossible(DepFailed(n, Causes(fl.atts))));
    TouchedEarlier(g, s, s1, Refresh(g, s, n), n);
  }

  /**
   * The same value from the same inputs: the node is current in memory, but its
   * row still carries the old fingerprint, so the next start queues it again.
   */
  lemma CutoffKeepsTheOldRow(g: Graph, s: State, f: Flight, result: Attempt)
    requires WellFormed(g, s) && Derived(g, f.node) && Identical(s.book, f.node, result)
    requires f.stamps == s.book.meta[f.node].depStamps && CodeIsStale(g, Reload(g, s.rows), f.node)
    ensures var t := Finish(g, s, f, result);
      && !CodeIsStale(g, t.book, f.node)
      && t.rows == s.rows && IsStale(g, Reload(g, t.rows), f.node)
  {
    OnlyTheCodeMoves(g, s, f, result);
  }

  // ------------------------------------------------------------------- a pop

  /** Taking an event off the queue. */
  lemma TakeQueues(g: Graph, s: State, e: Event)
    requires CatchingUp(g, s) && e in s.q.events
    ensures Queueing(g, Take(s, e)) && e.node !in Take(s, e).q.scheduled
    ensures Derived(g, e.node) && IsStale(g, s.book, e.node)
    ensures forall m | Derived(g, m) && m != e.node :: Catching(g, Take(s, e).book, Take(s, e).q, m)
  {
    TakeKeepsStep(s, e);
    forall m | Derived(g, m) && m != e.node ensures Catching(g, Take(s, e).book, Take(s, e).q, m) {
      assert Catching(g, s.book, s.q, m);
    }
  }

  /** What a refresh of n leaves: n caught up, waiting for a pending dependency, or re-stamped behind a queued one. */
  ghost predicate Left(g: Graph, s: State, u: State, n: Id)
    requires WellFormed(g, s) && Derived(g, n)
  {
    && Touched(g, s, u, n)
    && match Judge(g, s, n)
       case Deferred => !CodeIsStale(g, u.book, n) && u.book.attempt == s.book.attempt && u.q == s.q
       case Blocked => u == s && Waits(g, s.book.attempt, n)
       case _ => Caught(g, u.book, n)
  }

  lemma RefreshCatches(g: Graph, f: (Id, seq<Attempt>) -> Attempt, s: State, n: Id)
    requires Pure(g, f) && Settling(f)
    requires WellFormed(g, s) && Timed(g, s.book, s.clock) && Derived(g, n) && IsStale(g, s.book, n)
    ensures Left(g, s, Refresh(g, s, n), n)
  {
    match Judge(g, s, n)
    case UpToDate =>
    case Deferred => PersistTouches(g, s, Bind(g, s.book, n));
    case Blocked => WaitsWhenPendingBound(g, s.book.attempt, n);
    case DependencyFailed => FailedCatches(g, s, n);
    case Ready => ReadyCatches(g, f, s, n);
  }

  /** A pending node behind a queued dependency is put back. */
  lemma PutBackCatches(g: Graph, s: State, u: State, n: Id)
    requires WellFormed(g, s) && n !in s.q.scheduled && InStep(s.q) && Derived(g, n) && Left(g, s, u, n)
    requires Judge(g, s, n) == Deferred && u.book.attempt[n].Pending? && Settle(g, u, n).1
    ensures var t := Settle(g, u, n).0; Touched(g, s, t, n) && Catching(g, t.book, t.q, n)
  {
    var ds := Active(g, u.book.attempt, n);
    DeferredIsPutBack(g, s, u, n);
    RequeueKeepsStep(u.q, ds, n);
    PutBackTouches(g, s, u, u.(q := Requeued(u.q, ds, n)), n);
  }

  lemma DeferredIsPutBack(g: Graph, s: State, u: State, n: Id)
    requires WellFormed(g, s) && WellFormed(g, u) && Derived(g, n) && u.book.attempt == s.book.attempt && u.q == s.q
    requires Judge(g, s, n) == Deferred && u.book.attempt[n].Pending? && Settle(g, u, n).1
    ensures Settle(g, u, n).0 == u.(q := Requeued(u.q, Active(g, u.book.attempt, n), n))
  {
  }

  /** Any other node is not queued again. */
  lemma SettleCatches(g: Graph, s: State, u: State, n: Id)
    requires WellFormed(g, s) && n !in s.q.scheduled && InStep(s.q) && Derived(g, n) && Left(g, s, u, n)
    requires Settle(g, u, n).1 && !(Judge(g, s, n) == Deferred && !u.book.attempt[n].Pending?)
    ensures var t := Settle(g, u, n).0; Touched(g, s, t, n) && Catching(g, t.book, t.q, n)
  {
    if Judge(g, s, n) == Deferred {
      PutBackCatches(g, s, u, n);
    } else {
      var t := Settle(g, u, n).0;
      assert t.q.scheduled == u.q.scheduled && t.q.events == u.q.events;
      SameEntries(g, s, u, t, n);
    }
  }

  lemma SameEntries(g: Graph, s: State, u: State, t: State, n: Id)
    requires WellFormed(g, s) && Touched(g, s, u, n) && t == u.(q := t.q)
    requires t.q.scheduled == u.q.scheduled && t.q.events == u.q.events
    ensures Touched(g, s, t, n)
  {
  }

  lemma PutBackTouches(g: Graph, s: State, u: State, t: State, n: Id)
    requires WellFormed(g, s) && Touched(g, s, u, n) && u.book.attempt == s.book.attempt && Derived(g, n)
    requires u.book.attempt[n].Pending? && t == u.(q := t.q) && n in t.q.scheduled
    requires (InStep(u.q) ==> InStep(t.q)) && forall m | m != n :: m in t.q.scheduled <==> m in u.q.scheduled
    ensures Touched(g, s, t, n)
  {
  }

  lemma PopCatchesUp(g: Graph, f: (Id, seq<Attempt>) -> Attempt, s: State, e: Event)
    requires Pure(g, f) && Settling(f)
    requires CatchingUp(g, s) && Enabled(g, s, Drain(e)) && !Drops(g, s, Drain(e)) && Pop(g, s, e).1
    ensures CatchingUp(g, Pop(g, s, e).0)
  {
    var n, s1 := e.node, Take(s, e);
    TakeQueues(g, s, e);
    RefreshCatches(g, f, s1, n);
    SettleCatches(g, s1, Refresh(g, s1, n), n);
    StepCatchesUp(g, s1, Pop(g, s, e).0, n);
  }

  lemma {:induction false} CleanRunCatchesUp(g: Graph, f: (Id, seq<Attempt>) -> Attempt, s: State,
                                             acts: seq<Action>, t: State)
    requires Pure(g, f) && Settling(f) && CatchingUp(g, s) && CleanRun(g, s, acts, t)
    ensures CatchingUp(g, t)
    decreases |acts|
  {
    if acts != [] {
      match acts[0] {
        case Push(x, a) => PushCatchesUp(g, s, x, a);
        case Drain(e) => PopCatchesUp(g, f, s, e);
      }
      CleanRunCatchesUp(g, f, Act(g, s, acts[0]).0, acts[1..], t);
    }
  }

  /** At rest with every input set, each node is what the code of g computes from the inputs, and by that code. */
  lemma CaughtUpIsExact(g: Graph, f: (Id, seq<Attempt>) -> Attempt, t: State, n: Id)
    requires Pure(g, f) && Settling(f) && CatchingUp(g, t) && Idle(t) && n in Nodes(g)
    requires forall x | x in g.inputs :: !t.book.attempt[x].Pending?
    ensures t.book.attempt[n] == FromScratch(g, f, t.book.attempt, n)
    ensures Derived(g, n) ==> !CodeIsStale(g, t.book, n)
  {
    NothingScheduledWhenEmpty(t.q);
    forall m | Derived(g, m) ensures Converging(g, t.book, t.q, m) {
      assert Catching(g, t.book, t.q, m);
    }
    ConvergedIsExact(g, f, t, n);
    if Derived(g, n) {
      forall d | d in Active(g, t.book.attempt, n) ensures !t.book.attempt[d].Pending? {
        assert Edge(g, n, d);
        NothingPendingAtRest(g, f, t, d);
      }
      assert Catching(g, t.book, t.q, n);
    }
  }

  // --------------------------------------------------------------- deployment

  /** g is old with other code: where the fingerprint is the same, compute is. */
  ghost predicate Redeployed(past: Graph, g: Graph) {
    && Valid(past) && Valid(g)
    && g.inputs == past.inputs && g.fixed == past.fixed && g.branches == past.branches
    && (forall n, atts {:trigger g.choose(n, atts)} :: g.choose(n, atts) == past.choose(n, atts))
    && forall n, atts, t {:trigger g.world(n, atts, t)} | Derived(g, n) && g.version[n] == past.version[n] ::
         g.world(n, atts, t) == past.world(n, atts, t)
  }

  lemma SameLooks(past: Graph, g: Graph, a: map<Id, Attempt>, n: Id)
    requires Redeployed(past, g) && Nodes(g) <= a.Keys && Derived(g, n)
    ensures Derived(past, n) && Nodes(g) == Nodes(past) && Active(g, a, n) == Active(past, a, n)
    ensures Waits(past, a, n) ==> Waits(g, a, n)
    ensures Consistent(past, a, n) && g.version[n] == past.version[n] ==> Consistent(g, a, n)
  {
    assert forall d | d in Active(past, a, n) :: Edge(g, n, d);
    var atts := ActiveAttempts(past, a, n);
    if Consistent(past, a, n) && g.version[n] == past.version[n] && !AnyImpossible(atts) {
      var t :| Answers(past.world(n, atts, t), a[n]);
      assert Answers(g.world(n, atts, t), a[n]);
    }
  }

  lemma StaleStays(past: Graph, g: Graph, b: Book, n: Id)
    requires Redeployed(past, g) && WellFormedBook(g, b) && WellFormedBook(past, b) && Derived(g, n)
    requires IsStale(past, b, n) && !CodeIsStale(past, b, n)
    ensures IsStale(g, b, n)
  {
    SameLooks(past, g, b.attempt, n);
    if !b.attempt[n].Pending? && b.meta[n].retryAt == None {
      var d :| d in Active(past, b.attempt, n) && Moved(past, b, n, d);
      assert Moved(g, b, n, d);
    }
  }

  lemma SoundIsTimed(past: Graph, g: Graph, b: Book, clock: int)
    requires Redeployed(past, g) && SoundBook(past, b, clock)
    ensures Timed(g, b, clock)
  {
    forall m | m in Nodes(g) ensures TimedNode(g, b, clock, m) {
      assert SoundNode(past, b, clock, m);
    }
  }

  /** The stored attempts converge under the new code where the fingerprint is the old one; the rest is stale. */
  lemma RestoredCatches(past: Graph, g: Graph, s: State, n: Id)
    requires Redeployed(past, g) && Steady(past, s) && MirroredState(past, s) && AllConverging(past, s)
    requires SoundBook(past, Reload(past, s.rows), s.clock) && Derived(g, n)
    ensures var b := Reload(g, s.rows);
      IsStale(g, b, n) || (!CodeIsStale(g, b, n) && (Consistent(g, b.attempt, n) || Waits(g, b.attempt, n)))
  {
    var b := Reload(past, s.rows);
    assert Reload(g, s.rows) == b;
    SameLooks(past, g, b.attempt, n);
    ReloadedView(past, s, n);
    assert Converging(past, s.book, s.q, n) && SoundNode(past, b, s.clock, n);
    if n in s.q.scheduled {
      StaleStays(past, g, b, n);
    } else if Waits(past, s.book.attempt, n) {
      WaitsWhenPendingBound(past, s.book.attempt, n);
      WaitsWhenPendingBound(past, b.attempt, n);
    }
  }

  /**
   * A process stops between two steps and starts again with new code. Under the
   * new code it is catching up, and exactly the stale nodes are queued, those
   * with another fingerprint among them.
   */
  lemma DeployCatchesUp(past: Graph, g: Graph, s: State, clock: int)
    requires Redeployed(past, g) && Steady(past, s) && MirroredState(past, s) && AllConverging(past, s)
    requires s.clock <= clock
    ensures var r := Boot(g, s.rows, clock);
      CatchingUp(g, r) && forall n | Derived(g, n) :: n in r.q.scheduled <==> IsStale(g, r.book, n)
  {
    var r := Boot(g, s.rows, clock);
    MirroredRowsAreSound(past, s);
    ReloadIsSound(past, s.rows, s.clock);
    SoundIsTimed(past, g, Reload(past, s.rows), s.clock);
    BootQueuesTheStale(g, s.rows, clock);
    TimedLater(g, r.book, s.clock, r.clock);
    forall n | Derived(g, n) ensures Catching(g, r.book, r.q, n) {
      RestoredCatches(past, g, s, n);
    }
  }

  /** Registration queues exactly the stale nodes, whatever wrote the rows. */
  lemma BootQueuesTheStale(g: Graph, rows: map<Id, Row>, clock: int)
    requires Valid(g)
    ensures var r := Boot(g, rows, clock);
      && r.book == Reload(g, rows) && clock <= r.clock && InStep(r.q)
      && (forall n | n in r.q.scheduled :: Derived(g, n) && IsStale(g, r.book, n))
      && forall n | Derived(g, n) && IsStale(g, r.book, n) :: n in r.q.scheduled
  {
    var s := State(Reload(g, rows), RestoredRetries(g, rows), Queue(multiset{}, map[], map[]), clock, rows, []);
    RegisterAllRegisters(g, s, g.registered);
  }

  /**
   * The fingerprint is enough: after a deployment any pushes and pops that drop no
   * node end, at an empty queue with every input set, in exactly the full
   * recomputation by the new code, and no node is left with another fingerprint.
   */
  lemma DeployIsExact(past: Graph, g: Graph, f: (Id, seq<Attempt>) -> Attempt, s: State, clock: int,
                      acts: seq<Action>, t: State, n: Id)
    requires Redeployed(past, g) && Pure(g, f) && Settling(f)
    requires Steady(past, s) && MirroredState(past, s) && AllConverging(past, s) && s.clock <= clock
    requires CleanRun(g, Boot(g, s.rows, clock), acts, t) && WellFormed(g, t) && Idle(t) && n in Nodes(g)
    requires forall x | x in g.inputs :: !t.book.attempt[x].Pending?
    ensures t.book.attempt[n] == FromScratch(g, f, t.book.attempt, n)
    ensures Derived(g, n) ==> !CodeIsStale(g, t.book, n)
  {
    DeployCatchesUp(past, g, s, clock);
    CleanRunCatchesUp(g, f, Boot(g, s.rows, clock), acts, t);
    CaughtUpIsExact(g, f, t, n);
  }
}
