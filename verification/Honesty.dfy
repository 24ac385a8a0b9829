// Honest staleness: over every run of pushes and pops, whatever compute
// answers, a node that reports itself and its dependencies fresh is its own
// computation on what they hold now.
module Honesty {
  import opened Attempts
  import opened DagGraph
  import opened Scratch
  import opened Engine
  import opened Frames
  import opened Actions
  import opened Refreshes
  import opened Pops

  /** n is up to date, or n or one of its active dependencies reports stale. */
  ghost predicate Honest(g: Graph, b: Book, n: Id)
    requires WellFormedBook(g, b) && Derived(g, n)
  {
    || IsStale(g, b, n)
    || Consistent(g, b.attempt, n)
    || exists d | d in Active(g, b.attempt, n) :: Derived(g, d) && IsStale(g, b, d)
  }

  ghost predicate AllHonest(g: Graph, b: Book)
    requires WellFormedBook(g, b)
  {
    forall n {:trigger Honest(g, b, n)} | Derived(g, n) :: Honest(g, b, n)
  }

  /** A write of n's row leaves every other node honest. */
  lemma OthersStayHonest(g: Graph, b: Book, c: Book, n: Id, clock: int, m: Id)
    requires SoundBook(g, b, clock) && Stamps(g, b, c, n, clock)
    requires Derived(g, m) && m != n && Honest(g, b, m)
    ensures Honest(g, c, m)
  {
    if !IsStale(g, c, m) {
      UnaffectedView(g, b, c, n, clock, m);
      if Consistent(g, b.attempt, m) {
        ConsistentOrStale(g, b, c, n, clock, m);
      } else {
        var d :| d in Active(g, b.attempt, m) && Derived(g, d) && IsStale(g, b, d);
        StaleSurvives(g, b, c, n, clock, d);
      }
    }
  }

  /** A refreshed node is honest afterwards, also when it was re-stamped behind a queued dependency. */
  lemma RefreshedIsHonest(g: Graph, s: State, u: State, n: Id)
    requires Steady(g, s) && Derived(g, n) && Honest(g, s.book, n) && Refreshed(g, s, u, n)
    ensures Honest(g, u.book, n)
  {
    if u.book != s.book {
      if Judge(g, s, n) == Deferred {
        DeferredIsHonest(g, s, u, n);
      } else {
        RewrittenIsHonest(g, s, u, n);
      }
    }
  }

  /** The dependency n waits behind was stale when it was queued, and still is. */
  lemma DeferredIsHonest(g: Graph, s: State, u: State, n: Id)
    requires Steady(g, s) && Derived(g, n) && Stamps(g, s.book, u.book, n, s.clock)
    requires AnyQueued(s.q, Active(g, s.book.attempt, n))
    ensures Honest(g, u.book, n)
  {
    OwnView(g, s.book, u.book, n);
    var d :| d in Active(g, s.book.attempt, n) && d in s.q.scheduled;
    assert Edge(g, n, d) && d != n;
    StaleSurvives(g, s.book, u.book, n, s.clock, d);
  }

  lemma RewrittenIsHonest(g: Graph, s: State, u: State, n: Id)
    requires WellFormed(g, s) && WellFormed(g, u) && Derived(g, n) && Refreshed(g, s, u, n)
    requires Judge(g, s, n) != Deferred && u.book != s.book
    ensures Honest(g, u.book, n)
  {
    OwnView(g, s.book, u.book, n);
  }

  lemma PopStaysHonest(g: Graph, s: State, e: Event)
    requires Steady(g, s) && AllHonest(g, s.book) && e in s.q.events && Derived(g, e.node)
    ensures Steady(g, Pop(g, s, e).0) && AllHonest(g, Pop(g, s, e).0.book)
  {
    var u := PopActs(g, s, e);
    var s1 := Take(s, e);
    forall m | Derived(g, m) ensures Honest(g, u.book, m) {
      assert Honest(g, s.book, m);
      if m == e.node {
        RefreshedIsHonest(g, s1, u, m);
      } else if u.book != s1.book {
        OthersStayHonest(g, s.book, u.book, e.node, s.clock, m);
      }
    }
  }

  lemma PushStaysHonest(g: Graph, s: State, x: Id, a: Attempt)
    requires Steady(g, s) && AllHonest(g, s.book) && x in g.inputs
    ensures Steady(g, Write(g, s, x, a)) && AllHonest(g, Write(g, s, x, a).book)
  {
    WriteKeepsSteady(g, s, x, a);
    WriteActs(g, s, x, a);
    forall m | Derived(g, m) ensures Honest(g, Write(g, s, x, a).book, m) {
      assert Honest(g, s.book, m);
      OthersStayHonest(g, s.book, Write(g, s, x, a).book, x, s.clock, m);
    }
  }

  /** Over every run, from any steady and honest state, every node stays honest. */
  lemma {:induction false} RunStaysHonest(g: Graph, s: State, acts: seq<Action>, t: State)
    requires Steady(g, s) && AllHonest(g, s.book) && Run(g, s, acts, t)
    ensures Steady(g, t) && AllHonest(g, t.book)
    decreases |acts|
  {
    if acts != [] {
      match acts[0] {
        case Push(x, a) => PushStaysHonest(g, s, x, a);
        case Drain(e) => PopStaysHonest(g, s, e);
      }
      RunStaysHonest(g, Act(g, s, acts[0]).0, acts[1..], t);
    }
  }

  /** If after any run no node reports stale, the graph equals its recomputation from scratch. */
  lemma FreshGraphIsExact(g: Graph, f: (Id, seq<Attempt>) -> Attempt, s: State, acts: seq<Action>, t: State, n: Id)
    requires Steady(g, s) && AllHonest(g, s.book) && Run(g, s, acts, t) && Pure(g, f)
    requires WellFormed(g, t) && n in Nodes(g)
    requires forall m | Derived(g, m) :: !IsStale(g, t.book, m)
    ensures t.book.attempt[n] == FromScratch(g, f, t.book.attempt, n)
  {
    RunStaysHonest(g, s, acts, t);
    forall m | Derived(g, m) ensures Consistent(g, t.book.attempt, m) {
      assert Honest(g, t.book, m);
    }
    ConsistentIsExact(g, f, t.book.attempt, n);
  }

  // ------------------------------- graphs in which only retries are pending

  /** compute itself never answers pending; it may fail, also transiently. */
  ghost predicate NeverPending(g: Graph) {
    forall n, atts, t :: g.world(n, atts, t) != Returned(Pending)
  }

  /** The inputs are set, and a pending derived node is queued. */
  ghost predicate PendingQueued(g: Graph, b: Book, q: Queue)
    requires WellFormedBook(g, b)
  {
    && (forall x {:trigger b.attempt[x]} | x in g.inputs :: !b.attempt[x].Pending?)
    && (forall n {:trigger b.attempt[n]} | Derived(g, n) && b.attempt[n].Pending? :: n in q.scheduled)
  }

  /** The pushes of a run carry values or failures, never an unset value. */
  ghost predicate SetPushes(acts: seq<Action>) {
    forall i | 0 <= i < |acts| :: acts[i].Push? ==> !acts[i].value.Pending?
  }

  /** n is up to date, reports stale, or waits for a queued dependency. */
  ghost predicate Vouched(g: Graph, b: Book, q: Queue, n: Id)
    requires WellFormedBook(g, b) && Derived(g, n)
  {
    IsStale(g, b, n) || Consistent(g, b.attempt, n) || AnyQueued(q, Active(g, b.attempt, n))
  }

  ghost predicate AllVouched(g: Graph, s: State)
    requires WellFormed(g, s)
  {
    forall n {:trigger Vouched(g, s.book, s.q, n)} | Derived(g, n) :: Vouched(g, s.book, s.q, n)
  }

  /** No pending dependency of a popped node is parked. */
  lemma NeverBlocked(g: Graph, s: State, e: Event)
    requires Steady(g, s) && PendingQueued(g, s.book, s.q) && Derived(g, e.node)
    ensures Judge(g, Take(s, e), e.node) != Blocked
  {
    var ds := Active(g, s.book.attempt, e.node);
    if AnyPending(AttemptsOf(s.book.attempt, ds)) {
      var i :| 0 <= i < |ds| && AttemptsOf(s.book.attempt, ds)[i].Pending?;
      assert ds[i] in ds && Edge(g, e.node, ds[i]) && ds[i] != e.node;
      assert ds[i] in Take(s, e).q.scheduled;
    }
  }

  /** Refreshing a stale node that is not blocked always writes a row. */
  lemma StaleRefreshWrites(g: Graph, s: State, u: State, n: Id)
    requires Steady(g, s) && Derived(g, n) && IsStale(g, s.book, n) && n !in s.q.scheduled && Refreshed(g, s, u, n)
    requires Judge(g, s, n) != Blocked
    ensures Stamps(g, s.book, u.book, n, s.clock)
  {
    if Judge(g, s, n) == Ready {
      if Bind(g, s.book, n).stamps == s.book.meta[n].depStamps {
        assert QuietNode(g, s.book, n);
        if !s.book.attempt[n].Pending? {
          EqualStampsAreFresh(g, s.book, s.clock, n);
        }
      }
    }
  }

  /** A write of n's row, with the queue keeping all but n, leaves m vouched for. */
  lemma OthersStayVouched(g: Graph, b: Book, q: Queue, c: Book, p: Queue, n: Id, clock: int, m: Id)
    requires SoundBook(g, b, clock) && Stamps(g, b, c, n, clock)
    requires Derived(g, m) && m != n && Vouched(g, b, q, m)
    requires forall d | d in q.scheduled && d != n :: d in p.scheduled
    ensures Vouched(g, c, p, m)
  {
    if !IsStale(g, c, m) {
      UnaffectedView(g, b, c, n, clock, m);
      if Consistent(g, b.attempt, m) {
        ConsistentOrStale(g, b, c, n, clock, m);
      }
    }
  }

  /** A refreshed node is its own computation, is behind a queued dependency, or waits for its retry. */
  lemma RefreshedIsVouched(g: Graph, s: State, u: State, n: Id)
    requires Steady(g, s) && Derived(g, n) && Refreshed(g, s, u, n) && NeverPending(g)
    requires Judge(g, s, n) != Blocked && IsStale(g, s.book, n) && Stamps(g, s.book, u.book, n, s.clock)
    ensures Vouched(g, u.book, u.q, n)
    ensures u.book.attempt[n].Pending? ==> n in u.q.scheduled || Judge(g, s, n) == Deferred
  {
    OwnView(g, s.book, u.book, n);
  }

  /** What the bookkeeping leaves of the queue: nothing is lost, and a deferred pending node is put back. */
  lemma SettledKeepsQueue(g: Graph, s: State, u: State, t: State, n: Id)
    requires WellFormed(g, s) && WellFormed(g, u) && Derived(g, n)
    requires Settled(g, s, u, t, true, n, Judge(g, s, n)) && (Judge(g, s, n) == Deferred ==> u.q == s.q)
    ensures WellFormed(g, t) && t.book == u.book
    ensures forall d | d in u.q.scheduled :: d in t.q.scheduled
    ensures u.book.attempt[n].Pending? && Judge(g, s, n) == Deferred ==> n in t.q.scheduled
  {
  }

  lemma PopStaysVouched(g: Graph, s: State, e: Event)
    requires Steady(g, s) && PendingQueued(g, s.book, s.q) && NeverPending(g) && AllVouched(g, s)
    requires e in s.q.events && Derived(g, e.node) && Pop(g, s, e).1
    ensures Steady(g, Pop(g, s, e).0) && AllVouched(g, Pop(g, s, e).0)
    ensures PendingQueued(g, Pop(g, s, e).0.book, Pop(g, s, e).0.q)
  {
    var u := PopActs(g, s, e);
    var t := Pop(g, s, e).0;
    NeverBlocked(g, s, e);
    RefreshVouches(g, Take(s, e), u, e.node);
    SettledKeepsQueue(g, Take(s, e), u, t, e.node);
    TakenBeside(g, s, e, u);
    VouchedBeside(g, s, u, t, e.node);
  }

  lemma RefreshVouches(g: Graph, s: State, u: State, n: Id)
    requires Steady(g, s) && Derived(g, n) && IsStale(g, s.book, n) && n !in s.q.scheduled && Refreshed(g, s, u, n)
    requires Judge(g, s, n) != Blocked && NeverPending(g)
    ensures Stamps(g, s.book, u.book, n, s.clock) && Vouched(g, u.book, u.q, n)
    ensures u.book.attempt[n].Pending? ==> n in u.q.scheduled || Judge(g, s, n) == Deferred
    ensures Judge(g, s, n) == Deferred ==> u.q == s.q
  {
    StaleRefreshWrites(g, s, u, n);
    RefreshedIsVouched(g, s, u, n);
  }

  /** No other event is lost in a refresh. */
  lemma TakenBeside(g: Graph, s: State, e: Event, u: State)
    requires WellFormed(g, s) && Derived(g, e.node) && Refreshed(g, Take(s, e), u, e.node)
    ensures forall d | d in s.q.scheduled && d != e.node :: d in u.q.scheduled
  {
  }

  /** A written row of n leaves all nodes vouched for and every pending one queued. */
  lemma VouchedBeside(g: Graph, s: State, u: State, t: State, n: Id)
    requires Steady(g, s) && AllVouched(g, s) && PendingQueued(g, s.book, s.q) && Derived(g, n)
    requires Stamps(g, s.book, u.book, n, s.clock)
    requires WellFormed(g, u) && Vouched(g, u.book, u.q, n)
    requires WellFormed(g, t) && t.book == u.book && forall d | d in u.q.scheduled :: d in t.q.scheduled
    requires forall d | d in s.q.scheduled && d != n :: d in u.q.scheduled
    requires u.book.attempt[n].Pending? ==> n in t.q.scheduled
    ensures PendingQueued(g, t.book, t.q) && AllVouched(g, t)
  {
    forall m | Derived(g, m) ensures Vouched(g, t.book, t.q, m) {
      assert Vouched(g, s.book, s.q, m);
      if m != n {
        OthersStayVouched(g, s.book, s.q, t.book, t.q, n, s.clock, m);
      }
    }
  }

  lemma PushStaysVouched(g: Graph, s: State, x: Id, a: Attempt)
    requires Steady(g, s) && PendingQueued(g, s.book, s.q) && AllVouched(g, s) && x in g.inputs && !a.Pending?
    ensures var t := Write(g, s, x, a);
      && Steady(g, t) && PendingQueued(g, t.book, t.q) && AllVouched(g, t)
      && t.book.attempt == s.book.attempt[x := a]
  {
    var t := Write(g, s, x, a);
    WriteKeepsSteady(g, s, x, a);
    WriteActs(g, s, x, a);
    forall m | Derived(g, m) ensures Vouched(g, t.book, t.q, m) {
      assert Vouched(g, s.book, s.q, m);
      OthersStayVouched(g, s.book, s.q, t.book, t.q, x, s.clock, m);
    }
  }

  /** Over every run that does not raise, failures and retries included, every node stays vouched for. */
  lemma {:induction false} OkRunStaysVouched(g: Graph, s: State, acts: seq<Action>, t: State)
    requires Steady(g, s) && PendingQueued(g, s.book, s.q) && AllVouched(g, s) && NeverPending(g)
    requires OkRun(g, s, acts, t) && SetPushes(acts)
    ensures Steady(g, t) && PendingQueued(g, t.book, t.q) && AllVouched(g, t)
    decreases |acts|
  {
    if acts != [] {
      match acts[0] {
        case Push(x, a) => PushStaysVouched(g, s, x, a);
        case Drain(e) => PopStaysVouched(g, s, e);
      }
      OkRunStaysVouched(g, Act(g, s, acts[0]).0, acts[1..], t);
    }
  }

  /**
   * All inputs set and no compute that answers pending: at the empty queue of a
   * run without the requeue error every derived node is its own computation or
   * reports stale, also when it was re-stamped, failed or retried.
   */
  lemma IdleIsHonest(g: Graph, s: State, acts: seq<Action>, t: State, n: Id)
    requires Steady(g, s) && PendingQueued(g, s.book, s.q) && AllVouched(g, s) && NeverPending(g)
    requires OkRun(g, s, acts, t) && SetPushes(acts) && Idle(t) && Derived(g, n)
    ensures WellFormed(g, t) && !t.book.attempt[n].Pending?
    ensures IsStale(g, t.book, n) || Consistent(g, t.book.attempt, n)
  {
    OkRunStaysVouched(g, s, acts, t);
    assert Vouched(g, t.book, t.q, n);
    NothingScheduledWhenEmpty(t.q);
  }

  // ------------------------------------------- graphs with nothing pending

  /** compute always answers with a result. */
  ghost predicate Answering(g: Graph) {
    forall n, atts, t :: g.world(n, atts, t).Returned? && !g.world(n, atts, t).attempt.Pending?
  }

  ghost predicate AllSet(g: Graph, b: Book)
    requires WellFormedBook(g, b)
  {
    forall m {:trigger b.attempt[m]} | m in Nodes(g) :: !b.attempt[m].Pending?
  }

  /** With nothing pending no pop raises, and its node is not pending afterwards. */
  lemma PopStaysSet(g: Graph, s: State, e: Event)
    requires Steady(g, s) && AllSet(g, s.book) && Answering(g) && e in s.q.events && Derived(g, e.node)
    ensures Pop(g, s, e).1 && WellFormed(g, Pop(g, s, e).0) && AllSet(g, Pop(g, s, e).0.book)
  {
    var u := PopActs(g, s, e);
    RefreshedIsSet(g, Take(s, e), u, e.node);
  }

  lemma RefreshedIsSet(g: Graph, s: State, u: State, n: Id)
    requires WellFormed(g, s) && WellFormed(g, u) && AllSet(g, s.book) && Answering(g) && Derived(g, n)
    requires Refreshed(g, s, u, n)
    ensures AllSet(g, u.book)
  {
  }

  lemma PushStaysReady(g: Graph, s: State, x: Id, a: Attempt)
    requires Steady(g, s) && AllSet(g, s.book) && AllVouched(g, s) && x in g.inputs && !a.Pending?
    ensures Steady(g, Write(g, s, x, a)) && AllSet(g, Write(g, s, x, a).book) && AllVouched(g, Write(g, s, x, a))
  {
    PushStaysVouched(g, s, x, a);
  }

  lemma PopStaysReady(g: Graph, s: State, e: Event)
    requires Steady(g, s) && AllSet(g, s.book) && Answering(g) && AllVouched(g, s) && e in s.q.events
    requires Derived(g, e.node)
    ensures Pop(g, s, e).1
    ensures Steady(g, Pop(g, s, e).0) && AllSet(g, Pop(g, s, e).0.book) && AllVouched(g, Pop(g, s, e).0)
  {
    PopStaysSet(g, s, e);
    PopStaysVouched(g, s, e);
  }

  /** All inputs set, no pending results: every node stays vouched for, and no pop raises the requeue error. */
  lemma {:induction false} RunStaysVouched(g: Graph, s: State, acts: seq<Action>, t: State)
    requires Steady(g, s) && AllSet(g, s.book) && AllVouched(g, s) && Answering(g)
    requires Run(g, s, acts, t) && SetPushes(acts)
    ensures OkRun(g, s, acts, t)
    ensures Steady(g, t) && AllSet(g, t.book) && AllVouched(g, t)
    decreases |acts|
  {
    if acts != [] {
      match acts[0] {
        case Push(x, a) => PushStaysReady(g, s, x, a);
        case Drain(e) => PopStaysReady(g, s, e);
      }
      RunStaysVouched(g, Act(g, s, acts[0]).0, acts[1..], t);
    }
  }
}
