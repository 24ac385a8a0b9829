// Early cutoff is sound, and no pending node is stranded.
module Convergence {
  import opened Attempts
  import opened DagGraph
  import opened Scratch
  import opened Engine
  import opened Frames
  import opened Actions
  import opened Refreshes
  import opened Pops

  /** An active dependency of n is pending. */
  ghost predicate Waits(g: Graph, a: map<Id, Attempt>, n: Id)
    requires Valid(g) && Nodes(g) <= a.Keys && Derived(g, n)
  {
    exists d | d in Active(g, a, n) :: Edge(g, n, d) && a[d].Pending?
  }

  /** The latest call of n's compute was on these attempts, and answered pending. */
  ghost predicate AnsweredPending(calls: seq<Call>, n: Id, atts: seq<Attempt>) {
    exists i | 0 <= i < |calls| ::
      LastCall(calls, n, i) && calls[i].atts == atts && calls[i].outcome == Returned(Pending)
  }

  ghost predicate LastCall(calls: seq<Call>, n: Id, i: int) {
    0 <= i < |calls| && calls[i].node == n && forall j | i < j < |calls| :: calls[j].node != n
  }

  /** A call of another node is not n's latest. */
  lemma StillAnswered(calls: seq<Call>, n: Id, atts: seq<Attempt>, c: Call)
    requires AnsweredPending(calls, n, atts) && c.node != n
    ensures AnsweredPending(calls + [c], n, atts)
  {
    var i :| 0 <= i < |calls|
             && LastCall(calls, n, i) && calls[i].atts == atts && calls[i].outcome == Returned(Pending);
    assert LastCall(calls + [c], n, i);
  }

  lemma JustAnswered(calls: seq<Call>, c: Call)
    requires c.outcome == Returned(Pending)
    ensures AnsweredPending(calls + [c], c.node, c.atts)
  {
    assert LastCall(calls + [c], c.node, |calls|);
  }

  lemma WaitsWhenPendingBound(g: Graph, a: map<Id, Attempt>, n: Id)
    requires Valid(g) && Nodes(g) <= a.Keys && Derived(g, n)
    ensures AnyPending(ActiveAttempts(g, a, n)) <==> Waits(g, a, n)
  {
    var ds := Active(g, a, n);
    assert forall i | 0 <= i < |ds| :: ds[i] in ds && Edge(g, n, ds[i]);
    if Waits(g, a, n) {
      var d :| d in ds && a[d].Pending?;
      var i :| 0 <= i < |ds| && ds[i] == d;
      assert AttemptsOf(a, ds)[i].Pending?;
    }
  }

  /** What m's evaluation sees did not change. */
  ghost predicate SeesSame(g: Graph, a: map<Id, Attempt>, c: map<Id, Attempt>, m: Id)
    requires Valid(g) && Nodes(g) <= a.Keys && Nodes(g) <= c.Keys && Derived(g, m)
  {
    && Active(g, c, m) == Active(g, a, m)
    && ActiveAttempts(g, c, m) == ActiveAttempts(g, a, m)
    && (Waits(g, c, m) <==> Waits(g, a, m))
  }

  lemma SeesSameWithout(g: Graph, b: Book, c: Book, n: Id, m: Id)
    requires OnlyAt(g, b, c, n) && Derived(g, m) && n !in Active(g, c.attempt, m)
    ensures SeesSame(g, b.attempt, c.attempt, m)
  {
    assert forall d | d in Active(g, c.attempt, m) :: Edge(g, m, d);
    SameView(g, c.attempt, b.attempt, m);
    WaitsWhenPendingBound(g, b.attempt, m);
    WaitsWhenPendingBound(g, c.attempt, m);
  }

  /** A new attempt of n either wakes m or is none of m's business. */
  lemma WokenOrUnaffected(g: Graph, b: Book, c: Book, p: Queue, n: Id, clock: int, m: Id)
    requires SoundBook(g, b, clock) && Stamps(g, b, c, n, clock) && Derived(g, m) && m != n
    requires Announced(g, c, p, n)
    ensures m in p.scheduled || SeesSame(g, b.attempt, c.attempt, m)
  {
    if n in Active(g, c.attempt, m) {
      assert Edge(g, m, n);
      StampedDependencyIsStale(g, b, c, n, clock, m);
    } else {
      SeesSameWithout(g, b, c, n, m);
    }
  }

  // ------------------------------------------------------------ early cutoff

  /** n is its own computation, is queued, or waits for a pending dependency. */
  ghost predicate Converging(g: Graph, b: Book, q: Queue, n: Id)
    requires WellFormedBook(g, b) && Derived(g, n)
  {
    Consistent(g, b.attempt, n) || n in q.scheduled || Waits(g, b.attempt, n)
  }

  ghost predicate AllConverging(g: Graph, s: State)
    requires WellFormed(g, s)
  {
    forall n {:trigger Converging(g, s.book, s.q, n)} | Derived(g, n) :: Converging(g, s.book, s.q, n)
  }

  lemma OthersConverge(g: Graph, b: Book, q: Queue, c: Book, p: Queue, n: Id, clock: int, m: Id)
    requires SoundBook(g, b, clock) && Derived(g, m) && m != n && n in Nodes(g)
    requires c == b || Stamps(g, b, c, n, clock)
    requires c.attempt == b.attempt || (c != b && Announced(g, c, p, n))
    requires m in q.scheduled ==> m in p.scheduled
    requires Converging(g, b, q, m)
    ensures Converging(g, c, p, m)
  {
    if c.attempt != b.attempt && m !in p.scheduled {
      WokenOrUnaffected(g, b, c, p, n, clock, m);
      assert c.attempt[m] == b.attempt[m];
    }
  }

  /** A non-pending node is popped while one of its dependencies is queued: it is re-stamped and dropped. */
  ghost predicate Drops(g: Graph, s: State, act: Action)
    requires WellFormed(g, s) && Enabled(g, s, act)
  {
    act.Drain? && Judge(g, Take(s, act.event), act.event.node) == Deferred
    && !s.book.attempt[act.event.node].Pending?
  }

  /** A run in which no step drops a node behind a queued dependency or raises. */
  ghost predicate CleanRun(g: Graph, s: State, acts: seq<Action>, t: State)
    requires WellFormed(g, s)
    decreases |acts|
  {
    if acts == [] then s == t
    else
      && Enabled(g, s, acts[0]) && !Drops(g, s, acts[0]) && Act(g, s, acts[0]).1
      && CleanRun(g, Act(g, s, acts[0]).0, acts[1..], t)
  }

  /** n's own row is none of its inputs. */
  lemma SameEvaluation(g: Graph, b: Book, c: Book, n: Id)
    requires Derived(g, n) && OnlyAt(g, b, c, n)
    ensures Active(g, c.attempt, n) == Active(g, b.attempt, n)
    ensures ActiveAttempts(g, c.attempt, n) == ActiveAttempts(g, b.attempt, n)
    ensures Waits(g, c.attempt, n) <==> Waits(g, b.attempt, n)
  {
    assert !Edge(g, n, n);
    SeesSameWithout(g, b, c, n, n);
  }

  /** A node that computed holds its own computation, unless it is pending. */
  lemma ComputedIsConsistent(g: Graph, s: State, u: State, n: Id)
    requires WellFormed(g, s) && WellFormed(g, u) && Derived(g, n) && OnlyAt(g, s.book, u.book, n)
    requires Refreshed(g, s, u, n) && !u.book.attempt[n].Pending?
    requires Judge(g, s, n) == Ready || Judge(g, s, n) == DependencyFailed
    ensures Consistent(g, u.book.attempt, n)
  {
    SameEvaluation(g, s.book, u.book, n);
  }

  lemma AnnouncedIfMoved(g: Graph, s: State, u: State, n: Id)
    requires WellFormed(g, s) && WellFormed(g, u) && Derived(g, n) && Refreshed(g, s, u, n)
    ensures u.book.attempt == s.book.attempt || u.book.attempt[n].Pending? || Announced(g, u.book, u.q, n)
    ensures u.book == s.book || OnlyAt(g, s.book, u.book, n)
  {
    assert s.book.attempt[n := s.book.attempt[n]] == s.book.attempt;
  }

  /** A pure compute that settles answers no refresh with pending. */
  lemma SettlingAnswers(g: Graph, f: (Id, seq<Attempt>) -> Attempt, s: State, u: State, n: Id)
    requires Pure(g, f) && Settling(f) && WellFormed(g, s) && WellFormed(g, u) && Derived(g, n)
    requires Refreshed(g, s, u, n) && (Judge(g, s, n) == Ready || Judge(g, s, n) == DependencyFailed)
    ensures !u.book.attempt[n].Pending?
  {
  }

  lemma RefreshedConverges(g: Graph, f: (Id, seq<Attempt>) -> Attempt, s: State, u: State, n: Id)
    requires Pure(g, f) && Settling(f)
    requires Steady(g, s) && Derived(g, n) && IsStale(g, s.book, n) && Refreshed(g, s, u, n)
    requires Judge(g, s, n) != Deferred
    ensures Consistent(g, u.book.attempt, n) || Waits(g, u.book.attempt, n)
    ensures u.book.attempt == s.book.attempt || Announced(g, u.book, u.q, n)
  {
    if Judge(g, s, n) == Blocked {
      WaitsWhenPendingBound(g, s.book.attempt, n);
    } else {
      SettlingAnswers(g, f, s, u, n);
      AnnouncedIfMoved(g, s, u, n);
      ComputedConverges(g, s, u, n);
    }
  }

  lemma ComputedConverges(g: Graph, s: State, u: State, n: Id)
    requires Steady(g, s) && WellFormed(g, u) && Derived(g, n) && Refreshed(g, s, u, n)
    requires Judge(g, s, n) == Ready || Judge(g, s, n) == DependencyFailed
    requires !u.book.attempt[n].Pending?
    ensures Consistent(g, u.book.attempt, n)
  {
    assert OnlyAt(g, s.book, u.book, n);
    ComputedIsConsistent(g, s, u, n);
  }

  /** What a pop of n means for the other nodes: one write of n's row at most, and no event of theirs lost. */
  ghost predicate PoppedBeside(g: Graph, s: State, t: State, n: Id)
    requires WellFormed(g, s)
  {
    && WellFormed(g, t) && Derived(g, n)
    && (t.book == s.book || Stamps(g, s.book, t.book, n, s.clock))
    && (forall m | m in s.q.scheduled && m != n :: m in t.q.scheduled)
  }

  lemma SettledBeside(g: Graph, s: State, e: Event, u: State, t: State)
    requires Steady(g, s) && Derived(g, e.node) && WellFormed(g, u)
    requires Refreshed(g, Take(s, e), u, e.node)
    requires Settled(g, Take(s, e), u, t, true, e.node, Judge(g, Take(s, e), e.node))
    ensures PoppedBeside(g, s, t, e.node) && t.book == u.book && t.calls == u.calls
    ensures forall m | m in u.q.scheduled :: m in t.q.scheduled
    ensures u.book.attempt[e.node].Pending? && Judge(g, Take(s, e), e.node) == Deferred ==> e.node in t.q.scheduled
  {
  }

  lemma OthersConvergeBeside(g: Graph, s: State, t: State, n: Id)
    requires Steady(g, s) && AllConverging(g, s) && PoppedBeside(g, s, t, n)
    requires t.book.attempt == s.book.attempt || (t.book != s.book && Announced(g, t.book, t.q, n))
    requires Converging(g, t.book, t.q, n)
    ensures AllConverging(g, t)
  {
    forall m | Derived(g, m) ensures Converging(g, t.book, t.q, m) {
      assert Converging(g, s.book, s.q, m);
      if m != n {
        OthersConverge(g, s.book, s.q, t.book, t.q, n, s.clock, m);
      }
    }
  }

  lemma PopConverges(g: Graph, f: (Id, seq<Attempt>) -> Attempt, s: State, e: Event)
    requires Pure(g, f) && Settling(f)
    requires Steady(g, s) && AllConverging(g, s) && Enabled(g, s, Drain(e)) && !Drops(g, s, Drain(e))
    requires Pop(g, s, e).1
    ensures Steady(g, Pop(g, s, e).0) && AllConverging(g, Pop(g, s, e).0)
  {
    var u := PopActs(g, s, e);
    SettledBeside(g, s, e, u, Pop(g, s, e).0);
    if Judge(g, Take(s, e), e.node) != Deferred {
      RefreshedConverges(g, f, Take(s, e), u, e.node);
    }
    OthersConvergeBeside(g, s, Pop(g, s, e).0, e.node);
  }

  lemma PushConverges(g: Graph, s: State, x: Id, a: Attempt)
    requires Steady(g, s) && AllConverging(g, s) && x in g.inputs
    ensures Steady(g, Write(g, s, x, a)) && AllConverging(g, Write(g, s, x, a))
  {
    var t := Write(g, s, x, a);
    WriteKeepsSteady(g, s, x, a);
    WriteActs(g, s, x, a);
    forall m | Derived(g, m) ensures Converging(g, t.book, t.q, m) {
      assert Converging(g, s.book, s.q, m);
      OthersConverge(g, s.book, s.q, t.book, t.q, x, s.clock, m);
    }
  }

  lemma {:induction false} CleanRunConverges(g: Graph, f: (Id, seq<Attempt>) -> Attempt, s: State,
                                             acts: seq<Action>, t: State)
    requires Pure(g, f) && Settling(f)
    requires Steady(g, s) && AllConverging(g, s) && CleanRun(g, s, acts, t)
    ensures Steady(g, t) && AllConverging(g, t)
    decreases |acts|
  {
    if acts != [] {
      match acts[0] {
        case Push(x, a) => PushConverges(g, s, x, a);
        case Drain(e) => PopConverges(g, f, s, e);
      }
      CleanRunConverges(g, f, Act(g, s, acts[0]).0, acts[1..], t);
    }
  }

  /** With every input set, a converged graph at rest has nothing pending. */
  lemma {:induction false} NothingPendingAtRest(g: Graph, f: (Id, seq<Attempt>) -> Attempt, t: State, n: Id)
    requires Pure(g, f) && Settling(f) && WellFormed(g, t) && AllConverging(g, t) && n in Nodes(g)
    requires t.q.scheduled.Keys == {}
    requires forall x | x in g.inputs :: !t.book.attempt[x].Pending?
    ensures !t.book.attempt[n].Pending?
    decreases g.rank[n]
  {
    if Derived(g, n) {
      assert Converging(g, t.book, t.q, n);
      forall d | d in Active(g, t.book.attempt, n) ensures !t.book.attempt[d].Pending? {
        assert Edge(g, n, d);
        NothingPendingAtRest(g, f, t, d);
      }
    }
  }

  /** A converged graph at rest with every input set is the recomputation from scratch. */
  lemma ConvergedIsExact(g: Graph, f: (Id, seq<Attempt>) -> Attempt, t: State, n: Id)
    requires Pure(g, f) && Settling(f) && WellFormed(g, t) && AllConverging(g, t) && t.q.scheduled.Keys == {}
    requires n in Nodes(g) && forall x | x in g.inputs :: !t.book.attempt[x].Pending?
    ensures t.book.attempt[n] == FromScratch(g, f, t.book.attempt, n)
  {
    forall m | Derived(g, m) ensures Consistent(g, t.book.attempt, m) {
      assert Converging(g, t.book, t.q, m);
      forall d | d in Active(g, t.book.attempt, m) ensures !t.book.attempt[d].Pending? {
        assert Edge(g, m, d);
        NothingPendingAtRest(g, f, t, d);
      }
    }
    ConsistentIsExact(g, f, t.book.attempt, n);
  }

  /**
   * Early cutoff: from a converging graph, any pushes and pops that drop no
   * node end, at an empty queue with every input set, in exactly the full
   * recomputation, although identical results announced nothing.
   */
  lemma CutoffIsExact(g: Graph, f: (Id, seq<Attempt>) -> Attempt, s: State, acts: seq<Action>, t: State, n: Id)
    requires Pure(g, f) && Settling(f)
    requires Steady(g, s) && AllConverging(g, s) && CleanRun(g, s, acts, t) && Idle(t)
    requires WellFormed(g, t) && n in Nodes(g) && forall x | x in g.inputs :: !t.book.attempt[x].Pending?
    ensures t.book.attempt[n] == FromScratch(g, f, t.book.attempt, n)
  {
    CleanRunConverges(g, f, s, acts, t);
    NothingScheduledWhenEmpty(t.q);
    ConvergedIsExact(g, f, t, n);
  }

  // -------------------------------------------------------- stranded nodes

  /** A pending node is queued, waits for a pending dependency, or was last answered pending on what it sees now. */
  ghost predicate Awake(g: Graph, s: State, n: Id)
    requires WellFormed(g, s) && Derived(g, n)
  {
    s.book.attempt[n].Pending? ==>
      || n in s.q.scheduled
      || Waits(g, s.book.attempt, n)
      || AnsweredPending(s.calls, n, ActiveAttempts(g, s.book.attempt, n))
  }

  ghost predicate AllAwake(g: Graph, s: State)
    requires WellFormed(g, s)
  {
    forall n {:trigger Awake(g, s, n)} | Derived(g, n) :: Awake(g, s, n)
  }

  /** Every node is awake, those of `raised` aside. */
  ghost predicate AwakeBut(g: Graph, s: State, raised: set<Id>)
    requires WellFormed(g, s)
  {
    forall n {:trigger Awake(g, s, n)} | Derived(g, n) && n !in raised :: Awake(g, s, n)
  }

  /** The nodes whose latest pop raised the requeue error, given those before the run. */
  ghost function LastRaised(g: Graph, s: State, acts: seq<Action>, raised: set<Id>): set<Id>
    requires WellFormed(g, s)
    decreases |acts|
  {
    if acts == [] || !Enabled(g, s, acts[0]) then raised
    else
      var (t, ok) := Act(g, s, acts[0]);
      LastRaised(g, t, acts[1..],
                 if acts[0].Push? then raised
                 else if ok then raised - {acts[0].event.node}
                 else raised + {acts[0].event.node})
  }

  /** In a run without the error there is none. */
  lemma {:induction false} NoneRaised(g: Graph, s: State, acts: seq<Action>, t: State, raised: set<Id>)
    requires WellFormed(g, s) && OkRun(g, s, acts, t)
    ensures LastRaised(g, s, acts, raised) <= raised
    decreases |acts|
  {
    if acts != [] {
      NoneRaised(g, Act(g, s, acts[0]).0, acts[1..], t,
                 if acts[0].Push? then raised else raised - {acts[0].event.node});
    }
  }

  /** Between two states at most n was called. */
  ghost predicate OnlyCalled(calls: seq<Call>, later: seq<Call>, n: Id) {
    later == calls || exists c: Call :: c.node == n && later == calls + [c]
  }

  lemma OthersAnswered(calls: seq<Call>, later: seq<Call>, n: Id, m: Id, atts: seq<Attempt>)
    requires OnlyCalled(calls, later, n) && m != n && AnsweredPending(calls, m, atts)
    ensures AnsweredPending(later, m, atts)
  {
    if later != calls {
      var c: Call :| c.node == n && later == calls + [c];
      StillAnswered(calls, m, atts, c);
    }
  }

  /** A step that wrote at most n's row and called at most n's compute. */
  ghost predicate SteppedBeside(g: Graph, s: State, t: State, n: Id)
    requires WellFormed(g, s)
  {
    && WellFormed(g, t) && n in Nodes(g)
    && (t.book == s.book || Stamps(g, s.book, t.book, n, s.clock))
    && (forall m | m in s.q.scheduled && m != n :: m in t.q.scheduled)
    && OnlyCalled(s.calls, t.calls, n)
    && (|| t.book.attempt == s.book.attempt
        || (t.book != s.book && (t.book.attempt[n].Pending? || Announced(g, t.book, t.q, n))))
  }

  lemma OthersStayAwake(g: Graph, s: State, t: State, n: Id, m: Id)
    requires WellFormed(g, s) && SoundBook(g, s.book, s.clock) && Derived(g, m) && m != n
    requires SteppedBeside(g, s, t, n) && Awake(g, s, m)
    ensures Awake(g, t, m)
  {
    if t.book.attempt[m].Pending? && m !in t.q.scheduled {
      if t.book.attempt != s.book.attempt && n in Active(g, t.book.attempt, m) {
        assert Edge(g, m, n);
      } else {
        SeesSameBeside(g, s, t, n, m);
        if AnsweredPending(s.calls, m, ActiveAttempts(g, s.book.attempt, m)) {
          OthersAnswered(s.calls, t.calls, n, m, ActiveAttempts(g, s.book.attempt, m));
        }
      }
    }
  }

  lemma SeesSameBeside(g: Graph, s: State, t: State, n: Id, m: Id)
    requires WellFormed(g, s) && Derived(g, m) && m != n && SteppedBeside(g, s, t, n)
    requires t.book.attempt == s.book.attempt || n !in Active(g, t.book.attempt, m)
    ensures ActiveAttempts(g, t.book.attempt, m) == ActiveAttempts(g, s.book.attempt, m)
    ensures Waits(g, s.book.attempt, m) ==> Waits(g, t.book.attempt, m)
  {
    if t.book.attempt != s.book.attempt {
      SeesSameWithout(g, s.book, t.book, n, m);
    }
  }

  lemma AllStayAwake(g: Graph, s: State, t: State, n: Id, before: set<Id>, after: set<Id>)
    requires Steady(g, s) && AwakeBut(g, s, before) && SteppedBeside(g, s, t, n)
    requires Derived(g, n) && n !in after ==> Awake(g, t, n)
    requires forall m | m != n && m in before :: m in after
    ensures AwakeBut(g, t, after)
  {
    forall m | Derived(g, m) && m !in after ensures Awake(g, t, m) {
      if m != n {
        assert Awake(g, s, m);
        OthersStayAwake(g, s, t, n, m);
      }
    }
  }

  /** A pending answer came from compute itself, or from a transient failure whose retry is queued. */
  lemma PendingAnswerIsAwake(g: Graph, s: State, u: State, n: Id)
    requires WellFormed(g, s) && WellFormed(g, u) && Derived(g, n) && OnlyAt(g, s.book, u.book, n)
    requires Refreshed(g, s, u, n) && Judge(g, s, n) == Ready && u.book.attempt[n].Pending?
    ensures Awake(g, u, n)
  {
    SameEvaluation(g, s.book, u.book, n);
    if n !in u.q.scheduled {
      JustAnswered(s.calls, Call(n, Bind(g, s.book, n).atts, Returned(Pending)));
    }
  }

  lemma RefreshedStaysAwake(g: Graph, s: State, u: State, n: Id)
    requires Steady(g, s) && WellFormed(g, u) && Derived(g, n) && IsStale(g, s.book, n) && Refreshed(g, s, u, n)
    requires Judge(g, s, n) != Deferred
    ensures Awake(g, u, n)
  {
    AnnouncedIfMoved(g, s, u, n);
    if Judge(g, s, n) == Blocked {
      WaitsWhenPendingBound(g, s.book.attempt, n);
    } else if u.book.attempt[n].Pending? {
      PendingAnswerIsAwake(g, s, u, n);
    }
  }

  lemma RefreshedCalls(g: Graph, s: State, u: State, n: Id)
    requires WellFormed(g, s) && WellFormed(g, u) && Derived(g, n) && Refreshed(g, s, u, n)
    ensures OnlyCalled(s.calls, u.calls, n)
  {
  }

  /** The bookkeeping keeps what was scheduled, and puts a deferred pending node back. */
  lemma SettledStaysAwake(g: Graph, s: State, e: Event, u: State, t: State)
    requires Steady(g, s) && WellFormed(g, u) && WellFormed(g, t) && Derived(g, e.node)
    requires PoppedBeside(g, s, t, e.node) && t.book == u.book && t.calls == u.calls
    requires forall m | m in u.q.scheduled :: m in t.q.scheduled
    requires Judge(g, Take(s, e), e.node) == Deferred ==> !u.book.attempt[e.node].Pending? || e.node in t.q.scheduled
    requires Judge(g, Take(s, e), e.node) != Deferred ==> Awake(g, u, e.node)
    ensures Awake(g, t, e.node)
  {
  }

  lemma PopStaysAwake(g: Graph, s: State, e: Event, raised: set<Id>)
    requires Steady(g, s) && AwakeBut(g, s, raised) && Enabled(g, s, Drain(e)) && Pop(g, s, e).1
    ensures Steady(g, Pop(g, s, e).0) && AwakeBut(g, Pop(g, s, e).0, raised - {e.node})
  {
    var t := PoppedAwake(g, s, e);
    AllStayAwake(g, s, t, e.node, raised, raised - {e.node});
  }

  lemma PoppedAwake(g: Graph, s: State, e: Event) returns (t: State)
    requires Steady(g, s) && Enabled(g, s, Drain(e)) && Pop(g, s, e).1
    ensures t == Pop(g, s, e).0 && Steady(g, t) && SteppedBeside(g, s, t, e.node) && Awake(g, t, e.node)
  {
    var u := PopActs(g, s, e);
    t := Pop(g, s, e).0;
    PopWakes(g, s, e, u, t);
  }

  lemma PopWakes(g: Graph, s: State, e: Event, u: State, t: State)
    requires Steady(g, s) && Steady(g, Take(s, e)) && WellFormed(g, u) && WellFormed(g, t)
    requires Derived(g, e.node) && IsStale(g, s.book, e.node) && Refreshed(g, Take(s, e), u, e.node)
    requires Settled(g, Take(s, e), u, t, true, e.node, Judge(g, Take(s, e), e.node))
    ensures SteppedBeside(g, s, t, e.node) && Awake(g, t, e.node)
  {
    SettledBeside(g, s, e, u, t);
    if Judge(g, Take(s, e), e.node) != Deferred {
      RefreshedStaysAwake(g, Take(s, e), u, e.node);
    }
    SettledStaysAwake(g, s, e, u, t);
    PopSteps(g, s, e, u, t);
  }

  /** A pop that raises loses its own event only. */
  lemma RaisedPopStaysAwake(g: Graph, s: State, e: Event, raised: set<Id>)
    requires Steady(g, s) && AwakeBut(g, s, raised) && Enabled(g, s, Drain(e)) && !Pop(g, s, e).1
    ensures Steady(g, Pop(g, s, e).0) && AwakeBut(g, Pop(g, s, e).0, raised + {e.node})
  {
    var u := PopActs(g, s, e);
    var t := Pop(g, s, e).0;
    RaisedSteps(g, s, e, u, t);
    AllStayAwake(g, s, t, e.node, raised, raised + {e.node});
  }

  lemma RaisedSteps(g: Graph, s: State, e: Event, u: State, t: State)
    requires Steady(g, s) && Derived(g, e.node) && WellFormed(g, u) && WellFormed(g, t)
    requires Refreshed(g, Take(s, e), u, e.node)
    requires Settled(g, Take(s, e), u, t, false, e.node, Judge(g, Take(s, e), e.node))
    ensures SteppedBeside(g, s, t, e.node)
  {
  }

  lemma PopSteps(g: Graph, s: State, e: Event, u: State, t: State)
    requires Steady(g, s) && WellFormed(g, u) && Derived(g, e.node) && Refreshed(g, Take(s, e), u, e.node)
    requires PoppedBeside(g, s, t, e.node) && t.book == u.book && t.calls == u.calls
    requires forall m | m in u.q.scheduled :: m in t.q.scheduled
    ensures SteppedBeside(g, s, t, e.node)
  {
    AnnouncedIfMoved(g, Take(s, e), u, e.node);
    RefreshedCalls(g, Take(s, e), u, e.node);
  }

  lemma PushStaysAwake(g: Graph, s: State, x: Id, a: Attempt, raised: set<Id>)
    requires Steady(g, s) && AwakeBut(g, s, raised) && x in g.inputs
    ensures Steady(g, Write(g, s, x, a)) && AwakeBut(g, Write(g, s, x, a), raised)
  {
    WriteKeepsSteady(g, s, x, a);
    WriteActs(g, s, x, a);
    AllStayAwake(g, s, Write(g, s, x, a), x, raised, raised);
  }

  /** Over every run, every node is awake or its latest pop raised. */
  lemma {:induction false} RunStaysAwake(g: Graph, s: State, acts: seq<Action>, t: State, raised: set<Id>)
    requires Steady(g, s) && AwakeBut(g, s, raised) && Run(g, s, acts, t)
    ensures Steady(g, t) && AwakeBut(g, t, LastRaised(g, s, acts, raised))
    decreases |acts|
  {
    if acts != [] {
      var after := StepStaysAwake(g, s, acts[0], raised);
      RunStaysAwake(g, Act(g, s, acts[0]).0, acts[1..], t, after);
    }
  }

  lemma StepStaysAwake(g: Graph, s: State, act: Action, raised: set<Id>) returns (after: set<Id>)
    requires Steady(g, s) && AwakeBut(g, s, raised) && Enabled(g, s, act)
    ensures after == if act.Push? then raised
                     else if Act(g, s, act).1 then raised - {act.event.node} else raised + {act.event.node}
    ensures Steady(g, Act(g, s, act).0) && AwakeBut(g, Act(g, s, act).0, after)
  {
    match act
    case Push(x, a) =>
      after := raised;
      PushStaysAwake(g, s, x, a, raised);
    case Drain(e) =>
      if Pop(g, s, e).1 {
        after := raised - {e.node};
        PopStaysAwake(g, s, e, raised);
      } else {
        after := raised + {e.node};
        RaisedPopStaysAwake(g, s, e, raised);
      }
  }

  /** `path` leads from n along pending active dependencies. */
  ghost predicate PendingPath(g: Graph, a: map<Id, Attempt>, path: seq<Id>)
    requires Valid(g) && Nodes(g) <= a.Keys
  {
    && path != []
    && (forall i | 0 <= i < |path| :: path[i] in Nodes(g) && a[path[i]].Pending?)
    && (forall i | 0 <= i < |path| - 1 :: Derived(g, path[i]) && path[i + 1] in Active(g, a, path[i]))
  }

  /** n is an unset input, or its own latest compute answered pending on what its dependencies hold. */
  ghost predicate PendingByItself(g: Graph, s: State, n: Id)
    requires WellFormed(g, s)
  {
    || n in g.inputs
    || (Derived(g, n) && AnsweredPending(s.calls, n, ActiveAttempts(g, s.book.attempt, n)))
  }

  lemma {:induction false} PendingChainEnds(g: Graph, t: State, raised: set<Id>, n: Id) returns (path: seq<Id>)
    requires WellFormed(g, t) && AwakeBut(g, t, raised) && t.q.scheduled.Keys == {}
    requires n in Nodes(g) && t.book.attempt[n].Pending?
    ensures PendingPath(g, t.book.attempt, path) && path[0] == n
    ensures PendingByItself(g, t, path[|path| - 1]) || path[|path| - 1] in raised
    decreases g.rank[n]
  {
    path := [n];
    if Derived(g, n) && n !in raised {
      assert Awake(g, t, n);
      if !AnsweredPending(t.calls, n, ActiveAttempts(g, t.book.attempt, n)) {
        var d :| d in Active(g, t.book.attempt, n) && Edge(g, n, d) && t.book.attempt[d].Pending?;
        var rest := PendingChainEnds(g, t, raised, d);
        path := [n] + rest;
      }
    }
  }

  /**
   * No stranded pending node: whatever compute answers, at an empty queue every
   * pending node has a chain of pending active dependencies that ends at an
   * unset input, at a node whose own latest compute answered pending, or at a
   * node whose latest pop raised the requeue error (NoneRaised: none in a run
   * without it).
   */
  lemma NoStrandedPending(g: Graph, s: State, acts: seq<Action>, t: State, n: Id) returns (path: seq<Id>)
    requires Steady(g, s) && AllAwake(g, s) && Run(g, s, acts, t) && Idle(t)
    requires WellFormed(g, t) && n in Nodes(g) && t.book.attempt[n].Pending?
    ensures PendingPath(g, t.book.attempt, path) && path[0] == n
    ensures var last := path[|path| - 1];
            PendingByItself(g, t, last) || (last in LastRaised(g, s, acts, {}) && !OkRun(g, s, acts, t))
  {
    RunStaysAwake(g, s, acts, t, {});
    NothingScheduledWhenEmpty(t.q);
    path := PendingChainEnds(g, t, LastRaised(g, s, acts, {}), n);
    if OkRun(g, s, acts, t) {
      NoneRaised(g, s, acts, t, {});
    }
  }
}
