// What each operation of the engine does, said of the attempts, rows, queue entries
// and calls themselves: each branch of a refresh by its own condition, the retry,
// the push, and the bookkeeping of a pop.
module Operations {
  import opened Attempts
  import opened DagGraph
  import opened Engine
  import opened Frames
  import opened Actions
  import opened Refreshes
  import opened Convergence

  /** An active dependency of n failed. */
  ghost predicate HasFailed(g: Graph, b: Book, n: Id)
    requires WellFormedBook(g, b) && Derived(g, n)
  {
    exists d | d in Active(g, b.attempt, n) :: b.attempt[d].Impossible?
  }

  /** An active dependency of n is queued. */
  ghost predicate HasQueued(g: Graph, s: State, n: Id)
    requires WellFormed(g, s) && Derived(g, n)
  {
    exists d | d in Active(g, s.book.attempt, n) :: d in s.q.scheduled
  }

  lemma FailedBound(g: Graph, b: Book, n: Id)
    requires WellFormedBook(g, b) && Derived(g, n)
    ensures AnyImpossible(ActiveAttempts(g, b.attempt, n)) <==> HasFailed(g, b, n)
  {
    var ds := Active(g, b.attempt, n);
    assert forall i | 0 <= i < |ds| :: ds[i] in ds;
    if HasFailed(g, b, n) {
      var d :| d in ds && b.attempt[d].Impossible?;
      var i :| 0 <= i < |ds| && ds[i] == d;
      assert AttemptsOf(b.attempt, ds)[i].Impossible?;
    }
  }

  // ------------------------------------------------------------ what is written

  /** The stamps of n's active dependencies as their rows stand in b. */
  ghost predicate StampsOfActive(g: Graph, b: Book, n: Id, stamps: map<Id, int>)
    requires WellFormedBook(g, b) && Derived(g, n)
  {
    && (forall d :: d in stamps <==> d in Active(g, b.attempt, n))
    && forall d | d in stamps :: d in b.meta && stamps[d] == b.meta[d].persistedAt
  }

  /**
   * n's row was written and no other: it holds n's attempt, the retry state and
   * the code version, and the stamps its dependencies had before.
   */
  ghost predicate RowWritten(g: Graph, s: State, t: State, n: Id)
    requires WellFormed(g, s) && Derived(g, n)
  {
    && WellFormed(g, t) && OnlyAt(g, s.book, t.book, n) && n in g.version && n in t.rows
    && var m, row := t.book.meta[n], t.rows[n];
       && t.rows == s.rows[n := row]
       && s.clock < m.computedAt < m.persistedAt <= t.clock
       && m.version == Some(g.version[n]) && StampsOfActive(g, s.book, n, m.depStamps)
       && row == Row(t.book.attempt[n], m.persistedAt, m.depStamps, m.version, m.retryAt, Count(t.retries, n))
  }

  /**
   * n was announced: every dependent has its retries back, the stale ones are
   * queued for now unless they were queued, and nothing else moved in the queue.
   */
  ghost predicate Woke(g: Graph, s: State, t: State, n: Id)
    requires WellFormed(g, s) && WellFormed(g, t) && n in Nodes(g)
  {
    && (forall m | m in g.dependents[n] :: Count(t.retries, m) == 0)
    && (forall m | m in g.dependents[n] && Derived(g, m) && IsStale(g, t.book, m) :: m in t.q.scheduled)
    && Keeps(s.q, t.q) && t.q.requeues == s.q.requeues
    && forall m | m in t.q.scheduled && m !in s.q.scheduled ::
         m in g.dependents[n] && Derived(g, m) && IsStale(g, t.book, m) && s.clock < t.q.scheduled[m] <= t.clock
  }

  /** Nobody else's counter moved. */
  ghost predicate OthersCount(s: State, t: State, ns: seq<Id>, n: Id) {
    forall m | m != n && m !in ns :: Count(t.retries, m) == Count(s.retries, m)
  }

  lemma PersistWritesRow(g: Graph, s: State, n: Id)
    requires WellFormed(g, s) && Derived(g, n)
    ensures var t := PersistStatus(g, s, Bind(g, s.book, n));
      && RowWritten(g, s, t, n) && t.book.attempt == s.book.attempt && t.q == s.q && t.retries == s.retries
      && t.calls == s.calls && t.book.meta[n].retryAt == s.book.meta[n].retryAt
  {
    assert forall d | d in Active(g, s.book.attempt, n) :: Edge(g, n, d);
  }

  /** The written half of a completion, from a state whose books differ from s at n's retry state at most. */
  lemma RecordWritesRow(g: Graph, s: State, s1: State, n: Id, result: Attempt)
    requires WellFormed(g, s) && Before(g, s, s1, n)
    ensures var t := Record(g, s1, Bind(g, s.book, n), result);
      && RowWritten(g, s, t, n) && t.book.attempt == s.book.attempt[n := result] && t.calls == s1.calls && t.q == s1.q
      && t.book.meta[n].retryAt == (if result.Pending? then s1.book.meta[n].retryAt else None)
      && Count(t.retries, n) == (if result.Succeeded? then 0 else Count(s1.retries, n))
      && OthersCount(s1, t, [], n)
  {
    var f := Bind(g, s.book, n);
    RecordShape(g, s1, f, result);
    RecordRows(g, s1, f, result);
    BoundStampsAreActive(g, s.book, n);
  }

  /** The row and the counters after the written half of a completion. */
  lemma RecordRows(g: Graph, s: State, f: Flight, result: Attempt)
    requires WellFormed(g, s) && Derived(g, f.node)
    ensures var (t, m) := (Record(g, s, f, result), RecordedMeta(g, s, f, result));
      && t.retries == (if result.Succeeded? then s.retries[f.node := 0] else s.retries)
      && t.rows == s.rows[f.node :=
           Row(result, m.persistedAt, f.stamps, m.version, m.retryAt, Count(t.retries, f.node))]
  {
  }

  lemma BoundStampsAreActive(g: Graph, b: Book, n: Id)
    requires WellFormedBook(g, b) && Derived(g, n)
    ensures StampsOfActive(g, b, n, Bind(g, b, n).stamps)
  {
    assert forall d | d in Active(g, b.attempt, n) :: Edge(g, n, d);
  }

  /** s1 is s later, with another retry state of n, other queue entries and more calls at most. */
  ghost predicate Before(g: Graph, s: State, s1: State, n: Id)
    requires WellFormed(g, s)
  {
    && WellFormed(g, s1) && Derived(g, n) && OnlyAt(g, s.book, s1.book, n) && s1.book.attempt == s.book.attempt
    && s1.book.meta == s.book.meta[n := s.book.meta[n].(retryAt := s1.book.meta[n].retryAt)]
    && s1.rows == s.rows && s.clock <= s1.clock
  }

  /** Announcing a row just written. */
  lemma EmitWakes(g: Graph, s: State, u: State, n: Id)
    requires WellFormed(g, s) && Derived(g, n) && RowWritten(g, s, u, n) && u.q == s.q
    ensures var t := Emit(g, u, n);
      && RowWritten(g, s, t, n) && t.book == u.book && t.calls == u.calls && Woke(g, s, t, n)
      && Count(t.retries, n) == Count(u.retries, n) && OthersCount(u, t, g.dependents[n], n)
  {
    DependentsAreDerived(g, n);
    NotOwnDependent(g, n);
    EmitNotifies(g, u, g.dependents[n]);
  }

  /** A result that is not pending: written with no retry time, then announced. */
  lemma CompleteWritesRow(g: Graph, s: State, s1: State, n: Id, result: Attempt)
    requires WellFormed(g, s) && Before(g, s, s1, n) && s1.q == s.q && !result.Pending?
    ensures var t := Complete(g, s1, Bind(g, s.book, n), result);
      && RowWritten(g, s, t, n) && t.book.attempt == s.book.attempt[n := result] && t.calls == s1.calls
      && t.book.meta[n].retryAt == None && Woke(g, s, t, n)
      && Count(t.retries, n) == (if result.Succeeded? then 0 else Count(s1.retries, n))
  {
    RecordWritesRow(g, s, s1, n, result);
    EmitWakes(g, s, Record(g, s1, Bind(g, s.book, n), result), n);
  }

  // ------------------------------------------------------------------ staleness

  /**
   * The reasons for a refresh, on any books: other code, a retry to come, no
   * result, or an active dependency that was stored or computed after the node
   * was, or whose row is not the one the node was computed from.
   */
  lemma StaleForAReason(g: Graph, b: Book, n: Id)
    requires WellFormedBook(g, b) && Derived(g, n)
    ensures var own := b.meta[n];
      IsStale(g, b, n) <==>
        || (own.version.Some? && own.version != Some(g.version[n]))
        || own.retryAt != None || b.attempt[n] == Pending
        || exists d | d in Active(g, b.attempt, n) :: NewerThan(g, b, n, d)
  {
    assert forall d | d in Active(g, b.attempt, n) :: Edge(g, n, d);
    assert forall d | d in Active(g, b.attempt, n) :: NewerThan(g, b, n, d) <==> Moved(g, b, n, d);
  }

  /** d was stored or computed after n, or its row is another than the one n was computed from. */
  ghost predicate NewerThan(g: Graph, b: Book, n: Id, d: Id) {
    && n in b.meta && d in b.meta
    && var own, dep := b.meta[n], b.meta[d];
       || (own.computedAt != 0 && own.computedAt < dep.persistedAt)
       || (own.computedAt != 0 && Derived(g, d) && own.computedAt < dep.computedAt)
       || (d in own.depStamps && own.depStamps[d] !in {0, dep.persistedAt} && dep.persistedAt != 0)
  }

  // --------------------------------------------------- the branches of a refresh

  /** A node that is not stale is left alone. */
  lemma FreshIsLeftAlone(g: Graph, s: State, n: Id)
    requires WellFormed(g, s) && Derived(g, n) && !IsStale(g, s.book, n)
    ensures Refresh(g, s, n) == s
  {
  }

  /**
   * A failed dependency fails the node, whatever else is queued or pending:
   * compute is not called, the retries are given back, and it is announced.
   */
  lemma FailedDependencyWins(g: Graph, s: State, n: Id)
    requires WellFormed(g, s) && Derived(g, n) && IsStale(g, s.book, n) && HasFailed(g, s.book, n)
    ensures var t := Refresh(g, s, n);
      && t.book.attempt == s.book.attempt[n := Impossible(DepFailed(n, Causes(ActiveAttempts(g, s.book.attempt, n))))]
      && t.calls == s.calls && Count(t.retries, n) == 0
      && RowWritten(g, s, t, n) && t.book.meta[n].retryAt == None && Woke(g, s, t, n)
  {
    FailedBound(g, s.book, n);
    CompleteWritesRow(g, s, s.(retries := s.retries[n := 0]), n,
                      Impossible(DepFailed(n, Causes(ActiveAttempts(g, s.book.attempt, n)))));
  }

  /** Behind a queued dependency, none of them failed, the node keeps its attempt: only its row is written. */
  lemma QueuedDependencyDefers(g: Graph, s: State, n: Id)
    requires WellFormed(g, s) && Derived(g, n) && IsStale(g, s.book, n)
    requires !HasFailed(g, s.book, n) && HasQueued(g, s, n)
    ensures var t := Refresh(g, s, n);
      && t.book.attempt == s.book.attempt && t.calls == s.calls && t.q == s.q && t.retries == s.retries
      && RowWritten(g, s, t, n) && t.book.meta[n].retryAt == s.book.meta[n].retryAt
  {
    FailedBound(g, s.book, n);
    PersistWritesRow(g, s, n);
  }

  /** Behind a pending dependency, none of them failed or queued, nothing at all happens. */
  lemma PendingDependencyBlocks(g: Graph, s: State, n: Id)
    requires WellFormed(g, s) && Derived(g, n)
    requires !HasFailed(g, s.book, n) && !HasQueued(g, s, n) && Waits(g, s.book.attempt, n)
    ensures Refresh(g, s, n) == s
  {
    FailedBound(g, s.book, n);
    WaitsWhenPendingBound(g, s.book.attempt, n);
  }

  /** Stale, and nothing stands between it and its compute. */
  ghost predicate MayCompute(g: Graph, s: State, n: Id)
    requires WellFormed(g, s) && Derived(g, n)
  {
    && IsStale(g, s.book, n)
    && !HasFailed(g, s.book, n) && !HasQueued(g, s, n) && !Waits(g, s.book.attempt, n)
  }

  /** What compute answers n now, on what its active dependencies hold. */
  function AnswerNow(g: Graph, s: State, n: Id): Outcome
    requires WellFormed(g, s) && Derived(g, n)
  {
    g.world(n, ActiveAttempts(g, s.book.attempt, n), s.clock)
  }

  /** Compute was called once, on the attempts n's active dependencies hold. */
  ghost predicate CalledOnce(g: Graph, s: State, t: State, n: Id)
    requires WellFormed(g, s) && Derived(g, n)
  {
    t.calls == s.calls + [Call(n, ActiveAttempts(g, s.book.attempt, n), AnswerNow(g, s, n))]
  }

  lemma MayComputeIsReady(g: Graph, s: State, n: Id)
    requires WellFormed(g, s) && Derived(g, n) && MayCompute(g, s, n)
    ensures Judge(g, s, n) == Ready
  {
    FailedBound(g, s.book, n);
    WaitsWhenPendingBound(g, s.book.attempt, n);
  }

  /** A new result is written and announced; a success gives the retries back, a failure keeps the counter. */
  lemma NewResultIsRecorded(g: Graph, s: State, n: Id, a: Attempt)
    requires WellFormed(g, s) && Derived(g, n) && MayCompute(g, s, n) && AnswerNow(g, s, n) == Returned(a)
    requires !a.Pending? && (a.Succeeded? ==> s.book.attempt[n] != a)
    ensures var t := Refresh(g, s, n);
      && CalledOnce(g, s, t, n) && t.book.attempt == s.book.attempt[n := a]
      && RowWritten(g, s, t, n) && t.book.meta[n].retryAt == None && Woke(g, s, t, n)
      && Count(t.retries, n) == (if a.Succeeded? then 0 else Count(s.retries, n))
  {
    MayComputeIsReady(g, s, n);
    RunsAndFinishes(g, s, n, a);
    var f := Bind(g, s.book, n);
    CompleteWritesRow(g, s, RunCompute(g, s, f).0, n, a);
  }

  /** The value it holds already: nothing is announced, and the row is written again only for other stamps. */
  lemma SameResultIsCutOff(g: Graph, s: State, n: Id)
    requires WellFormed(g, s) && Derived(g, n) && MayCompute(g, s, n)
    requires s.book.attempt[n].Succeeded? && AnswerNow(g, s, n) == Returned(s.book.attempt[n])
    ensures var t := Refresh(g, s, n);
      && CalledOnce(g, s, t, n) && t.book.attempt == s.book.attempt && t.q == s.q && t.retries == s.retries
      && (if StampsOfActive(g, s.book, n, s.book.meta[n].depStamps)
          then
            var m := s.book.meta[n].(version := Some(g.version[n]));
            t.rows == s.rows && t.book == s.book.(meta := s.book.meta[n := m])
          else RowWritten(g, s, t, n))
  {
    MayComputeIsReady(g, s, n);
    RunsAndFinishes(g, s, n, s.book.attempt[n]);
    var f := Bind(g, s.book, n);
    var s1 := RunCompute(g, s, f).0;
    BoundStamps(g, s.book, n);
    if f.stamps == s.book.meta[n].depStamps {
      OnlyTheCodeMoves(g, s1, f, s.book.attempt[n]);
    } else {
      PersistWritesRow(g, s1, n);
    }
  }

  lemma BoundStamps(g: Graph, b: Book, n: Id)
    requires WellFormedBook(g, b) && Derived(g, n)
    ensures StampsOfActive(g, b, n, b.meta[n].depStamps) <==> Bind(g, b, n).stamps == b.meta[n].depStamps
  {
    assert forall d | d in Active(g, b.attempt, n) :: Edge(g, n, d);
  }

  /** An answer of pending is written and not announced. */
  lemma PendingResultIsQuiet(g: Graph, s: State, n: Id)
    requires WellFormed(g, s) && Derived(g, n) && MayCompute(g, s, n) && AnswerNow(g, s, n) == Returned(Pending)
    ensures var t := Refresh(g, s, n);
      && CalledOnce(g, s, t, n) && t.book.attempt == s.book.attempt[n := Pending]
      && RowWritten(g, s, t, n) && t.book.meta[n].retryAt == s.book.meta[n].retryAt
      && t.q == s.q && Count(t.retries, n) == Count(s.retries, n)
  {
    MayComputeIsReady(g, s, n);
    RunsAndFinishes(g, s, n, Pending);
    var f := Bind(g, s.book, n);
    RecordWritesRow(g, s, RunCompute(g, s, f).0, n, Pending);
  }

  // ---------------------------------------------------------------- the retry

  /**
   * The decision on one transient failure: the counter takes its new value, and
   * below the limit the retry is queued exactly the delay after the reading of
   * the clock, the time noted on the node; otherwise nothing is queued.
   */
  lemma RetryIsDueAfterItsDelay(g: Graph, s: State, n: Id, retryAfter: Option<int>)
    requires WellFormed(g, s) && Derived(g, n) && n !in s.q.scheduled
    ensures var (t, retrying) := ScheduleRetry(g, s, n, retryAfter);
      var (delay, count) := RetryDelay(Count(s.retries, n), retryAfter);
      && (retrying <==> count < MAX_RETRIES) && Count(t.retries, n) == count && OthersCount(s, t, [], n)
      && t.rows == s.rows && t.calls == s.calls
      && (if retrying then
            && t.clock == s.clock + 1 && n in t.q.scheduled && t.q.scheduled[n] == t.clock + delay
            && t.q == Queue(s.q.events + multiset{Event(t.clock + delay, n)}, s.q.scheduled[n := t.clock + delay],
                            s.q.requeues)
            && t.book == s.book.(meta := s.book.meta[n := s.book.meta[n].(retryAt := Some(t.q.scheduled[n]))])
          else t.q == s.q && t.book == s.book && t.clock == s.clock)
  {
  }

  /** s2 is s after the call that failed and the decision on it; d is the decided delay. */
  ghost predicate Decided(g: Graph, s: State, s2: State, n: Id, d: (int, int))
    requires WellFormed(g, s) && Derived(g, n)
  {
    && Before(g, s, s2, n) && CalledOnce(g, s, s2, n) && Count(s2.retries, n) == d.1
    && if d.1 < MAX_RETRIES then
         && n in s2.q.scheduled && s2.q.scheduled == s.q.scheduled[n := s2.q.scheduled[n]]
         && s.clock + d.0 < s2.q.scheduled[n] == s2.clock + d.0
         && s2.book.meta[n].retryAt == Some(s2.q.scheduled[n])
       else s2.q == s.q && s2.book == s.book
  }

  lemma RetryDecides(g: Graph, s: State, n: Id, e: Failure, retryAfter: Option<int>) returns (s2: State)
    requires WellFormed(g, s) && Derived(g, n) && n !in s.q.scheduled && MayCompute(g, s, n)
    requires AnswerNow(g, s, n) == Transient(e, retryAfter)
    ensures var d := RetryDelay(Count(s.retries, n), retryAfter);
      && Decided(g, s, s2, n, d)
      && Refresh(g, s, n) == Complete(g, s2, Bind(g, s.book, n), if d.1 < MAX_RETRIES then Pending else Impossible(e))
  {
    MayComputeIsReady(g, s, n);
    var c := Call(n, ActiveAttempts(g, s.book.attempt, n), AnswerNow(g, s, n));
    var s1 := s.(calls := s.calls + [c], clock := s.clock + 1);
    s2 := DecidesAfterCall(g, s, s1, n, retryAfter);
    TransientFinishes(g, s, n, e, retryAfter, s1);
  }

  lemma DecidesAfterCall(g: Graph, s: State, s1: State, n: Id, retryAfter: Option<int>) returns (s2: State)
    requires WellFormed(g, s) && Derived(g, n) && n !in s.q.scheduled
    requires s1 == s.(calls := s1.calls, clock := s.clock + 1) && CalledOnce(g, s, s1, n)
    ensures var d := RetryDelay(Count(s.retries, n), retryAfter);
      && Decided(g, s, s2, n, d)
      && ScheduleRetry(g, s1, n, retryAfter) == (s2, d.1 < MAX_RETRIES)
  {
    s2 := ScheduleRetry(g, s1, n, retryAfter).0;
    RetryIsDueAfterItsDelay(g, s1, n, retryAfter);
  }

  lemma TransientFinishes(g: Graph, s: State, n: Id, e: Failure, retryAfter: Option<int>, s1: State)
    requires WellFormed(g, s) && Derived(g, n) && Judge(g, s, n) == Ready
    requires AnswerNow(g, s, n) == Transient(e, retryAfter)
    requires s1 == s.(calls := s1.calls, clock := s.clock + 1) && CalledOnce(g, s, s1, n)
    ensures var (s2, retrying) := ScheduleRetry(g, s1, n, retryAfter);
      Refresh(g, s, n) == Complete(g, s2, Bind(g, s.book, n), if retrying then Pending else Impossible(e))
  {
  }

  /**
   * A transient failure with retries left: the node is pending, its retry is
   * queued the delay from now, and its row holds that time and the counter.
   */
  lemma TransientFailureIsRetried(g: Graph, s: State, n: Id, e: Failure, retryAfter: Option<int>)
    requires WellFormed(g, s) && Derived(g, n) && n !in s.q.scheduled && MayCompute(g, s, n)
    requires AnswerNow(g, s, n) == Transient(e, retryAfter)
    requires RetryDelay(Count(s.retries, n), retryAfter).1 < MAX_RETRIES
    ensures var t := Refresh(g, s, n);
      var (delay, count) := RetryDelay(Count(s.retries, n), retryAfter);
      && CalledOnce(g, s, t, n) && t.book.attempt == s.book.attempt[n := Pending]
      && n in t.q.scheduled && s.clock + delay < t.q.scheduled[n] <= t.clock + delay
      && t.q.scheduled == s.q.scheduled[n := t.q.scheduled[n]]
      && RowWritten(g, s, t, n) && t.book.meta[n].retryAt == Some(t.q.scheduled[n]) && Count(t.retries, n) == count
  {
    var s2 := RetryDecides(g, s, n, e, retryAfter);
    RecordWritesRow(g, s, s2, n, Pending);
  }

  /** A transient failure with no retries left is the node's failure, and nothing is queued for it. */
  lemma TransientFailureIsFinal(g: Graph, s: State, n: Id, e: Failure, retryAfter: Option<int>)
    requires WellFormed(g, s) && Derived(g, n) && n !in s.q.scheduled && MayCompute(g, s, n)
    requires AnswerNow(g, s, n) == Transient(e, retryAfter)
    requires RetryDelay(Count(s.retries, n), retryAfter).1 >= MAX_RETRIES
    ensures var t := Refresh(g, s, n);
      && CalledOnce(g, s, t, n) && t.book.attempt == s.book.attempt[n := Impossible(e)] && n !in t.q.scheduled
      && RowWritten(g, s, t, n) && t.book.meta[n].retryAt == None && Woke(g, s, t, n)
  {
    var s2 := RetryDecides(g, s, n, e, retryAfter);
    CompleteWritesRow(g, s, s2, n, Impossible(e));
    NotOwnDependent(g, n);
  }

  // -------------------------------------------------------- push and announcing

  /** A push, or a failed input: the value is held and stored as it was given, and announced. */
  lemma PushIsStored(g: Graph, s: State, x: Id, a: Attempt)
    requires WellFormed(g, s) && x in g.inputs
    ensures var t := Write(g, s, x, a);
      && WellFormed(g, t) && OnlyAt(g, s.book, t.book, x) && t.book.attempt == s.book.attempt[x := a]
      && t.book.meta[x] == s.book.meta[x].(persistedAt := t.book.meta[x].persistedAt)
      && s.clock < t.book.meta[x].persistedAt <= t.clock
      && t.rows == s.rows[x := Row(a, t.book.meta[x].persistedAt, map[], None, None, 0)]
      && t.calls == s.calls && Woke(g, s, t, x)
  {
    DependentsAreDerived(g, x);
    EmitNotifies(g, Store(g, s, x, a), g.dependents[x]);
  }

  /** A handler that runs first queues its node before whatever the later ones queue. */
  lemma FirstIsFirst(g: Graph, s: State, hs: seq<Id>, m: Id)
    requires WellFormed(g, s) && hs != [] && forall h | h in hs :: Derived(g, h)
    requires hs[0] !in s.q.scheduled && IsStale(g, s.book, hs[0])
    requires m in hs && m != hs[0] && m !in s.q.scheduled && IsStale(g, s.book, m)
    ensures var t := EmitTo(g, s, hs);
      hs[0] in t.q.scheduled && m in t.q.scheduled && t.q.scheduled[hs[0]] < t.q.scheduled[m]
  {
    var s1, rest := OnDepChanged(g, s, hs[0]), hs[1..];
    HandlerMoves(g, s, hs[0]);
    EmitNotifies(g, s1, rest);
    assert forall h | h in hs :: h == hs[0] || h in rest;
  }

  /** Handlers run in the order of connection: of two nodes that one signal queues, the earlier is queued first. */
  lemma {:induction false} SignalsInOrder(g: Graph, s: State, hs: seq<Id>, i: int, j: int)
    requires WellFormed(g, s) && (forall h | h in hs :: Derived(g, h)) && 0 <= i < j < |hs| && hs[j] !in hs[..j]
    requires hs[i] !in s.q.scheduled && hs[j] !in s.q.scheduled
    requires IsStale(g, s.book, hs[i]) && IsStale(g, s.book, hs[j])
    ensures var t := EmitTo(g, s, hs);
      hs[i] in t.q.scheduled && hs[j] in t.q.scheduled && t.q.scheduled[hs[i]] < t.q.scheduled[hs[j]]
    decreases |hs|
  {
    BeforeJ(hs, j);
    if hs[i] == hs[0] {
      FirstIsFirst(g, s, hs, hs[j]);
    } else {
      HandlerMoves(g, s, hs[0]);
      SignalsInOrder(g, OnDepChanged(g, s, hs[0]), hs[1..], i - 1, j - 1);
    }
  }

  lemma BeforeJ(hs: seq<Id>, j: int)
    requires 0 < j < |hs| && hs[j] !in hs[..j]
    ensures hs[j] != hs[0] && hs[1..][j - 1] == hs[j] && hs[1..][j - 1] !in hs[1..][..j - 1]
    ensures forall i | 0 < i < |hs| :: hs[1..][i - 1] == hs[i]
  {
    assert hs[0] == hs[..j][0];
    assert hs[..j][1..] == hs[1..][..j - 1];
  }
}
