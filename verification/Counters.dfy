// The two counters of a node: how often it was put back behind its dependencies,
// over whole runs, and its retries, over a restart.
module Counters {
  import opened Attempts
  import opened DagGraph
  import opened Engine
  import opened Actions
  import opened Refreshes
  import opened Pops
  import opened Restart
  import opened Start
  import opened Operations

  // ------------------------------------------------------------- putting back

  /** Every counter but n's is as it was. */
  ghost predicate OthersRequeues(q: Queue, p: Queue, n: Id) {
    forall m | m != n :: Count(p.requeues, m) == Count(q.requeues, m)
  }

  /**
   * A pending node behind a queued dependency goes back into the queue, right
   * behind the last of them, once for every registered node at most; the next
   * time the error is raised, its count is forgotten and it is not queued.
   */
  lemma PendingGoesBehindItsDependencies(g: Graph, u: State, n: Id)
    requires WellFormed(g, u) && Derived(g, n) && u.book.attempt[n].Pending? && HasQueued(g, u, n)
    ensures var (t, ok) := Settle(g, u, n);
      && t == u.(q := t.q) && OthersRequeues(u.q, t.q, n)
      && (ok <==> Count(u.q.requeues, n) < |g.registered|)
      && (if ok then
            && n in t.q.scheduled && t.q.scheduled == u.q.scheduled[n := t.q.scheduled[n]]
            && t.q.events == u.q.events + multiset{Event(t.q.scheduled[n], n)}
            && Count(t.q.requeues, n) == Count(u.q.requeues, n) + 1
            && JustBehind(u.q, Active(g, u.book.attempt, n), t.q.scheduled[n])
          else t.q.events == u.q.events && t.q.scheduled == u.q.scheduled && Count(t.q.requeues, n) == 0)
  {
    var t := Settle(g, u, n).0;
    forall m | m != n ensures Count(t.q.requeues, m) == Count(u.q.requeues, m) {
    }
  }

  /** `at` is one microsecond after the last queued node of ds. */
  ghost predicate JustBehind(q: Queue, ds: seq<Id>, at: int) {
    && (forall d | d in ds && d in q.scheduled :: q.scheduled[d] < at)
    && exists d | d in ds && d in q.scheduled :: q.scheduled[d] + 1 == at
  }

  /** A pending node with no queued dependency keeps its count and is not queued again. */
  lemma PendingKeepsItsCount(g: Graph, u: State, n: Id)
    requires WellFormed(g, u) && Derived(g, n) && u.book.attempt[n].Pending? && !HasQueued(g, u, n)
    ensures Settle(g, u, n) == (u, true)
  {
  }

  /** A node with a result has its count forgotten; nothing else moves. */
  lemma SettledForgetsItsCount(g: Graph, u: State, n: Id)
    requires WellFormed(g, u) && Derived(g, n) && !u.book.attempt[n].Pending?
    ensures var (t, ok) := Settle(g, u, n);
      && ok && t == u.(q := t.q) && t.q.events == u.q.events && t.q.scheduled == u.q.scheduled
      && Count(t.q.requeues, n) == 0 && OthersRequeues(u.q, t.q, n)
  {
    var t := Settle(g, u, n).0;
    forall m | m != n ensures Count(t.q.requeues, m) == Count(u.q.requeues, m) {
    }
  }

  /**
   * How often n was put back since it last held a result or raised: the pops
   * that left it pending behind a queued dependency.
   */
  ghost function PutBacks(g: Graph, s: State, acts: seq<Action>, n: Id, k: int): int
    requires WellFormed(g, s) && Derived(g, n)
    decreases |acts|
  {
    if acts == [] || !Enabled(g, s, acts[0]) then k
    else
      var (t, ok) := Act(g, s, acts[0]);
      PutBacks(g, t, acts[1..], n,
               if acts[0].Push? || acts[0].event.node != n then k
               else if !ok || !t.book.attempt[n].Pending? then 0
               else if HasQueued(g, t, n) then k + 1
               else k)
  }

  lemma PushCounts(g: Graph, s: State, x: Id, a: Attempt, n: Id)
    requires Steady(g, s) && x in g.inputs
    ensures Steady(g, Write(g, s, x, a)) && Count(Write(g, s, x, a).q.requeues, n) == Count(s.q.requeues, n)
  {
    WriteKeepsSteady(g, s, x, a);
    WriteActs(g, s, x, a);
  }

  /** The queue after a pop, n's entry aside, offers n the same queued dependencies as before its bookkeeping. */
  lemma SameQueuedDependencies(g: Graph, u: State, t: State, n: Id)
    requires WellFormed(g, u) && WellFormed(g, t) && Derived(g, n) && t.book == u.book
    requires forall m | m != n :: m in t.q.scheduled <==> m in u.q.scheduled
    ensures HasQueued(g, t, n) <==> HasQueued(g, u, n)
  {
    assert forall d | d in Active(g, u.book.attempt, n) :: Edge(g, n, d) && d != n;
  }

  lemma SettleCounts(g: Graph, u: State, n: Id, m: Id)
    requires WellFormed(g, u) && Derived(g, n)
    ensures var (t, ok) := Settle(g, u, n);
      Count(t.q.requeues, m) == (
        if m != n then Count(u.q.requeues, m)
        else if !ok || !t.book.attempt[n].Pending? then 0
        else if HasQueued(g, t, n) then Count(u.q.requeues, n) + 1
        else Count(u.q.requeues, n))
  {
    var t := Settle(g, u, n).0;
    if !u.book.attempt[n].Pending? {
      SettledForgetsItsCount(g, u, n);
    } else if HasQueued(g, u, n) {
      PendingGoesBehindItsDependencies(g, u, n);
      SameQueuedDependencies(g, u, t, n);
    } else {
      PendingKeepsItsCount(g, u, n);
    }
  }

  lemma PopCounts(g: Graph, s: State, e: Event, m: Id)
    requires Steady(g, s) && Enabled(g, s, Drain(e)) && Derived(g, m)
    ensures var (t, ok) := Pop(g, s, e);
      && Steady(g, t)
      && Count(t.q.requeues, m) == (
           if m != e.node then Count(s.q.requeues, m)
           else if !ok || !t.book.attempt[m].Pending? then 0
           else if HasQueued(g, t, m) then Count(s.q.requeues, m) + 1
           else Count(s.q.requeues, m))
  {
    var u := RefreshedInPop(g, s, e);
    SettleCounts(g, u, e.node, m);
  }

  lemma RefreshedInPop(g: Graph, s: State, e: Event) returns (u: State)
    requires Steady(g, s) && Enabled(g, s, Drain(e))
    ensures WellFormed(g, u) && Pop(g, s, e) == Settle(g, u, e.node) && Steady(g, Pop(g, s, e).0)
    ensures u.q.requeues == s.q.requeues
  {
    var refreshed := PopActs(g, s, e);
    u := Refresh(g, Take(s, e), e.node);
    RefreshActs(g, Take(s, e), e.node);
  }

  /** Over every run the counter of the requeue bound is the number of put-backs since the node last settled. */
  lemma {:induction false} CounterCountsPutBacks(g: Graph, s: State, acts: seq<Action>, t: State, n: Id)
    requires Steady(g, s) && Run(g, s, acts, t) && Derived(g, n)
    ensures Steady(g, t) && Count(t.q.requeues, n) == PutBacks(g, s, acts, n, Count(s.q.requeues, n))
    decreases |acts|
  {
    if acts != [] {
      match acts[0] {
        case Push(x, a) => PushCounts(g, s, x, a, n);
        case Drain(e) => PopCounts(g, s, e, n);
      }
      CounterCountsPutBacks(g, Act(g, s, acts[0]).0, acts[1..], t, n);
    }
  }

  // ---------------------------------------------------------------- restarting

  /** When the nodes that r has queued beyond s are due: at their stored retry time if that is still to come, or now. */
  ghost predicate DueAsStored(g: Graph, s: State, r: State)
    requires WellFormed(g, s)
  {
    && s.clock <= r.clock && r.book == s.book && r.retries == s.retries
    && (forall n | n in s.q.scheduled :: n in r.q.scheduled && r.q.scheduled[n] == s.q.scheduled[n])
    && forall n | n in r.q.scheduled && n !in s.q.scheduled ::
         && n in s.book.meta
         && (|| s.clock < r.q.scheduled[n] <= r.clock
             || (s.book.meta[n].retryAt == Some(r.q.scheduled[n]) && s.clock < r.q.scheduled[n]))
         && (s.book.meta[n].retryAt.Some? && r.clock < s.book.meta[n].retryAt.value ==>
               r.q.scheduled[n] == s.book.meta[n].retryAt.value)
  }

  lemma RegisterIsDue(g: Graph, s: State, n: Id)
    requires WellFormed(g, s) && Derived(g, n)
    ensures DueAsStored(g, s, Register(g, s, n))
  {
  }

  lemma DueTransitive(g: Graph, s: State, u: State, r: State)
    requires WellFormed(g, s) && WellFormed(g, u) && DueAsStored(g, s, u) && DueAsStored(g, u, r)
    ensures DueAsStored(g, s, r)
  {
  }

  lemma {:induction false} RegisterAllIsDue(g: Graph, s: State, ns: seq<Id>)
    requires WellFormed(g, s) && forall n | n in ns :: Derived(g, n)
    ensures DueAsStored(g, s, RegisterAll(g, s, ns))
    decreases |ns|
  {
    if ns != [] {
      var u := Register(g, s, ns[0]);
      RegisterIsDue(g, s, ns[0]);
      RegisterAllIsDue(g, u, ns[1..]);
      DueTransitive(g, s, u, RegisterAll(g, u, ns[1..]));
    }
  }

  /** n's latest row is that of a node waiting for a retry. */
  predicate AwaitsRetry(rows: map<Id, Row>, n: Id) {
    n in rows && rows[n].attempt.Pending? && rows[n].retryAt.Some?
  }

  /**
   * A start gives a node that awaits a retry the counter of its row, and any
   * other node a fresh one; a retry time that is still to come is kept exactly,
   * and everything else that is queued is due at once.
   */
  lemma BootRestoresRetries(g: Graph, rows: map<Id, Row>, clock: int, n: Id)
    requires Valid(g) && Derived(g, n)
    ensures var r := Boot(g, rows, clock);
      && Count(r.retries, n) == (if AwaitsRetry(rows, n) then rows[n].retryCount else 0)
      && (AwaitsRetry(rows, n) ==> n in r.q.scheduled && r.book.meta[n].retryAt == rows[n].retryAt)
      && (n in r.q.scheduled ==>
            if AwaitsRetry(rows, n) && r.clock < rows[n].retryAt.value
            then r.q.scheduled[n] == rows[n].retryAt.value
            else clock < r.q.scheduled[n] <= r.clock)
  {
    var s := State(Reload(g, rows), RestoredRetries(g, rows), Queue(multiset{}, map[], map[]), clock, rows, []);
    RegisterAllIsDue(g, s, g.registered);
    RegisterAllRegisters(g, s, g.registered);
  }

  /** A node that stored its last retry is refused another one after a restart, exactly as it was before. */
  lemma RestartRefusesAgain(g: Graph, rows: map<Id, Row>, clock: int, n: Id)
    requires Valid(g) && Derived(g, n) && AwaitsRetry(rows, n)
    ensures ScheduleRetry(g, Boot(g, rows, clock), n, None).1 <==> rows[n].retryCount < 2
    ensures forall seconds :: ScheduleRetry(g, Boot(g, rows, clock), n, Some(seconds)).1 <==> rows[n].retryCount < 3
  {
    BootRestoresRetries(g, rows, clock, n);
  }

  /** A row from before the code version was stored counts as the empty version: such a node is stale once. */
  lemma VersionlessRowIsStale(g: Graph, rows: map<Id, Row>, n: Id)
    requires Valid(g) && Derived(g, n) && n in rows && rows[n].version == None
    ensures CodeIsStale(g, Reload(g, rows), n) <==> g.version[n] != 0
  {
  }
}
