// Every drain halts, whichever of the earliest events is popped, on every
// acyclic graph whose failures carry no Retry-After.
module Termination {
  import opened Attempts
  import opened DagGraph
  import opened Engine
  import opened Frames
  import opened Actions
  import opened Refreshes
  import opened Pops
  import opened Powers

  // ------------------------------------------------------- retry counters

  ghost predicate NoRetryAfter(g: Graph) {
    forall n, atts, t :: g.world(n, atts, t).Transient? ==> g.world(n, atts, t).retryAfter == None
  }

  ghost predicate Counted(s: State) {
    forall n :: 0 <= Count(s.retries, n)
  }

  lemma ResetCounter(s: State, n: Id)
    requires Counted(s)
    ensures Counted(s.(retries := s.retries[n := 0]))
  {
    var t := s.(retries := s.retries[n := 0]);
    forall m ensures 0 <= Count(t.retries, m) {
      assert 0 <= Count(s.retries, m);
    }
  }

  /** Only n and its dependents had their counter touched, dependents back to 0. */
  ghost predicate CountersMoved(g: Graph, s: State, t: State, n: Id)
    requires Valid(g) && n in Nodes(g)
  {
    forall m | m != n ::
      || Count(t.retries, m) == Count(s.retries, m)
      || (m in g.dependents[n] && Count(t.retries, m) == 0)
  }

  lemma CompleteCounters(g: Graph, s: State, f: Flight, result: Attempt)
    requires WellFormed(g, s) && Derived(g, f.node) && Counted(s)
    ensures CountersMoved(g, s, Complete(g, s, f, result), f.node) && Counted(Complete(g, s, f, result))
    ensures result.Pending? ==> Complete(g, s, f, result).retries == s.retries
  {
    if !result.Pending? {
      DependentsAreDerived(g, f.node);
      EmitNotifies(g, Record(g, s, f, result), g.dependents[f.node]);
    }
  }

  /** n is queued only by a retry, which used up one of its retries. */
  ghost predicate PaidRetry(s: State, t: State, n: Id) {
    n in t.q.scheduled ==> Count(s.retries, n) < Count(t.retries, n) <= MAX_RETRIES
  }

  /** After a refresh without a Retry-After n is queued only by a retry that it paid for. */
  lemma RefreshCounters(g: Graph, s: State, n: Id)
    requires Steady(g, s) && Derived(g, n) && n !in s.q.scheduled && Counted(s)
    ensures CountersMoved(g, s, Refresh(g, s, n), n) && Counted(Refresh(g, s, n))
    ensures NoRetryAfter(g) ==> PaidRetry(s, Refresh(g, s, n), n)
    ensures Judge(g, s, n) == Deferred ==> Refresh(g, s, n).retries == s.retries
  {
    match Judge(g, s, n)
    case UpToDate =>
    case Blocked =>
    case Deferred =>
    case DependencyFailed => FailedCounters(g, s, n);
    case Ready => ReadyCounters(g, s, n);
  }

  lemma FailedCounters(g: Graph, s: State, n: Id)
    requires Steady(g, s) && Derived(g, n) && n !in s.q.scheduled && Counted(s) && Judge(g, s, n) == DependencyFailed
    ensures CountersMoved(g, s, Refresh(g, s, n), n) && Counted(Refresh(g, s, n))
    ensures n !in Refresh(g, s, n).q.scheduled
  {
    var f := Bind(g, s.book, n);
    FailedRefreshes(g, s, n);
    ResetCounter(s, n);
    CompleteCounters(g, s.(retries := s.retries[n := 0]), f, Impossible(DepFailed(n, Causes(f.atts))));
  }

  lemma ReadyCounters(g: Graph, s: State, n: Id)
    requires Steady(g, s) && Derived(g, n) && n !in s.q.scheduled && Counted(s)
    requires Judge(g, s, n) == Ready
    ensures CountersMoved(g, s, Refresh(g, s, n), n) && Counted(Refresh(g, s, n))
    ensures NoRetryAfter(g) ==> PaidRetry(s, Refresh(g, s, n), n)
  {
    var f := Bind(g, s.book, n);
    BindIsSound(g, s.book, s.clock, n);
    var s1, r := CallPays(g, s, f);
    var t := TailCounts(g, s1, f, r);
    PaidAndFinished(g, s, s1, t, f, r);
    ReadyFinishes(g, s, n);
  }

  lemma ReadyFinishes(g: Graph, s: State, n: Id)
    requires WellFormed(g, s) && Derived(g, n) && Judge(g, s, n) == Ready
    ensures var f := Bind(g, s.book, n);
      Refresh(g, s, n) == Finish(g, RunCompute(g, s, f).0, f, RunCompute(g, s, f).1)
  {
  }

  /** s1 is s after one call: only n's counter moved, and n is queued only by a retry that it paid for. */
  ghost predicate Paid(g: Graph, s: State, s1: State, n: Id, r: Attempt) {
    && (forall m | m != n :: Count(s1.retries, m) == Count(s.retries, m))
    && (s1.q == s.q || r.Pending?)
    && (NoRetryAfter(g) && s1.q != s.q ==> r.Pending? && Count(s.retries, n) < Count(s1.retries, n) <= MAX_RETRIES)
  }

  lemma CallPays(g: Graph, s: State, f: Flight) returns (s1: State, r: Attempt)
    requires WellFormed(g, s) && SoundBook(g, s.book, s.clock) && Derived(g, f.node) && Counted(s)
    ensures (s1, r) == RunCompute(g, s, f)
    ensures WellFormed(g, s1) && SoundBook(g, s1.book, s1.clock) && s.clock <= s1.clock
    ensures Counted(s1) && Paid(g, s, s1, f.node, r)
  {
    s1, r := RunCompute(g, s, f).0, RunCompute(g, s, f).1;
    RunComputeActs(g, s, f);
    ComputeCounters(g, s, f);
  }

  lemma TailCounts(g: Graph, s: State, f: Flight, r: Attempt) returns (t: State)
    requires WellFormed(g, s) && SoundBook(g, s.book, s.clock) && SoundFlight(g, f, s.clock) && Counted(s)
    ensures t == Finish(g, s, f, r) && Finished(g, s, t, f, r)
    ensures CountersMoved(g, s, t, f.node) && Counted(t) && (r.Pending? ==> t.retries == s.retries)
  {
    t := Finish(g, s, f, r);
    FinishCounters(g, s, f, r);
    FinishActs(g, s, f, r);
  }

  /** The counters after a call and after the tail of its refresh, composed. */
  lemma PaidAndFinished(g: Graph, s: State, s1: State, t: State, f: Flight, r: Attempt)
    requires WellFormed(g, s) && WellFormed(g, s1) && Derived(g, f.node) && f.node !in s.q.scheduled
    requires Paid(g, s, s1, f.node, r)
    requires CountersMoved(g, s1, t, f.node) && (r.Pending? ==> t.retries == s1.retries)
    requires Finished(g, s1, t, f, r)
    ensures CountersMoved(g, s, t, f.node)
    ensures NoRetryAfter(g) ==> PaidRetry(s, t, f.node)
  {
    NotOwnDependent(g, f.node);
  }

  lemma ComputeCounters(g: Graph, s: State, f: Flight)
    requires WellFormed(g, s) && Derived(g, f.node) && Counted(s)
    ensures var (s1, r) := RunCompute(g, s, f); Counted(s1) && Paid(g, s, s1, f.node, r)
  {
    var (s1, r) := RunCompute(g, s, f);
    assert 0 <= Count(s.retries, f.node);
    assert s1.retries == s.retries || s1.retries == s.retries[f.node := Count(s1.retries, f.node)];
    forall m ensures 0 <= Count(s1.retries, m) {
      assert 0 <= Count(s.retries, m);
    }
  }

  lemma FinishCounters(g: Graph, s: State, f: Flight, result: Attempt)
    requires WellFormed(g, s) && Derived(g, f.node) && Counted(s)
    ensures CountersMoved(g, s, Finish(g, s, f, result), f.node) && Counted(Finish(g, s, f, result))
    ensures result.Pending? ==> Finish(g, s, f, result).retries == s.retries
  {
    CompleteCounters(g, s, f, result);
  }

  // --------------------------------------------------------------- sums

  function Sum(ds: seq<Id>, w: Id -> int): int {
    if ds == [] then 0 else w(ds[0]) + Sum(ds[1..], w)
  }

  lemma {:induction false} SumNonNegative(ds: seq<Id>, w: Id -> int)
    requires forall n :: 0 <= w(n)
    ensures 0 <= Sum(ds, w)
  {
    if ds != [] {
      SumNonNegative(ds[1..], w);
    }
  }

  lemma {:induction false} SumGrowsAtMost(ds: seq<Id>, w: Id -> int, v: Id -> int, k: int)
    requires forall m | m in ds :: v(m) <= w(m) + k
    ensures Sum(ds, v) <= Sum(ds, w) + |ds| * k
  {
    if ds != [] {
      SumGrowsAtMost(ds[1..], w, v, k);
    }
  }

  /** One weight moves by v(n) - w(n), every other one grows by at most k. */
  lemma {:induction false} SumMoves(ds: seq<Id>, w: Id -> int, v: Id -> int, n: Id, k: int)
    requires n in ds && forall i, j | 0 <= i < j < |ds| :: ds[i] != ds[j]
    requires 0 <= k && forall m | m in ds && m != n :: v(m) <= w(m) + k
    ensures Sum(ds, v) <= Sum(ds, w) + |ds| * k + v(n) - w(n)
  {
    var rest := ds[1..];
    assert |ds| * k == |rest| * k + k;
    if ds[0] == n {
      SumGrowsAtMost(rest, w, v, k);
    } else {
      SumMoves(rest, w, v, n, k);
    }
  }

  lemma {:induction false} SumSame(ds: seq<Id>, w: Id -> int, v: Id -> int)
    requires forall m | m in ds :: v(m) == w(m)
    ensures Sum(ds, v) == Sum(ds, w)
  {
    if ds != [] {
      SumSame(ds[1..], w, v);
    }
  }

  // -------------------------------------------------------------- weights

  function TopRank(g: Graph, ds: seq<Id>): (top: int)
    requires forall d | d in ds :: d in g.rank
    ensures forall d | d in ds :: g.rank[d] <= top
  {
    if ds == [] then 0
    else
      var rest := TopRank(g, ds[1..]);
      assert forall d | d in ds :: d == ds[0] || d in ds[1..];
      if rest < g.rank[ds[0]] then g.rank[ds[0]] else rest
  }

  function Rank(g: Graph, n: Id): int {
    if n in g.rank then g.rank[n] else 0
  }

  /** The base of the weights: one drop outweighs a full charge of every other node. */
  function Base(g: Graph): int {
    (MAX_RETRIES + 1) * |g.registered| + 1
  }

  /** A queued node weighs one plus its remaining retries. */
  function Charge(s: State, n: Id): int {
    if n !in s.q.scheduled then 0
    else
      var used := Count(s.retries, n);
      if used < MAX_RETRIES then 1 + MAX_RETRIES - used else 1
  }

  function Weight(g: Graph, s: State, top: int, n: Id): int {
    Charge(s, n) * Power(Base(g), top - Rank(g, n))
  }

  function Weights(g: Graph, s: State, top: int): Id -> int {
    n => Weight(g, s, top, n)
  }

  /** Upstream nodes weigh most. */
  ghost function TotalWeight(g: Graph, s: State): int
    requires Valid(g)
  {
    var top := TopRank(g, g.registered);
    Sum(g.registered, Weights(g, s, top))
  }

  lemma ChargeBounds(s: State, n: Id)
    requires Counted(s)
    ensures 0 <= Charge(s, n) <= MAX_RETRIES + 1
  {
    assert 0 <= Count(s.retries, n);
  }

  /** What one full charge downstream of n can weigh. */
  function Downstream(g: Graph, top: int, n: Id): int {
    if Rank(g, n) < top then (MAX_RETRIES + 1) * Power(Base(g), top - Rank(g, n) - 1) else 0
  }

  /** All full charges downstream of n together weigh less than one unit of n. */
  lemma UnitOutweighs(g: Graph, top: int, n: Id)
    requires Rank(g, n) <= top
    ensures 0 <= Downstream(g, top, n) && |g.registered| * Downstream(g, top, n) < Power(Base(g), top - Rank(g, n))
  {
    var r := Rank(g, n);
    PowerMonotone(Base(g), 0, top - r);
    if r < top {
      PowerMonotone(Base(g), 0, top - r - 1);
      BaseOutweighs(|g.registered|, Power(Base(g), top - r - 1));
    }
  }

  lemma BaseOutweighs(count: int, p: int)
    requires 0 <= count && 1 <= p
    ensures 0 <= (MAX_RETRIES + 1) * p
    ensures count * ((MAX_RETRIES + 1) * p) < ((MAX_RETRIES + 1) * count + 1) * p
  {
    assert count * ((MAX_RETRIES + 1) * p) == ((MAX_RETRIES + 1) * count) * p;
  }

  /** Charges move only at n, which loses at least one, and at its dependents. */
  ghost predicate Discharged(g: Graph, s: State, t: State, n: Id)
    requires Valid(g) && n in Nodes(g)
  {
    && Counted(s) && Counted(t)
    && Charge(t, n) < Charge(s, n)
    && forall m | m != n && m !in g.dependents[n] :: Charge(t, m) == Charge(s, m)
  }

  /** A node other than n grows by at most one full charge downstream of n. */
  lemma OthersGrowAtMost(g: Graph, s: State, t: State, n: Id, top: int, m: Id)
    requires Valid(g) && Derived(g, n) && Discharged(g, s, t, n) && Derived(g, m) && m != n
    requires Rank(g, m) <= top
    ensures Weight(g, t, top, m) <= Weight(g, s, top, m) + Downstream(g, top, n)
  {
    var r, b := Rank(g, n), Base(g);
    if m in g.dependents[n] {
      assert Edge(g, m, n);
      ChargeBounds(s, m);
      ChargeBounds(t, m);
      PowerMonotone(b, top - Rank(g, m), top - r - 1);
      MulMonotone(Charge(t, m), MAX_RETRIES + 1, Power(b, top - Rank(g, m)), Power(b, top - r - 1));
      MulMonotone(0, Charge(s, m), Power(b, top - Rank(g, m)), Power(b, top - Rank(g, m)));
    } else {
      assert Charge(t, m) == Charge(s, m);
      if r < top {
        PowerMonotone(b, 0, top - r - 1);
        MulMonotone(0, MAX_RETRIES + 1, Power(b, top - r - 1), Power(b, top - r - 1));
      }
    }
  }

  lemma AllOthersGrowAtMost(g: Graph, s: State, t: State, n: Id, top: int)
    requires Valid(g) && Derived(g, n) && Discharged(g, s, t, n)
    requires forall m | m in g.registered :: Rank(g, m) <= top
    ensures forall m | m in g.registered && m != n ::
              Weights(g, t, top)(m) <= Weights(g, s, top)(m) + Downstream(g, top, n)
  {
    forall m | m in g.registered && m != n
      ensures Weights(g, t, top)(m) <= Weights(g, s, top)(m) + Downstream(g, top, n)
    {
      OthersGrowAtMost(g, s, t, n, top, m);
    }
  }

  /** n itself loses at least one unit. */
  lemma NodeLoses(g: Graph, s: State, t: State, n: Id, top: int)
    requires Charge(t, n) < Charge(s, n) && 0 <= Power(Base(g), top - Rank(g, n))
    ensures Weights(g, t, top)(n) <= Weights(g, s, top)(n) - Power(Base(g), top - Rank(g, n))
  {
    OneUnitLess(Charge(t, n), Charge(s, n), Power(Base(g), top - Rank(g, n)));
  }

  lemma OneUnitLess(c: int, d: int, unit: int)
    requires c < d && 0 <= unit
    ensures c * unit <= d * unit - unit
  {
    MulMonotone(c, d - 1, unit, unit);
    assert (d - 1) * unit == d * unit - unit;
  }

  lemma DischargedWeighsLess(g: Graph, s: State, t: State, n: Id)
    requires Valid(g) && Derived(g, n) && Discharged(g, s, t, n)
    ensures TotalWeight(g, t) < TotalWeight(g, s)
  {
    var top := TopRank(g, g.registered);
    assert n in g.registered;
    UnitOutweighs(g, top, n);
    NodeLoses(g, s, t, n, top);
    AllOthersGrowAtMost(g, s, t, n, top);
    SumMoves(g.registered, Weights(g, s, top), Weights(g, t, top), n, Downstream(g, top, n));
  }

  // --------------------------------------------------------------- slack

  /** No queued event lies later than its node's rank above the horizon. */
  ghost predicate Bounded(g: Graph, q: Queue, horizon: int) {
    forall n | n in q.scheduled :: q.scheduled[n] <= horizon + Rank(g, n)
  }

  function Slack(g: Graph, q: Queue, horizon: int, n: Id): int {
    if n in q.scheduled then horizon + Rank(g, n) - q.scheduled[n] else 0
  }

  function Slacks(g: Graph, q: Queue, horizon: int): Id -> int {
    n => Slack(g, q, horizon, n)
  }

  ghost function TotalSlack(g: Graph, q: Queue, horizon: int): int {
    Sum(g.registered, Slacks(g, q, horizon))
  }

  /** Putting n back behind a queued dependency stays under the horizon and uses up slack. */
  lemma RequeueUsesSlack(g: Graph, q: Queue, e: Event, ds: seq<Id>, horizon: int)
    requires Valid(g) && Derived(g, e.node) && InStep(q) && Next(g, q, e) && Bounded(g, q, horizon)
    requires forall d | d in ds :: Edge(g, e.node, d)
    requires AnyQueued(Queue(q.events, q.scheduled - {e.node}, q.requeues), ds)
    ensures var rest := Queue(q.events - multiset{e}, q.scheduled - {e.node}, q.requeues);
            var p := Requeued(rest, ds, e.node);
            Bounded(g, p, horizon) && TotalSlack(g, p, horizon) < TotalSlack(g, q, horizon)
  {
    var n := e.node;
    var rest := Queue(q.events - multiset{e}, q.scheduled - {n}, q.requeues);
    var p := Requeued(rest, ds, n);
    assert AnyQueued(rest, ds);
    var d :| d in ds && d in rest.scheduled && rest.scheduled[d] == LastQueued(rest, ds);
    assert Edge(g, n, d);
    assert q.events[e] == 1 && q.scheduled[n] == e.at;
    assert q.events[Event(q.scheduled[d], d)] == 1;
    assert n in g.registered;
    var w, v := Slacks(g, q, horizon), Slacks(g, p, horizon);
    SumMoves(g.registered, w, v, n, 0);
  }

  // --------------------------------------------------------- every drain halts

  lemma RefreshDischarges(g: Graph, s: State, u: State, t: State, n: Id)
    requires Valid(g) && Derived(g, n) && n in s.q.scheduled
    requires Counted(s) && Counted(u) && CountersMoved(g, s, u, n)
    requires forall m | m in s.q.scheduled && m != n :: m in u.q.scheduled
    requires forall m | m in u.q.scheduled :: m in s.q.scheduled || m == n || m in g.dependents[n]
    requires PaidRetry(s, u, n) || n !in t.q.scheduled
    requires t.retries == u.retries && forall m | m != n :: m in t.q.scheduled <==> m in u.q.scheduled
    requires n in t.q.scheduled ==> n in u.q.scheduled
    ensures Discharged(g, s, t, n)
  {
    forall m | m != n && m !in g.dependents[n] ensures Charge(t, m) == Charge(s, m) {
      assert Count(u.retries, m) == Count(s.retries, m);
    }
    forall m ensures 0 <= Count(t.retries, m) {
      assert 0 <= Count(u.retries, m);
    }
  }

  lemma RequeueKeepsWeight(g: Graph, s: State, t: State)
    requires Valid(g) && t.q.scheduled.Keys == s.q.scheduled.Keys && t.retries == s.retries
    ensures TotalWeight(g, t) == TotalWeight(g, s)
  {
    var top := TopRank(g, g.registered);
    forall m | m in g.registered ensures Weights(g, t, top)(m) == Weights(g, s, top)(m) {
      assert Charge(t, m) == Charge(s, m);
    }
    SumSame(g.registered, Weights(g, s, top), Weights(g, t, top));
  }

  /** t weighs less than s, or as much with less slack under the horizon. */
  ghost predicate Lighter(g: Graph, s: State, t: State, horizon: int)
    requires Valid(g)
  {
    || TotalWeight(g, t) < TotalWeight(g, s)
    || (&& TotalWeight(g, t) == TotalWeight(g, s)
        && Bounded(g, t.q, horizon)
        && TotalSlack(g, t.q, horizon) < TotalSlack(g, s.q, horizon))
  }

  lemma RequeueIsLighter(g: Graph, s: State, e: Event, t: State, ds: seq<Id>, horizon: int)
    requires Valid(g) && InStep(s.q) && Next(g, s.q, e) && Bounded(g, s.q, horizon)
    requires (forall d | d in ds :: Edge(g, e.node, d)) && AnyQueued(Take(s, e).q, ds)
    requires t.q == Requeued(Take(s, e).q, ds, e.node) && t.retries == s.retries
    ensures Lighter(g, s, t, horizon)
  {
    assert s.q.events[e] == 1;
    RequeueUsesSlack(g, s.q, e, ds, horizon);
    RequeueKeepsWeight(g, s, t);
  }

  /** A pop that does not put its node back takes charge off it, also where it raises. */
  lemma SettledDischarges(g: Graph, s: State, e: Event, u: State, t: State)
    requires WellFormed(g, s) && Derived(g, e.node) && e.node in s.q.scheduled && Counted(s)
    requires Refreshed(g, Take(s, e), u, e.node) && Counted(u) && CountersMoved(g, s, u, e.node)
    requires PaidRetry(s, u, e.node)
    requires t.q.scheduled == u.q.scheduled && t.retries == u.retries
    ensures TotalWeight(g, t) < TotalWeight(g, s)
  {
    RefreshDischarges(g, s, u, t, e.node);
    DischargedWeighsLess(g, s, t, e.node);
  }

  lemma DeferredIsLighter(g: Graph, s: State, e: Event, t: State, horizon: int)
    requires WellFormed(g, s) && InStep(s.q) && Next(g, s.q, e) && Bounded(g, s.q, horizon)
    requires Judge(g, Take(s, e), e.node) == Deferred && t.retries == s.retries
    requires t.q == Requeued(Take(s, e).q, Active(g, s.book.attempt, e.node), e.node)
    ensures Lighter(g, s, t, horizon)
  {
    var ds := Active(g, s.book.attempt, e.node);
    assert forall d | d in ds :: Edge(g, e.node, d);
    RequeueIsLighter(g, s, e, t, ds, horizon);
  }

  lemma SettledIsLighter(g: Graph, s: State, e: Event, u: State, t: State, ok: bool, horizon: int)
    requires Steady(g, s) && Counted(s) && Next(g, s.q, e) && Bounded(g, s.q, horizon)
    requires Refreshed(g, Take(s, e), u, e.node)
    requires Settled(g, Take(s, e), u, t, ok, e.node, Judge(g, Take(s, e), e.node))
    requires Counted(u) && CountersMoved(g, s, u, e.node)
    requires PaidRetry(s, u, e.node)
    requires Judge(g, Take(s, e), e.node) == Deferred ==> u.q == Take(s, e).q && u.retries == s.retries
    ensures Lighter(g, s, t, horizon)
  {
    if ok && u.book.attempt[e.node].Pending? && Judge(g, Take(s, e), e.node) == Deferred {
      DeferredIsLighter(g, s, e, t, horizon);
    } else {
      TakeKeepsSteady(g, s, e);
      SettledDischarges(g, s, e, u, t);
    }
  }

  /** Each pop, raising ones included, either discharges a node, or keeps all charges and uses up slack. */
  lemma PopDecreases(g: Graph, s: State, e: Event, horizon: int)
    requires Steady(g, s) && Counted(s) && NoRetryAfter(g) && Next(g, s.q, e) && Bounded(g, s.q, horizon)
    ensures Steady(g, Pop(g, s, e).0) && Counted(Pop(g, s, e).0) && Lighter(g, s, Pop(g, s, e).0, horizon)
  {
    var n, s1, t := e.node, Take(s, e), Pop(g, s, e).0;
    var u := Refresh(g, s1, n);
    TakeKeepsSteady(g, s, e);
    RefreshActs(g, s1, n);
    RefreshCounters(g, s1, n);
    RefreshedSettles(g, s1, u, n);
    ActedKeepsSteady(g, s1, u, n);
    SettledKeepsSteady(g, s1, u, t, Pop(g, s, e).1, n, Judge(g, s1, n));
    SettledIsLighter(g, s, e, u, t, Pop(g, s, e).1, horizon);
  }

  /** Counters stay counts over every run, Retry-After or not. */
  lemma {:induction false} RunKeepsCounted(g: Graph, s: State, acts: seq<Action>, t: State)
    requires Steady(g, s) && Counted(s) && Run(g, s, acts, t)
    ensures Steady(g, t) && Counted(t)
    decreases |acts|
  {
    if acts != [] {
      match acts[0] {
        case Push(x, a) =>
          WriteKeepsSteady(g, s, x, a);
          PushKeepsCounted(g, s, x, a);
        case Drain(e) =>
          PopKeepsCounted(g, s, e);
      }
      RunKeepsCounted(g, Act(g, s, acts[0]).0, acts[1..], t);
    }
  }

  lemma PushKeepsCounted(g: Graph, s: State, x: Id, a: Attempt)
    requires WellFormed(g, s) && x in g.inputs && Counted(s)
    ensures Counted(Write(g, s, x, a))
  {
    DependentsAreDerived(g, x);
    EmitNotifies(g, Store(g, s, x, a), g.dependents[x]);
  }

  lemma PopKeepsCounted(g: Graph, s: State, e: Event)
    requires Steady(g, s) && Counted(s) && Next(g, s.q, e)
    ensures Steady(g, Pop(g, s, e).0) && Counted(Pop(g, s, e).0)
  {
    var s1 := Take(s, e);
    TakeKeepsSteady(g, s, e);
    RefreshCounters(g, s1, e.node);
    SettleKeepsCounters(g, Refresh(g, s1, e.node), e.node);
    var _ := PopActs(g, s, e);
  }

  lemma SettleKeepsCounters(g: Graph, u: State, n: Id)
    requires WellFormed(g, u) && Derived(g, n) && Counted(u)
    ensures Counted(Settle(g, u, n).0)
  {
    assert Settle(g, u, n).0.retries == u.retries;
    forall m ensures 0 <= Count(Settle(g, u, n).0.retries, m) {
      assert 0 <= Count(u.retries, m);
    }
  }

  /** A horizon above every queued event. */
  function Horizon(q: Queue, ds: seq<Id>): int {
    LastQueued(q, ds)
  }

  lemma HorizonBounds(g: Graph, s: State)
    requires Steady(g, s)
    ensures Bounded(g, s.q, Horizon(s.q, g.registered))
  {
    forall n | n in s.q.scheduled ensures s.q.scheduled[n] <= Horizon(s.q, g.registered) + Rank(g, n) {
      assert n in g.registered;
    }
  }

  lemma MeasuresNonNegative(g: Graph, s: State, horizon: int)
    requires Steady(g, s) && Counted(s) && Bounded(g, s.q, horizon)
    ensures 0 <= TotalWeight(g, s) && 0 <= TotalSlack(g, s.q, horizon)
  {
    var top := TopRank(g, g.registered);
    forall n ensures 0 <= Weights(g, s, top)(n) && 0 <= Slacks(g, s.q, horizon)(n) {
      ChargeBounds(s, n);
      PowerMonotone(Base(g), 0, if top < Rank(g, n) then 0 else top - Rank(g, n));
      MulMonotone(0, Charge(s, n), Power(Base(g), top - Rank(g, n)), Power(Base(g), top - Rank(g, n)));
    }
    SumNonNegative(g.registered, Weights(g, s, top));
    SumNonNegative(g.registered, Slacks(g, s.q, horizon));
  }

  /**
   * Every sequence of pops from s is finite, whichever earliest event each one
   * takes; after one that raises the background loop goes on.
   */
  least predicate Halts(g: Graph, s: State) {
    WellFormed(g, s) && forall e | Next(g, s.q, e) :: Halts(g, Pop(g, s, e).0)
  }

  /** One pop leads to a state whose drains are shorter. */
  lemma HaltsSooner(k: ORDINAL, g: Graph, s: State, e: Event) returns (j: ORDINAL)
    requires Halts#[k](g, s) && Next(g, s.q, e)
    ensures WellFormed(g, s) && j < k && Halts#[j](g, Pop(g, s, e).0)
    decreases k
  {
    if k.Offset == 0 {
      var i :| i < k && Halts#[i](g, s);
      j := HaltsSooner(i, g, s, e);
    } else {
      j := k - 1;
    }
  }

  lemma HaltsAtSome(g: Graph, s: State) returns (k: ORDINAL)
    requires Halts(g, s)
    ensures Halts#[k](g, s)
  {
    k :| Halts#[k](g, s);
  }

  /** Drain termination: pops of any steady state come to an end. */
  lemma {:induction false} DrainHalts(g: Graph, s: State, horizon: int)
    requires Steady(g, s) && Counted(s) && NoRetryAfter(g) && Bounded(g, s.q, horizon)
    ensures Halts(g, s)
    decreases TotalWeight(g, s), TotalSlack(g, s.q, horizon)
  {
    MeasuresNonNegative(g, s, horizon);
    forall e | Next(g, s.q, e) ensures Halts(g, Pop(g, s, e).0) {
      var t := Pop(g, s, e).0;
      PopDecreases(g, s, e, horizon);
      if TotalWeight(g, t) < TotalWeight(g, s) {
        HorizonBounds(g, t);
        MeasuresNonNegative(g, t, Horizon(t.q, g.registered));
        DrainHalts(g, t, Horizon(t.q, g.registered));
      } else {
        MeasuresNonNegative(g, t, horizon);
        DrainHalts(g, t, horizon);
      }
    }
  }

  /** Whatever is popped in whatever order, every drain of a steady state halts. */
  lemma EveryDrainHalts(g: Graph, s: State)
    requires Steady(g, s) && Counted(s) && NoRetryAfter(g)
    ensures Halts(g, s)
  {
    HorizonBounds(g, s);
    DrainHalts(g, s, Horizon(s.q, g.registered));
  }
}
