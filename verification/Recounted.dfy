// The requeue error without a contract bug: the counter of a node that ends each
// drain parked behind an unset input is never reset, so a few ordinary drains
// add up to the error that is documented as "re-queued n times in one drain".
module Recounted {
  import opened Attempts
  import opened DagGraph
  import opened Engine
  import opened Actions
  import opened Refreshes
  import opened Pops
  import opened Runs
  import opened Restart
  import opened Start

  const X := Id("x")
  const Y := Id("y")
  const Z := Id("z")
  const D := Id("d")
  const N := Id("n")

  /** d reads the inputs x and y, n reads d and the input z; built and registered in that order. */
  const G := Graph(
    {X, Y, Z}, [D, N],
    map[D := [X, Y], N := [D, Z]], map[D := [], N := []],
    map[X := [D], Y := [D], Z := [N], D := [N], N := []],
    map[X := 0, Y := 0, Z := 0, D := 1, N := 2], map[D := 1, N := 1],
    (n, atts) => [],
    (n, atts, t) => Returned(Set()))

  function Set(): Attempt { Succeeded(Just(1)) }

  /** What the argument uses of the graph. */
  ghost predicate Chain(g: Graph) {
    && Valid(g) && {X, Y, Z} <= g.inputs && g.fixed.Keys == {N, D} && |g.registered| == 2
    && g.fixed[D] == [X, Y] && g.fixed[N] == [D, Z] && (forall n, atts :: g.choose(n, atts) == [])
    && g.dependents[Y] == [D] && g.dependents[Z] == [N]
  }

  lemma Edges(n: Id, d: Id)
    ensures Edge(G, n, d) <==> (n == D && (d == X || d == Y)) || (n == N && (d == D || d == Z))
  {
  }

  lemma GIsChain()
    ensures Chain(G)
  {
    GIsValid();
  }

  lemma GIsValid()
    ensures Valid(G)
  {
    assert Nodes(G) == {X, Y, Z, D, N} && G.rank.Keys == {X, Y, Z, D, N};
    forall n, d ensures Edge(G, n, d) <==> (n == D && (d == X || d == Y)) || (n == N && (d == D || d == Z)) {
      Edges(n, d);
    }
  }

  lemma Actives(g: Graph, a: map<Id, Attempt>)
    requires Chain(g) && Nodes(g) <= a.Keys
    ensures Active(g, a, D) == [X, Y] && ActiveAttempts(g, a, D) == [a[X], a[Y]]
    ensures Active(g, a, N) == [D, Z] && ActiveAttempts(g, a, N) == [a[D], a[Z]]
  {
    assert forall d | d in g.fixed[D] :: Edge(g, D, d);
    assert forall d | d in g.fixed[N] :: Edge(g, N, d);
  }

  /** x was never set, so d and n are pending, and none of their dependencies failed. */
  ghost predicate Waits(g: Graph, b: Book)
    requires WellFormedBook(g, b) && Chain(g)
  {
    && b.attempt[X].Pending? && b.attempt[D].Pending? && b.attempt[N].Pending?
    && !b.attempt[Y].Impossible? && !b.attempt[Z].Impossible?
  }

  /** n was put back k times since it last settled. */
  ghost predicate Unset(g: Graph, s: State, k: int) {
    Chain(g) && Steady(g, s) && Waits(g, s.book) && Count(s.q.requeues, N) == k
  }

  /** Nothing is queued. */
  ghost predicate Parked(g: Graph, s: State, k: int) {
    Unset(g, s, k) && s.q.scheduled.Keys == {}
  }

  /** Both are queued, n first. */
  ghost predicate NodeFirst(g: Graph, s: State, k: int) {
    Unset(g, s, k) && s.q.scheduled.Keys == {N, D} && s.q.scheduled[N] < s.q.scheduled[D]
  }

  /** Both are queued, d first. */
  ghost predicate DependencyFirst(g: Graph, s: State, k: int) {
    Unset(g, s, k) && s.q.scheduled.Keys == {N, D} && s.q.scheduled[D] < s.q.scheduled[N]
  }

  /** The event of the earliest scheduled node may be popped next. */
  lemma EarliestIsNext(g: Graph, s: State, n: Id)
    requires Steady(g, s) && n in s.q.scheduled
    requires forall m | m in s.q.scheduled :: s.q.scheduled[n] <= s.q.scheduled[m]
    ensures Next(g, s.q, Event(s.q.scheduled[n], n))
  {
    assert s.q.events[Event(s.q.scheduled[n], n)] == 1;
    forall x | x in s.q.events ensures s.q.scheduled[n] <= x.at {
      assert s.q.events[x] == 1;
    }
  }

  // ------------------------------------------------------------- one drain

  lemma NodeIsDeferred(g: Graph, s: State)
    requires Chain(g) && WellFormed(g, s) && Waits(g, s.book) && D in s.q.scheduled
    ensures Judge(g, s, N) == Deferred && Active(g, s.book.attempt, N) == [D, Z] && AnyQueued(s.q, [D, Z])
  {
    Actives(g, s.book.attempt);
    assert [D, Z][0] == D;
  }

  /** n goes behind d, and is counted. */
  lemma DeferStep(g: Graph, s: State, k: int)
    requires NodeFirst(g, s, k) && k < 2
    ensures var e := Event(s.q.scheduled[N], N);
            Next(g, s.q, e) && Pop(g, s, e).1 && DependencyFirst(g, Pop(g, s, e).0, k + 1)
  {
    var e := Event(s.q.scheduled[N], N);
    EarliestIsNext(g, s, N);
    NodeIsDeferred(g, Take(s, e));
    var u := PopActs(g, s, e);
    PutBackBehind(g, s, k, e, u, Pop(g, s, e).0, Pop(g, s, e).1);
  }

  lemma PutBackBehind(g: Graph, s: State, k: int, e: Event, u: State, t: State, ok: bool)
    requires NodeFirst(g, s, k) && k < 2 && e == Event(s.q.scheduled[N], N)
    requires WellFormed(g, u) && Refreshed(g, Take(s, e), u, N) && Judge(g, Take(s, e), N) == Deferred
    requires Settled(g, Take(s, e), u, t, ok, N, Deferred) && Steady(g, t)
    ensures ok && DependencyFirst(g, t, k + 1)
  {
    NodeIsDeferred(g, Take(s, e));
    QueuedBehind(s.q, Take(s, e).q, t.q);
  }

  /** The queue after n was put back behind d alone. */
  lemma QueuedBehind(q: Queue, rest: Queue, p: Queue)
    requires q.scheduled.Keys == {N, D} && rest.scheduled == q.scheduled - {N} && rest.requeues == q.requeues
    requires p == Requeued(rest, [D, Z], N)
    ensures p.scheduled.Keys == {N, D} && p.scheduled[D] == q.scheduled[D] && p.scheduled[N] == q.scheduled[D] + 1
    ensures Count(p.requeues, N) == Count(q.requeues, N) + 1
  {
    assert rest.scheduled.Keys == {D};
    assert [D, Z][0] == D && AnyQueued(rest, [D, Z]);
    assert LastQueued(rest, [D, Z]) == q.scheduled[D];
  }

  /** A node that waits for a parked dependency leaves the queue as it is. */
  lemma BlockedStep(g: Graph, s: State, k: int, n: Id)
    requires Unset(g, s, k) && n in {D, N} && n in s.q.scheduled
    requires forall m | m in s.q.scheduled :: s.q.scheduled[n] <= s.q.scheduled[m]
    requires n == N ==> D !in s.q.scheduled
    ensures var e := Event(s.q.scheduled[n], n);
            Next(g, s.q, e) && Pop(g, s, e) == (Take(s, e), true) && Unset(g, Take(s, e), k)
  {
    var e := Event(s.q.scheduled[n], n);
    EarliestIsNext(g, s, n);
    TakeKeepsSteady(g, s, e);
    NodeIsBlocked(g, Take(s, e), n);
    var u := PopActs(g, s, e);
  }

  lemma NodeIsBlocked(g: Graph, s: State, n: Id)
    requires Chain(g) && Steady(g, s) && Waits(g, s.book) && n in {D, N} && (n == N ==> D !in s.q.scheduled)
    ensures Judge(g, s, n) == Blocked
  {
    Actives(g, s.book.attempt);
    InputsAreNotQueued(g, s);
    var ds, atts := Active(g, s.book.attempt, n), ActiveAttempts(g, s.book.attempt, n);
    assert atts[0].Pending? && !AnyImpossible(atts) && !AnyQueued(s.q, ds);
  }

  lemma InputsAreNotQueued(g: Graph, s: State)
    requires Chain(g) && Steady(g, s)
    ensures X !in s.q.scheduled && Y !in s.q.scheduled && Z !in s.q.scheduled
  {
  }

  // ------------------------------------------------------------ the run

  ghost predicate Reach(g: Graph, start: State, s: State) {
    WellFormed(g, start) && exists acts :: OkRun(g, start, acts, s)
  }

  lemma Reached(g: Graph, start: State, s: State, act: Action, t: State)
    requires Reach(g, start, s) && WellFormed(g, s) && Enabled(g, s, act) && Act(g, s, act) == (t, true)
    ensures Reach(g, start, t)
  {
    var acts :| OkRun(g, start, acts, s);
    OkRunThen(g, start, acts, s, act);
  }

  /** One drain of both nodes: n is put back once and ends parked behind d. */
  lemma DrainOnce(g: Graph, start: State, s: State, k: int) returns (t: State)
    requires Reach(g, start, s) && NodeFirst(g, s, k) && k < 2
    ensures Reach(g, start, t) && Parked(g, t, k + 1)
  {
    var e := Event(s.q.scheduled[N], N);
    DeferStep(g, s, k);
    t := Pop(g, s, e).0;
    Reached(g, start, s, Drain(e), t);
    t := DrainBoth(g, start, t, k + 1);
  }

  /** A drain that meets d first puts nothing back. */
  lemma DrainBoth(g: Graph, start: State, s: State, k: int) returns (t: State)
    requires Reach(g, start, s) && DependencyFirst(g, s, k)
    ensures Reach(g, start, t) && Parked(g, t, k)
  {
    t := DrainDependency(g, start, s, k);
    t := DrainNode(g, start, t, k);
  }

  lemma DrainDependency(g: Graph, start: State, s: State, k: int) returns (t: State)
    requires Reach(g, start, s) && DependencyFirst(g, s, k)
    ensures Reach(g, start, t) && Unset(g, t, k) && t.q.scheduled.Keys == {N}
  {
    var e := Event(s.q.scheduled[D], D);
    BlockedStep(g, s, k, D);
    t := Take(s, e);
    Reached(g, start, s, Drain(e), t);
  }

  lemma DrainNode(g: Graph, start: State, s: State, k: int) returns (t: State)
    requires Reach(g, start, s) && Unset(g, s, k) && s.q.scheduled.Keys == {N}
    ensures Reach(g, start, t) && Parked(g, t, k)
  {
    var e := Event(s.q.scheduled[N], N);
    BlockedStep(g, s, k, N);
    t := Take(s, e);
    Reached(g, start, s, Drain(e), t);
  }

  /** A pushed input wakes its one pending dependent, later than everything queued before. */
  lemma WakeStep(g: Graph, s: State, k: int, x: Id, n: Id) returns (t: State)
    requires Unset(g, s, k) && ((x == Z && n == N) || (x == Y && n == D)) && n !in s.q.scheduled
    ensures t == Write(g, s, x, Set()) && Unset(g, t, k) && Woke(s, t, n)
  {
    t := Write(g, s, x, Set());
    var s1 := Store(g, s, x, Set());
    WriteKeepsSteady(g, s, x, Set());
    EmitNotifies(g, s1, [n]);
    NotifiedWakes(g, s, s1, t, n);
  }

  ghost predicate Woke(s: State, t: State, n: Id) {
    && t.q.scheduled.Keys == s.q.scheduled.Keys + {n}
    && (forall m | m in s.q.scheduled :: t.q.scheduled[m] == s.q.scheduled[m])
    && s.clock < t.q.scheduled[n] <= t.clock
  }

  lemma NotifiedWakes(g: Graph, s: State, s1: State, t: State, n: Id)
    requires WellFormed(g, s1) && Derived(g, n) && Notified(g, s1, t, [n]) && s1.q == s.q && s.clock <= s1.clock
    requires s1.book.attempt[n].Pending? && n !in s.q.scheduled
    ensures Woke(s, t, n)
  {
    assert n in [n] && IsStale(g, s1.book, n);
  }

  lemma WakeBoth(g: Graph, start: State, s: State, k: int) returns (t: State)
    requires Reach(g, start, s) && Parked(g, s, k)
    ensures t == Write(g, Write(g, s, Z, Set()), Y, Set())
    ensures Reach(g, start, t) && NodeFirst(g, t, k)
  {
    var s1 := Wake(g, start, s, k, Z, N);
    t := Wake(g, start, s1, k, Y, D);
    BothWoke(s, s1, t);
  }

  lemma Wake(g: Graph, start: State, s: State, k: int, x: Id, n: Id) returns (t: State)
    requires Reach(g, start, s) && Unset(g, s, k) && ((x == Z && n == N) || (x == Y && n == D))
    requires n !in s.q.scheduled
    ensures t == Write(g, s, x, Set()) && Reach(g, start, t) && Unset(g, t, k) && Woke(s, t, n)
  {
    t := WakeStep(g, s, k, x, n);
    Reached(g, start, s, Push(x, Set()), t);
  }

  lemma BothWoke(s: State, s1: State, t: State)
    requires s.q.scheduled.Keys == {} && Woke(s, s1, N) && Woke(s1, t, D)
    ensures t.q.scheduled.Keys == {N, D} && t.q.scheduled[N] < t.q.scheduled[D]
  {
  }

  /** Two pushes and a drain: n is put back once more. */
  lemma Round(g: Graph, start: State, s: State, k: int) returns (t: State)
    requires Reach(g, start, s) && Parked(g, s, k) && k < 2
    ensures Reach(g, start, t) && Parked(g, t, k + 1)
  {
    t := WakeBoth(g, start, s, k);
    t := DrainOnce(g, start, t, k);
  }

  lemma ThreeDrains(g: Graph, start: State) returns (acts: seq<Action>, t: State)
    requires Reach(g, start, start) && DependencyFirst(g, start, 0)
    ensures OkRun(g, start, acts, t) && Reach(g, start, t) && Parked(g, t, 2) && Idle(t)
  {
    t := DrainBoth(g, start, start, 0);
    t := Round(g, start, t, 0);
    t := Round(g, start, t, 1);
    ParkedIsIdle(g, t);
    acts :| OkRun(g, start, acts, t);
  }

  lemma ParkedIsIdle(g: Graph, s: State)
    requires Steady(g, s) && s.q.scheduled.Keys == {}
    ensures Idle(s)
  {
    forall e: Event ensures s.q.events[e] == 0 {
    }
  }

  lemma RaisesNow(g: Graph, s: State)
    requires NodeFirst(g, s, 2)
    ensures exists e :: Next(g, s.q, e) && !Pop(g, s, e).1
  {
    var e := Event(s.q.scheduled[N], N);
    EarliestIsNext(g, s, N);
    NodeIsDeferred(g, Take(s, e));
    var u := PopActs(g, s, e);
  }

  lemma RegistersTwo(g: Graph, s: State, d: Id, n: Id)
    requires WellFormed(g, s) && Derived(g, d) && Derived(g, n) && d != n && s.q.scheduled == map[]
    requires s.book.attempt[d].Pending? && s.book.attempt[n].Pending?
    requires s.book.meta[d].retryAt == None && s.book.meta[n].retryAt == None
    ensures RegisterAll(g, s, [d, n]).q.scheduled == map[d := s.clock + 1, n := s.clock + 2]
  {
    var s1 := Register(g, s, d);
    var s2 := Register(g, s1, n);
    assert [d, n][1..] == [n] && [n][1..] == [];
    assert RegisterAll(g, s, [d, n]) == RegisterAll(g, s1, [n]) == RegisterAll(g, s2, []) == s2;
  }

  lemma Starts() returns (start: State)
    ensures Chain(G) && start == Boot(G, map[], 0) && Reach(G, start, start) && DependencyFirst(G, start, 0)
  {
    GIsChain();
    start := Boot(G, map[], 0);
    FirstStart(G, 0);
    var empty := Queue(multiset{}, map[], map[]);
    RegistersTwo(G, State(Reload(G, map[]), RestoredRetries(G, map[]), empty, 0, map[], []), D, N);
    assert OkRun(G, start, [], start);
  }

  /**
   * The error of an ordinary run: a new process, drains that put n back once at
   * most and end at an empty queue, and pushes in between. After three drains
   * the counter stands at the number of registered nodes, and two pushes later
   * the next pop raises.
   */
  lemma CountsAddUp() returns (acts: seq<Action>, m: State, t: State)
    ensures Valid(G) && OkRun(G, Boot(G, map[], 0), acts, m)
    ensures WellFormed(G, m) && Idle(m) && Count(m.q.requeues, N) == |G.registered|
    ensures t == Write(G, Write(G, m, Z, Set()), Y, Set())
    ensures exists e :: Next(G, t.q, e) && !Pop(G, t, e).1
  {
    var start := Starts();
    acts, m := ThreeDrains(G, start);
    t := WakeBoth(G, start, m, 2);
    RaisesNow(G, t);
  }
}
