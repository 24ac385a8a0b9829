// A lost deployment: a node that got its dependencies after it was built is queued
// before them at a start with new code, is re-stamped as current behind the queued
// dependency, and keeps the result of the old code for good.
module OldCode {
  import opened Attempts
  import opened DagGraph
  import opened Engine
  import opened Frames
  import opened Actions
  import opened Refreshes
  import opened Pops
  import opened Convergence
  import opened Runs
  import opened Restart
  import opened Start
  import opened Rewired
  import opened Deployed

  const X := Id("x")
  const D := Id("d")
  const N := Id("n")

  /** d copies the input x. n reads d, which it got after it was built: it copied d once, and now adds to it. */
  function Wired(deps: seq<Id>, readers: seq<Id>, code: int): Graph {
    Graph({X}, [N, D], map[D := [X], N := deps], map[D := [], N := []], map[X := [D], D := readers, N := []],
          map[X := 0, D := 1, N := 2], map[D := code, N := code],
          (n, atts) => [],
          (n, atts, t) => Returned(Answer(code, n, atts)))
  }

  const PAST := Wired([D], [N], 1)
  const BUILT := Wired([], [], 2)
  const G := Wired([D], [N], 2)

  function Answer(code: int, n: Id, atts: seq<Attempt>): Attempt {
    if atts == [] then Pending
    else if n == N && code == 2 && atts[0].Succeeded? then New()
    else atts[0]
  }

  function Old(): Attempt { Succeeded(Just(1)) }
  function New(): Attempt { Succeeded(Just(2)) }

  function NodeMeta(computed: int, stored: int, stamps: map<Id, int>, code: int): Meta {
    Meta(stored, computed, stamps, Some(code), None)
  }

  const READS_X := map[X := 1]
  const READS_D := map[D := 3]

  /** Every node holds the old value throughout. */
  function Books(mx: Meta, md: Meta, mn: Meta): Book {
    Book(map[X := Old(), D := Old(), N := Old()], map[X := mx, D := md, N := mn])
  }

  function Rows(rn: Row): map<Id, Row> {
    map[X := Row(Old(), 1, map[], None, None, 0), D := Row(Old(), 3, READS_X, Some(1), None, 0), N := rn]
  }

  function OldRow(): Row { Row(Old(), 5, READS_D, Some(1), None, 0) }
  function NewRow(): Row { Row(Old(), 10, READS_D, Some(2), None, 0) }

  const NOTHING := Queue(multiset{}, map[], map[])
  const BOTH := Queue(multiset{Event(7, N), Event(8, D)}, map[N := 7, D := 8], map[])

  function Waiting(n: Id, at: int): Queue {
    Queue(multiset{Event(at, n)}, map[n := at], map[])
  }

  // ------------------------------------------------------------- the graphs

  lemma WiredIsValid(deps: seq<Id>, readers: seq<Id>, code: int)
    requires (deps == [] && readers == []) || (deps == [D] && readers == [N])
    ensures Valid(Wired(deps, readers, code)) && Nodes(Wired(deps, readers, code)) == {X, D, N}
    ensures forall n, d :: Edge(Wired(deps, readers, code), n, d) <==> (n == D && d == X) || (n == N && d in deps)
  {
    var g := Wired(deps, readers, code);
    assert Nodes(g) == {X, D, N} && g.rank.Keys == {X, D, N};
    forall n, d ensures Edge(g, n, d) <==> (n == D && d == X) || (n == N && d in deps) {
    }
  }

  lemma AllValid()
    ensures Valid(PAST) && Valid(BUILT) && Valid(G)
    ensures Nodes(PAST) == Nodes(BUILT) == Nodes(G) == {X, D, N}
  {
    WiredIsValid([D], [N], 1);
    WiredIsValid([], [], 2);
    WiredIsValid([D], [N], 2);
  }

  lemma Actives(code: int, a: map<Id, Attempt>)
    requires var g := Wired([D], [N], code); Valid(g) && Nodes(g) <= a.Keys
    ensures var g := Wired([D], [N], code);
      && Active(g, a, D) == [X] && ActiveAttempts(g, a, D) == [a[X]]
      && Active(g, a, N) == [D] && ActiveAttempts(g, a, N) == [a[D]]
  {
  }

  /** The code is new, and where the graph grew the old dependencies stayed. */
  lemma GraphsRelate()
    requires Valid(PAST) && Valid(BUILT) && Valid(G)
    ensures Redeployed(PAST, G) && Grown(BUILT, G)
  {
    SamePlan();
    NewCode();
  }

  lemma NewCode()
    requires Valid(PAST) && Valid(G)
    ensures Redeployed(PAST, G)
  {
    assert PAST.version[D] != G.version[D] && PAST.version[N] != G.version[N];
  }

  lemma SamePlan()
    requires Valid(BUILT) && Valid(G)
    ensures Grown(BUILT, G)
  {
    WiredIsValid([], [], 2);
    forall a: map<Id, Attempt>, n, d | Nodes(G) <= a.Keys && Nodes(BUILT) <= a.Keys && Derived(BUILT, n)
                                       && d in Active(BUILT, a, n)
      ensures d in Active(G, a, n) {
      assert Edge(BUILT, n, d);
      Actives(2, a);
    }
  }

  // ------------------------------------------------------ before the deployment

  /** The old process at rest: d and n hold what the old code computed. */
  ghost predicate AtRest(s: State) {
    && s.book == Books(Meta(1, 0, map[], None, None), NodeMeta(2, 3, READS_X, 1), NodeMeta(4, 5, READS_D, 1))
    && s.q == NOTHING && s.clock == 6 && s.rows == Rows(OldRow())
  }

  lemma RestIsSteady(s: State)
    requires Valid(PAST) && Nodes(PAST) == {X, D, N} && AtRest(s)
    ensures Steady(PAST, s) && MirroredState(PAST, s)
  {
    assert SoundNode(PAST, s.book, 6, X) && SoundNode(PAST, s.book, 6, D) && SoundNode(PAST, s.book, 6, N);
    RestIsMirrored(s);
  }

  lemma RestIsMirrored(s: State)
    requires Valid(PAST) && Nodes(PAST) == {X, D, N} && AtRest(s)
    ensures MirroredState(PAST, s)
  {
    assert Mirrored(PAST, s.book, s.rows, X) && Mirrored(PAST, s.book, s.rows, D);
    assert Mirrored(PAST, s.book, s.rows, N);
  }

  lemma RestIsConsistent(s: State)
    requires Valid(PAST) && Nodes(PAST) == {X, D, N} && AtRest(s)
    ensures Consistent(PAST, s.book.attempt, D) && Consistent(PAST, s.book.attempt, N) && AllConverging(PAST, s)
  {
    Actives(1, s.book.attempt);
    assert Answers(PAST.world(D, [Old()], 0), Old()) && Answers(PAST.world(N, [Old()], 0), Old());
  }

  // ----------------------------------------------------------------- the start

  function Loaded(rn: Row): Book {
    Books(Meta(1, 1, map[], Some(0), None), NodeMeta(3, 3, READS_X, 1),
          NodeMeta(rn.stamp, rn.stamp, READS_D, if rn.version.Some? then rn.version.value else 0))
  }

  lemma Reloads(g: Graph, rn: Row)
    requires Valid(g) && Nodes(g) == {X, D, N} && (rn == OldRow() || rn == NewRow())
    ensures Reload(g, Rows(rn)) == Loaded(rn)
  {
    ReloadsAttempts(g, rn);
    ReloadsMeta(g, rn);
  }

  lemma ReloadsAttempts(g: Graph, rn: Row)
    requires Valid(g) && Nodes(g) == {X, D, N} && rn.attempt == Old()
    ensures Reload(g, Rows(rn)).attempt == Loaded(rn).attempt
  {
    var rows := Rows(rn);
    assert LoadedAttempt(rows, X) == Old();
    assert LoadedAttempt(rows, D) == Old();
    assert LoadedAttempt(rows, N) == Old();
  }

  lemma ReloadsMeta(g: Graph, rn: Row)
    requires Valid(g) && Nodes(g) == {X, D, N} && rn.attempt == Old() && rn.depStamps == READS_D
    ensures Reload(g, Rows(rn)).meta == Loaded(rn).meta
  {
    var rows := Rows(rn);
    assert LoadedMeta(rows, X) == Loaded(rn).meta[X];
    assert LoadedMeta(rows, D) == Loaded(rn).meta[D];
    assert LoadedMeta(rows, N) == Loaded(rn).meta[N];
  }

  /** Both nodes are queued for their code, n first because it was built first. */
  ghost predicate Booted(s: State) {
    && s.book == Loaded(OldRow()) && s.q == BOTH && s.clock == 8 && s.rows == Rows(OldRow())
    && Count(s.retries, N) == 0
  }

  lemma RegistersStale(s: State, n: Id)
    requires WellFormed(BUILT, s) && Derived(BUILT, n) && n !in s.q.scheduled
    requires s.book.meta[n].retryAt == None && s.book.meta[n].version == Some(1)
    ensures Register(BUILT, s, n) == Schedule(s, n)
  {
    assert CodeIsStale(BUILT, s.book, n);
  }

  lemma Boots()
    requires Valid(BUILT) && Nodes(BUILT) == {X, D, N}
    ensures Booted(Boot(BUILT, Rows(OldRow()), 6))
  {
    var rows := Rows(OldRow());
    Reloads(BUILT, OldRow());
    var s := State(Reload(BUILT, rows), RestoredRetries(BUILT, rows), NOTHING, 6, rows, []);
    RegistersStale(s, N);
    RegistersStale(Schedule(s, N), D);
    RegistersTwo(BUILT, s, N, D);
    QueuesBoth();
  }

  lemma RegistersTwo(g: Graph, s: State, n: Id, d: Id)
    requires WellFormed(g, s) && Derived(g, n) && Derived(g, d)
    ensures RegisterAll(g, s, [n, d]) == Register(g, Register(g, s, n), d)
  {
    var s1 := Register(g, s, n);
    var s2 := Register(g, s1, d);
    assert [n, d][1..] == [d] && [d][1..] == [];
    assert RegisterAll(g, s1, [d]) == RegisterAll(g, s2, []) == s2;
  }

  lemma QueuesBoth()
    ensures Enqueue(NOTHING, N, 7) == Waiting(N, 7) && Enqueue(Waiting(N, 7), D, 8) == BOTH
  {
  }

  // ----------------------------------------------------------------- the drain

  function Restamped(): Meta { NodeMeta(9, 10, READS_D, 2) }

  /** n carries the new fingerprint beside the result of the old code. */
  ghost predicate AfterN(s: State) {
    && s.book == Books(Meta(1, 1, map[], Some(0), None), NodeMeta(3, 3, READS_X, 1), Restamped())
    && s.q == Waiting(D, 8) && s.clock == 10 && s.rows == Rows(NewRow())
  }

  ghost predicate AfterD(s: State) {
    && s.book == Books(Meta(1, 1, map[], Some(0), None), NodeMeta(3, 3, READS_X, 2), Restamped())
    && s.q == NOTHING && s.rows == Rows(NewRow())
  }

  lemma NIsNext(s: State)
    requires Valid(G) && Booted(s)
    ensures Next(G, s.q, Event(7, N)) && Take(s, Event(7, N)) == s.(q := Waiting(D, 8))
  {
    assert BOTH.events - multiset{Event(7, N)} == multiset{Event(8, D)};
    assert BOTH.scheduled - {N} == map[D := 8];
  }

  lemma Defers(s: State)
    requires Valid(G) && s.book == Loaded(OldRow()) && s.q == Waiting(D, 8)
    ensures WellFormed(G, s) && Judge(G, s, N) == Deferred && Bind(G, s.book, N).stamps == READS_D
  {
    Actives(2, s.book.attempt);
    BindsOne(G, s.book, N, D);
    assert CodeIsStale(G, s.book, N);
    assert D in [D] && !AnyImpossible([Old()]);
  }

  lemma Restamps(s: State, f: Flight)
    requires Valid(G) && s.book == Loaded(OldRow()) && s.clock == 8 && s.rows == Rows(OldRow())
    requires f.node == N && f.stamps == READS_D && Count(s.retries, N) == 0
    ensures var t := PersistStatus(G, s, f);
      && t.book == Books(Meta(1, 1, map[], Some(0), None), NodeMeta(3, 3, READS_X, 1), Restamped())
      && t.q == s.q && t.clock == 10 && t.rows == Rows(NewRow())
  {
  }

  /** A node that is not pending leaves the queue as it is. */
  lemma SettlesDone(t: State, n: Id)
    requires WellFormed(G, t) && Derived(G, n) && !t.book.attempt[n].Pending? && t.q.requeues == map[]
    ensures Settle(G, t, n) == (t, true)
  {
    assert ForgetRequeues(t.q, n) == t.q;
  }

  lemma DropStep(s: State)
    requires Valid(G) && Booted(s)
    ensures Next(G, s.q, Event(7, N)) && WellFormed(G, s) && AfterN(Pop(G, s, Event(7, N)).0)
  {
    var s1 := s.(q := Waiting(D, 8));
    NIsNext(s);
    Defers(s1);
    Restamps(s1, Bind(G, s1.book, N));
    OnlyRestamps(G, s1, N);
    SettlesDone(Refresh(G, s1, N), N);
  }

  lemma DIsNext(s: State)
    requires Valid(G) && AfterN(s)
    ensures Next(G, s.q, Event(8, D)) && Take(s, Event(8, D)) == s.(q := NOTHING)
  {
    assert map[D := 8] - {D} == map[];
  }

  lemma DIsReady(s: State)
    requires Valid(G) && s.q == NOTHING
    requires s.book == Books(Meta(1, 1, map[], Some(0), None), NodeMeta(3, 3, READS_X, 1), Restamped())
    ensures WellFormed(G, s) && Judge(G, s, D) == Ready
    ensures Bind(G, s.book, D).stamps == READS_X && Bind(G, s.book, D).atts == [Old()]
  {
    Actives(2, s.book.attempt);
    BindsOne(G, s.book, D, X);
    assert CodeIsStale(G, s.book, D);
  }

  /** The same value from the same row: only the fingerprint in memory moves. */
  lemma Repeats(s: State, f: Flight)
    requires Valid(G) && f.node == D && f.stamps == READS_X && s.rows == Rows(NewRow())
    requires s.book == Books(Meta(1, 1, map[], Some(0), None), NodeMeta(3, 3, READS_X, 1), Restamped())
    ensures var t := Finish(G, s, f, Old());
      && t.book == Books(Meta(1, 1, map[], Some(0), None), NodeMeta(3, 3, READS_X, 2), Restamped())
      && t.q == s.q && t.rows == s.rows
  {
    OnlyTheCodeMoves(G, s, f, Old());
    RowOfD(Meta(1, 1, map[], Some(0), None), NodeMeta(3, 3, READS_X, 1), Restamped(), NodeMeta(3, 3, READS_X, 2));
  }

  lemma RowOfD(mx: Meta, md: Meta, mn: Meta, now: Meta)
    ensures Books(mx, md, mn).meta[D := now] == Books(mx, now, mn).meta && Books(mx, md, mn).meta[D] == md
  {
  }

  lemma CutoffStep(s: State)
    requires Valid(G) && AfterN(s)
    ensures Next(G, s.q, Event(8, D)) && WellFormed(G, s) && AfterD(Pop(G, s, Event(8, D)).0)
  {
    var s1 := s.(q := NOTHING);
    DIsNext(s);
    DIsReady(s1);
    var f := Bind(G, s1.book, D);
    RunsAndFinishes(G, s1, D, Old());
    Repeats(RunCompute(G, s1, f).0, f);
    SettlesDone(Refresh(G, s1, D), D);
  }

  /** Nothing is stale, n is not what the new code computes, and a later start will not find out. */
  lemma LeftBehind(s: State)
    requires Valid(G) && Nodes(G) == {X, D, N} && AfterD(s)
    ensures Idle(s) && !IsStale(G, s.book, D) && !IsStale(G, s.book, N)
    ensures !Consistent(G, s.book.attempt, N)
    ensures !IsStale(G, Reload(G, s.rows), N)
  {
    Reloads(G, NewRow());
    Actives(2, s.book.attempt);
    assert !Moved(G, s.book, D, X) && !Moved(G, s.book, N, D);
    assert !Moved(G, Loaded(NewRow()), N, D);
    assert forall t :: G.world(N, [Old()], t) == Returned(New());
  }

  // --------------------------------------------------------------- the theorem

  /** The pops of n and of d. */
  function BothPops(): seq<Action> {
    [Drain(Event(7, N))] + ([Drain(Event(8, D))] + [])
  }

  /**
   * The old process is at rest and every node is its own computation. The new code
   * starts, n being built before it gets its dependency, and drains completely:
   * n keeps the result of the old code under the new fingerprint, and neither this
   * process nor the next one reports it stale. The sweep changes nothing: it
   * finds both nodes queued. The drain drops a node, so Deployed.DeployIsExact
   * does not apply to it.
   */
  lemma DeployLosesUpdate(s: State) returns (t: State)
    requires AtRest(s)
    ensures Redeployed(PAST, G) && Grown(BUILT, G)
    ensures Steady(PAST, s) && MirroredState(PAST, s) && AllConverging(PAST, s)
    ensures var r := Boot(BUILT, s.rows, s.clock);
      WellFormed(G, r) && Run(G, r, BothPops(), t) && forall n | Derived(G, n) :: n in r.q.scheduled
    ensures WellFormed(G, t) && Idle(t) && !IsStale(G, t.book, D) && !IsStale(G, t.book, N)
    ensures !Consistent(G, t.book.attempt, N) && !IsStale(G, Reload(G, t.rows), N)
  {
    AllValid();
    GraphsRelate();
    RestIsSteady(s);
    RestIsConsistent(s);
    Boots();
    t := DrainsBoth(Boot(BUILT, s.rows, s.clock));
    LeftBehind(t);
  }

  lemma DrainsBoth(s: State) returns (t: State)
    requires Valid(G) && Booted(s)
    ensures WellFormed(G, s) && Run(G, s, BothPops(), t) && AfterD(t)
  {
    DropStep(s);
    var s1 := Pop(G, s, Event(7, N)).0;
    CutoffStep(s1);
    t := Pop(G, s1, Event(8, D)).0;
    RunFrom(G, s1, Drain(Event(8, D)), [], t);
    RunFrom(G, s, Drain(Event(7, N)), [Drain(Event(8, D))] + [], t);
  }
}
