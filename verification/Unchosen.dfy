// Why honest staleness under interleaving asks that a node's derived dependencies
// are plain: a push of the branch a conditional node did not choose queues the
// node while it is suspended, a dependent is re-stamped behind that entry, and
// the entry finds nothing to do.
module Unchosen {
  import opened Attempts
  import opened DagGraph
  import opened Engine
  import opened Frames
  import opened Actions
  import opened Refreshes
  import opened Honesty
  import opened Interleaving

  const T := Id("t")
  const E := Id("e")
  const Z := Id("z")
  const N := Id("n")
  const M := Id("m")

  /** n is the conditional "if true then t else e"; m copies n and also depends on z. */
  const G := Graph(
    {T, E, Z}, [N, M],
    map[N := [], M := [N, Z]], map[N := [T, E], M := []],
    map[T := [N], E := [N], Z := [M], N := [M], M := []],
    map[T := 0, E := 0, Z := 0, N := 1, M := 2], map[N := 1, M := 1],
    (n, atts) => if n == N then [T] else [],
    (n, atts, t) => Returned(if atts != [] then atts[0] else Pending))

  function Old(): Attempt { Succeeded(Just(1)) }
  function New(): Attempt { Succeeded(Just(2)) }

  function InputMeta(at: int): Meta { Meta(at, 0, map[], None, None) }
  function NodeMeta(at: int, stamps: map<Id, int>): Meta { Meta(at + 1, at, stamps, Some(1), None) }

  /** t holds the new value, e and z their only one; stored when. */
  function Books(n: Attempt, e: int, z: int, mn: Meta, mm: Meta): Book {
    Book(map[T := New(), E := Old(), Z := Old(), N := n, M := Old()],
         map[T := InputMeta(9), E := InputMeta(e), Z := InputMeta(z), N := mn, M := mm])
  }

  /** Books differ in one row. */
  lemma RowOfE(n: Attempt, e: int, z: int, mn: Meta, mm: Meta, at: int)
    ensures Books(n, e, z, mn, mm).meta[E := InputMeta(at)] == Books(n, at, z, mn, mm).meta
    ensures Books(n, e, z, mn, mm).meta[E] == InputMeta(e)
  {
  }

  lemma RowOfZ(n: Attempt, e: int, z: int, mn: Meta, mm: Meta, at: int)
    ensures Books(n, e, z, mn, mm).meta[Z := InputMeta(at)] == Books(n, e, at, mn, mm).meta
    ensures Books(n, e, z, mn, mm).meta[Z] == InputMeta(z)
  {
  }

  lemma RowOfN(a: Attempt, b: Attempt, e: int, z: int, mn: Meta, mm: Meta, now: Meta)
    ensures Books(a, e, z, mn, mm).meta[N := now] == Books(b, e, z, now, mm).meta
    ensures Books(a, e, z, mn, mm).attempt[N := b] == Books(b, e, z, now, mm).attempt
    ensures Books(a, e, z, mn, mm).meta[N] == mn
  {
  }

  const NOTHING := Queue(multiset{}, map[], map[])
  const F := Flight(N, [T], [New()], map[T := 9])

  /** n's row on the old value of t, and m's row on the old n. */
  function N0(): Meta { NodeMeta(5, map[T := 3]) }
  function M0(): Meta { NodeMeta(7, map[N := 6, Z := 2]) }
  function N1(): Meta { NodeMeta(17, map[T := 9]) }
  function M1(): Meta { NodeMeta(20, map[N := 18, Z := 11]) }

  function Waiting(n: Id, at: int): Queue {
    Queue(multiset{Event(at, n)}, map[n := at], map[])
  }

  const BOTH := Queue(multiset{Event(12, M), Event(14, N)}, map[M := 12, N := 14], map[])

  lemma Edges(n: Id, d: Id)
    ensures Edge(G, n, d) <==> (n == N && (d == T || d == E)) || (n == M && (d == N || d == Z))
  {
  }

  lemma GIsValid()
    ensures Valid(G)
  {
    assert Nodes(G) == {T, E, Z, N, M} && G.rank.Keys == {T, E, Z, N, M};
    forall n, d ensures Edge(G, n, d) <==> (n == N && (d == T || d == E)) || (n == M && (d == N || d == Z)) {
      Edges(n, d);
    }
  }

  lemma Actives(a: map<Id, Attempt>)
    requires Valid(G) && Nodes(G) <= a.Keys
    ensures Active(G, a, N) == [T] && ActiveAttempts(G, a, N) == [a[T]]
    ensures Active(G, a, M) == [N, Z] && ActiveAttempts(G, a, M) == [a[N], a[Z]]
  {
  }

  /** t was just pushed: n is queued and stale, and everything else is settled. */
  ghost predicate JustPushed(l: Live) {
    At(l, Books(Old(), 1, 2, N0(), M0()), Waiting(N, 10), 10, [], Resting)
  }

  lemma StartsHonest(b: Book)
    requires Valid(G) && b == Books(Old(), 1, 2, N0(), M0())
    ensures IsStale(G, b, N) && !IsStale(G, b, M) && Consistent(G, b.attempt, M)
  {
    MIsSettled(b);
    Actives(b.attempt);
    assert Moved(G, b, N, T);
  }

  lemma MIsSettled(b: Book)
    requires Valid(G) && b == Books(Old(), 1, 2, N0(), M0())
    ensures !IsStale(G, b, M) && Consistent(G, b.attempt, M)
  {
    Actives(b.attempt);
    assert !Moved(G, b, M, N) && !Moved(G, b, M, Z);
    assert Answers(G.world(M, [Old(), Old()], 0), Old());
  }

  lemma InputIsSound(b: Book, x: Id)
    requires WellFormedBook(G, b) && x in G.inputs && 0 <= b.meta[x].persistedAt <= 10
    ensures SoundNode(G, b, 10, x)
  {
  }

  lemma RowIsSound(b: Book, n: Id, at: int, stamps: map<Id, int>)
    requires WellFormedBook(G, b) && Derived(G, n) && b.meta[n] == NodeMeta(at, stamps) && 0 < at < 10
    requires G.version[n] == 1 && forall d | d in stamps :: 0 <= stamps[d] <= at
    ensures SoundNode(G, b, 10, n)
  {
  }

  lemma RowsAreSound(b: Book)
    requires Valid(G) && b == Books(Old(), 1, 2, N0(), M0())
    ensures SoundBook(G, b, 10)
  {
    InputIsSound(b, T);
    InputIsSound(b, E);
    InputIsSound(b, Z);
    RowIsSound(b, N, 5, map[T := 3]);
    RowIsSound(b, M, 7, map[N := 6, Z := 2]);
    assert Nodes(G) == {T, E, Z, N, M};
  }

  lemma FullStampsAreNotHollow(b: Book, n: Id)
    requires WellFormedBook(G, b) && Derived(G, n) && forall d | d in b.meta[n].depStamps :: b.meta[n].depStamps[d] != 0
    ensures !Hollow(G, b, n)
  {
  }

  lemma NothingHollow(b: Book)
    requires Valid(G) && b == Books(Old(), 1, 2, N0(), M0())
    ensures Grounded(G, b)
  {
    FullStampsAreNotHollow(b, N);
    FullStampsAreNotHollow(b, M);
  }

  /** Every node is honest before the interleaving, by itself or by its dependencies. */
  lemma StartIsHonest(b: Book)
    requires Valid(G) && b == Books(Old(), 1, 2, N0(), M0())
    ensures AllHonest(G, b) && AllLiveHonest(G, b, [])
  {
    StartsHonest(b);
    HonestByItself(b, N);
    HonestByItself(b, M);
    OnlyTwo(G, b, N, M);
  }

  lemma OnlyTwo(g: Graph, b: Book, n: Id, m: Id)
    requires WellFormedBook(g, b) && g.fixed.Keys == {n, m}
    requires Honest(g, b, n) && LiveHonest(g, b, [], n) && Honest(g, b, m) && LiveHonest(g, b, [], m)
    ensures AllHonest(g, b) && AllLiveHonest(g, b, [])
  {
    forall d | Derived(g, d) ensures Honest(g, b, d) && LiveHonest(g, b, [], d) {
      assert d == n || d == m;
    }
  }

  lemma HonestByItself(b: Book, n: Id)
    requires WellFormedBook(G, b) && Derived(G, n) && (IsStale(G, b, n) || Consistent(G, b.attempt, n))
    ensures Honest(G, b, n) && LiveHonest(G, b, [], n)
  {
  }

  /**
   * The start keeps every invariant of the interleaving theorems and every
   * node is honest: all that is missing is that m's dependencies are plain.
   */
  lemma StartKeepsInvariant(l: Live)
    requires Valid(G) && JustPushed(l)
    ensures LiveInv(G, l) && Rooted(G, l) && AllHonest(G, l.s.book)
    ensures OnPlain(G, N) && !OnPlain(G, M)
  {
    RowsAreSound(l.s.book);
    NothingHollow(l.s.book);
    StartIsHonest(l.s.book);
    OnlyMOnConditional();
    assert Reasoned(G, l.s.book, l.s.q);
  }

  lemma OnlyMOnConditional()
    ensures OnPlain(G, N) && !OnPlain(G, M) && !Plain(G, N)
  {
    assert Edge(G, M, N) && !Plain(G, N);
  }

  lemma BindsN(s: State)
    requires Valid(G) && s.book == Books(Old(), 1, 2, N0(), M0()) && s.q == NOTHING
    ensures Judge(G, s, N) == Ready && Bind(G, s.book, N) == F
  {
    StartsHonest(s.book);
    BindsF(s.book);
  }

  lemma BindsF(b: Book)
    requires Valid(G) && b == Books(Old(), 1, 2, N0(), M0())
    ensures Bind(G, b, N) == F
  {
    Actives(b.attempt);
    BindsOne(G, b, N, T);
  }

  lemma BeginStep(l: Live)
    requires Valid(G) && JustPushed(l)
    ensures Possible(G, l, Begin(Event(10, N)))
    ensures At(Advance(G, l, Begin(Event(10, N))), Books(Old(), 1, 2, N0(), M0()), NOTHING, 10, [], Computing(F))
  {
    var s := TakesN(l.s);
    BindsN(s);
    Suspends(G, l, Event(10, N), s);
  }

  lemma TakesN(s: State) returns (t: State)
    requires s.q == Waiting(N, 10)
    ensures t == Take(s, Event(10, N)) == s.(q := NOTHING)
  {
    t := s.(q := NOTHING);
    assert map[N := 10] - {N} == map[];
  }

  /** A pop whose node is ready leaves it suspended. */
  lemma Suspends(g: Graph, l: Live, e: Event, s: State)
    requires WellFormed(g, l.s) && Possible(g, l, Begin(e)) && s == Take(l.s, e) && Judge(g, s, e.node) == Ready
    ensures Advance(g, l, Begin(e)) == l.(s := s, phase := Computing(Bind(g, s.book, e.node)))
  {
  }

  /** The input x is pushed again while n is suspended: its value stays, its row is new. */
  lemma AssignStep(l: Live, x: Id)
    requires Valid(G) && x in {E, Z} && l.phase == Computing(F) && l.outstanding == []
    requires WellFormed(G, l.s) && l.s.book.attempt == Books(Old(), 1, 2, N0(), M0()).attempt
    ensures Possible(G, l, Assign(x, Old()))
    ensures Advance(G, l, Assign(x, Old())) == l.(outstanding := [Submission(x, Old())])
  {
    assert l.s.book.attempt[x := Old()] == l.s.book.attempt;
  }

  lemma Applies(l: Live, x: Id)
    requires Valid(G) && WellFormed(G, l.s) && l.outstanding == [Submission(x, Old())] && x in G.inputs
    ensures Possible(G, l, Apply)
    ensures Advance(G, l, Apply) == l.(s := Emit(G, StoreRow(G, l.s, x, Old()), x), outstanding := [])
  {
  }

  lemma ApplyZ(l: Live)
    requires Valid(G)
    requires At(l, Books(Old(), 1, 2, N0(), M0()), NOTHING, 10, [Submission(Z, Old())], Computing(F))
    ensures Possible(G, l, Apply)
    ensures At(Advance(G, l, Apply), Books(Old(), 1, 11, N0(), M0()), Waiting(M, 12), 12, [], Computing(F))
  {
    Applies(l, Z);
    StoresZ(l.s);
    EmitsZ(StoreRow(G, l.s, Z, Old()));
  }

  lemma EmitsZ(s: State)
    requires Valid(G) && s.book == Books(Old(), 1, 11, N0(), M0()) && s.q == NOTHING && s.clock == 11
    ensures var t := Emit(G, s, Z);
      t.book == Books(Old(), 1, 11, N0(), M0()) && t.q == Waiting(M, 12) && t.clock == 12
  {
    MStale(s.book);
    OneHandler(G, s, Z, M);
  }

  lemma StoresZ(s: State)
    requires Valid(G) && s.book == Books(Old(), 1, 2, N0(), M0()) && s.clock == 10
    ensures var t := StoreRow(G, s, Z, Old());
      t.book == Books(Old(), 1, 11, N0(), M0()) && t.q == s.q && t.clock == 11
  {
    RowOfZ(Old(), 1, 2, N0(), M0(), 11);
  }

  lemma MStale(b: Book)
    requires Valid(G) && b == Books(Old(), 1, 11, N0(), M0())
    ensures IsStale(G, b, M)
  {
    Actives(b.attempt);
    MoveStales(b, M, Z);
  }

  lemma MoveStales(b: Book, n: Id, d: Id)
    requires WellFormedBook(G, b) && Derived(G, n) && d in Nodes(G) && d in Active(G, b.attempt, n)
    requires b.meta[n].computedAt != 0 && b.meta[d].persistedAt > b.meta[n].computedAt
    ensures IsStale(G, b, n)
  {
    assert Moved(G, b, n, d);
  }

  lemma ApplyE(l: Live)
    requires Valid(G)
    requires At(l, Books(Old(), 1, 11, N0(), M0()), Waiting(M, 12), 12, [Submission(E, Old())], Computing(F))
    ensures Possible(G, l, Apply)
    ensures At(Advance(G, l, Apply), Books(Old(), 13, 11, N0(), M0()), BOTH, 14, [], Computing(F))
  {
    Applies(l, E);
    StoresE(l.s);
    EmitsE(StoreRow(G, l.s, E, Old()));
  }

  lemma EmitsE(s: State)
    requires Valid(G) && s.book == Books(Old(), 13, 11, N0(), M0()) && s.q == Waiting(M, 12) && s.clock == 13
    ensures var t := Emit(G, s, E);
      t.book == Books(Old(), 13, 11, N0(), M0()) && t.q == BOTH && t.clock == 14
  {
    EnqueuesBoth();
    NStale(s.book);
    OneHandler(G, s, E, N);
  }

  lemma EnqueuesBoth()
    ensures Enqueue(Waiting(M, 12), N, 14) == BOTH
  {
  }

  lemma NStale(b: Book)
    requires Valid(G) && b == Books(Old(), 13, 11, N0(), M0())
    ensures IsStale(G, b, N)
  {
    Actives(b.attempt);
    MoveStales(b, N, T);
  }

  lemma StoresE(s: State)
    requires Valid(G) && s.book == Books(Old(), 1, 11, N0(), M0()) && s.clock == 12
    ensures var t := StoreRow(G, s, E, Old());
      t.book == Books(Old(), 13, 11, N0(), M0()) && t.q == s.q && t.clock == 13
  {
    RowOfE(Old(), 1, 11, N0(), M0(), 13);
  }

  lemma AnswerStep(l: Live)
    requires Valid(G) && At(l, Books(Old(), 13, 11, N0(), M0()), BOTH, 14, [], Computing(F))
    ensures Possible(G, l, Answer)
    ensures At(Advance(G, l, Answer), Books(Old(), 13, 11, N0(), M0()), BOTH, 15, [], Answered(F, New()))
  {
  }

  lemma RecordStep(s: State)
    requires Valid(G) && s.book == Books(Old(), 13, 11, N0(), M0()) && s.clock == 15
    ensures var t := Record(G, s, F, New());
      t.book == Books(New(), 13, 11, N1(), M0()) && t.q == s.q && t.clock == 18
  {
    RowOfN(Old(), New(), 13, 11, N0(), M0(), N1());
    RecordShape(G, s, F, New());
    assert RecordedMeta(G, s, F, New()) == N1();
  }

  lemma CompleteStep(s: State)
    requires Valid(G) && s.book == Books(Old(), 13, 11, N0(), M0()) && s.q == BOTH && s.clock == 15
    ensures var t := Finish(G, s, F, New());
      t.book == Books(New(), 13, 11, N1(), M0()) && t.q == BOTH && t.clock == 19
  {
    RecordStep(s);
    var t := Record(G, s, F, New());
    MoveStales(t.book, M, N);
    OneHandler(G, t, N, M);
    NewResultIsAnnounced(G, s, F, New());
  }

  lemma EndStep(l: Live)
    requires Valid(G) && At(l, Books(Old(), 13, 11, N0(), M0()), BOTH, 15, [], Answered(F, New()))
    ensures Possible(G, l, End)
    ensures At(Advance(G, l, End), Books(New(), 13, 11, N1(), M0()), BOTH, 19, [], Resting)
  {
    CompleteStep(l.s);
    var t := Finish(G, l.s, F, New());
    assert Settle(G, t, N).0 == t.(q := ForgetRequeues(t.q, N)) && ForgetRequeues(BOTH, N) == BOTH;
  }

  /** m is popped behind n's second entry: it takes the new stamps and keeps the old value. */
  lemma DropStep(l: Live)
    requires Valid(G) && At(l, Books(New(), 13, 11, N1(), M0()), BOTH, 19, [], Resting)
    ensures Possible(G, l, Begin(Event(12, M)))
    ensures At(Advance(G, l, Begin(Event(12, M))), Books(New(), 13, 11, N1(), M1()), Waiting(N, 14), 21, [], Resting)
  {
    MIsEarliest(l.s);
    var s := l.s.(q := Waiting(N, 14));
    DeferredRefresh(s);
    DroppedSettles(Refresh(G, s, M));
    Begins(l, Event(12, M), s);
  }

  /** A refresh that does not suspend is one step. */
  lemma Begins(l: Live, e: Event, s: State)
    requires Valid(G) && WellFormed(G, l.s) && l.phase == Resting && Next(G, l.s.q, e) && s == Take(l.s, e)
    requires Judge(G, s, e.node) != Ready
    ensures Possible(G, l, Begin(e))
    ensures Advance(G, l, Begin(e)) == l.(s := Settle(G, Refresh(G, s, e.node), e.node).0)
  {
  }

  lemma DroppedSettles(t: State)
    requires Valid(G) && t.book == Books(New(), 13, 11, N1(), M1()) && t.q == Waiting(N, 14)
    ensures Settle(G, t, M).0 == t
  {
    assert ForgetRequeues(t.q, M) == t.q;
  }

  lemma MIsEarliest(s: State)
    requires Valid(G) && s.q == BOTH
    ensures Next(G, s.q, Event(12, M)) && Take(s, Event(12, M)) == s.(q := Waiting(N, 14))
  {
    assert BOTH.events - multiset{Event(12, M)} == multiset{Event(14, N)};
    assert BOTH.scheduled - {M} == map[N := 14];
  }

  lemma BindsM(b: Book)
    requires Valid(G) && b == Books(New(), 13, 11, N1(), M0())
    ensures var f := Bind(G, b, M);
      f.active == [N, Z] && f.atts == [New(), Old()] && f.stamps == map[N := 18, Z := 11]
    ensures IsStale(G, b, M)
  {
    Actives(b.attempt);
    BindsTwo(G, b, M, N, Z);
    MoveStales(b, M, Z);
  }

  lemma Defers(s: State)
    requires Valid(G) && s.book == Books(New(), 13, 11, N1(), M0()) && s.q == Waiting(N, 14)
    ensures Judge(G, s, M) == Deferred
  {
    BindsM(s.book);
    assert [N, Z][0] in s.q.scheduled;
  }

  lemma DeferredRefresh(s: State)
    requires Valid(G) && s.book == Books(New(), 13, 11, N1(), M0()) && s.q == Waiting(N, 14) && s.clock == 19
    ensures var t := Refresh(G, s, M);
      t.book == Books(New(), 13, 11, N1(), M1()) && t.q == s.q && t.clock == 21
    ensures Judge(G, s, M) == Deferred
  {
    Defers(s);
    BindsM(s.book);
    RestampsM(s, Bind(G, s.book, M));
    OnlyRestamps(G, s, M);
  }

  lemma RestampsM(s: State, f: Flight)
    requires Valid(G) && s.book == Books(New(), 13, 11, N1(), M0()) && s.clock == 19
    requires f.node == M && f.stamps == map[N := 18, Z := 11]
    ensures var t := PersistStatus(G, s, f);
      t.book == Books(New(), 13, 11, N1(), M1()) && t.q == s.q && t.clock == 21
  {
    assert s.book.meta[M := M1()] == Books(New(), 13, 11, N1(), M1()).meta;
  }

  lemma NFresh(b: Book)
    requires Valid(G) && b == Books(New(), 13, 11, N1(), M1())
    ensures !IsStale(G, b, N)
  {
    Actives(b.attempt);
    assert !Moved(G, b, N, T);
  }

  lemma MFresh(b: Book)
    requires Valid(G) && b == Books(New(), 13, 11, N1(), M1())
    ensures !IsStale(G, b, M)
  {
    Actives(b.attempt);
    assert !Moved(G, b, M, N) && !Moved(G, b, M, Z);
  }

  lemma MBehind(b: Book)
    requires Valid(G) && b == Books(New(), 13, 11, N1(), M1())
    ensures !Consistent(G, b.attempt, M)
  {
    Actives(b.attempt);
    assert forall t :: G.world(M, [New(), Old()], t) == Returned(New());
  }

  lemma WakeStep(l: Live)
    requires Valid(G) && At(l, Books(New(), 13, 11, N1(), M1()), Waiting(N, 14), 21, [], Resting)
    ensures Possible(G, l, Begin(Event(14, N)))
    ensures At(Advance(G, l, Begin(Event(14, N))), Books(New(), 13, 11, N1(), M1()), NOTHING, 21, [], Resting)
  {
    assert map[N := 14] - {N} == map[];
    var s := l.s.(q := NOTHING);
    assert Take(l.s, Event(14, N)) == s;
    NFresh(s.book);
    assert Refresh(G, s, N) == s;
    assert Settle(G, s, N).0 == s.(q := ForgetRequeues(NOTHING, N)) && ForgetRequeues(NOTHING, N) == NOTHING;
  }

  lemma UntilAnswered(l: Live) returns (r: Live)
    requires Valid(G) && JustPushed(l)
    ensures Reaches(G, l, r)
    ensures At(r, Books(Old(), 13, 11, N0(), M0()), BOTH, 15, [], Answered(F, New()))
  {
    Reached(G, l, [], l);
    BeginStep(l);
    Then(G, l, l, Begin(Event(10, N)));
    var l1 := Advance(G, l, Begin(Event(10, N)));
    AssignStep(l1, Z);
    Then(G, l, l1, Assign(Z, Old()));
    var l2 := Advance(G, l1, Assign(Z, Old()));
    ApplyZ(l2);
    Then(G, l, l2, Apply);
    var l3 := Advance(G, l2, Apply);
    AssignStep(l3, E);
    Then(G, l, l3, Assign(E, Old()));
    var l4 := Advance(G, l3, Assign(E, Old()));
    ApplyE(l4);
    Then(G, l, l4, Apply);
    var l5 := Advance(G, l4, Apply);
    AnswerStep(l5);
    Then(G, l, l5, Answer);
    r := Advance(G, l5, Answer);
  }

  /** n completes, m is dropped behind its second entry, and that entry finds nothing to do. */
  lemma UntilResting(l: Live, m: Live) returns (r: Live)
    requires Valid(G) && Reaches(G, l, m)
    requires At(m, Books(Old(), 13, 11, N0(), M0()), BOTH, 15, [], Answered(F, New()))
    ensures Reaches(G, l, r) && At(r, Books(New(), 13, 11, N1(), M1()), NOTHING, 21, [], Resting)
  {
    EndStep(m);
    Then(G, l, m, End);
    var m1 := Advance(G, m, End);
    DropStep(m1);
    Then(G, l, m1, Begin(Event(12, M)));
    var m2 := Advance(G, m1, Begin(Event(12, M)));
    WakeStep(m2);
    Then(G, l, m2, Begin(Event(14, N)));
    r := Advance(G, m2, Begin(Event(14, N)));
  }

  /**
   * Staleness lies: nothing is suspended, queued or waiting to be stored, n holds
   * the new value, m was computed on the old one, and neither reports stale.
   */
  lemma UnchosenBranchLosesUpdate(l: Live) returns (r: Live)
    requires Valid(G) && JustPushed(l)
    ensures Reaches(G, l, r)
    ensures r.phase == Resting && r.outstanding == [] && Idle(r.s)
    ensures WellFormed(G, r.s) && !IsStale(G, r.s.book, N) && !IsStale(G, r.s.book, M)
    ensures !Consistent(G, r.s.book.attempt, M)
  {
    var m := UntilAnswered(l);
    r := UntilResting(l, m);
    NFresh(r.s.book);
    MFresh(r.s.book);
    MBehind(r.s.book);
  }
}
