// A drain that ends with a node behind its inputs: popped while a dependency is
// queued, a node that holds a result is re-stamped and dropped, and a
// dependency that settles on its old value never wakes it again.
module Dropped {
  import opened Attempts
  import opened DagGraph
  import opened Scratch
  import opened Engine
  import opened Frames
  import opened Actions
  import opened Refreshes
  import opened Pops
  import opened Honesty
  import opened Convergence
  import opened Runs

  const X := Id("x")
  const Y := Id("y")
  const A := Id("a")
  const N := Id("n")

  /** n copies the input x and also reads a; a reads the input y and always answers the same. */
  const G := Graph(
    {X, Y}, [A, N],
    map[A := [Y], N := [X, A]], map[A := [], N := []], map[X := [N], Y := [A], A := [N], N := []],
    map[X := 0, Y := 0, A := 1, N := 2], map[A := 1, N := 1],
    (n, atts) => [],
    (n, atts, t) => Returned(Copied(n, atts)))

  function Copied(n: Id, atts: seq<Attempt>): Attempt {
    if n == N && atts != [] && !atts[0].Pending? then atts[0] else Old()
  }

  function Old(): Attempt { Succeeded(Just(0)) }
  function New(): Attempt { Succeeded(Just(1)) }

  function InputMeta(at: int): Meta { Meta(at, 0, map[], None, None) }
  function NodeMeta(at: int, stamps: map<Id, int>): Meta { Meta(at + 1, at, stamps, Some(1), None) }

  /** a and n hold the old value throughout. */
  function Books(x: Attempt, y: Attempt, mx: Meta, my: Meta, ma: Meta, mn: Meta): Book {
    Book(map[X := x, Y := y, A := Old(), N := Old()], map[X := mx, Y := my, A := ma, N := mn])
  }

  /** Books differ in one row. */
  lemma RowOfX(x: Attempt, y: Attempt, mx: Meta, my: Meta, ma: Meta, mn: Meta, v: Attempt, now: Meta)
    ensures Books(x, y, mx, my, ma, mn).attempt[X := v] == Books(v, y, now, my, ma, mn).attempt
    ensures Books(x, y, mx, my, ma, mn).meta[X := now] == Books(v, y, now, my, ma, mn).meta
    ensures Books(x, y, mx, my, ma, mn).meta[X] == mx
  {
  }

  lemma RowOfY(x: Attempt, y: Attempt, mx: Meta, my: Meta, ma: Meta, mn: Meta, v: Attempt, now: Meta)
    ensures Books(x, y, mx, my, ma, mn).attempt[Y := v] == Books(x, v, mx, now, ma, mn).attempt
    ensures Books(x, y, mx, my, ma, mn).meta[Y := now] == Books(x, v, mx, now, ma, mn).meta
    ensures Books(x, y, mx, my, ma, mn).meta[Y] == my
  {
  }

  lemma RowOfA(x: Attempt, y: Attempt, mx: Meta, my: Meta, ma: Meta, mn: Meta, now: Meta)
    ensures Books(x, y, mx, my, ma, mn).meta[A := now] == Books(x, y, mx, my, now, mn).meta
    ensures Books(x, y, mx, my, ma, mn).meta[A] == ma
  {
  }

  lemma RowOfN(x: Attempt, y: Attempt, mx: Meta, my: Meta, ma: Meta, mn: Meta, now: Meta)
    ensures Books(x, y, mx, my, ma, mn).meta[N := now] == Books(x, y, mx, my, ma, now).meta
    ensures Books(x, y, mx, my, ma, mn).meta[N] == mn
  {
  }

  lemma Edges(n: Id, d: Id)
    ensures Edge(G, n, d) <==> (n == A && d == Y) || (n == N && (d == X || d == A))
  {
  }

  lemma GIsValid()
    ensures Valid(G)
  {
    assert Nodes(G) == {X, Y, A, N} && G.rank.Keys == {X, Y, A, N};
    forall n, d ensures Edge(G, n, d) <==> (n == A && d == Y) || (n == N && (d == X || d == A)) {
      Edges(n, d);
    }
  }

  lemma Actives(a: map<Id, Attempt>)
    requires Valid(G) && Nodes(G) <= a.Keys
    ensures Active(G, a, A) == [Y] && ActiveAttempts(G, a, A) == [a[Y]]
    ensures Active(G, a, N) == [X, A] && ActiveAttempts(G, a, N) == [a[X], a[A]]
  {
  }

  // ------------------------------------------------------------ the states

  const NOTHING := Queue(multiset{}, map[], map[])

  function Waiting(n: Id, at: int): Queue {
    Queue(multiset{Event(at, n)}, map[n := at], map[])
  }

  const BOTH := Queue(multiset{Event(8, N), Event(10, A)}, map[N := 8, A := 10], map[])

  function A0(): Meta { NodeMeta(3, map[Y := 2]) }
  function N0(): Meta { NodeMeta(5, map[X := 1, A := 4]) }
  function A1(): Meta { NodeMeta(14, map[Y := 9]) }
  function N1(): Meta { NodeMeta(11, map[X := 7, A := 4]) }

  /** Everything is settled: each node was computed on what its dependencies hold. */
  ghost predicate AtRest(s: State) {
    s.book == Books(Old(), Old(), InputMeta(1), InputMeta(2), A0(), N0()) && s.q == NOTHING && s.clock == 6
  }

  ghost predicate PushedX(s: State) {
    s.book == Books(New(), Old(), InputMeta(7), InputMeta(2), A0(), N0()) && s.q == Waiting(N, 8) && s.clock == 8
  }

  ghost predicate PushedY(s: State) {
    s.book == Books(New(), New(), InputMeta(7), InputMeta(9), A0(), N0()) && s.q == BOTH && s.clock == 10
  }

  /** n carries the new stamp of x beside its old value. */
  ghost predicate Restamped(s: State) {
    s.book == Books(New(), New(), InputMeta(7), InputMeta(9), A0(), N1()) && s.q == Waiting(A, 10) && s.clock == 12
  }

  ghost predicate Drained(s: State) {
    s.book == Books(New(), New(), InputMeta(7), InputMeta(9), A1(), N1()) && s.q == NOTHING
  }

  lemma MoveStales(b: Book, n: Id, d: Id)
    requires WellFormedBook(G, b) && Derived(G, n) && d in Nodes(G) && d in Active(G, b.attempt, n)
    requires b.meta[n].computedAt != 0 && b.meta[d].persistedAt > b.meta[n].computedAt
    ensures IsStale(G, b, n)
  {
    assert Moved(G, b, n, d);
  }

  // ------------------------------------------------------------ two pushes

  lemma StoresX(s: State)
    requires Valid(G) && AtRest(s)
    ensures var t := Store(G, s, X, New());
      && t.book == Books(New(), Old(), InputMeta(7), InputMeta(2), A0(), N0()) && t.q == NOTHING && t.clock == 7
  {
    RowOfX(Old(), Old(), InputMeta(1), InputMeta(2), A0(), N0(), New(), InputMeta(7));
  }

  lemma StoresY(s: State)
    requires Valid(G) && PushedX(s)
    ensures var t := Store(G, s, Y, New());
      && t.book == Books(New(), New(), InputMeta(7), InputMeta(9), A0(), N0()) && t.q == s.q && t.clock == 9
  {
    RowOfY(New(), Old(), InputMeta(7), InputMeta(2), A0(), N0(), New(), InputMeta(9));
  }

  lemma PushX(s: State)
    requires Valid(G) && AtRest(s)
    ensures PushedX(Write(G, s, X, New()))
  {
    var s1 := Store(G, s, X, New());
    StoresX(s);
    Actives(s1.book.attempt);
    MoveStales(s1.book, N, X);
    OneHandler(G, s1, X, N);
  }

  lemma PushY(s: State)
    requires Valid(G) && PushedX(s)
    ensures PushedY(Write(G, s, Y, New()))
  {
    var s1 := Store(G, s, Y, New());
    StoresY(s);
    Actives(s1.book.attempt);
    MoveStales(s1.book, A, Y);
    OneHandler(G, s1, Y, A);
    BothQueued();
  }

  lemma BothQueued()
    ensures Enqueue(Waiting(N, 8), A, 10) == BOTH
  {
  }

  // -------------------------------------------------------------- the drain

  lemma NIsNext(s: State)
    requires Valid(G) && PushedY(s)
    ensures Next(G, s.q, Event(8, N)) && Take(s, Event(8, N)) == s.(q := Waiting(A, 10))
  {
    assert BOTH.events - multiset{Event(8, N)} == multiset{Event(10, A)};
    assert BOTH.scheduled - {N} == map[A := 10];
  }

  /** n is stale and not failed while a is queued: its refresh only re-stamps it. */
  lemma Defers(s: State)
    requires Valid(G) && s.q == Waiting(A, 10)
    requires s.book == Books(New(), New(), InputMeta(7), InputMeta(9), A0(), N0())
    ensures Judge(G, s, N) == Deferred && Bind(G, s.book, N).stamps == map[X := 7, A := 4]
  {
    Actives(s.book.attempt);
    MoveStales(s.book, N, X);
    BindsTwo(G, s.book, N, X, A);
    assert A in [X, A] && !AnyImpossible([New(), Old()]);
  }

  lemma Restamps(s: State, f: Flight)
    requires Valid(G) && s.clock == 10 && f.node == N && f.stamps == map[X := 7, A := 4]
    requires s.book == Books(New(), New(), InputMeta(7), InputMeta(9), A0(), N0())
    ensures var t := PersistStatus(G, s, f);
      && t.book == Books(New(), New(), InputMeta(7), InputMeta(9), A0(), N1()) && t.q == s.q && t.clock == 12
  {
    RowOfN(New(), New(), InputMeta(7), InputMeta(9), A0(), N0(), N1());
  }

  /** A node that is not pending leaves the queue as it is, with its count. */
  lemma SettlesDone(t: State, n: Id)
    requires WellFormed(G, t) && Derived(G, n) && !t.book.attempt[n].Pending? && t.q.requeues == map[]
    ensures Settle(G, t, n) == (t, true)
  {
    assert ForgetRequeues(t.q, n) == t.q;
  }

  lemma DropStep(s: State)
    requires Valid(G) && PushedY(s)
    ensures Next(G, s.q, Event(8, N)) && Pop(G, s, Event(8, N)).1 && Restamped(Pop(G, s, Event(8, N)).0)
  {
    var s1 := s.(q := Waiting(A, 10));
    NIsNext(s);
    Defers(s1);
    Restamps(s1, Bind(G, s1.book, N));
    OnlyRestamps(G, s1, N);
    SettlesDone(Refresh(G, s1, N), N);
  }

  lemma AIsNext(s: State)
    requires Valid(G) && Restamped(s)
    ensures Next(G, s.q, Event(10, A)) && Take(s, Event(10, A)) == s.(q := NOTHING)
  {
    assert map[A := 10] - {A} == map[];
  }

  lemma AIsReady(s: State)
    requires Valid(G) && s.q == NOTHING
    requires s.book == Books(New(), New(), InputMeta(7), InputMeta(9), A0(), N1())
    ensures Judge(G, s, A) == Ready && Bind(G, s.book, A).stamps == map[Y := 9]
  {
    Actives(s.book.attempt);
    MoveStales(s.book, A, Y);
    BindsOne(G, s.book, A, Y);
  }

  /** a is recomputed to its old value: its row is re-recorded and nothing is announced. */
  lemma Repeats(s: State, f: Flight)
    requires Valid(G) && s.clock == 13 && f.node == A && f.stamps == map[Y := 9]
    requires s.book == Books(New(), New(), InputMeta(7), InputMeta(9), A0(), N1())
    ensures var t := Finish(G, s, f, Old());
      t.book == Books(New(), New(), InputMeta(7), InputMeta(9), A1(), N1()) && t.q == s.q
  {
    RowOfA(New(), New(), InputMeta(7), InputMeta(9), A0(), N1(), A1());
    assert Y in f.stamps && f.stamps[Y] != map[Y := 2][Y];
    assert Finish(G, s, f, Old()) == PersistStatus(G, s, f);
  }

  lemma CutoffStep(s: State)
    requires Valid(G) && Restamped(s)
    ensures Next(G, s.q, Event(10, A)) && Pop(G, s, Event(10, A)).1 && Drained(Pop(G, s, Event(10, A)).0)
  {
    var s1 := s.(q := NOTHING);
    AIsNext(s);
    AIsReady(s1);
    var f := Bind(G, s1.book, A);
    RunsAndFinishes(G, s1, A, Old());
    Repeats(RunCompute(G, s1, f).0, f);
    SettlesDone(Refresh(G, s1, A), A);
  }

  /** n still holds the old value, and says that it is stale. */
  lemma DrainedIsBehind(s: State)
    requires Valid(G) && Drained(s)
    ensures Idle(s) && IsStale(G, s.book, N) && !Consistent(G, s.book.attempt, N)
  {
    Actives(s.book.attempt);
    MoveStales(s.book, N, A);
    assert forall t :: G.world(N, [New(), Old()], t) == Returned(New());
  }

  // ------------------------------------------------------------ the theorem

  lemma StartIsSettled(s: State)
    requires Valid(G) && AtRest(s)
    ensures Consistent(G, s.book.attempt, A) && Consistent(G, s.book.attempt, N)
    ensures !IsStale(G, s.book, A) && !IsStale(G, s.book, N)
  {
    Actives(s.book.attempt);
    assert Answers(G.world(A, [Old()], 0), Old()) && Answers(G.world(N, [Old(), Old()], 0), Old());
    assert !Moved(G, s.book, A, Y) && !Moved(G, s.book, N, X) && !Moved(G, s.book, N, A);
  }

  lemma RowIsSound(b: Book, n: Id, at: int, stamps: map<Id, int>)
    requires WellFormedBook(G, b) && Derived(G, n) && b.meta[n] == NodeMeta(at, stamps) && 0 < at < 6
    requires G.version[n] == 1 && forall d | d in stamps :: 0 <= stamps[d] <= at
    ensures SoundNode(G, b, 6, n) && QuietNode(G, b, n)
  {
  }

  lemma RestIsSteady(s: State)
    requires Valid(G) && AtRest(s)
    ensures Steady(G, s)
  {
    assert Nodes(G) == {X, Y, A, N};
    assert SoundNode(G, s.book, 6, X) && SoundNode(G, s.book, 6, Y);
    RowIsSound(s.book, A, 3, map[Y := 2]);
    RowIsSound(s.book, N, 5, map[X := 1, A := 4]);
  }

  /**
   * The start satisfies what Convergence.CutoffIsExact asks for, and what
   * Honesty.IdleIsHonest asks for: all that is missing is a run that drops nothing.
   */
  lemma RestKeepsInvariants(s: State)
    requires Valid(G) && AtRest(s)
    ensures Steady(G, s) && AllHonest(G, s.book) && AllConverging(G, s) && AllSet(G, s.book) && AllVouched(G, s)
    ensures Pure(G, Copied) && Settling(Copied) && Answering(G)
  {
    RestIsSteady(s);
    StartIsSettled(s);
  }

  /** The pushes of x and of y, and the pops of n and of a. */
  function Steps(): seq<Action> {
    [Push(X, New())] + ([Push(Y, New())] + ([Drain(Event(8, N))] + ([Drain(Event(10, A))] + [])))
  }

  /**
   * Convergence fails: from a settled graph two pushes and a complete drain
   * leave n with its old value at an empty queue. It reports stale, as
   * Honesty.dfy proves it must, but nothing will refresh it.
   */
  lemma DropLosesConvergence(s: State) returns (t: State)
    requires Valid(G) && AtRest(s)
    ensures Consistent(G, s.book.attempt, A) && Consistent(G, s.book.attempt, N)
    ensures !IsStale(G, s.book, A) && !IsStale(G, s.book, N)
    ensures WellFormed(G, s) && Run(G, s, Steps(), t)
    ensures WellFormed(G, t) && Idle(t) && IsStale(G, t.book, N) && !Consistent(G, t.book.attempt, N)
  {
    StartIsSettled(s);
    PushX(s);
    var s1 := Write(G, s, X, New());
    PushY(s1);
    var s2 := Write(G, s1, Y, New());
    t := DrainsBoth(s2);
    RunFrom(G, s1, Push(Y, New()), [Drain(Event(8, N))] + ([Drain(Event(10, A))] + []), t);
    RunFrom(G, s, Push(X, New()),
            [Push(Y, New())] + ([Drain(Event(8, N))] + ([Drain(Event(10, A))] + [])), t);
    DrainedIsBehind(t);
  }

  lemma DrainsBoth(s: State) returns (t: State)
    requires Valid(G) && PushedY(s)
    ensures WellFormed(G, s) && Run(G, s, [Drain(Event(8, N))] + ([Drain(Event(10, A))] + []), t) && Drained(t)
  {
    DropStep(s);
    var s1 := Pop(G, s, Event(8, N)).0;
    CutoffStep(s1);
    t := Pop(G, s1, Event(10, A)).0;
    RunFrom(G, s1, Drain(Event(10, A)), [], t);
    RunFrom(G, s, Drain(Event(8, N)), [Drain(Event(10, A))] + [], t);
  }
}
