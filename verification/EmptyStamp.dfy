// A lost update: a value bound before its first row was stored leaves an empty
// stamp, and an empty stamp hides every row stored before the node completes.
module EmptyStamp {
  import opened Attempts
  import opened DagGraph
  import opened Engine
  import opened Restart
  import opened Start
  import opened Interleaving

  const X := Id("x")
  const N := Id("n")

  /** n copies the input x. */
  const G := Graph(
    {X}, [N], map[N := [X]], map[N := []], map[X := [N], N := []], map[X := 0, N := 1], map[N := 1],
    (n, atts) => [],
    (n, atts, t) => Returned(if atts != [] then atts[0] else Pending))

  function First(): Attempt { Succeeded(Just(1)) }
  function Second(): Attempt { Succeeded(Just(2)) }

  function Books(x: Attempt, n: Attempt, storedAt: int, m: Meta): Book {
    Book(map[X := x, N := n], map[X := Meta(storedAt, 0, map[], None, None), N := m])
  }

  const UNSET := Meta(0, 0, map[], None, None)
  const DONE := Meta(9, 8, map[X := 0], Some(1), None)
  const NOTHING := Queue(multiset{}, map[], map[])

  function Waiting(at: int): Queue {
    Queue(multiset{Event(at, N)}, map[N := at], map[])
  }

  const F := Flight(N, [X], [First()], map[X := 0])

  lemma GIsValid()
    ensures Valid(G)
  {
    assert forall n, d :: Edge(G, n, d) <==> n == N && d == X;
  }

  lemma Actives(a: map<Id, Attempt>)
    requires Valid(G) && Nodes(G) <= a.Keys
    ensures Active(G, a, N) == [X] && ActiveAttempts(G, a, N) == [a[X]]
  {
  }

  /** A fresh process: nothing pushed, n queued. */
  ghost predicate Fresh(l: Live) {
    At(l, Books(Pending, Pending, 0, UNSET), Waiting(1), 1, [], Resting)
  }

  /** It is what a process start on an empty database leaves. */
  lemma BootIsFresh()
    ensures Valid(G) && Fresh(Live(Boot(G, map[], 0), [], Resting))
  {
    GIsValid();
    var s := State(Reload(G, map[]), RestoredRetries(G, map[]), Queue(multiset{}, map[], map[]), 0, map[], []);
    assert s.book.attempt == Books(Pending, Pending, 0, UNSET).attempt;
    assert s.book.meta == Books(Pending, Pending, 0, UNSET).meta;
    var s1 := Register(G, s, N);
    assert s1.q == Waiting(1) && s1.clock == 1 && s1.book == s.book;
    assert [N][1..] == [];
    assert RegisterAll(G, s, [N]) == RegisterAll(G, s1, []) == s1;
  }

  lemma BindsFirst(s: State)
    requires Valid(G) && s.book == Books(First(), Pending, 0, UNSET) && s.q == NOTHING
    ensures Judge(G, s, N) == Ready && Bind(G, s.book, N) == F
  {
    Actives(s.book.attempt);
    assert Bind(G, s.book, N).stamps == map[X := 0];
  }

  lemma BeginStep(l: Live)
    requires Valid(G) && At(l, Books(First(), Pending, 0, UNSET), Waiting(1), 1, [Submission(X, First())], Resting)
    ensures Possible(G, l, Begin(Event(1, N)))
    ensures At(Advance(G, l, Begin(Event(1, N))), Books(First(), Pending, 0, UNSET), NOTHING, 1,
               [Submission(X, First())], Computing(F))
  {
    assert map[N := 1] - {N} == map[];
    BindsFirst(l.s.(q := NOTHING));
  }

  lemma AnswerStep(l: Live)
    requires Valid(G) && At(l, Books(First(), Pending, 0, UNSET), NOTHING, 1, [Submission(X, First())], Computing(F))
    ensures Possible(G, l, Answer)
    ensures At(Advance(G, l, Answer), Books(First(), Pending, 0, UNSET), NOTHING, 2,
               [Submission(X, First())], Answered(F, First()))
  {
  }

  /** Storing a row of x announces it to n, which is pending and so stale. */
  lemma Announces(s: State, a: Attempt)
    requires Valid(G) && s.book == Books(a, Pending, s.clock, UNSET)
    ensures var t := Emit(G, s, X);
      t.book == s.book && t.clock == s.clock + 1 && t.q == Enqueue(s.q, N, s.clock + 1)
  {
    assert IsStale(G, s.book, N);
    var s1 := OnDepChanged(G, s, N);
    assert G.dependents[X] == [N] && [N][1..] == [];
    assert EmitTo(G, s, [N]) == EmitTo(G, s1, []) == s1;
  }

  lemma ApplyStep(l: Live, storedAt: int, q: Queue, a: Attempt, phase: Phase)
    requires Valid(G) && At(l, Books(a, Pending, storedAt, UNSET), q, l.s.clock, [Submission(X, a)], phase)
    ensures Possible(G, l, Apply)
    ensures At(Advance(G, l, Apply), Books(a, Pending, l.s.clock + 1, UNSET), Enqueue(q, N, l.s.clock + 2),
               l.s.clock + 2, [], phase)
  {
    var s1 := StoreRow(G, l.s, X, a);
    assert s1.book == Books(a, Pending, l.s.clock + 1, UNSET);
    Announces(s1, a);
  }

  lemma AssignStep(l: Live, x: Attempt, storedAt: int, q: Queue, a: Attempt, phase: Phase)
    requires Valid(G) && At(l, Books(x, Pending, storedAt, UNSET), q, l.s.clock, [], phase)
    ensures Possible(G, l, Assign(X, a))
    ensures At(Advance(G, l, Assign(X, a)), Books(a, Pending, storedAt, UNSET), q, l.s.clock, [Submission(X, a)], phase)
  {
  }

  /** n completes on the first value, with the empty stamp it bound, after both rows were stored. */
  lemma EndStep(l: Live)
    requires Valid(G) && At(l, Books(Second(), Pending, 5, UNSET), Waiting(4), 6, [], Answered(F, First()))
    ensures Possible(G, l, End)
    ensures At(Advance(G, l, End), Books(Second(), First(), 5, DONE), Waiting(4), 9, [], Resting)
  {
    var t := Record(G, l.s, F, First());
    assert t.book == Books(Second(), First(), 5, DONE) && t.q == l.s.q && t.clock == 9;
    assert EmitTo(G, t, G.dependents[N]) == t;
    assert Complete(G, l.s, F, First()) == t;
    assert Settle(G, t, N).0 == t.(q := ForgetRequeues(t.q, N));
    assert ForgetRequeues(Waiting(4), N) == Waiting(4);
  }

  lemma LooksFresh(b: Book)
    requires Valid(G) && b == Books(Second(), First(), 5, DONE)
    ensures !IsStale(G, b, N) && !Consistent(G, b.attempt, N)
  {
    Actives(b.attempt);
    assert !Moved(G, b, N, X);
    assert forall t :: G.world(N, [Second()], t) == Returned(Second());
  }

  /** The wake-up that both rows queued finds nothing stale. */
  lemma WakeStep(l: Live)
    requires Valid(G) && At(l, Books(Second(), First(), 5, DONE), Waiting(4), 9, [], Resting)
    ensures Possible(G, l, Begin(Event(4, N)))
    ensures At(Advance(G, l, Begin(Event(4, N))), Books(Second(), First(), 5, DONE), NOTHING, 9, [], Resting)
  {
    assert map[N := 4] - {N} == map[];
    var s1 := l.s.(q := NOTHING);
    assert Take(l.s, Event(4, N)) == s1;
    LooksFresh(s1.book);
    assert Refresh(G, s1, N) == s1;
    assert Settle(G, s1, N).0 == s1.(q := ForgetRequeues(NOTHING, N)) && ForgetRequeues(NOTHING, N) == NOTHING;
  }

  /** The first push is bound before its row is stored, and answered. */
  lemma UntilAnswered(l: Live) returns (r: Live)
    requires Valid(G) && Fresh(l)
    ensures Reaches(G, l, r)
    ensures At(r, Books(First(), Pending, 0, UNSET), NOTHING, 2, [Submission(X, First())], Answered(F, First()))
  {
    assert LiveRun(G, l, [], l);
    AssignStep(l, Pending, 0, Waiting(1), First(), Resting);
    Then(G, l, l, Assign(X, First()));
    var l1 := Advance(G, l, Assign(X, First()));
    BeginStep(l1);
    Then(G, l, l1, Begin(Event(1, N)));
    var l2 := Advance(G, l1, Begin(Event(1, N)));
    AnswerStep(l2);
    Then(G, l, l2, Answer);
    r := Advance(G, l2, Answer);
  }

  /** Both rows are stored before the completion. */
  lemma UntilStored(l: Live, m: Live) returns (r: Live)
    requires Valid(G) && Reaches(G, l, m)
    requires At(m, Books(First(), Pending, 0, UNSET), NOTHING, 2, [Submission(X, First())], Answered(F, First()))
    ensures Reaches(G, l, r) && At(r, Books(Second(), Pending, 5, UNSET), Waiting(4), 6, [], Answered(F, First()))
  {
    ApplyStep(m, 0, NOTHING, First(), Answered(F, First()));
    Then(G, l, m, Apply);
    var m1 := Advance(G, m, Apply);
    AssignStep(m1, First(), 3, Waiting(4), Second(), Answered(F, First()));
    Then(G, l, m1, Assign(X, Second()));
    var m2 := Advance(G, m1, Assign(X, Second()));
    ApplyStep(m2, 3, Waiting(4), Second(), Answered(F, First()));
    Then(G, l, m2, Apply);
    r := Advance(G, m2, Apply);
  }

  /**
   * The update is lost: nothing is suspended, queued or waiting to be stored, x
   * holds the second value, n the first, and n does not report stale.
   */
  lemma EmptyStampLosesUpdate(l: Live) returns (r: Live)
    requires Valid(G) && Fresh(l)
    ensures Reaches(G, l, r)
    ensures r.phase == Resting && r.outstanding == [] && Idle(r.s)
    ensures WellFormed(G, r.s) && !IsStale(G, r.s.book, N) && !Consistent(G, r.s.book.attempt, N)
  {
    var m := UntilAnswered(l);
    var m1 := UntilStored(l, m);
    EndStep(m1);
    Then(G, l, m1, End);
    var m2 := Advance(G, m1, End);
    WakeStep(m2);
    Then(G, l, m2, Begin(Event(4, N)));
    r := Advance(G, m2, Begin(Event(4, N)));
    LooksFresh(r.s.book);
  }
}
