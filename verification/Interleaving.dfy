// The engine with suspended refreshes: one loop, whose refresh of a node is
// split into binding its inputs, the answer of compute and the completion,
// while pushes assign values and their queued halves are applied in between.
module Interleaving {
  import opened Attempts
  import opened DagGraph
  import opened Engine
  import opened Frames
  import opened Actions
  import opened Refreshes

  /** A pushed value whose row is not yet stored. */
  datatype Submission = Submission(input: Id, value: Attempt)

  datatype Phase = Resting | Computing(f: Flight) | Answered(f: Flight, result: Attempt)

  datatype Live = Live(s: State, outstanding: seq<Submission>, phase: Phase)

  datatype Step =
    | Assign(input: Id, value: Attempt)  // the caller's half of push or fail
    | Apply                              // the processor's half: row and signal
    | Begin(event: Event)                // pop, and refresh up to the call of compute
    | Answer                             // compute answers; its retry decision
    | End                                // the tail of the refresh and its bookkeeping

  ghost predicate Possible(g: Graph, l: Live, step: Step) {
    match step
    case Assign(x, _) => x in g.inputs
    case Apply => l.outstanding != [] && l.outstanding[0].input in g.inputs
    case Begin(e) => l.phase == Resting && Next(g, l.s.q, e)
    case Answer => l.phase.Computing? && Derived(g, l.phase.f.node)
    case End => l.phase.Answered? && Derived(g, l.phase.f.node)
  }

  /** The value a submission stores is the one it was made with; the node already shows the latest one. */
  function StoreRow(g: Graph, s: State, x: Id, a: Attempt): (r: State)
    requires WellFormed(g, s) && x in g.inputs
    ensures WellFormed(g, r)
  {
    s.(book := s.book.(meta := s.book.meta[x := s.book.meta[x].(persistedAt := s.clock + 1)]),
       clock := s.clock + 1,
       rows := s.rows[x := Row(a, s.clock + 1, map[], None, None, 0)])
  }

  function Advance(g: Graph, l: Live, step: Step): (r: Live)
    requires WellFormed(g, l.s) && Possible(g, l, step)
    ensures WellFormed(g, r.s)
  {
    match step
    case Assign(x, a) =>
      l.(s := l.s.(book := l.s.book.(attempt := l.s.book.attempt[x := a])),
         outstanding := l.outstanding + [Submission(x, a)])
    case Apply =>
      var sub := l.outstanding[0];
      l.(s := Emit(g, StoreRow(g, l.s, sub.input, sub.value), sub.input), outstanding := l.outstanding[1..])
    case Begin(e) =>
      var s1 := Take(l.s, e);
      if Judge(g, s1, e.node) == Ready then l.(s := s1, phase := Computing(Bind(g, s1.book, e.node)))
      else l.(s := Settle(g, Refresh(g, s1, e.node), e.node).0)
    case Answer =>
      var (s1, r) := RunCompute(g, l.s, l.phase.f);
      l.(s := s1, phase := Answered(l.phase.f, r))
    case End =>
      var n := l.phase.f.node;
      l.(s := Settle(g, Finish(g, l.s, l.phase.f, l.phase.result), n).0, phase := Resting)
  }

  ghost predicate LiveRun(g: Graph, l: Live, steps: seq<Step>, r: Live)
    requires WellFormed(g, l.s)
    decreases |steps|
  {
    if steps == [] then l == r
    else Possible(g, l, steps[0]) && LiveRun(g, Advance(g, l, steps[0]), steps[1..], r)
  }

  /** The state of a process with a given book, queue and clock, between two steps. */
  ghost predicate At(l: Live, b: Book, q: Queue, clock: int, outstanding: seq<Submission>, phase: Phase) {
    l.s.book == b && l.s.q == q && l.s.clock == clock && l.outstanding == outstanding && l.phase == phase
  }

  ghost predicate Reaches(g: Graph, l: Live, r: Live) {
    WellFormed(g, l.s) && exists steps :: LiveRun(g, l, steps, r)
  }

  lemma {:induction false} RunThen(g: Graph, l: Live, steps: seq<Step>, m: Live, step: Step)
    requires WellFormed(g, l.s) && LiveRun(g, l, steps, m) && WellFormed(g, m.s) && Possible(g, m, step)
    ensures LiveRun(g, l, steps + [step], Advance(g, m, step))
    decreases |steps|
  {
    if steps == [] {
      assert (steps + [step])[1..] == [];
    } else {
      assert (steps + [step])[1..] == steps[1..] + [step];
      RunThen(g, Advance(g, l, steps[0]), steps[1..], m, step);
    }
  }

  lemma Reached(g: Graph, l: Live, steps: seq<Step>, r: Live)
    requires WellFormed(g, l.s) && LiveRun(g, l, steps, r)
    ensures Reaches(g, l, r)
  {
  }

  lemma Then(g: Graph, l: Live, m: Live, step: Step)
    requires Reaches(g, l, m) && WellFormed(g, m.s) && Possible(g, m, step)
    ensures Reaches(g, l, Advance(g, m, step))
  {
    var steps :| LiveRun(g, l, steps, m);
    RunThen(g, l, steps, m, step);
    Reached(g, l, steps + [step], Advance(g, m, step));
  }

  // -------------------------------------------------------------- honesty

  /**
   * n bound a dependency that had no row yet, and that row came before n
   * completed: the empty stamp hides it from the staleness test.
   */
  ghost predicate Hollow(g: Graph, b: Book, n: Id)
    requires WellFormedBook(g, b) && Derived(g, n)
  {
    exists d | d in b.meta[n].depStamps ::
      Edge(g, n, d) && b.meta[n].depStamps[d] == 0 && 0 < b.meta[d].persistedAt <= b.meta[n].computedAt
  }

  /** The same for a dependency that n's evaluation looks at now. */
  ghost predicate HollowNow(g: Graph, b: Book, n: Id)
    requires WellFormedBook(g, b) && Derived(g, n)
  {
    exists d | d in Active(g, b.attempt, n) ::
      d in b.meta[n].depStamps && b.meta[n].depStamps[d] == 0
      && Edge(g, n, d) && 0 < b.meta[d].persistedAt <= b.meta[n].computedAt
  }

  ghost predicate Suspect(g: Graph, b: Book, n: Id)
    requires WellFormedBook(g, b) && Derived(g, n)
  {
    IsStale(g, b, n) || HollowNow(g, b, n)
  }

  /** n looks at all its dependencies in every evaluation. */
  predicate Plain(g: Graph, n: Id) {
    n in g.branches && g.branches[n] == []
  }

  /** The derived dependencies of n are plain; n itself may be conditional. */
  ghost predicate OnPlain(g: Graph, n: Id) {
    forall d {:trigger Edge(g, n, d)} | Edge(g, n, d) && Derived(g, d) :: Plain(g, d)
  }

  ghost predicate Outstanding(subs: seq<Submission>, x: Id) {
    exists i | 0 <= i < |subs| :: subs[i].input == x
  }

  /** n is its own computation, or it, a dependency, or a value not yet stored is to blame. */
  ghost predicate LiveHonest(g: Graph, b: Book, subs: seq<Submission>, n: Id)
    requires WellFormedBook(g, b) && Derived(g, n)
  {
    || Suspect(g, b, n)
    || Consistent(g, b.attempt, n)
    || (exists d | d in Active(g, b.attempt, n) :: Derived(g, d) && Suspect(g, b, d))
    || (exists d | d in Active(g, b.attempt, n) :: Outstanding(subs, d))
  }

  /** Some condition of n has a value not yet stored. */
  ghost predicate AwaitsRow(g: Graph, subs: seq<Submission>, n: Id) {
    n in g.fixed && exists c | c in g.fixed[n] :: Outstanding(subs, c)
  }

  /** n bound the dependencies its rule picks on the bound attempts. */
  ghost predicate PickedBy(g: Graph, f: Flight) {
    && Derived(g, f.node) && |f.atts| == |f.active| && |g.fixed[f.node]| <= |f.active|
    && f.active == g.fixed[f.node] + g.choose(f.node, f.atts[..|g.fixed[f.node]|])
    && f.stamps.Keys == (set d | d in f.active)
    && forall d | d in f.active :: Edge(g, f.node, d)
  }

  /** The i-th dependency that n bound holds the attempt n bound. */
  predicate Holds(b: Book, f: Flight, i: int) {
    0 <= i < |f.active| && i < |f.atts| && f.active[i] in b.attempt && b.attempt[f.active[i]] == f.atts[i]
  }

  /** Each dependency n bound still holds the bound attempt, has moved its row, or has a value not yet stored. */
  ghost predicate Bound(g: Graph, l: Live, f: Flight)
    requires WellFormed(g, l.s) && PickedBy(g, f)
  {
    forall i | 0 <= i < |f.active| :: Edge(g, f.node, f.active[i]) &&
      (|| Holds(l.s.book, f, i)
       || l.s.book.meta[f.active[i]].persistedAt != f.stamps[f.active[i]]
       || Outstanding(l.outstanding, f.active[i]))
  }

  /**
   * Once the row of a bound dependency moved, n is scheduled; for a chosen
   * branch it may instead be that a condition is about to move.
   */
  ghost predicate Watched(g: Graph, l: Live, f: Flight)
    requires WellFormed(g, l.s) && Derived(g, f.node)
  {
    forall d | d in f.stamps :: Edge(g, f.node, d) && f.stamps[d] <= l.s.book.meta[d].persistedAt &&
      (l.s.book.meta[d].persistedAt != f.stamps[d] ==>
         || f.node in l.s.q.scheduled
         || (d !in g.fixed[f.node] && AwaitsRow(g, l.outstanding, f.node)))
  }

  /** A suspended plain node is scheduled for a reason: a moved row, or its own retry. */
  ghost predicate Motivated(g: Graph, l: Live, f: Flight)
    requires WellFormed(g, l.s)
  {
    f.node in l.s.q.scheduled ==>
      || (exists d | d in f.stamps :: d in l.s.book.meta && l.s.book.meta[d].persistedAt != f.stamps[d])
      || (l.phase.Answered? && l.phase.result.Pending?)
  }

  /** A suspended refresh. */
  ghost predicate Suspended(g: Graph, l: Live, f: Flight)
    requires WellFormed(g, l.s)
  {
    && SoundFlight(g, f, l.s.clock) && PickedBy(g, f)
    && !AnyImpossible(f.atts) && !AnyPending(f.atts)
    && Bound(g, l, f) && Watched(g, l, f) && (Plain(g, f.node) ==> Motivated(g, l, f))
  }

  /** What compute answered, in terms of the bound attempts. */
  ghost predicate AnswersFlight(g: Graph, l: Live, f: Flight, r: Attempt)
    requires WellFormed(g, l.s) && Derived(g, f.node)
  {
    r.Pending? || Evaluates(g, f.node, f.atts, r)
  }

  ghost predicate LiveInv(g: Graph, l: Live) {
    && WellFormed(g, l.s) && SoundBook(g, l.s.book, l.s.clock)
    && Covered(l.s.q)
    && (forall i | 0 <= i < |l.outstanding| :: l.outstanding[i].input in g.inputs)
    && Reasoned(g, l.s.book, l.s.q)
    && AllLiveHonest(g, l.s.book, l.outstanding)
    && (match l.phase
        case Resting => true
        case Computing(f) => Suspended(g, l, f)
        case Answered(f, r) => Suspended(g, l, f) && AnswersFlight(g, l, f, r))
  }

  /** Whatever is scheduled is derived, and suspect if it is plain. */
  ghost predicate Reasoned(g: Graph, b: Book, q: Queue)
    requires WellFormedBook(g, b)
  {
    forall m | m in q.scheduled :: Derived(g, m) && (Plain(g, m) ==> Suspect(g, b, m))
  }

  ghost predicate AllLiveHonest(g: Graph, b: Book, subs: seq<Submission>)
    requires WellFormedBook(g, b)
  {
    forall m {:trigger LiveHonest(g, b, subs, m)} | Derived(g, m) && OnPlain(g, m) :: LiveHonest(g, b, subs, m)
  }

  // ------------------------------------------------------- frame lemmas

  lemma SuspectSurvives(g: Graph, b: Book, c: Book, n: Id, clock: int, m: Id)
    requires SoundBook(g, b, clock) && Stamps(g, b, c, n, clock)
    requires Derived(g, m) && m != n && Suspect(g, b, m)
    ensures Suspect(g, c, m)
  {
    if !IsStale(g, c, m) {
      UnaffectedView(g, b, c, n, clock, m);
    }
  }

  /** A write of n's row leaves every other node honest, with one submission of n possibly consumed. */
  lemma OthersStayLiveHonest(g: Graph, b: Book, subs: seq<Submission>, c: Book, left: seq<Submission>,
                             n: Id, clock: int, m: Id)
    requires SoundBook(g, b, clock) && Stamps(g, b, c, n, clock)
    requires Derived(g, m) && m != n && LiveHonest(g, b, subs, m)
    requires forall x | x != n && Outstanding(subs, x) :: Outstanding(left, x)
    ensures LiveHonest(g, c, left, m)
  {
    if !IsStale(g, c, m) {
      UnaffectedView(g, b, c, n, clock, m);
      if Suspect(g, b, m) {
        SuspectSurvives(g, b, c, n, clock, m);
      } else if Consistent(g, b.attempt, m) {
        ConsistentOrStale(g, b, c, n, clock, m);
      } else if exists d | d in Active(g, b.attempt, m) :: Derived(g, d) && Suspect(g, b, d) {
        var d :| d in Active(g, b.attempt, m) && Derived(g, d) && Suspect(g, b, d);
        SuspectSurvives(g, b, c, n, clock, d);
      }
    }
  }

  // ---------------------------------------------------- the steps, one by one

  /** A plain node's dependencies do not depend on what anything holds. */
  lemma PlainView(g: Graph, a: map<Id, Attempt>, n: Id)
    requires Valid(g) && Nodes(g) <= a.Keys && Derived(g, n) && Plain(g, n)
    ensures Active(g, a, n) == g.fixed[n]
  {
    assert forall d | d in g.fixed[n] :: Edge(g, n, d);
    var chosen := g.choose(n, AttemptsOf(a, g.fixed[n]));
    assert forall d | d in chosen :: d in g.branches[n];
    ChosenAmong(chosen, g.branches[n]);
  }

  /** A new value of x leaves the view of m alone, unless x is one of the dependencies m always looks at. */
  lemma AssignSeesSame(g: Graph, b: Book, x: Id, a: Attempt, m: Id)
    requires WellFormedBook(g, b) && x in g.inputs && Derived(g, m) && (Plain(g, m) || x !in g.fixed[m])
    ensures var c := b.(attempt := b.attempt[x := a]);
      && Active(g, c.attempt, m) == Active(g, b.attempt, m)
      && (IsStale(g, c, m) <==> IsStale(g, b, m))
      && (HollowNow(g, c, m) <==> HollowNow(g, b, m))
      && (x !in Active(g, b.attempt, m) ==> (Consistent(g, c.attempt, m) <==> Consistent(g, b.attempt, m)))
  {
    var c := b.(attempt := b.attempt[x := a]);
    assert forall d | d in g.fixed[m] :: Edge(g, m, d);
    if x in g.fixed[m] {
      PlainView(g, b.attempt, m);
      PlainView(g, c.attempt, m);
    } else {
      SameAttempts(b.attempt, c.attempt, g.fixed[m]);
    }
    SameMoves(g, b, c, m);
    if x !in Active(g, b.attempt, m) {
      assert forall d | d in Active(g, b.attempt, m) :: Edge(g, m, d);
      SameView(g, b.attempt, c.attempt, m);
    }
  }

  lemma SameMoves(g: Graph, b: Book, c: Book, m: Id)
    requires WellFormedBook(g, b) && WellFormedBook(g, c) && Derived(g, m) && c.meta == b.meta
    ensures forall d {:trigger Moved(g, c, m, d)} | d in Nodes(g) :: Moved(g, c, m, d) <==> Moved(g, b, m, d)
  {
  }

  lemma OutstandingGrows(subs: seq<Submission>, sub: Submission, x: Id)
    requires Outstanding(subs, x) || sub.input == x
    ensures Outstanding(subs + [sub], x)
  {
    if Outstanding(subs, x) {
      var i :| 0 <= i < |subs| && subs[i].input == x;
      assert (subs + [sub])[i].input == x;
    } else {
      assert (subs + [sub])[|subs|].input == x;
    }
  }

  lemma AssignKeepsHonest(g: Graph, b: Book, subs: seq<Submission>, x: Id, a: Attempt, m: Id)
    requires WellFormedBook(g, b) && x in g.inputs && Derived(g, m) && OnPlain(g, m) && LiveHonest(g, b, subs, m)
    ensures LiveHonest(g, b.(attempt := b.attempt[x := a]), subs + [Submission(x, a)], m)
  {
    OutstandingGrows(subs, Submission(x, a), x);
    if x !in g.fixed[m] {
      AssignSeesSame(g, b, x, a, m);
      if x !in Active(g, b.attempt, m) && !Suspect(g, b, m) && !Consistent(g, b.attempt, m) {
        AssignKeepsBlame(g, b, subs, x, a, m);
      }
    }
  }

  /** Who is to blame for m's value still is. */
  lemma AssignKeepsBlame(g: Graph, b: Book, subs: seq<Submission>, x: Id, a: Attempt, m: Id)
    requires WellFormedBook(g, b) && x in g.inputs && Derived(g, m) && OnPlain(g, m) && LiveHonest(g, b, subs, m)
    requires x !in g.fixed[m] && !Suspect(g, b, m) && !Consistent(g, b.attempt, m)
    ensures LiveHonest(g, b.(attempt := b.attempt[x := a]), subs + [Submission(x, a)], m)
  {
    AssignSeesSame(g, b, x, a, m);
    if d :| d in Active(g, b.attempt, m) && Derived(g, d) && Suspect(g, b, d) {
      assert Edge(g, m, d);
      AssignSeesSame(g, b, x, a, d);
    } else {
      var d :| d in Active(g, b.attempt, m) && Outstanding(subs, d);
      OutstandingGrows(subs, Submission(x, a), d);
    }
  }

  lemma AssignKeepsFlight(g: Graph, l: Live, x: Id, a: Attempt)
    requires WellFormed(g, l.s) && x in g.inputs && l.phase != Resting && Suspended(g, l, l.phase.f)
    ensures Suspended(g, Advance(g, l, Assign(x, a)), l.phase.f)
  {
    forall y | Outstanding(l.outstanding, y) || y == x ensures Outstanding(l.outstanding + [Submission(x, a)], y) {
      OutstandingGrows(l.outstanding, Submission(x, a), y);
    }
  }

  lemma AssignKeeps(g: Graph, l: Live, x: Id, a: Attempt)
    requires LiveInv(g, l) && x in g.inputs
    ensures LiveInv(g, Advance(g, l, Assign(x, a)))
  {
    var r := Advance(g, l, Assign(x, a));
    var b, c := l.s.book, r.s.book;
    forall m | m in Nodes(g) ensures SoundNode(g, c, r.s.clock, m) {
      assert SoundNode(g, b, l.s.clock, m);
    }
    forall m | m in r.s.q.scheduled && Plain(g, m) ensures Suspect(g, c, m) {
      AssignSeesSame(g, b, x, a, m);
    }
    forall m | Derived(g, m) && OnPlain(g, m) ensures LiveHonest(g, c, r.outstanding, m) {
      assert LiveHonest(g, b, l.outstanding, m);
      AssignKeepsHonest(g, b, l.outstanding, x, a, m);
    }
    if l.phase != Resting {
      AssignKeepsFlight(g, l, x, a);
    }
  }

  lemma StoreRowStamps(g: Graph, s: State, x: Id, a: Attempt)
    requires WellFormed(g, s) && SoundBook(g, s.book, s.clock) && x in g.inputs
    ensures var t := StoreRow(g, s, x, a);
      && Stamps(g, s.book, t.book, x, s.clock) && SoundBook(g, t.book, t.clock)
      && t.book.attempt == s.book.attempt && t.q == s.q && t.clock == s.clock + 1
  {
    var t := StoreRow(g, s, x, a);
    SoundAfter(g, s.book, t.book, x, s.clock, t.clock);
  }

  /** r is l after a row of the input x was stored and announced. */
  ghost predicate Stored(g: Graph, l: Live, r: Live, x: Id)
    requires WellFormed(g, l.s)
  {
    && x in g.inputs && WellFormed(g, r.s) && r.phase == l.phase
    && Stamps(g, l.s.book, r.s.book, x, l.s.clock) && r.s.book.attempt == l.s.book.attempt
    && l.s.clock <= r.s.clock && Announced(g, r.s.book, r.s.q, x) && Keeps(l.s.q, r.s.q)
    && (forall m | m in r.s.q.scheduled :: m in l.s.q.scheduled || m in g.dependents[x])
    && (forall y | y != x && Outstanding(l.outstanding, y) :: Outstanding(r.outstanding, y))
  }

  lemma StoredKeepsBound(g: Graph, l: Live, f: Flight, r: Live, x: Id)
    requires WellFormed(g, l.s) && Stored(g, l, r, x) && SoundFlight(g, f, l.s.clock)
    requires PickedBy(g, f) && Bound(g, l, f)
    ensures Bound(g, r, f)
  {
  }

  /** The stored row of a dependency that n looks at now, or always, wakes n. */
  lemma StoredWakes(g: Graph, l: Live, n: Id, r: Live, x: Id)
    requires WellFormed(g, l.s) && SoundBook(g, l.s.book, l.s.clock) && Stored(g, l, r, x) && Derived(g, n)
    requires x in Active(g, l.s.book.attempt, n)
    ensures n in r.s.q.scheduled
  {
    assert Edge(g, n, x);
    StampedDependencyIsStale(g, l.s.book, r.s.book, x, l.s.clock, n);
  }

  /** A bound branch that n does not look at now: a condition moved, or is about to. */
  lemma UnchosenBranch(g: Graph, l: Live, f: Flight, x: Id)
    requires WellFormed(g, l.s) && SoundFlight(g, f, l.s.clock) && PickedBy(g, f)
    requires Bound(g, l, f) && Watched(g, l, f)
    requires x in f.active && x !in Active(g, l.s.book.attempt, f.node)
    ensures f.node in l.s.q.scheduled || AwaitsRow(g, l.outstanding, f.node)
  {
    var n, fixed := f.node, g.fixed[f.node];
    assert forall d | d in fixed :: Edge(g, n, d);
    assert AttemptsOf(l.s.book.attempt, fixed) != f.atts[..|fixed|];
    var i :| 0 <= i < |fixed| && AttemptsOf(l.s.book.attempt, fixed)[i] != f.atts[i];
    assert f.active[i] == fixed[i] && fixed[i] in fixed && fixed[i] in f.stamps;
  }

  lemma StoredKeepsWatched(g: Graph, l: Live, f: Flight, r: Live, x: Id)
    requires WellFormed(g, l.s) && SoundBook(g, l.s.book, l.s.clock) && Stored(g, l, r, x)
    requires SoundFlight(g, f, l.s.clock) && PickedBy(g, f) && Bound(g, l, f) && Watched(g, l, f)
    ensures Watched(g, r, f)
  {
    var n := f.node;
    if x in Active(g, l.s.book.attempt, n) {
      StoredWakes(g, l, n, r, x);
    } else {
      KeepsAwaiting(g, l, n, r, x);
      if x in f.active {
        UnchosenBranch(g, l, f, x);
      }
    }
  }

  /** A condition other than x that awaits its row still does. */
  lemma KeepsAwaiting(g: Graph, l: Live, n: Id, r: Live, x: Id)
    requires WellFormed(g, l.s) && Stored(g, l, r, x) && Derived(g, n) && x !in Active(g, l.s.book.attempt, n)
    ensures AwaitsRow(g, l.outstanding, n) ==> AwaitsRow(g, r.outstanding, n)
  {
  }

  lemma StoredKeepsMotivated(g: Graph, l: Live, f: Flight, r: Live, x: Id)
    requires WellFormed(g, l.s) && Stored(g, l, r, x) && SoundFlight(g, f, l.s.clock) && PickedBy(g, f)
    requires Plain(g, f.node) && Motivated(g, l, f)
    ensures Motivated(g, r, f)
  {
    assert f.node != x;
    assert f.node in g.dependents[x] ==> Edge(g, f.node, x);
  }

  lemma ApplyKeepsFlight(g: Graph, l: Live, f: Flight, r: Live, x: Id)
    requires LiveInv(g, l) && Suspended(g, l, f) && Stored(g, l, r, x)
    ensures Suspended(g, r, f)
  {
    StoredKeepsBound(g, l, f, r, x);
    StoredKeepsWatched(g, l, f, r, x);
    if Plain(g, f.node) {
      StoredKeepsMotivated(g, l, f, r, x);
    }
  }

  lemma ApplyStores(g: Graph, l: Live)
    requires LiveInv(g, l) && Possible(g, l, Apply)
    ensures Stored(g, l, Advance(g, l, Apply), l.outstanding[0].input)
    ensures SoundBook(g, Advance(g, l, Apply).s.book, Advance(g, l, Apply).s.clock)
    ensures Covered(Advance(g, l, Apply).s.q)
    ensures forall m | m in Advance(g, l, Apply).s.q.scheduled ::
              m in l.s.q.scheduled || (Derived(g, m) && IsStale(g, Advance(g, l, Apply).s.book, m))
  {
    var r, sub := Advance(g, l, Apply), l.outstanding[0];
    var x, t := sub.input, StoreRow(g, l.s, sub.input, sub.value);
    StoreRowStamps(g, l.s, x, sub.value);
    DependentsAreDerived(g, x);
    EmitNotifies(g, t, g.dependents[x]);
    SoundLater(g, t.book, t.clock, r.s.clock);
    OutstandingLater(l.outstanding);
  }

  lemma OutstandingLater(subs: seq<Submission>)
    requires subs != []
    ensures forall y | y != subs[0].input && Outstanding(subs, y) :: Outstanding(subs[1..], y)
  {
    forall y | y != subs[0].input && Outstanding(subs, y) ensures Outstanding(subs[1..], y) {
      var i :| 0 <= i < |subs| && subs[i].input == y;
      assert subs[1..][i - 1].input == y;
    }
  }

  lemma ApplyKeeps(g: Graph, l: Live)
    requires LiveInv(g, l) && Possible(g, l, Apply)
    ensures LiveInv(g, Advance(g, l, Apply))
  {
    var r, x := Advance(g, l, Apply), l.outstanding[0].input;
    ApplyStores(g, l);
    forall m | m in r.s.q.scheduled ensures Derived(g, m) && (Plain(g, m) ==> Suspect(g, r.s.book, m)) {
      if m in l.s.q.scheduled && Plain(g, m) {
        SuspectSurvives(g, l.s.book, r.s.book, x, l.s.clock, m);
      }
    }
    forall m | Derived(g, m) && OnPlain(g, m) ensures LiveHonest(g, r.s.book, r.outstanding, m) {
      assert LiveHonest(g, l.s.book, l.outstanding, m);
      OthersStayLiveHonest(g, l.s.book, l.outstanding, r.s.book, r.outstanding, x, l.s.clock, m);
    }
    if l.phase != Resting {
      ApplyKeepsFlight(g, l, l.phase.f, r, x);
    }
  }

  /** Bookkeeping after a refresh: the books stay, and n may be put back while it is pending. */
  lemma SettleCovers(g: Graph, u: State, n: Id)
    requires WellFormed(g, u) && Derived(g, n) && Covered(u.q)
    ensures var t := Settle(g, u, n).0;
      && t.book == u.book && t.clock == u.clock && Covered(t.q)
      && (forall m | m in u.q.scheduled :: m in t.q.scheduled)
      && (forall m | m in t.q.scheduled :: m in u.q.scheduled || (m == n && u.book.attempt[n].Pending?))
  {
  }

  lemma TakeCovers(g: Graph, s: State, e: Event)
    requires WellFormed(g, s) && Covered(s.q)
    ensures Covered(Take(s, e).q) && e.node !in Take(s, e).q.scheduled
    ensures forall m | m in Take(s, e).q.scheduled :: m in s.q.scheduled
  {
  }

  /** What a refresh binds, it bound by its rule. */
  lemma BindsByRule(g: Graph, b: Book, n: Id)
    requires WellFormedBook(g, b) && Derived(g, n)
    ensures PickedBy(g, Bind(g, b, n))
    ensures forall i | 0 <= i < |Bind(g, b, n).active| :: Holds(b, Bind(g, b, n), i)
  {
    var f, fixed := Bind(g, b, n), g.fixed[n];
    assert forall d | d in f.active :: Edge(g, n, d);
    assert f.atts[..|fixed|] == AttemptsOf(b.attempt, fixed);
    forall i | 0 <= i < |f.active| ensures Holds(b, f, i) {
      assert f.active[i] in f.active;
    }
  }

  lemma BeginSuspends(g: Graph, l: Live, e: Event)
    requires LiveInv(g, l) && Possible(g, l, Begin(e)) && Judge(g, Take(l.s, e), e.node) == Ready
    ensures LiveInv(g, Advance(g, l, Begin(e)))
  {
    var n, s1, r := e.node, Take(l.s, e), Advance(g, l, Begin(e));
    var f := Bind(g, s1.book, n);
    TakeCovers(g, l.s, e);
    BindIsSound(g, s1.book, s1.clock, n);
    BindsByRule(g, s1.book, n);
    assert Suspended(g, r, f);
  }

  /** The dependency n waits behind has a reason to be queued, and keeps it. */
  lemma DeferredIsLiveHonest(g: Graph, s: State, u: State, subs: seq<Submission>, n: Id, d: Id)
    requires WellFormed(g, s) && SoundBook(g, s.book, s.clock) && Derived(g, n)
    requires Stamps(g, s.book, u.book, n, s.clock)
    requires d in Active(g, s.book.attempt, n) && Derived(g, d) && Suspect(g, s.book, d)
    ensures LiveHonest(g, u.book, subs, n)
  {
    OwnView(g, s.book, u.book, n);
    assert Edge(g, n, d) && d != n;
    SuspectSurvives(g, s.book, u.book, n, s.clock, d);
  }

  lemma FailedIsLiveHonest(g: Graph, s: State, u: State, subs: seq<Submission>, n: Id)
    requires WellFormed(g, s) && WellFormed(g, u) && Derived(g, n) && Refreshed(g, s, u, n)
    requires Judge(g, s, n) == DependencyFailed
    ensures LiveHonest(g, u.book, subs, n)
  {
    OwnView(g, s.book, u.book, n);
  }

  /** A refresh that does not suspend leaves n honest. */
  lemma RefreshedIsLiveHonest(g: Graph, l: Live, s: State, u: State, n: Id)
    requires LiveInv(g, l) && s.book == l.s.book && s.clock == l.s.clock && WellFormed(g, s) && WellFormed(g, u)
    requires forall d | d in s.q.scheduled :: d in l.s.q.scheduled
    requires Derived(g, n) && OnPlain(g, n) && Refreshed(g, s, u, n) && Judge(g, s, n) != Ready
    ensures LiveHonest(g, u.book, l.outstanding, n)
  {
    match Judge(g, s, n)
    case UpToDate => assert LiveHonest(g, l.s.book, l.outstanding, n);
    case Blocked => assert LiveHonest(g, l.s.book, l.outstanding, n);
    case DependencyFailed => FailedIsLiveHonest(g, s, u, l.outstanding, n);
    case Deferred =>
      var d :| d in Active(g, s.book.attempt, n) && d in s.q.scheduled;
      assert Edge(g, n, d);
      DeferredIsLiveHonest(g, s, u, l.outstanding, n, d);
  }

  lemma ActedKeepsSuspects(g: Graph, s: State, u: State, n: Id)
    requires WellFormed(g, s) && SoundBook(g, s.book, s.clock) && n in Nodes(g)
    requires Acted(g, s, u, n)
    requires Reasoned(g, s.book, s.q)
    ensures forall m | m in u.q.scheduled && m != n :: Derived(g, m) && (Plain(g, m) ==> Suspect(g, u.book, m))
  {
    forall m | m in u.q.scheduled && m != n ensures Derived(g, m) && (Plain(g, m) ==> Suspect(g, u.book, m)) {
      if m in s.q.scheduled && u.book != s.book && Plain(g, m) {
        SuspectSurvives(g, s.book, u.book, n, s.clock, m);
      }
    }
  }

  lemma ActedKeepsHonest(g: Graph, s: State, u: State, n: Id, subs: seq<Submission>)
    requires WellFormed(g, s) && SoundBook(g, s.book, s.clock) && Derived(g, n)
    requires Acted(g, s, u, n) && AllLiveHonest(g, s.book, subs)
    requires OnPlain(g, n) ==> LiveHonest(g, u.book, subs, n)
    ensures AllLiveHonest(g, u.book, subs)
  {
    forall m | Derived(g, m) && OnPlain(g, m) ensures LiveHonest(g, u.book, subs, m) {
      assert LiveHonest(g, s.book, subs, m);
      if u.book != s.book && m != n {
        OthersStayLiveHonest(g, s.book, subs, u.book, subs, n, s.clock, m);
      }
    }
  }

  lemma BeginKeeps(g: Graph, l: Live, e: Event)
    requires LiveInv(g, l) && Possible(g, l, Begin(e))
    ensures LiveInv(g, Advance(g, l, Begin(e)))
  {
    var n, s1 := e.node, Take(l.s, e);
    if Judge(g, s1, n) == Ready {
      BeginSuspends(g, l, e);
    } else {
      TakeCovers(g, l.s, e);
      RefreshActs(g, s1, n);
      var u := Refresh(g, s1, n);
      RefreshedKeeps(g, l, s1, u, n);
      SettleKeeps(g, u, n, l.outstanding);
    }
  }

  /** A refresh that does not suspend, before its bookkeeping. */
  lemma RefreshedKeeps(g: Graph, l: Live, s: State, u: State, n: Id)
    requires LiveInv(g, l) && s.book == l.s.book && s.clock == l.s.clock && WellFormed(g, s) && WellFormed(g, u)
    requires (forall d | d in s.q.scheduled :: d in l.s.q.scheduled) && n !in s.q.scheduled
    requires Derived(g, n) && Refreshed(g, s, u, n) && Judge(g, s, n) != Ready
    ensures Reasoned(g, u.book, u.q) && AllLiveHonest(g, u.book, l.outstanding)
  {
    ActedKeepsSuspects(g, s, u, n);
    RefreshedStaysOff(g, s, u, n);
    if OnPlain(g, n) {
      RefreshedIsLiveHonest(g, l, s, u, n);
    }
    ActedKeepsHonest(g, s, u, n, l.outstanding);
  }

  lemma RefreshedStaysOff(g: Graph, s: State, u: State, n: Id)
    requires WellFormed(g, s) && WellFormed(g, u) && Derived(g, n) && Refreshed(g, s, u, n)
    requires n !in s.q.scheduled && Judge(g, s, n) != Ready
    ensures n !in u.q.scheduled
  {
  }

  /** The bookkeeping after a refresh; a node is put back only while it is pending, and so stale. */
  lemma SettleKeeps(g: Graph, u: State, n: Id, subs: seq<Submission>)
    requires WellFormed(g, u) && Derived(g, n) && SoundBook(g, u.book, u.clock) && Covered(u.q)
    requires Reasoned(g, u.book, u.q) && AllLiveHonest(g, u.book, subs)
    requires forall i | 0 <= i < |subs| :: subs[i].input in g.inputs
    ensures LiveInv(g, Live(Settle(g, u, n).0, subs, Resting))
  {
    SettleCovers(g, u, n);
  }

  /** Scheduling a retry of n only makes n stale. */
  lemma RetryOnly(g: Graph, b: Book, n: Id, due: Option<int>, m: Id)
    requires WellFormedBook(g, b) && Derived(g, n) && Derived(g, m) && due.Some?
    ensures var c := SetRetryAt(b, n, due);
      && WellFormedBook(g, c)
      && (if m == n then IsStale(g, c, m) else IsStale(g, c, m) <==> IsStale(g, b, m))
      && (Hollow(g, c, m) <==> Hollow(g, b, m))
      && (HollowNow(g, c, m) <==> HollowNow(g, b, m))
  {
    var c := SetRetryAt(b, n, due);
    forall d | Edge(g, m, d) ensures Moved(g, c, m, d) <==> Moved(g, b, m, d) {
    }
  }

  /** A scheduled retry of n leaves every node honest. */
  lemma RetryKeepsHonest(g: Graph, b: Book, subs: seq<Submission>, n: Id, due: Option<int>, m: Id)
    requires WellFormedBook(g, b) && Derived(g, n) && Derived(g, m) && due.Some? && LiveHonest(g, b, subs, m)
    ensures LiveHonest(g, SetRetryAt(b, n, due), subs, m)
  {
    RetryOnly(g, b, n, due, m);
    if !Suspect(g, b, m) && exists d | d in Active(g, b.attempt, m) :: Derived(g, d) && Suspect(g, b, d) {
      var d :| d in Active(g, b.attempt, m) && Derived(g, d) && Suspect(g, b, d);
      RetryOnly(g, b, n, due, d);
    }
  }

  lemma RetryKeepsFlight(g: Graph, l: Live, t: Live, at: int, r: Attempt)
    requires WellFormed(g, l.s) && l.phase.Computing? && Suspended(g, l, l.phase.f) && r.Pending?
    requires WellFormed(g, t.s) && t.phase == Answered(l.phase.f, r) && t.outstanding == l.outstanding
    requires t.s.q == Enqueue(l.s.q, l.phase.f.node, at) && t.s.book == SetRetryAt(l.s.book, l.phase.f.node, Some(at))
    requires l.s.clock <= t.s.clock
    ensures Suspended(g, t, l.phase.f)
  {
    RetryOnly(g, l.s.book, l.phase.f.node, Some(at), l.phase.f.node);
  }

  lemma RanKeeps(g: Graph, l: Live, s1: State, r: Attempt)
    requires LiveInv(g, l) && l.phase.Computing? && Ran(g, l.s, s1, l.phase.f, r)
    requires s1.book != l.s.book || s1.q != l.s.q
    ensures LiveInv(g, l.(s := s1, phase := Answered(l.phase.f, r)))
  {
    var f, t := l.phase.f, l.(s := s1, phase := Answered(l.phase.f, r));
    var n := f.node;
    var at :| s1.q == Enqueue(l.s.q, n, at) && s1.book == SetRetryAt(l.s.book, n, Some(at));
    EnqueueKeeps(l.s.q, n, at);
    forall m | m in s1.q.scheduled ensures Derived(g, m) && (Plain(g, m) ==> Suspect(g, s1.book, m)) {
      RetryOnly(g, l.s.book, n, Some(at), if m in l.s.q.scheduled then m else n);
    }
    forall m | Derived(g, m) && OnPlain(g, m) ensures LiveHonest(g, s1.book, l.outstanding, m) {
      assert LiveHonest(g, l.s.book, l.outstanding, m);
      RetryKeepsHonest(g, l.s.book, l.outstanding, n, Some(at), m);
    }
    RetryKeepsFlight(g, l, t, at, r);
  }

  lemma AnswerKeeps(g: Graph, l: Live)
    requires LiveInv(g, l) && Possible(g, l, Answer)
    ensures LiveInv(g, Advance(g, l, Answer))
  {
    var f := l.phase.f;
    var (s1, r) := RunCompute(g, l.s, f);
    RunComputeActs(g, l.s, f);
    if s1.book != l.s.book || s1.q != l.s.q {
      RanKeeps(g, l, s1, r);
    }
  }

  /** The verdict on a node right after its completion wrote a row: exactly the moves its bound stamps show. */
  lemma VerdictAfterCompletion(g: Graph, s: State, u: State, f: Flight, r: Attempt)
    requires WellFormed(g, s) && SoundBook(g, s.book, s.clock) && SoundFlight(g, f, s.clock)
    requires Finished(g, s, u, f, r) && u.book != s.book && !r.Pending?
    requires QuietNode(g, s.book, f.node)
    ensures IsStale(g, u.book, f.node) <==>
            exists d | d in Active(g, u.book.attempt, f.node) ::
              d in f.stamps && f.stamps[d] != 0 && s.book.meta[d].persistedAt != f.stamps[d]
                && s.book.meta[d].persistedAt != 0
  {
    var n, ds := f.node, Active(g, u.book.attempt, f.node);
    assert QuietNode(g, u.book, n) && SoundNode(g, u.book, u.clock, n);
    forall d | d in ds
      ensures Moved(g, u.book, n, d) <==>
              (d in f.stamps && f.stamps[d] != 0 && s.book.meta[d].persistedAt != f.stamps[d]
               && s.book.meta[d].persistedAt != 0)
    {
      assert Edge(g, n, d) && SoundNode(g, s.book, s.clock, d);
    }
  }

  /** A completed node is suspect if the row of a dependency it looks at moved since it was bound. */
  lemma MovedIsSuspect(g: Graph, s: State, u: State, f: Flight, r: Attempt, d: Id)
    requires WellFormed(g, s) && SoundBook(g, s.book, s.clock) && SoundFlight(g, f, s.clock)
    requires Finished(g, s, u, f, r) && d in Active(g, u.book.attempt, f.node)
    requires d in f.stamps && Edge(g, f.node, d) && f.stamps[d] < s.book.meta[d].persistedAt
    ensures Suspect(g, u.book, f.node)
    ensures f.stamps[d] != 0 ==> IsStale(g, u.book, f.node)
  {
    var n := f.node;
    assert SoundNode(g, s.book, s.clock, d) && SoundNode(g, u.book, u.clock, n);
    if f.stamps[d] != 0 || u.book.meta[d].persistedAt > u.book.meta[n].computedAt {
      if !u.book.attempt[n].Pending? {
        assert Moved(g, u.book, n, d);
      }
    } else {
      assert HollowNow(g, u.book, n);
    }
  }

  /** A bound attempt that is no longer held: its row moved, or is about to. */
  lemma ChangedIsBlamed(g: Graph, l: Live, u: State, i: int)
    requires LiveInv(g, l) && l.phase.Answered? && Finished(g, l.s, u, l.phase.f, l.phase.result)
    requires 0 <= i < |l.phase.f.active| && !Holds(l.s.book, l.phase.f, i)
    requires l.phase.f.active[i] in Active(g, u.book.attempt, l.phase.f.node)
    ensures LiveHonest(g, u.book, l.outstanding, l.phase.f.node)
  {
    var f := l.phase.f;
    var d := f.active[i];
    assert d in f.active && d in f.stamps && Edge(g, f.node, d);
    if l.s.book.meta[d].persistedAt != f.stamps[d] {
      MovedIsSuspect(g, l.s, u, f, l.phase.result, d);
    }
  }

  /** With every bound attempt still held, n looks at what it bound. */
  lemma HeldView(g: Graph, b: Book, c: Book, f: Flight)
    requires WellFormedBook(g, b) && WellFormedBook(g, c) && PickedBy(g, f)
    requires forall d | d in Nodes(g) && d != f.node :: c.attempt[d] == b.attempt[d]
    requires forall i | 0 <= i < |g.fixed[f.node]| :: Holds(b, f, i)
    ensures Active(g, c.attempt, f.node) == f.active
    ensures (forall i | 0 <= i < |f.active| :: Holds(b, f, i)) ==>
              ActiveAttempts(g, c.attempt, f.node) == f.atts
  {
    var n, fixed := f.node, g.fixed[f.node];
    forall i | 0 <= i < |f.active| ensures Edge(g, n, f.active[i]) && f.active[i] != n {
      assert f.active[i] in f.active;
    }
    assert forall d | d in fixed :: Edge(g, n, d);
    assert forall i | 0 <= i < |fixed| :: f.active[i] == fixed[i];
    forall i | 0 <= i < |fixed| ensures AttemptsOf(c.attempt, fixed)[i] == f.atts[i] {
      assert Holds(b, f, i);
    }
    assert AttemptsOf(c.attempt, fixed) == f.atts[..|fixed|];
    assert Active(g, c.attempt, n) == f.active;
    if forall i | 0 <= i < |f.active| :: Holds(b, f, i) {
      forall i | 0 <= i < |f.active| ensures AttemptsOf(c.attempt, f.active)[i] == f.atts[i] {
        assert Holds(b, f, i);
      }
    }
  }

  /** A completed node is its own computation on what its dependencies hold now, or someone is to blame. */
  lemma EndedIsLiveHonest(g: Graph, l: Live, u: State)
    requires LiveInv(g, l) && l.phase.Answered? && Finished(g, l.s, u, l.phase.f, l.phase.result)
    requires u.book != l.s.book
    ensures LiveHonest(g, u.book, l.outstanding, l.phase.f.node)
  {
    var f, r := l.phase.f, l.phase.result;
    var n, fixed := f.node, g.fixed[f.node];
    if !r.Pending? {
      if i :| 0 <= i < |fixed| && !Holds(l.s.book, f, i) {
        assert f.active[i] == fixed[i] && fixed[i] in fixed;
        ChangedIsBlamed(g, l, u, i);
      } else {
        HeldView(g, l.s.book, u.book, f);
        if i :| 0 <= i < |f.active| && !Holds(l.s.book, f, i) {
          ChangedIsBlamed(g, l, u, i);
        }
      }
    }
  }

  lemma EndKeeps(g: Graph, l: Live)
    requires LiveInv(g, l) && Possible(g, l, End)
    ensures LiveInv(g, Advance(g, l, End))
  {
    var f, r := l.phase.f, l.phase.result;
    var u := Finish(g, l.s, f, r);
    FinishActs(g, l.s, f, r);
    FinishedKeeps(g, l, u);
    SettleKeeps(g, u, f.node, l.outstanding);
  }

  /** A completion, before its bookkeeping. */
  lemma FinishedKeeps(g: Graph, l: Live, u: State)
    requires LiveInv(g, l) && l.phase.Answered? && Finished(g, l.s, u, l.phase.f, l.phase.result)
    ensures Reasoned(g, u.book, u.q) && AllLiveHonest(g, u.book, l.outstanding)
  {
    var n := l.phase.f.node;
    ActedKeepsSuspects(g, l.s, u, n);
    if n in u.q.scheduled && Plain(g, n) {
      EndedIsSuspect(g, l, u);
    }
    if u.book != l.s.book {
      EndedIsLiveHonest(g, l, u);
    }
    ActedKeepsHonest(g, l.s, u, n, l.outstanding);
  }

  /** A suspended plain node that is scheduled when it completes has a reason to be. */
  lemma EndedIsSuspect(g: Graph, l: Live, u: State)
    requires LiveInv(g, l) && l.phase.Answered? && Finished(g, l.s, u, l.phase.f, l.phase.result)
    requires l.phase.f.node in u.q.scheduled && Plain(g, l.phase.f.node)
    ensures Suspect(g, u.book, l.phase.f.node)
  {
    var f, r := l.phase.f, l.phase.result;
    var n := f.node;
    NotOwnDependent(g, n);
    if !r.Pending? {
      var d :| d in f.stamps && l.s.book.meta[d].persistedAt != f.stamps[d];
      PlainView(g, u.book.attempt, n);
      MovedIsSuspect(g, l.s, u, f, r, d);
    }
  }

  // ------------------------------------------------------------- theorems

  lemma AdvanceKeeps(g: Graph, l: Live, step: Step)
    requires LiveInv(g, l) && Possible(g, l, step)
    ensures LiveInv(g, Advance(g, l, step))
  {
    match step
    case Assign(x, a) => AssignKeeps(g, l, x, a);
    case Apply => ApplyKeeps(g, l);
    case Begin(e) => BeginKeeps(g, l, e);
    case Answer => AnswerKeeps(g, l);
    case End => EndKeeps(g, l);
  }

  /** Over every interleaving the invariant holds. */
  lemma {:induction false} LiveRunKeeps(g: Graph, l: Live, steps: seq<Step>, r: Live)
    requires LiveInv(g, l) && LiveRun(g, l, steps, r)
    ensures LiveInv(g, r)
    decreases |steps|
  {
    if steps != [] {
      AdvanceKeeps(g, l, steps[0]);
      LiveRunKeeps(g, Advance(g, l, steps[0]), steps[1..], r);
    }
  }

  /**
   * No lost update: if the row of a dependency d that n bound moved before n's
   * suspended refresh completes, n is still scheduled after the completion,
   * unless d is a chosen branch and a condition of n still awaits its row; and
   * n reports stale if it still looks at d, unless the bound stamp was empty.
   */
  lemma NoLostUpdate(g: Graph, l: Live, steps: seq<Step>, r: Live, d: Id)
    requires LiveInv(g, l) && LiveRun(g, l, steps, r)
    requires WellFormed(g, r.s) && r.phase.Answered? && d in r.phase.f.stamps && d in r.s.book.meta
    requires r.s.book.meta[d].persistedAt != r.phase.f.stamps[d]
    ensures Possible(g, r, End)
    ensures var n, t := r.phase.f.node, Advance(g, r, End).s;
      && (n in t.q.scheduled || (d !in g.fixed[n] && AwaitsRow(g, r.outstanding, n)))
      && (d in Active(g, t.book.attempt, n) && r.phase.f.stamps[d] != 0 ==> IsStale(g, t.book, n))
      && (d in g.fixed[n] ==> d in Active(g, t.book.attempt, n))
  {
    var f, n := r.phase.f, r.phase.f.node;
    LiveRunKeeps(g, l, steps, r);
    var u := Finish(g, r.s, f, r.phase.result);
    FinishActs(g, r.s, f, r.phase.result);
    SettleCovers(g, u, n);
    if d in Active(g, u.book.attempt, n) {
      MovedIsSuspect(g, r.s, u, f, r.phase.result, d);
    }
  }

  /**
   * A scheduled node stays so until a pop takes it, and stays stale if it is
   * plain and not the suspended one.
   */
  lemma {:induction false} StaysWoken(g: Graph, l: Live, steps: seq<Step>, r: Live, n: Id)
    requires LiveInv(g, l) && LiveRun(g, l, steps, r) && n in l.s.q.scheduled
    requires forall i | 0 <= i < |steps| :: !(steps[i].Begin? && steps[i].event.node == n)
    ensures LiveInv(g, r) && n in r.s.q.scheduled && r.s.q.events != multiset{}
    ensures Woken(g, l, n) ==> Woken(g, r, n)
    decreases |steps|
  {
    if steps == [] {
      assert Event(l.s.q.scheduled[n], n) in l.s.q.events;
    } else {
      assert LiveRun(g, Advance(g, l, steps[0]), steps[1..], r);
      var m := StepKeepsWaiting(g, l, steps[0], n);
      StaysWoken(g, m, steps[1..], r, n);
    }
  }

  lemma StepKeepsWaiting(g: Graph, l: Live, step: Step, n: Id) returns (m: Live)
    requires LiveInv(g, l) && Possible(g, l, step) && n in l.s.q.scheduled
    requires !(step.Begin? && step.event.node == n)
    ensures m == Advance(g, l, step) && LiveInv(g, m) && n in m.s.q.scheduled
    ensures Woken(g, l, n) ==> Woken(g, m, n)
  {
    m := Advance(g, l, step);
    AdvanceKeeps(g, l, step);
    StepKeepsScheduled(g, l, step, n);
    if Woken(g, l, n) {
      StepKeepsWoken(g, l, step, n);
    }
  }

  /** The plain node n is scheduled and stale, and not the suspended node. */
  ghost predicate Woken(g: Graph, l: Live, n: Id)
    requires WellFormed(g, l.s)
  {
    && Derived(g, n) && Plain(g, n) && n in l.s.q.scheduled && IsStale(g, l.s.book, n)
    && (l.phase != Resting ==> l.phase.f.node != n)
  }

  lemma StepKeepsScheduled(g: Graph, l: Live, step: Step, n: Id)
    requires LiveInv(g, l) && Possible(g, l, step) && n in l.s.q.scheduled
    requires !(step.Begin? && step.event.node == n)
    ensures n in Advance(g, l, step).s.q.scheduled
  {
    match step
    case Assign(x, a) =>
    case Apply =>
      var sub := l.outstanding[0];
      DependentsAreDerived(g, sub.input);
      EmitNotifies(g, StoreRow(g, l.s, sub.input, sub.value), g.dependents[sub.input]);
    case Begin(e) => BeginKeepsScheduled(g, l, e, n);
    case Answer => RunComputeActs(g, l.s, l.phase.f);
    case End =>
      var f := l.phase.f;
      FinishActs(g, l.s, f, l.phase.result);
      SettleCovers(g, Finish(g, l.s, f, l.phase.result), f.node);
  }

  lemma BeginKeepsScheduled(g: Graph, l: Live, e: Event, n: Id)
    requires LiveInv(g, l) && Possible(g, l, Begin(e)) && n in l.s.q.scheduled && e.node != n
    ensures n in Advance(g, l, Begin(e)).s.q.scheduled
  {
    var s1 := Take(l.s, e);
    TakeCovers(g, l.s, e);
    if Judge(g, s1, e.node) != Ready {
      RefreshActs(g, s1, e.node);
      SettleCovers(g, Refresh(g, s1, e.node), e.node);
    }
  }

  lemma ApplyKeepsWoken(g: Graph, l: Live, n: Id)
    requires LiveInv(g, l) && Possible(g, l, Apply) && Woken(g, l, n)
    ensures Woken(g, Advance(g, l, Apply), n)
  {
    var sub := l.outstanding[0];
    StoreRowStamps(g, l.s, sub.input, sub.value);
    DependentsAreDerived(g, sub.input);
    EmitNotifies(g, StoreRow(g, l.s, sub.input, sub.value), g.dependents[sub.input]);
    StaleSurvives(g, l.s.book, Advance(g, l, Apply).s.book, sub.input, l.s.clock, n);
  }

  lemma BeginKeepsWoken(g: Graph, l: Live, e: Event, n: Id)
    requires LiveInv(g, l) && Possible(g, l, Begin(e)) && Woken(g, l, n) && e.node != n
    ensures Woken(g, Advance(g, l, Begin(e)), n)
  {
    var s1 := Take(l.s, e);
    TakeCovers(g, l.s, e);
    if Judge(g, s1, e.node) != Ready {
      var u := Refresh(g, s1, e.node);
      RefreshActs(g, s1, e.node);
      SettleCovers(g, u, e.node);
      if u.book != s1.book {
        StaleSurvives(g, s1.book, u.book, e.node, s1.clock, n);
      }
    }
  }

  lemma AnswerKeepsWoken(g: Graph, l: Live, n: Id)
    requires LiveInv(g, l) && Possible(g, l, Answer) && Woken(g, l, n)
    ensures Woken(g, Advance(g, l, Answer), n)
  {
    var f := l.phase.f;
    var (s1, r) := RunCompute(g, l.s, f);
    RunComputeActs(g, l.s, f);
    if s1.book != l.s.book || s1.q != l.s.q {
      var at :| s1.q == Enqueue(l.s.q, f.node, at) && s1.book == SetRetryAt(l.s.book, f.node, Some(at));
      RetryOnly(g, l.s.book, f.node, Some(at), n);
      EnqueueKeeps(l.s.q, f.node, at);
    }
  }

  lemma EndKeepsWoken(g: Graph, l: Live, n: Id)
    requires LiveInv(g, l) && Possible(g, l, End) && Woken(g, l, n)
    ensures Woken(g, Advance(g, l, End), n)
  {
    var f := l.phase.f;
    var u := Finish(g, l.s, f, l.phase.result);
    FinishActs(g, l.s, f, l.phase.result);
    SettleCovers(g, u, f.node);
    if u.book != l.s.book {
      StaleSurvives(g, l.s.book, u.book, f.node, l.s.clock, n);
    }
  }

  lemma StepKeepsWoken(g: Graph, l: Live, step: Step, n: Id)
    requires LiveInv(g, l) && Possible(g, l, step) && Woken(g, l, n)
    requires !(step.Begin? && step.event.node == n)
    ensures Woken(g, Advance(g, l, step), n)
  {
    match step
    case Assign(x, a) => AssignSeesSame(g, l.s.book, x, a, n);
    case Apply => ApplyKeepsWoken(g, l, n);
    case Begin(e) => BeginKeepsWoken(g, l, e, n);
    case Answer => AnswerKeepsWoken(g, l, n);
    case End => EndKeepsWoken(g, l, n);
  }

  // ------------------------------------------------------- inputs with rows

  /** No node bound an empty stamp that hides a move. */
  ghost predicate Rooted(g: Graph, l: Live)
    requires WellFormed(g, l.s)
  {
    Grounded(g, l.s.book) && (l.phase != Resting ==> forall d | d in l.phase.f.stamps :: l.phase.f.stamps[d] != 0)
  }

  /** A row of n whose empty stamps are of nodes that still have no row hides nothing. */
  lemma WriteKeepsUnhollow(g: Graph, b: Book, c: Book, n: Id, clock: int, m: Id)
    requires SoundBook(g, b, clock) && Stamps(g, b, c, n, clock) && Derived(g, m)
    requires m != n ==> !Hollow(g, b, m)
    requires m == n ==> forall d | d in c.meta[n].depStamps && Edge(g, n, d) ::
               c.meta[n].depStamps[d] == 0 ==> b.meta[d].persistedAt == 0
    ensures !Hollow(g, c, m)
  {
    if m != n {
      assert SoundNode(g, b, clock, m);
    }
  }

  lemma BoundStampsNotEmpty(g: Graph, b: Book, clock: int, n: Id)
    requires SoundBook(g, b, clock) && Derived(g, n)
    requires forall x {:trigger b.meta[x]} | x in g.inputs :: b.meta[x].persistedAt != 0
    requires !AnyPending(Bind(g, b, n).atts)
    ensures forall d | d in Bind(g, b, n).stamps :: Bind(g, b, n).stamps[d] != 0
  {
    var ds := Active(g, b.attempt, n);
    forall d | d in ds ensures b.meta[d].persistedAt != 0 {
      assert Edge(g, n, d) && SoundNode(g, b, clock, d);
      var i :| 0 <= i < |ds| && ds[i] == d;
      assert !AttemptsOf(b.attempt, ds)[i].Pending?;
    }
  }

  lemma RefreshKeepsUnhollow(g: Graph, s: State, u: State, n: Id, m: Id)
    requires WellFormed(g, s) && SoundBook(g, s.book, s.clock) && WellFormed(g, u)
    requires Derived(g, n) && Derived(g, m) && !Hollow(g, s.book, m)
    requires || u.book == s.book
             || (Stamps(g, s.book, u.book, n, s.clock) && u.book.meta[n].depStamps == Bind(g, s.book, n).stamps)
    ensures !Hollow(g, u.book, m)
  {
    if u.book != s.book {
      WriteKeepsUnhollow(g, s.book, u.book, n, s.clock, m);
    }
  }

  /** The books' half of Rooted. */
  ghost predicate Grounded(g: Graph, b: Book)
    requires WellFormedBook(g, b)
  {
    && (forall x {:trigger b.meta[x]} | x in g.inputs :: b.meta[x].persistedAt != 0)
    && (forall n {:trigger Hollow(g, b, n)} | Derived(g, n) :: !Hollow(g, b, n))
  }

  lemma RefreshKeepsGrounded(g: Graph, s: State, n: Id)
    requires WellFormed(g, s) && SoundBook(g, s.book, s.clock) && Derived(g, n) && n !in s.q.scheduled
    requires Grounded(g, s.book) && Judge(g, s, n) != Ready
    ensures WellFormed(g, Refresh(g, s, n)) && Grounded(g, Refresh(g, s, n).book)
  {
    RefreshActs(g, s, n);
    RefreshedStamps(g, s, n);
    RefreshedIsGrounded(g, s, Refresh(g, s, n), n);
  }

  lemma RefreshedIsGrounded(g: Graph, s: State, u: State, n: Id)
    requires WellFormed(g, s) && SoundBook(g, s.book, s.clock) && WellFormed(g, u) && Derived(g, n)
    requires Grounded(g, s.book)
    requires || u.book == s.book
             || (Stamps(g, s.book, u.book, n, s.clock) && u.book.meta[n].depStamps == Bind(g, s.book, n).stamps)
    ensures Grounded(g, u.book)
  {
    forall m | Derived(g, m) ensures !Hollow(g, u.book, m) {
      assert !Hollow(g, s.book, m);
      RefreshKeepsUnhollow(g, s, u, n, m);
    }
  }

  lemma BeginKeepsRooted(g: Graph, l: Live, e: Event)
    requires LiveInv(g, l) && Rooted(g, l) && Possible(g, l, Begin(e))
    ensures Rooted(g, Advance(g, l, Begin(e)))
  {
    var n, s1 := e.node, Take(l.s, e);
    if Judge(g, s1, n) == Ready {
      BoundStampsNotEmpty(g, s1.book, s1.clock, n);
    } else {
      TakeCovers(g, l.s, e);
      RefreshKeepsGrounded(g, s1, n);
      SettleKeepsBook(g, Refresh(g, s1, n), n);
    }
  }

  lemma SettleKeepsBook(g: Graph, u: State, n: Id)
    requires WellFormed(g, u) && Derived(g, n)
    ensures Settle(g, u, n).0.book == u.book
  {
  }

  /** A refresh that does not call compute stores exactly the stamps it bound. */
  lemma RefreshedStamps(g: Graph, s: State, n: Id)
    requires WellFormed(g, s) && SoundBook(g, s.book, s.clock) && Derived(g, n) && Judge(g, s, n) != Ready
    ensures Refresh(g, s, n) == s || Refresh(g, s, n).book.meta[n].depStamps == Bind(g, s.book, n).stamps
  {
    var f := Bind(g, s.book, n);
    BindIsSound(g, s.book, s.clock, n);
    if Judge(g, s, n) == DependencyFailed {
      CompleteActs(g, s.(retries := s.retries[n := 0]), f, Impossible(DepFailed(n, Causes(f.atts))));
    }
  }

  lemma AssignKeepsRooted(g: Graph, l: Live, x: Id, a: Attempt)
    requires LiveInv(g, l) && Rooted(g, l) && x in g.inputs
    ensures Rooted(g, Advance(g, l, Assign(x, a)))
  {
    forall m | Derived(g, m) ensures !Hollow(g, Advance(g, l, Assign(x, a)).s.book, m) {
      assert !Hollow(g, l.s.book, m);
    }
  }

  lemma ApplyKeepsRooted(g: Graph, l: Live)
    requires LiveInv(g, l) && Rooted(g, l) && Possible(g, l, Apply)
    ensures Rooted(g, Advance(g, l, Apply))
  {
    var sub, r := l.outstanding[0], Advance(g, l, Apply);
    StoreRowStamps(g, l.s, sub.input, sub.value);
    DependentsAreDerived(g, sub.input);
    EmitNotifies(g, StoreRow(g, l.s, sub.input, sub.value), g.dependents[sub.input]);
    forall m | Derived(g, m) ensures !Hollow(g, r.s.book, m) {
      assert !Hollow(g, l.s.book, m);
      WriteKeepsUnhollow(g, l.s.book, r.s.book, sub.input, l.s.clock, m);
    }
  }

  lemma AnswerKeepsRooted(g: Graph, l: Live)
    requires LiveInv(g, l) && Rooted(g, l) && Possible(g, l, Answer)
    ensures Rooted(g, Advance(g, l, Answer))
  {
    var f := l.phase.f;
    var (s1, o) := RunCompute(g, l.s, f);
    RunComputeActs(g, l.s, f);
    forall m | Derived(g, m) ensures !Hollow(g, s1.book, m) {
      assert !Hollow(g, l.s.book, m);
      if s1.book != l.s.book || s1.q != l.s.q {
        var at :| s1.q == Enqueue(l.s.q, f.node, at) && s1.book == SetRetryAt(l.s.book, f.node, Some(at));
        RetryOnly(g, l.s.book, f.node, Some(at), m);
      }
    }
  }

  lemma AdvanceKeepsRooted(g: Graph, l: Live, step: Step)
    requires LiveInv(g, l) && Rooted(g, l) && Possible(g, l, step)
    ensures Rooted(g, Advance(g, l, step))
  {
    match step
    case Assign(x, a) => AssignKeepsRooted(g, l, x, a);
    case Apply => ApplyKeepsRooted(g, l);
    case Begin(e) => BeginKeepsRooted(g, l, e);
    case Answer => AnswerKeepsRooted(g, l);
    case End => EndKeepsRooted(g, l);
  }

  lemma EndKeepsRooted(g: Graph, l: Live)
    requires LiveInv(g, l) && Rooted(g, l) && Possible(g, l, End)
    ensures Rooted(g, Advance(g, l, End))
  {
    var f := l.phase.f;
    var u := Finish(g, l.s, f, l.phase.result);
    FinishActs(g, l.s, f, l.phase.result);
    SettleCovers(g, u, f.node);
    FinishedIsGrounded(g, l, u);
  }

  lemma FinishedIsGrounded(g: Graph, l: Live, u: State)
    requires LiveInv(g, l) && Rooted(g, l) && l.phase.Answered?
    requires Finished(g, l.s, u, l.phase.f, l.phase.result)
    ensures Grounded(g, u.book)
  {
    forall m | Derived(g, m) ensures !Hollow(g, u.book, m) {
      assert !Hollow(g, l.s.book, m);
      if u.book != l.s.book {
        WriteKeepsUnhollow(g, l.s.book, u.book, l.phase.f.node, l.s.clock, m);
      }
    }
  }

  lemma GroundedIsStale(g: Graph, b: Book)
    requires WellFormedBook(g, b) && Grounded(g, b)
    ensures forall n | Derived(g, n) && Suspect(g, b, n) :: IsStale(g, b, n)
  {
    forall n | Derived(g, n) && Suspect(g, b, n) ensures IsStale(g, b, n) {
      assert !Hollow(g, b, n);
    }
  }

  /**
   * Honest staleness under interleaving: once every input has a row, whenever
   * no refresh is suspended and no value waits to be stored, each node whose
   * derived dependencies are plain is its own computation on what its
   * dependencies hold, or it or one of them reports stale.
   */
  lemma {:induction false} QuietLiveIsHonest(g: Graph, l: Live, steps: seq<Step>, r: Live, n: Id)
    requires LiveInv(g, l) && Rooted(g, l) && LiveRun(g, l, steps, r)
    requires r.phase == Resting && r.outstanding == [] && Derived(g, n) && OnPlain(g, n)
    ensures WellFormed(g, r.s)
    ensures || IsStale(g, r.s.book, n) || Consistent(g, r.s.book.attempt, n)
            || exists d | d in Active(g, r.s.book.attempt, n) :: Derived(g, d) && IsStale(g, r.s.book, d)
    decreases |steps|
  {
    if steps == [] {
      assert LiveHonest(g, r.s.book, r.outstanding, n);
      GroundedIsStale(g, r.s.book);
    } else {
      AdvanceKeeps(g, l, steps[0]);
      AdvanceKeepsRooted(g, l, steps[0]);
      QuietLiveIsHonest(g, Advance(g, l, steps[0]), steps[1..], r, n);
    }
  }
}
