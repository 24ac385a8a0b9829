// From a first start to steady operation: what each phase of a process leaves
// is what the theorems about the next phase ask for.
module Lifecycle {
  import opened Attempts
  import opened DagGraph
  import opened Scratch
  import opened Engine
  import opened Frames
  import opened Actions
  import opened Refreshes
  import opened Pops
  import opened Honesty
  import opened Convergence
  import opened FirstFill
  import opened Restart
  import opened Start
  import I = Interleaving
  import C = LiveCutoff

  // --------------------------------------------- before the first drain

  /** acts push values, and nothing else. */
  ghost predicate ValuePushes(acts: seq<Action>) {
    forall i | 0 <= i < |acts| :: acts[i].Push? && acts[i].value.Succeeded?
  }

  ghost predicate PushedIn(acts: seq<Action>, x: Id) {
    exists i | 0 <= i < |acts| :: acts[i].Push? && acts[i].input == x
  }

  /** x holds a value and has a row. */
  ghost predicate Given(g: Graph, b: Book, x: Id)
    requires WellFormedBook(g, b) && x in g.inputs
  {
    b.attempt[x].Succeeded? && 0 < b.meta[x].persistedAt
  }

  ghost predicate AllGiven(g: Graph, b: Book)
    requires WellFormedBook(g, b)
  {
    forall x {:trigger Given(g, b, x)} | x in g.inputs :: Given(g, b, x)
  }

  lemma PushGives(g: Graph, s: State, x: Id, a: Attempt, y: Id)
    requires AwaitsFill(g, s) && x in g.inputs && y in g.inputs && a.Succeeded?
    ensures AwaitsFill(g, Write(g, s, x, a)) && Write(g, s, x, a).calls == s.calls
    ensures y == x || Given(g, s.book, y) ==> Given(g, Write(g, s, x, a).book, y)
  {
    PushAwaitsFill(g, s, x, a);
    WriteActs(g, s, x, a);
  }

  lemma PushesHead(g: Graph, s: State, acts: seq<Action>, t: State) returns (u: State)
    requires WellFormed(g, s) && Run(g, s, acts, t) && acts != [] && ValuePushes(acts)
    ensures acts[0].input in g.inputs && acts[0].value.Succeeded? && u == Write(g, s, acts[0].input, acts[0].value)
    ensures WellFormed(g, u) && Run(g, u, acts[1..], t) && ValuePushes(acts[1..])
    ensures forall y | PushedIn(acts, y) :: y == acts[0].input || PushedIn(acts[1..], y)
  {
    u := Act(g, s, acts[0]).0;
    forall y | PushedIn(acts, y) ensures y == acts[0].input || PushedIn(acts[1..], y) {
      var i :| 0 <= i < |acts| && acts[i].Push? && acts[i].input == y;
      if i > 0 {
        assert acts[1..][i - 1] == acts[i];
      }
    }
  }

  /** Pushes before the first drain leave everything derived waiting, and give each pushed input a value and a row. */
  lemma {:induction false} PushesAwaitFill(g: Graph, s: State, acts: seq<Action>, t: State, y: Id)
    requires AwaitsFill(g, s) && Run(g, s, acts, t) && ValuePushes(acts) && y in g.inputs
    ensures AwaitsFill(g, t) && t.calls == s.calls
    ensures Given(g, s.book, y) || PushedIn(acts, y) ==> Given(g, t.book, y)
    decreases |acts|
  {
    if acts != [] {
      var u := PushesHead(g, s, acts, t);
      PushGives(g, s, acts[0].input, acts[0].value, y);
      PushesAwaitFill(g, u, acts[1..], t, y);
    }
  }

  /** Once every input was pushed the state is the start of a first fill. */
  lemma PushedIsUnfilled(g: Graph, s: State, acts: seq<Action>, t: State)
    requires AwaitsFill(g, s) && Run(g, s, acts, t) && ValuePushes(acts)
    requires forall x | x in g.inputs :: PushedIn(acts, x)
    ensures AwaitsFill(g, t) && Unfilled(g, t) && AllGiven(g, t.book) && t.calls == s.calls
  {
    if acts != [] {
      var _ := PushesHead(g, s, acts, t);
      PushesAwaitFill(g, s, acts, t, acts[0].input);
    }
    forall x | x in g.inputs ensures Given(g, t.book, x) {
      PushesAwaitFill(g, s, acts, t, x);
    }
    AwaitingIsUnfilled(g, t);
  }

  // ------------------------------------------------------ after the fill

  lemma FinalIsConsistent(g: Graph, f: (Id, seq<Attempt>) -> Attempt, t: State, n: Id)
    requires WellFormed(g, t) && Pure(g, f) && Derived(g, n) && Final(g, f, t, n)
    ensures Consistent(g, t.book.attempt, n)
  {
    var atts := ActiveAttempts(g, t.book.attempt, n);
    assert Answers(g.world(n, atts, 0), f(n, atts));
  }

  /**
   * A finished first fill did not raise and leaves every node set, vouched for
   * and converged: what the theorems about drains and cutoff start from.
   */
  lemma FilledIsSettled(g: Graph, f: (Id, seq<Attempt>) -> Attempt, s: State, acts: seq<Action>, t: State)
    requires Pure(g, f) && Succeeding(f)
    requires Unfilled(g, s) && Run(g, s, acts, t) && OnlyDrains(acts) && Idle(t)
    ensures OkRun(g, s, acts, t) && InService(g, t) && Answering(g)
    ensures forall n | n in Nodes(g) :: t.book.attempt[n] == FromScratch(g, f, t.book.attempt, n)
  {
    UnfilledIsFilling(g, f, s);
    FillNeverRaises(g, f, s, |s.calls|, acts, t, [MomentOf(g, s)], []);
    NothingScheduledWhenEmpty(t.q);
    forall n | n in Nodes(g) ensures t.book.attempt[n] == FromScratch(g, f, t.book.attempt, n) {
      FinalIsExact(g, f, t, n);
    }
    AllFinalIsSettled(g, f, t);
  }

  /** Every node holds a result, is vouched for, honest and converged. */
  ghost predicate InService(g: Graph, s: State) {
    && Steady(g, s) && AllSet(g, s.book) && AllVouched(g, s)
    && AllHonest(g, s.book) && AllConverging(g, s)
  }

  lemma AllFinalIsSettled(g: Graph, f: (Id, seq<Attempt>) -> Attempt, t: State)
    requires Pure(g, f) && Steady(g, t) && RestIsFinal(g, f, t) && QueuedArePending(g, t.book, t.q)
    requires t.q.scheduled.Keys == {}
    ensures InService(g, t)
  {
    forall n | Derived(g, n)
      ensures !t.book.attempt[n].Pending?
      ensures Vouched(g, t.book, t.q, n) && Honest(g, t.book, n) && Converging(g, t.book, t.q, n)
    {
      assert Final(g, f, t, n);
      FinalIsConsistent(g, f, t, n);
    }
  }

  // ------------------------------------------------ the interleaved engine

  /** No node hides a move of a dependency behind an empty stamp. */
  ghost predicate NoneHollow(g: Graph, b: Book)
    requires WellFormedBook(g, b)
  {
    forall n {:trigger I.Hollow(g, b, n)} | Derived(g, n) :: !I.Hollow(g, b, n)
  }

  /** Between two drains of a steady and honest graph the interleaving theorems apply. */
  lemma SteadyMayInterleave(g: Graph, s: State)
    requires Steady(g, s) && AllHonest(g, s.book)
    ensures I.LiveInv(g, I.Live(s, [], I.Resting))
    ensures NoneHollow(g, s.book) && AllGiven(g, s.book) ==> I.Rooted(g, I.Live(s, [], I.Resting))
  {
    forall m | m in s.q.scheduled ensures Event(s.q.scheduled[m], m) in s.q.events {
      assert s.q.events[Event(s.q.scheduled[m], m)] == 1;
    }
    forall m | Derived(g, m) ensures I.LiveHonest(g, s.book, [], m) {
      assert Honest(g, s.book, m);
    }
    if NoneHollow(g, s.book) && AllGiven(g, s.book) {
      assert forall x | x in g.inputs :: Given(g, s.book, x);
    }
  }

  lemma UnstampedIsUnhollow(g: Graph, s: State)
    requires AwaitsFill(g, s)
    ensures NoneHollow(g, s.book)
  {
  }

  /** A synchronous refresh stores exactly the stamps it bound, and nothing moves in between. */
  lemma PopKeepsUnhollow(g: Graph, s: State, e: Event)
    requires Steady(g, s) && NoneHollow(g, s.book) && Next(g, s.q, e)
    ensures Steady(g, Pop(g, s, e).0) && NoneHollow(g, Pop(g, s, e).0.book)
  {
    var n, s1 := e.node, Take(s, e);
    TakeKeepsSteady(g, s, e);
    var u := Refresh(g, s1, n);
    RefreshActs(g, s1, n);
    RefreshStamps(g, s1, u, n);
    forall m | Derived(g, m) ensures !I.Hollow(g, u.book, m) {
      assert !I.Hollow(g, s.book, m);
      I.RefreshKeepsUnhollow(g, s1, u, n, m);
    }
    I.SettleKeepsBook(g, u, n);
    var _ := PopActs(g, s, e);
  }

  lemma RefreshStamps(g: Graph, s: State, u: State, n: Id)
    requires Steady(g, s) && Derived(g, n) && n !in s.q.scheduled && u == Refresh(g, s, n) && Refreshed(g, s, u, n)
    ensures || u.book == s.book
            || (Stamps(g, s.book, u.book, n, s.clock) && u.book.meta[n].depStamps == Bind(g, s.book, n).stamps)
  {
    if Judge(g, s, n) != Ready {
      I.RefreshedStamps(g, s, n);
    }
  }

  lemma PushKeepsUnhollow(g: Graph, s: State, x: Id, a: Attempt)
    requires Steady(g, s) && NoneHollow(g, s.book) && x in g.inputs
    ensures Steady(g, Write(g, s, x, a)) && NoneHollow(g, Write(g, s, x, a).book)
  {
    WriteKeepsSteady(g, s, x, a);
    WriteActs(g, s, x, a);
    forall m | Derived(g, m) ensures !I.Hollow(g, Write(g, s, x, a).book, m) {
      assert !I.Hollow(g, s.book, m);
      I.WriteKeepsUnhollow(g, s.book, Write(g, s, x, a).book, x, s.clock, m);
    }
  }

  /** Synchronous runs leave no hollow stamp, whatever was or was not set when they started. */
  lemma {:induction false} RunKeepsUnhollow(g: Graph, s: State, acts: seq<Action>, t: State)
    requires Steady(g, s) && NoneHollow(g, s.book) && Run(g, s, acts, t)
    ensures Steady(g, t) && NoneHollow(g, t.book)
    decreases |acts|
  {
    if acts != [] {
      match acts[0] {
        case Push(x, a) => PushKeepsUnhollow(g, s, x, a);
        case Drain(e) => PopKeepsUnhollow(g, s, e);
      }
      RunKeepsUnhollow(g, Act(g, s, acts[0]).0, acts[1..], t);
    }
  }

  /**
   * After any run from a first start the interleaving theorems apply, the
   * honesty of quiet moments as soon as every input has a value and a row.
   */
  lemma AnyRunMayInterleave(g: Graph, clock: int, acts: seq<Action>, t: State)
    requires Valid(g) && 0 <= clock && Run(g, Boot(g, map[], clock), acts, t)
    ensures WellFormed(g, t) && I.LiveInv(g, I.Live(t, [], I.Resting))
    ensures AllGiven(g, t.book) ==> I.Rooted(g, I.Live(t, [], I.Resting))
  {
    var s := Boot(g, map[], clock);
    FirstStart(g, clock);
    UnstampedIsUnhollow(g, s);
    RunStaysHonest(g, s, acts, t);
    RunKeepsUnhollow(g, s, acts, t);
    SteadyMayInterleave(g, t);
  }

  // ------------------------------------------------------------- restart

  lemma ResumedStaysVouched(g: Graph, s: State, r: State, n: Id)
    requires Steady(g, s) && MirroredState(g, s) && AllHonest(g, s.book) && Resumed(g, s, r) && Derived(g, n)
    requires Vouched(g, s.book, s.q, n)
    ensures Vouched(g, r.book, r.q, n)
  {
    ResumedKeeps(g, s, r);
    ReloadedView(g, s, n);
  }

  /** A restored row hides nothing that the running process did not hide: no row lies between its two clocks. */
  lemma RestartStaysUnhollow(g: Graph, s: State, n: Id)
    requires Steady(g, s) && MirroredState(g, s) && Derived(g, n) && !I.Hollow(g, s.book, n)
    ensures !I.Hollow(g, Reload(g, s.rows), n)
  {
    var b := Reload(g, s.rows);
    assert Mirrored(g, s.book, s.rows, n) && SoundNode(g, s.book, s.clock, n);
    forall d | d in b.meta[n].depStamps && Edge(g, n, d) && b.meta[n].depStamps[d] == 0
      ensures !(0 < b.meta[d].persistedAt <= b.meta[n].computedAt)
    {
      assert Mirrored(g, s.book, s.rows, d) && Contiguous(g, s.book, n, d);
    }
  }

  /** What resumes from the rows of a process in service is in service, and ready for the interleaved engine. */
  lemma ResumedStaysSettled(g: Graph, s: State, r: State)
    requires InService(g, s) && MirroredState(g, s) && Resumed(g, s, r)
    ensures InService(g, r)
    ensures NoneHollow(g, s.book) ==> NoneHollow(g, r.book)
    ensures AllGiven(g, s.book) ==> AllGiven(g, r.book)
  {
    ResumedKeeps(g, s, r);
    ReloadedAttempts(g, s);
    forall n | Derived(g, n) ensures Vouched(g, r.book, r.q, n) {
      assert Vouched(g, s.book, s.q, n);
      ResumedStaysVouched(g, s, r, n);
    }
    if NoneHollow(g, s.book) {
      forall n | Derived(g, n) ensures !I.Hollow(g, r.book, n) {
        assert !I.Hollow(g, s.book, n);
        RestartStaysUnhollow(g, s, n);
      }
    }
    if AllGiven(g, s.book) {
      forall x | x in g.inputs ensures Given(g, r.book, x) {
        assert Given(g, s.book, x) && Mirrored(g, s.book, s.rows, x);
      }
    }
  }

  /** A restart at any point, each node with the dependencies it had, resumes in service if the process was. */
  lemma RestartStaysSettled(g: Graph, s: State, clock: int)
    requires InService(g, s) && MirroredState(g, s) && s.clock <= clock
    ensures var r := Boot(g, s.rows, clock);
      && InService(g, r) && MirroredState(g, r)
      && (NoneHollow(g, s.book) ==> NoneHollow(g, r.book))
      && (AllGiven(g, s.book) ==> AllGiven(g, r.book))
  {
    RestartResumes(g, s, clock);
    ResumedStaysSettled(g, s, Boot(g, s.rows, clock));
  }

  /** A process in service, in which no empty stamp hides a move, is what live cutoff starts from. */
  lemma ServiceConverges(g: Graph, s: State)
    requires InService(g, s) && NoneHollow(g, s.book) && AllGiven(g, s.book)
    ensures C.Converges(g, I.Live(s, [], I.Resting))
  {
    SteadyMayInterleave(g, s);
    forall n | Derived(g, n) ensures C.Heading(g, s.book, s.q, [], n) {
      assert Converging(g, s.book, s.q, n);
    }
  }
}
