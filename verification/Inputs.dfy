// What the inputs hold over whole runs: the last value pushed, in memory and in the
// stored rows, so that a drained graph is the recomputation of the pushes.
module Inputs {
  import opened Attempts
  import opened DagGraph
  import opened Scratch
  import opened Engine
  import opened Actions
  import opened Pops
  import opened Convergence
  import opened Restart
  import I = Interleaving
  import L = LiveCutoff

  /** What was pushed to x last, or a without a push. */
  function LastPushed(acts: seq<Action>, x: Id, a: Attempt): Attempt
    decreases |acts|
  {
    if acts == [] then a
    else LastPushed(acts[1..], x, if acts[0].Push? && acts[0].input == x then acts[0].value else a)
  }

  /** Only n's attempt and n's row may have moved. */
  ghost predicate OnlyItsOwn(g: Graph, s: State, t: State, n: Id)
    requires WellFormed(g, s)
  {
    && WellFormed(g, t)
    && (forall m | m in Nodes(g) && m != n :: t.book.attempt[m] == s.book.attempt[m])
    && (forall m | m != n :: LoadedAttempt(t.rows, m) == LoadedAttempt(s.rows, m))
  }

  lemma EmitKeepsAttempts(g: Graph, s: State, d: Id)
    requires WellFormed(g, s) && d in Nodes(g)
    ensures Emit(g, s, d).book == s.book && Emit(g, s, d).rows == s.rows
  {
    DependentsAreDerived(g, d);
    EmitNotifies(g, s, g.dependents[d]);
  }

  lemma CompleteIsItsOwn(g: Graph, s: State, f: Flight, result: Attempt)
    requires WellFormed(g, s) && Derived(g, f.node)
    ensures OnlyItsOwn(g, s, Complete(g, s, f, result), f.node)
  {
    EmitKeepsAttempts(g, Record(g, s, f, result), f.node);
  }

  lemma FinishIsItsOwn(g: Graph, s: State, f: Flight, result: Attempt)
    requires WellFormed(g, s) && Derived(g, f.node)
    ensures OnlyItsOwn(g, s, Finish(g, s, f, result), f.node)
  {
    if !Identical(s.book, f.node, result) {
      CompleteIsItsOwn(g, s, f, result);
    }
  }

  lemma CallIsItsOwn(g: Graph, s: State, f: Flight)
    requires WellFormed(g, s) && Derived(g, f.node)
    ensures RunCompute(g, s, f).0.book.attempt == s.book.attempt && RunCompute(g, s, f).0.rows == s.rows
  {
  }

  lemma RefreshIsItsOwn(g: Graph, s: State, n: Id)
    requires WellFormed(g, s) && Derived(g, n)
    ensures OnlyItsOwn(g, s, Refresh(g, s, n), n)
  {
    var f := Bind(g, s.book, n);
    match Judge(g, s, n)
    case UpToDate =>
    case Blocked =>
    case Deferred =>
    case DependencyFailed =>
      CompleteIsItsOwn(g, s.(retries := s.retries[n := 0]), f, Impossible(DepFailed(n, Causes(f.atts))));
    case Ready =>
      CallIsItsOwn(g, s, f);
      FinishIsItsOwn(g, RunCompute(g, s, f).0, f, RunCompute(g, s, f).1);
  }

  lemma PopIsItsOwn(g: Graph, s: State, e: Event)
    requires WellFormed(g, s) && Derived(g, e.node)
    ensures OnlyItsOwn(g, s, Pop(g, s, e).0, e.node)
  {
    RefreshIsItsOwn(g, Take(s, e), e.node);
  }

  lemma WriteStores(g: Graph, s: State, x: Id, a: Attempt)
    requires WellFormed(g, s) && x in g.inputs
    ensures var t := Write(g, s, x, a);
      OnlyItsOwn(g, s, t, x) && t.book.attempt[x] == a && LoadedAttempt(t.rows, x) == a
  {
    EmitKeepsAttempts(g, Store(g, s, x, a), x);
  }

  lemma StepHoldsPush(g: Graph, s: State, act: Action, x: Id)
    requires WellFormed(g, s) && Enabled(g, s, act) && x in g.inputs
    ensures var t := Act(g, s, act).0;
      && WellFormed(g, t)
      && t.book.attempt[x] == LastPushed([act], x, s.book.attempt[x])
      && LoadedAttempt(t.rows, x) == LastPushed([act], x, LoadedAttempt(s.rows, x))
  {
    match act
    case Push(y, a) => WriteStores(g, s, y, a);
    case Drain(e) => PopIsItsOwn(g, s, e);
  }

  /** Over every run, an input holds what was pushed to it last, and so does its row. */
  lemma {:induction false} InputHoldsLastPush(g: Graph, s: State, acts: seq<Action>, t: State, x: Id)
    requires WellFormed(g, s) && Run(g, s, acts, t) && x in g.inputs
    ensures WellFormed(g, t) && t.book.attempt[x] == LastPushed(acts, x, s.book.attempt[x])
    ensures LoadedAttempt(t.rows, x) == LastPushed(acts, x, LoadedAttempt(s.rows, x))
    decreases |acts|
  {
    if acts != [] {
      StepHoldsPush(g, s, acts[0], x);
      InputHoldsLastPush(g, Act(g, s, acts[0]).0, acts[1..], t, x);
    }
  }

  // --------------------------------------------------- the pushes, recomputed

  lemma {:induction false} ScratchReadsInputs(g: Graph, f: (Id, seq<Attempt>) -> Attempt, a: map<Id, Attempt>,
                                              c: map<Id, Attempt>, n: Id)
    requires Valid(g) && g.inputs <= a.Keys && g.inputs <= c.Keys && n in Nodes(g)
    requires forall x | x in g.inputs :: a[x] == c[x]
    ensures FromScratch(g, f, a, n) == FromScratch(g, f, c, n)
    decreases g.rank[n], 1, 0
  {
    if Derived(g, n) {
      assert forall d | d in g.fixed[n] :: Edge(g, n, d);
      AllReadInputs(g, f, a, c, g.fixed[n], g.rank[n]);
      var active := g.fixed[n] + g.choose(n, AllFromScratch(g, f, a, g.fixed[n], g.rank[n]));
      assert forall d | d in active :: Edge(g, n, d);
      AllReadInputs(g, f, a, c, active, g.rank[n]);
    }
  }

  lemma {:induction false} AllReadInputs(g: Graph, f: (Id, seq<Attempt>) -> Attempt, a: map<Id, Attempt>,
                                         c: map<Id, Attempt>, ds: seq<Id>, r: int)
    requires Valid(g) && g.inputs <= a.Keys && g.inputs <= c.Keys
    requires (forall d | d in ds :: d in Nodes(g) && g.rank[d] < r) && forall x | x in g.inputs :: a[x] == c[x]
    ensures AllFromScratch(g, f, a, ds, r) == AllFromScratch(g, f, c, ds, r)
    decreases r, 0, |ds|
  {
    if ds != [] {
      ScratchReadsInputs(g, f, a, c, ds[0]);
      AllReadInputs(g, f, a, c, ds[1..], r);
    }
  }

  lemma {:induction false} CleanRunIsRun(g: Graph, s: State, acts: seq<Action>, t: State)
    requires WellFormed(g, s) && CleanRun(g, s, acts, t)
    ensures Run(g, s, acts, t)
    decreases |acts|
  {
    if acts != [] {
      CleanRunIsRun(g, Act(g, s, acts[0]).0, acts[1..], t);
    }
  }

  /**
   * A run that drops no node and ends at an empty queue leaves in every node the
   * recomputation of what was pushed last, whatever the pushes and the order of
   * the pops.
   */
  lemma DrainComputesThePushes(g: Graph, f: (Id, seq<Attempt>) -> Attempt, s: State, acts: seq<Action>, t: State,
                               pushed: map<Id, Attempt>, n: Id)
    requires Pure(g, f) && Settling(f)
    requires Steady(g, s) && AllConverging(g, s) && CleanRun(g, s, acts, t) && Idle(t) && n in Nodes(g)
    requires pushed.Keys == g.inputs
    requires forall x | x in g.inputs ::
               pushed[x] == LastPushed(acts, x, s.book.attempt[x]) && !pushed[x].Pending?
    ensures WellFormed(g, t) && t.book.attempt[n] == FromScratch(g, f, pushed, n)
  {
    CleanRunIsRun(g, s, acts, t);
    CleanRunConverges(g, f, s, acts, t);
    forall x | x in g.inputs ensures t.book.attempt[x] == pushed[x] {
      InputHoldsLastPush(g, s, acts, t, x);
    }
    CutoffIsExact(g, f, s, acts, t, n);
    ScratchReadsInputs(g, f, t.book.attempt, pushed, n);
  }

  // ------------------------------------------------------------ interleaved

  /** The latest value of x that waits to be stored, or a. */
  function LastWaiting(subs: seq<I.Submission>, x: Id, a: Attempt): Attempt
    decreases |subs|
  {
    if subs == [] then a
    else LastWaiting(subs[1..], x, if subs[0].input == x then subs[0].value else a)
  }

  lemma {:induction false} LastWaitingSnoc(subs: seq<I.Submission>, sub: I.Submission, x: Id, a: Attempt)
    ensures LastWaiting(subs + [sub], x, a) == if sub.input == x then sub.value else LastWaiting(subs, x, a)
    decreases |subs|
  {
    if subs == [] {
      assert subs + [sub] == [sub];
    } else {
      assert (subs + [sub])[1..] == subs[1..] + [sub];
      LastWaitingSnoc(subs[1..], sub, x, if subs[0].input == x then subs[0].value else a);
    }
  }

  /** x shows the latest value that waits to be stored, or what its row holds. */
  ghost predicate CatchesUp(g: Graph, l: I.Live, x: Id)
    requires WellFormed(g, l.s) && x in g.inputs
  {
    l.s.book.attempt[x] == LastWaiting(l.outstanding, x, LoadedAttempt(l.s.rows, x))
  }

  /** The inputs, their rows and the waiting values are as they were. */
  ghost predicate InputsKept(g: Graph, l: I.Live, r: I.Live)
    requires WellFormed(g, l.s)
  {
    && WellFormed(g, r.s) && r.outstanding == l.outstanding
    && forall x | x in g.inputs ::
         r.s.book.attempt[x] == l.s.book.attempt[x] && LoadedAttempt(r.s.rows, x) == LoadedAttempt(l.s.rows, x)
  }

  lemma KeptByOwn(g: Graph, l: I.Live, r: I.Live, n: Id)
    requires WellFormed(g, l.s) && OnlyItsOwn(g, l.s, r.s, n) && Derived(g, n) && r.outstanding == l.outstanding
    ensures InputsKept(g, l, r)
  {
  }

  lemma BeginKeepsInputs(g: Graph, l: I.Live, e: Event)
    requires WellFormed(g, l.s) && I.Possible(g, l, I.Begin(e))
    ensures InputsKept(g, l, I.Advance(g, l, I.Begin(e)))
  {
    PopIsItsOwn(g, l.s, e);
    KeptByOwn(g, l, I.Advance(g, l, I.Begin(e)), e.node);
  }

  lemma AnswerKeepsInputs(g: Graph, l: I.Live)
    requires WellFormed(g, l.s) && I.Possible(g, l, I.Answer)
    ensures InputsKept(g, l, I.Advance(g, l, I.Answer))
  {
    CallIsItsOwn(g, l.s, l.phase.f);
  }

  lemma EndKeepsInputs(g: Graph, l: I.Live)
    requires WellFormed(g, l.s) && I.Possible(g, l, I.End)
    ensures InputsKept(g, l, I.Advance(g, l, I.End))
  {
    var n, u := l.phase.f.node, Finish(g, l.s, l.phase.f, l.phase.result);
    FinishIsItsOwn(g, l.s, l.phase.f, l.phase.result);
    SettleOnlyQueues(g, u, n);
    KeptByOwn(g, l, l.(s := Settle(g, u, n).0, phase := I.Resting), n);
  }

  lemma SettleOnlyQueues(g: Graph, u: State, n: Id)
    requires WellFormed(g, u) && Derived(g, n)
    ensures var t := Settle(g, u, n).0; t == u.(q := t.q)
  {
  }

  lemma DrainKeepsInputs(g: Graph, l: I.Live, step: I.Step)
    requires WellFormed(g, l.s) && I.Possible(g, l, step) && !step.Assign? && !step.Apply?
    ensures InputsKept(g, l, I.Advance(g, l, step))
  {
    match step
    case Begin(e) => BeginKeepsInputs(g, l, e);
    case Answer => AnswerKeepsInputs(g, l);
    case End => EndKeepsInputs(g, l);
  }

  /** The oldest waiting value becomes its input's row. */
  lemma ApplyStoresOldest(g: Graph, l: I.Live, x: Id)
    requires WellFormed(g, l.s) && x in g.inputs && I.Possible(g, l, I.Apply)
    ensures var r, sub := I.Advance(g, l, I.Apply), l.outstanding[0];
      && WellFormed(g, r.s) && r.outstanding == l.outstanding[1..] && r.s.book.attempt == l.s.book.attempt
      && LoadedAttempt(r.s.rows, x) == if sub.input == x then sub.value else LoadedAttempt(l.s.rows, x)
  {
    var sub := l.outstanding[0];
    EmitKeepsAttempts(g, I.StoreRow(g, l.s, sub.input, sub.value), sub.input);
  }

  lemma StepCatchesUp(g: Graph, l: I.Live, step: I.Step, x: Id)
    requires WellFormed(g, l.s) && x in g.inputs && I.Possible(g, l, step) && CatchesUp(g, l, x)
    ensures CatchesUp(g, I.Advance(g, l, step), x)
  {
    if step.Assign? {
      LastWaitingSnoc(l.outstanding, I.Submission(step.input, step.value), x, LoadedAttempt(l.s.rows, x));
    } else if step.Apply? {
      ApplyStoresOldest(g, l, x);
    } else {
      DrainKeepsInputs(g, l, step);
    }
  }

  lemma {:induction false} RunCatchesUp(g: Graph, l: I.Live, steps: seq<I.Step>, r: I.Live, x: Id)
    requires WellFormed(g, l.s) && x in g.inputs && CatchesUp(g, l, x) && I.LiveRun(g, l, steps, r)
    ensures WellFormed(g, r.s) && CatchesUp(g, r, x)
    decreases |steps|
  {
    if steps != [] {
      StepCatchesUp(g, l, steps[0], x);
      RunCatchesUp(g, I.Advance(g, l, steps[0]), steps[1..], r, x);
    }
  }

  /** What was assigned to x last in an interleaving, or a. */
  function LastAssigned(steps: seq<I.Step>, x: Id, a: Attempt): Attempt
    decreases |steps|
  {
    if steps == [] then a
    else LastAssigned(steps[1..], x, if steps[0].Assign? && steps[0].input == x then steps[0].value else a)
  }

  lemma StepAssigns(g: Graph, l: I.Live, step: I.Step, x: Id)
    requires WellFormed(g, l.s) && x in g.inputs && I.Possible(g, l, step)
    ensures I.Advance(g, l, step).s.book.attempt[x]
         == if step.Assign? && step.input == x then step.value else l.s.book.attempt[x]
  {
    if step.Apply? {
      ApplyStoresOldest(g, l, x);
    } else if !step.Assign? {
      DrainKeepsInputs(g, l, step);
    }
  }

  lemma {:induction false} RunAssigns(g: Graph, l: I.Live, steps: seq<I.Step>, r: I.Live, x: Id)
    requires WellFormed(g, l.s) && x in g.inputs && I.LiveRun(g, l, steps, r)
    ensures WellFormed(g, r.s) && r.s.book.attempt[x] == LastAssigned(steps, x, l.s.book.attempt[x])
    decreases |steps|
  {
    if steps != [] {
      StepAssigns(g, l, steps[0], x);
      RunAssigns(g, I.Advance(g, l, steps[0]), steps[1..], r, x);
    }
  }

  /**
   * Over every interleaving with suspended refreshes, an input shows what was
   * assigned to it last; once nothing waits to be stored its row holds that
   * value too, so a value stored late never replaces a newer one.
   */
  lemma RowsCatchUp(g: Graph, l: I.Live, steps: seq<I.Step>, r: I.Live, x: Id)
    requires WellFormed(g, l.s) && x in g.inputs && I.LiveRun(g, l, steps, r)
    requires l.outstanding == [] && LoadedAttempt(l.s.rows, x) == l.s.book.attempt[x]
    ensures WellFormed(g, r.s) && r.s.book.attempt[x] == LastAssigned(steps, x, l.s.book.attempt[x])
    ensures r.outstanding == [] ==> LoadedAttempt(r.s.rows, x) == r.s.book.attempt[x]
  {
    RunCatchesUp(g, l, steps, r, x);
    RunAssigns(g, l, steps, r, x);
  }

  lemma {:induction false} CleanLiveRunIsRun(g: Graph, l: I.Live, steps: seq<I.Step>, r: I.Live)
    requires WellFormed(g, l.s) && L.CleanLiveRun(g, l, steps, r)
    ensures I.LiveRun(g, l, steps, r)
    decreases |steps|
  {
    if steps != [] {
      CleanLiveRunIsRun(g, I.Advance(g, l, steps[0]), steps[1..], r);
    }
  }

  /** The same with suspended refreshes: a quiet graph is the recomputation of what was assigned last. */
  lemma LiveDrainComputesThePushes(g: Graph, f: (Id, seq<Attempt>) -> Attempt, l: I.Live, steps: seq<I.Step>,
                                   r: I.Live, pushed: map<Id, Attempt>, n: Id)
    requires Pure(g, f) && Settling(f) && L.Converges(g, l) && L.CleanLiveRun(g, l, steps, r) && n in Nodes(g)
    requires r.phase == I.Resting && r.outstanding == [] && Idle(r.s)
    requires pushed.Keys == g.inputs
    requires forall x | x in g.inputs ::
               pushed[x] == LastAssigned(steps, x, l.s.book.attempt[x]) && !pushed[x].Pending?
    ensures WellFormed(g, r.s) && r.s.book.attempt[n] == FromScratch(g, f, pushed, n)
  {
    CleanLiveRunIsRun(g, l, steps, r);
    L.CleanLiveRunConverges(g, f, l, steps, r);
    forall x | x in g.inputs ensures r.s.book.attempt[x] == pushed[x] {
      RunAssigns(g, l, steps, r, x);
    }
    L.LiveCutoffIsExact(g, f, l, steps, r, n);
    ScratchReadsInputs(g, f, r.s.book.attempt, pushed, n);
  }
}
