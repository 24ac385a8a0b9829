// One refresh and one pop of the drain, summarised for the whole-run proofs.
module Refreshes {
  import opened Attempts
  import opened DagGraph
  import opened Engine
  import opened Frames
  import opened Actions

  /** compute was called on the bound attempts and its outcome r was settled. */
  ghost predicate Computed(g: Graph, s: State, t: State, n: Id, r: Attempt)
    requires WellFormed(g, s) && Derived(g, n)
  {
    var f := Bind(g, s.book, n);
    && t.book.attempt == s.book.attempt[n := r]
    && t.calls == s.calls + [Call(n, f.atts, g.world(n, f.atts, s.clock))]
    && n in t.book.meta && t.book.meta[n].depStamps == f.stamps
    && (r.Pending? || Evaluates(g, n, f.atts, r))
    && (r.Pending? ==>
          || g.world(n, f.atts, s.clock) == Returned(Pending)
          || (g.world(n, f.atts, s.clock).Transient? && n in t.q.scheduled))
    && (!r.Pending? ==> n !in t.q.scheduled)
    && (if Identical(s.book, n, r) && f.stamps == s.book.meta[n].depStamps then t.book == s.book
        else Stamps(g, s.book, t.book, n, s.clock))
  }

  /** t is s after one refresh of n, by the branch the refresh took. */
  ghost predicate Refreshed(g: Graph, s: State, t: State, n: Id)
    requires WellFormed(g, s) && Derived(g, n)
  {
    var f := Bind(g, s.book, n);
    && Acted(g, s, t, n)
    && (forall m | m in t.q.scheduled :: m in s.q.scheduled || m == n || m in g.dependents[n])
    && match Judge(g, s, n)
       case UpToDate => t == s
       case Blocked => t == s
       case Deferred =>
         && Stamps(g, s.book, t.book, n, s.clock) && t.book.attempt == s.book.attempt
         && t.q == s.q && t.calls == s.calls && t.retries == s.retries
       case DependencyFailed =>
         && Stamps(g, s.book, t.book, n, s.clock)
         && t.book.attempt == s.book.attempt[n := Impossible(DepFailed(n, Causes(f.atts)))]
         && t.calls == s.calls && n !in t.q.scheduled
       case Ready => exists r :: Computed(g, s, t, n, r)
  }

  /** What a deferred refresh, and one that computes a result, amount to. */
  lemma OnlyRestamps(g: Graph, s: State, n: Id)
    requires WellFormed(g, s) && Derived(g, n) && Judge(g, s, n) == Deferred
    ensures Refresh(g, s, n) == PersistStatus(g, s, Bind(g, s.book, n))
  {
  }

  lemma RunsAndFinishes(g: Graph, s: State, n: Id, a: Attempt)
    requires WellFormed(g, s) && Derived(g, n) && Judge(g, s, n) == Ready
    requires g.world(n, Bind(g, s.book, n).atts, s.clock) == Returned(a)
    ensures var s1 := RunCompute(g, s, Bind(g, s.book, n)).0;
      && Refresh(g, s, n) == Finish(g, s1, Bind(g, s.book, n), a)
      && s1.book == s.book && s1.q == s.q && s1.clock == s.clock + 1
  {
  }

  lemma NotOwnDependent(g: Graph, n: Id)
    requires Valid(g) && n in Nodes(g)
    ensures n !in g.dependents[n]
  {
    assert !Edge(g, n, n);
  }

  /** A call that was settled at once. */
  lemma AnsweredAndFinished(g: Graph, s: State, s1: State, t: State, n: Id, r: Attempt)
    requires WellFormed(g, s) && WellFormed(g, s1) && Derived(g, n) && n !in s.q.scheduled
    requires Ran(g, s, s1, Bind(g, s.book, n), r) && Finished(g, s1, t, Bind(g, s.book, n), r)
    requires !AnyImpossible(Bind(g, s.book, n).atts) && !AnyPending(Bind(g, s.book, n).atts)
    requires s1.book == s.book && s1.q == s.q && Answers(g.world(n, Bind(g, s.book, n).atts, s.clock), r)
    ensures Computed(g, s, t, n, r)
  {
    NotOwnDependent(g, n);
  }

  /** A transient failure whose retry was queued. */
  lemma RetriedAndFinished(g: Graph, s: State, s1: State, t: State, n: Id, r: Attempt)
    requires WellFormed(g, s) && WellFormed(g, s1) && Derived(g, n)
    requires Ran(g, s, s1, Bind(g, s.book, n), r) && Finished(g, s1, t, Bind(g, s.book, n), r)
    requires r.Pending? && g.world(n, Bind(g, s.book, n).atts, s.clock).Transient? && n in s1.q.scheduled
    ensures Computed(g, s, t, n, r)
  {
  }

  /** The call of compute and the tail of the refresh, composed. */
  lemma RanAndFinished(g: Graph, s: State, s1: State, t: State, n: Id, r: Attempt)
    requires WellFormed(g, s) && WellFormed(g, s1) && Derived(g, n) && n !in s.q.scheduled
    requires Ran(g, s, s1, Bind(g, s.book, n), r) && Finished(g, s1, t, Bind(g, s.book, n), r)
    requires !AnyImpossible(Bind(g, s.book, n).atts) && !AnyPending(Bind(g, s.book, n).atts)
    ensures Computed(g, s, t, n, r)
  {
    if s1.book == s.book && s1.q == s.q && Answers(g.world(n, Bind(g, s.book, n).atts, s.clock), r) {
      AnsweredAndFinished(g, s, s1, t, n, r);
    } else {
      var at :| s1.q == Enqueue(s.q, n, at) && s1.book == SetRetryAt(s.book, n, Some(at));
      EnqueueKeeps(s.q, n, at);
      RetriedAndFinished(g, s, s1, t, n, r);
    }
  }

  lemma RanAndFinishedActs(g: Graph, s: State, s1: State, t: State, f: Flight, r: Attempt)
    requires WellFormed(g, s) && WellFormed(g, s1) && Derived(g, f.node)
    requires Ran(g, s, s1, f, r) && Finished(g, s1, t, f, r)
    ensures Acted(g, s, t, f.node)
    ensures forall m | m in t.q.scheduled :: m in s.q.scheduled || m == f.node || m in g.dependents[f.node]
  {
    if s1.book == s.book && s1.q == s.q {
      AnsweredActs(g, s, s1, t, f, r);
    } else {
      var at :| s1.q == Enqueue(s.q, f.node, at) && s1.book == SetRetryAt(s.book, f.node, Some(at));
      EnqueueKeeps(s.q, f.node, at);
      RetriedActs(g, s, s1, t, f, r);
    }
  }

  /** A call that moved neither books nor queue: the tail of the refresh is all that happened. */
  lemma AnsweredActs(g: Graph, s: State, s1: State, t: State, f: Flight, r: Attempt)
    requires WellFormed(g, s) && WellFormed(g, s1) && Derived(g, f.node)
    requires s1.book == s.book && s1.q == s.q && s.clock < s1.clock && Finished(g, s1, t, f, r)
    ensures Acted(g, s, t, f.node)
  {
  }

  /** A call whose retry was queued answers pending, and its completion announces nothing. */
  lemma RetriedActs(g: Graph, s: State, s1: State, t: State, f: Flight, r: Attempt)
    requires WellFormed(g, s) && WellFormed(g, s1) && Derived(g, f.node)
    requires s1.book != s.book || s1.q != s.q
    requires Ran(g, s, s1, f, r) && Finished(g, s1, t, f, r) && Keeps(s.q, s1.q)
    requires forall m | m in s1.q.scheduled :: m in s.q.scheduled || m == f.node
    requires (InStep(s.q) ==> InStep(s1.q)) && (Covered(s.q) ==> Covered(s1.q))
    ensures Acted(g, s, t, f.node)
    ensures t.q == s1.q
  {
  }

  lemma ReadyRefreshes(g: Graph, s: State, n: Id)
    requires WellFormed(g, s) && SoundBook(g, s.book, s.clock) && Derived(g, n) && n !in s.q.scheduled
    requires Judge(g, s, n) == Ready
    ensures Refreshed(g, s, Refresh(g, s, n), n)
  {
    var f := Bind(g, s.book, n);
    var (s1, r) := RunCompute(g, s, f);
    BindIsSound(g, s.book, s.clock, n);
    RunComputeActs(g, s, f);
    FinishActs(g, s1, f, r);
    RanAndFinishedActs(g, s, s1, Finish(g, s1, f, r), f, r);
    RanAndFinished(g, s, s1, Finish(g, s1, f, r), n, r);
  }

  lemma FailedRefreshes(g: Graph, s: State, n: Id)
    requires WellFormed(g, s) && SoundBook(g, s.book, s.clock) && Derived(g, n) && n !in s.q.scheduled
    requires Judge(g, s, n) == DependencyFailed
    ensures Refreshed(g, s, Refresh(g, s, n), n)
  {
    var f := Bind(g, s.book, n);
    BindIsSound(g, s.book, s.clock, n);
    CompleteActs(g, s.(retries := s.retries[n := 0]), f, Impossible(DepFailed(n, Causes(f.atts))));
    NotOwnDependent(g, n);
  }

  lemma DeferredRefreshes(g: Graph, s: State, n: Id)
    requires WellFormed(g, s) && SoundBook(g, s.book, s.clock) && Derived(g, n) && n !in s.q.scheduled
    requires Judge(g, s, n) == Deferred
    ensures Refreshed(g, s, Refresh(g, s, n), n)
  {
    BindIsSound(g, s.book, s.clock, n);
    PersistWrites(g, s, Bind(g, s.book, n));
  }

  lemma RefreshActs(g: Graph, s: State, n: Id)
    requires WellFormed(g, s) && SoundBook(g, s.book, s.clock) && Derived(g, n) && n !in s.q.scheduled
    ensures Refreshed(g, s, Refresh(g, s, n), n)
  {
    match Judge(g, s, n)
    case UpToDate =>
    case Blocked =>
    case Deferred => DeferredRefreshes(g, s, n);
    case DependencyFailed => FailedRefreshes(g, s, n);
    case Ready => ReadyRefreshes(g, s, n);
  }
}
