// Restart transparency: rebuilding every node from its latest row restores its
// attempt, its dependency stamps and its staleness verdict.
module Restart {
  import opened Attempts
  import opened DagGraph
  import opened Engine
  import opened Frames
  import opened Actions
  import opened Pops

  /** A node's attempt and bookkeeping as its constructor restores them (_load_attempt_from_db). */
  function LoadedAttempt(rows: map<Id, Row>, n: Id): Attempt {
    if n in rows then rows[n].attempt else Pending
  }

  function LoadedMeta(rows: map<Id, Row>, n: Id): Meta {
    if n in rows then
      var r := rows[n];
      Meta(r.stamp, r.stamp, r.depStamps, Some(if r.version.Some? then r.version.value else 0),
           if r.attempt.Pending? then r.retryAt else None)
    else Meta(0, 0, map[], None, None)
  }

  /** The books a new process starts from. */
  function Reload(g: Graph, rows: map<Id, Row>): (b: Book)
    requires Valid(g)
    ensures WellFormedBook(g, b)
  {
    Book(map n | n in Nodes(g) :: LoadedAttempt(rows, n), map n | n in Nodes(g) :: LoadedMeta(rows, n))
  }

  /** n's latest row states exactly what the process holds about n. */
  ghost predicate Mirrored(g: Graph, b: Book, rows: map<Id, Row>, n: Id)
    requires WellFormedBook(g, b) && n in Nodes(g)
  {
    var x := b.meta[n];
    && b.attempt[n] == LoadedAttempt(rows, n)
    && x.persistedAt == LoadedMeta(rows, n).persistedAt
    && (Derived(g, n) ==>
          && x.depStamps == LoadedMeta(rows, n).depStamps
          && x.version == LoadedMeta(rows, n).version
          && (b.attempt[n].Pending? ==> x.retryAt == LoadedMeta(rows, n).retryAt))
  }

  /** Nothing was stored between n's compute time and n's row. */
  ghost predicate Contiguous(g: Graph, b: Book, n: Id, d: Id)
    requires WellFormedBook(g, b) && Derived(g, n) && d in Nodes(g)
  {
    d != n && b.meta[d].persistedAt > b.meta[n].computedAt ==> b.meta[d].persistedAt > b.meta[n].persistedAt
  }

  ghost predicate MirroredState(g: Graph, s: State)
    requires WellFormed(g, s)
  {
    && (forall n {:trigger Mirrored(g, s.book, s.rows, n)} | n in Nodes(g) :: Mirrored(g, s.book, s.rows, n))
    && (forall n, d {:trigger Contiguous(g, s.book, n, d)} | Derived(g, n) && d in Nodes(g) ::
          Contiguous(g, s.book, n, d))
  }

  /** n's fresh row mirrors it, next to its compute time; nothing else moved. */
  ghost predicate Rewrote(g: Graph, s: State, t: State, n: Id)
    requires WellFormed(g, s) && WellFormed(g, t) && n in Nodes(g)
  {
    && Stamps(g, s.book, t.book, n, s.clock)
    && Mirrored(g, t.book, t.rows, n)
    && (Derived(g, n) ==> t.book.meta[n].persistedAt == t.book.meta[n].computedAt + 1)
    && n in t.rows && t.rows == s.rows[n := t.rows[n]]
  }

  lemma RewriteKeepsMirror(g: Graph, s: State, t: State, n: Id)
    requires WellFormed(g, s) && SoundBook(g, s.book, s.clock) && WellFormed(g, t)
    requires n in Nodes(g) && MirroredState(g, s) && Rewrote(g, s, t, n)
    ensures MirroredState(g, t)
  {
    forall m | m in Nodes(g) ensures Mirrored(g, t.book, t.rows, m) {
      assert Mirrored(g, s.book, s.rows, m);
    }
    forall m, d | Derived(g, m) && d in Nodes(g) ensures Contiguous(g, t.book, m, d) {
      StillContiguous(g, s, t, n, m, d);
    }
  }

  lemma StillContiguous(g: Graph, s: State, t: State, n: Id, m: Id, d: Id)
    requires WellFormed(g, s) && SoundBook(g, s.book, s.clock) && WellFormed(g, t)
    requires n in Nodes(g) && Rewrote(g, s, t, n) && Derived(g, m) && d in Nodes(g) && Contiguous(g, s.book, m, d)
    ensures Contiguous(g, t.book, m, d)
  {
    assert SoundNode(g, s.book, s.clock, m) && SoundNode(g, s.book, s.clock, d);
  }

  // ------------------------------------------------ every write keeps the mirror

  lemma PersistRewrites(g: Graph, s: State, f: Flight)
    requires WellFormed(g, s) && SoundBook(g, s.book, s.clock) && SoundFlight(g, f, s.clock)
    ensures Rewrote(g, s, PersistStatus(g, s, f), f.node)
  {
    PersistWrites(g, s, f);
  }

  lemma RecordRewrites(g: Graph, s: State, f: Flight, result: Attempt)
    requires WellFormed(g, s) && SoundBook(g, s.book, s.clock) && SoundFlight(g, f, s.clock)
    ensures Rewrote(g, s, Record(g, s, f, result), f.node)
  {
    RecordWrites(g, s, f, result);
    RecordShape(g, s, f, result);
  }

  lemma EmitKeepsRows(g: Graph, s: State, n: Id)
    requires WellFormed(g, s) && n in Nodes(g)
    ensures Emit(g, s, n).rows == s.rows && Emit(g, s, n).book == s.book
  {
    DependentsAreDerived(g, n);
    EmitNotifies(g, s, g.dependents[n]);
  }

  lemma CompleteRewrites(g: Graph, s: State, f: Flight, result: Attempt)
    requires WellFormed(g, s) && SoundBook(g, s.book, s.clock) && SoundFlight(g, f, s.clock)
    ensures Rewrote(g, s, Complete(g, s, f, result), f.node)
  {
    RecordRewrites(g, s, f, result);
    if !result.Pending? {
      EmitKeepsRows(g, Record(g, s, f, result), f.node);
    }
  }

  lemma WriteRewrites(g: Graph, s: State, x: Id, a: Attempt)
    requires WellFormed(g, s) && SoundBook(g, s.book, s.clock) && x in g.inputs
    ensures Rewrote(g, s, Write(g, s, x, a), x)
  {
    StoreWrites(g, s, x, a);
    EmitKeepsRows(g, Store(g, s, x, a), x);
  }

  lemma FinishRewrites(g: Graph, s: State, f: Flight, result: Attempt)
    requires WellFormed(g, s) && SoundBook(g, s.book, s.clock) && SoundFlight(g, f, s.clock)
    ensures var t := Finish(g, s, f, result);
      || (t.book == s.book && t.rows == s.rows && Identical(s.book, f.node, result))
      || Rewrote(g, s, t, f.node)
  {
    if Identical(s.book, f.node, result) {
      CutoffActs(g, s, f, result);
      if f.stamps != s.book.meta[f.node].depStamps {
        PersistRewrites(g, s, f);
      }
    } else {
      CompleteRewrites(g, s, f, result);
    }
  }

  /** A completion after a call of compute rewrites n's row with respect to the state before the call. */
  lemma RetriedRewrites(g: Graph, s: State, s1: State, t: State, f: Flight, r: Attempt)
    requires WellFormed(g, s) && WellFormed(g, s1) && WellFormed(g, t) && Derived(g, f.node)
    requires s1.rows == s.rows && OnlyAt(g, s.book, s1.book, f.node) && s.clock <= s1.clock
    requires s1.book != s.book ==> r.Pending?
    requires (t.book == s1.book && t.rows == s1.rows && Identical(s1.book, f.node, r)) || Rewrote(g, s1, t, f.node)
    ensures (t.book == s.book && t.rows == s.rows) || Rewrote(g, s, t, f.node)
  {
  }

  lemma RefreshKeepsMirror(g: Graph, s: State, n: Id)
    requires WellFormed(g, s) && SoundBook(g, s.book, s.clock) && Derived(g, n) && MirroredState(g, s)
    ensures MirroredState(g, Refresh(g, s, n))
  {
    var f, t := Bind(g, s.book, n), Refresh(g, s, n);
    BindIsSound(g, s.book, s.clock, n);
    match Judge(g, s, n)
    case UpToDate =>
    case Blocked =>
    case Deferred =>
      PersistRewrites(g, s, f);
      RewriteKeepsMirror(g, s, t, n);
    case DependencyFailed =>
      CompleteRewrites(g, s.(retries := s.retries[n := 0]), f, Impossible(DepFailed(n, Causes(f.atts))));
      RewriteKeepsMirror(g, s, t, n);
    case Ready =>
      ReadyKeepsMirror(g, s, n);
  }

  /** A refresh that computes leaves the books and rows alone, or rewrites n's row. */
  lemma ReadyRewrites(g: Graph, s: State, n: Id) returns (t: State)
    requires WellFormed(g, s) && SoundBook(g, s.book, s.clock) && Derived(g, n) && Judge(g, s, n) == Ready
    ensures t == Refresh(g, s, n) && WellFormed(g, t)
    ensures (t.book == s.book && t.rows == s.rows) || Rewrote(g, s, t, n)
  {
    var f := Bind(g, s.book, n);
    var (s1, r) := RunCompute(g, s, f);
    t := Finish(g, s1, f, r);
    BindIsSound(g, s.book, s.clock, n);
    RunComputeActs(g, s, f);
    RunComputeKeepsRows(g, s, f);
    ComputedRewrites(g, s, s1, f, r);
  }

  lemma RunComputeKeepsRows(g: Graph, s: State, f: Flight)
    requires WellFormed(g, s) && Derived(g, f.node)
    ensures RunCompute(g, s, f).0.rows == s.rows
  {
  }

  lemma ComputedRewrites(g: Graph, s: State, s1: State, f: Flight, r: Attempt)
    requires WellFormed(g, s) && WellFormed(g, s1) && SoundFlight(g, f, s.clock)
    requires Ran(g, s, s1, f, r) && s1.rows == s.rows
    ensures var t := Finish(g, s1, f, r); (t.book == s.book && t.rows == s.rows) || Rewrote(g, s, t, f.node)
  {
    FinishRewrites(g, s1, f, r);
    RetriedRewrites(g, s, s1, Finish(g, s1, f, r), f, r);
  }

  lemma ReadyKeepsMirror(g: Graph, s: State, n: Id)
    requires WellFormed(g, s) && SoundBook(g, s.book, s.clock) && Derived(g, n) && MirroredState(g, s)
    requires Judge(g, s, n) == Ready
    ensures MirroredState(g, Refresh(g, s, n))
  {
    var t := ReadyRewrites(g, s, n);
    if Rewrote(g, s, t, n) {
      RewriteKeepsMirror(g, s, t, n);
    } else {
      SameBooksKeepMirror(g, s, t);
    }
  }

  lemma SameBooksKeepMirror(g: Graph, s: State, t: State)
    requires WellFormed(g, s) && WellFormed(g, t) && MirroredState(g, s) && t.book == s.book && t.rows == s.rows
    ensures MirroredState(g, t)
  {
  }

  lemma PopKeepsMirror(g: Graph, s: State, e: Event)
    requires Steady(g, s) && MirroredState(g, s) && e in s.q.events && Derived(g, e.node)
    ensures MirroredState(g, Pop(g, s, e).0)
  {
    RefreshKeepsMirror(g, Take(s, e), e.node);
    SettleKeepsRows(g, Refresh(g, Take(s, e), e.node), e.node);
  }

  lemma SettleKeepsRows(g: Graph, u: State, n: Id)
    requires WellFormed(g, u) && Derived(g, n)
    ensures Settle(g, u, n).0.book == u.book && Settle(g, u, n).0.rows == u.rows
  {
  }

  lemma {:induction false} RunKeepsMirror(g: Graph, s: State, acts: seq<Action>, t: State)
    requires Steady(g, s) && MirroredState(g, s) && Run(g, s, acts, t)
    ensures Steady(g, t) && MirroredState(g, t)
    decreases |acts|
  {
    if acts != [] {
      match acts[0] {
        case Push(x, a) =>
          WriteKeepsSteady(g, s, x, a);
          WriteRewrites(g, s, x, a);
          RewriteKeepsMirror(g, s, Write(g, s, x, a), x);
        case Drain(e) =>
          PopKeepsMirror(g, s, e);
          var _ := PopActs(g, s, e);
      }
      RunKeepsMirror(g, Act(g, s, acts[0]).0, acts[1..], t);
    }
  }

  // ------------------------------------------------------------ the theorem

  lemma ReloadedVerdict(g: Graph, s: State, n: Id)
    requires Steady(g, s) && MirroredState(g, s) && Derived(g, n)
    ensures IsStale(g, Reload(g, s.rows), n) <==> IsStale(g, s.book, n)
  {
    var b := Reload(g, s.rows);
    assert Mirrored(g, s.book, s.rows, n) && QuietNode(g, s.book, n) && SoundNode(g, s.book, s.clock, n);
    forall m | m in Nodes(g) ensures b.attempt[m] == s.book.attempt[m] {
      assert Mirrored(g, s.book, s.rows, m);
    }
    var ds := Active(g, s.book.attempt, n);
    assert forall d | d in ds :: Edge(g, n, d);
    SameView(g, s.book.attempt, b.attempt, n);
    if !s.book.attempt[n].Pending? {
      forall d | d in ds ensures Moved(g, b, n, d) <==> Moved(g, s.book, n, d) {
        ReloadedMoved(g, s, n, d);
      }
    }
  }

  lemma ReloadedMoved(g: Graph, s: State, n: Id, d: Id)
    requires Steady(g, s) && MirroredState(g, s) && Derived(g, n) && Edge(g, n, d) && !s.book.attempt[n].Pending?
    ensures Moved(g, Reload(g, s.rows), n, d) <==> Moved(g, s.book, n, d)
  {
    assert Mirrored(g, s.book, s.rows, n) && Mirrored(g, s.book, s.rows, d);
    assert Contiguous(g, s.book, n, d);
    assert SoundNode(g, s.book, s.clock, n) && SoundNode(g, s.book, s.clock, d);
  }

  /**
   * Restart transparency: after any run, rebuilding the nodes from their
   * latest rows restores every attempt, and for every derived node its
   * dependency stamps, its code version and its staleness verdict.
   */
  lemma RestartIsTransparent(g: Graph, s: State, acts: seq<Action>, t: State, n: Id)
    requires Steady(g, s) && MirroredState(g, s) && Run(g, s, acts, t) && n in Nodes(g)
    ensures WellFormed(g, t)
    ensures var b := Reload(g, t.rows);
      && b.attempt[n] == t.book.attempt[n]
      && b.meta[n].persistedAt == t.book.meta[n].persistedAt
      && (Derived(g, n) ==>
            && b.meta[n].depStamps == t.book.meta[n].depStamps
            && b.meta[n].version == t.book.meta[n].version
            && (IsStale(g, b, n) <==> IsStale(g, t.book, n)))
  {
    RunKeepsMirror(g, s, acts, t);
    assert Mirrored(g, t.book, t.rows, n);
    if Derived(g, n) {
      ReloadedVerdict(g, t, n);
    }
  }
}
