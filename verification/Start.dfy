// Process start: nodes are rebuilt from their latest rows and registered with
// an empty queue. Every whole-run theorem applies to the state this leaves,
// after a first start and after a restart at any point.
module Start {
  import opened Attempts
  import opened DagGraph
  import opened Engine
  import opened Frames
  import opened Actions
  import opened Pops
  import opened Honesty
  import opened Convergence
  import opened Termination
  import opened FirstFill
  import opened Restart

  /** AsyncRefreshQueue.register: at the stored retry time, or at once if the node needs work. */
  function Register(g: Graph, s: State, n: Id): (r: State)
    requires WellFormed(g, s) && Derived(g, n)
    ensures WellFormed(g, r)
  {
    var due := s.book.meta[n].retryAt;
    if n in s.q.scheduled then s
    else if due.Some? && due.value > s.clock then s.(q := Enqueue(s.q, n, due.value))
    else if s.book.attempt[n].Pending? || IsStale(g, s.book, n) then Schedule(s, n)
    else s
  }

  function RegisterAll(g: Graph, s: State, ns: seq<Id>): (r: State)
    requires WellFormed(g, s) && forall n | n in ns :: Derived(g, n)
    ensures WellFormed(g, r)
    decreases |ns|
  {
    if ns == [] then s else RegisterAll(g, Register(g, s, ns[0]), ns[1..])
  }

  function RestoredRetries(g: Graph, rows: map<Id, Row>): map<Id, int>
    requires Valid(g)
  {
    map n | n in g.fixed ::
      if n in rows && rows[n].attempt.Pending? && rows[n].retryAt.Some? then rows[n].retryCount else 0
  }

  /** The state of a new process after every node was constructed, in registration order. */
  function Boot(g: Graph, rows: map<Id, Row>, clock: int): (r: State)
    requires Valid(g)
    ensures WellFormed(g, r)
  {
    var empty := Queue(multiset{}, map[], map[]);
    RegisterAll(g, State(Reload(g, rows), RestoredRetries(g, rows), empty, clock, rows, []), g.registered)
  }

  /** r is s with some stale nodes of ns queued, each of them if it is stale. */
  ghost predicate RegisteredFrom(g: Graph, s: State, r: State, ns: seq<Id>)
    requires WellFormed(g, s) && forall n | n in ns :: Derived(g, n)
  {
    && r.book == s.book && r.rows == s.rows && r.calls == s.calls && r.retries == s.retries
    && r.q.requeues == s.q.requeues && s.clock <= r.clock
    && Keeps(s.q, r.q) && (InStep(s.q) ==> InStep(r.q))
    && (forall n | n in ns && IsStale(g, s.book, n) :: n in r.q.scheduled)
    && forall n | n in r.q.scheduled :: n in s.q.scheduled || (n in ns && IsStale(g, s.book, n))
  }

  lemma QueuedIsRegistered(g: Graph, s: State, r: State, n: Id, at: int)
    requires WellFormed(g, s) && Derived(g, n) && IsStale(g, s.book, n)
    requires r.q == Enqueue(s.q, n, at) && s.clock <= r.clock && r == s.(q := r.q, clock := r.clock)
    ensures RegisteredFrom(g, s, r, [n])
  {
    EnqueueKeeps(s.q, n, at);
  }

  lemma RegisterRegisters(g: Graph, s: State, n: Id)
    requires WellFormed(g, s) && Derived(g, n)
    ensures RegisteredFrom(g, s, Register(g, s, n), [n])
  {
    var due := s.book.meta[n].retryAt;
    if n in s.q.scheduled {
    } else if due.Some? && due.value > s.clock {
      QueuedIsRegistered(g, s, Register(g, s, n), n, due.value);
    } else if IsStale(g, s.book, n) {
      QueuedIsRegistered(g, s, Register(g, s, n), n, s.clock + 1);
    }
  }

  lemma {:induction false} RegisterAllRegisters(g: Graph, s: State, ns: seq<Id>)
    requires WellFormed(g, s) && forall n | n in ns :: Derived(g, n)
    ensures RegisteredFrom(g, s, RegisterAll(g, s, ns), ns)
    decreases |ns|
  {
    if ns != [] {
      var s1 := Register(g, s, ns[0]);
      RegisterRegisters(g, s, ns[0]);
      RegisterAllRegisters(g, s1, ns[1..]);
      assert forall n :: n in ns <==> n == ns[0] || n in ns[1..];
    }
  }

  /** n's latest row is one that this code could have left by `clock`. */
  ghost predicate SoundRow(g: Graph, rows: map<Id, Row>, clock: int, n: Id) {
    n in rows ==>
      && 0 <= rows[n].stamp <= clock
      && (Derived(g, n) ==>
            && (!rows[n].attempt.Pending? ==> 0 < rows[n].stamp)
            && n in g.version && LoadedMeta(rows, n).version == Some(g.version[n])
            && forall d | d in rows[n].depStamps :: 0 <= rows[n].depStamps[d] <= rows[n].stamp)
  }

  ghost predicate SoundRows(g: Graph, rows: map<Id, Row>, clock: int) {
    0 <= clock && forall n {:trigger SoundRow(g, rows, clock, n)} | n in Nodes(g) :: SoundRow(g, rows, clock, n)
  }

  lemma ReloadIsSound(g: Graph, rows: map<Id, Row>, clock: int)
    requires Valid(g) && SoundRows(g, rows, clock)
    ensures SoundBook(g, Reload(g, rows), clock)
  {
    forall n | n in Nodes(g) ensures SoundNode(g, Reload(g, rows), clock, n) {
      assert SoundRow(g, rows, clock, n);
    }
  }

  /** A start from sound rows is steady, mirrors its rows, and queues exactly the stale nodes. */
  lemma BootActs(g: Graph, rows: map<Id, Row>, clock: int)
    requires Valid(g) && SoundRows(g, rows, clock)
    ensures var r := Boot(g, rows, clock);
      && Steady(g, r) && MirroredState(g, r)
      && r.book == Reload(g, rows) && r.calls == [] && r.q.requeues == map[]
      && (forall n | Derived(g, n) :: n in r.q.scheduled <==> IsStale(g, r.book, n))
  {
    var s := State(Reload(g, rows), RestoredRetries(g, rows), Queue(multiset{}, map[], map[]), clock, rows, []);
    RegisterAllRegisters(g, s, g.registered);
    ReloadIsSound(g, rows, clock);
    var r := Boot(g, rows, clock);
    SoundLater(g, r.book, clock, r.clock);
    forall n | n in Nodes(g) ensures QuietNode(g, r.book, n) && Mirrored(g, r.book, r.rows, n) {
    }
    forall n, d | Derived(g, n) && d in Nodes(g) ensures Contiguous(g, r.book, n, d) {
    }
  }

  /** Stored retry counts are counts, so the restored counters are. */
  lemma BootCounters(g: Graph, rows: map<Id, Row>, clock: int)
    requires Valid(g) && forall n | n in rows :: 0 <= rows[n].retryCount
    ensures Counted(Boot(g, rows, clock))
  {
    var s := State(Reload(g, rows), RestoredRetries(g, rows), Queue(multiset{}, map[], map[]), clock, rows, []);
    RegisterAllRegisters(g, s, g.registered);
    var r := Boot(g, rows, clock);
    forall n ensures 0 <= Count(r.retries, n) {
      assert r.retries == RestoredRetries(g, rows);
    }
  }

  // -------------------------------------------------------------- first start

  /** Everything derived is still pending, unstamped and queued, as before the first drain. */
  ghost predicate AwaitsFill(g: Graph, s: State) {
    && Steady(g, s)
    && (forall n {:trigger s.book.attempt[n]} | Derived(g, n) ::
          s.book.attempt[n].Pending? && s.book.meta[n].depStamps == map[])
    && s.q.scheduled.Keys == g.fixed.Keys && s.q.requeues == map[]
  }

  /** On an empty database everything is pending and queued, as before a first fill. */
  lemma FirstStart(g: Graph, clock: int)
    requires Valid(g) && 0 <= clock
    ensures var r := Boot(g, map[], clock);
      && Steady(g, r) && MirroredState(g, r) && Counted(r)
      && AllHonest(g, r.book) && AllConverging(g, r) && AllAwake(g, r)
      && AwaitsFill(g, r)
      && forall n | n in Nodes(g) :: r.book.attempt[n].Pending?
  {
    BootActs(g, map[], clock);
    BootCounters(g, map[], clock);
    var r := Boot(g, map[], clock);
    assert forall n | n in Nodes(g) :: r.book.attempt[n].Pending?;
    forall n | Derived(g, n)
      ensures Honest(g, r.book, n) && Converging(g, r.book, r.q, n) && Awake(g, r, n) && n in r.q.scheduled {
      assert IsStale(g, r.book, n);
    }
    assert r.q.scheduled.Keys == g.fixed.Keys;
  }

  /** Pushing the inputs before the first drain leads to the start of a first fill. */
  lemma PushAwaitsFill(g: Graph, s: State, x: Id, a: Attempt)
    requires AwaitsFill(g, s) && x in g.inputs
    ensures AwaitsFill(g, Write(g, s, x, a))
    ensures Write(g, s, x, a).book.attempt == s.book.attempt[x := a] && Write(g, s, x, a).calls == s.calls
  {
    WriteKeepsSteady(g, s, x, a);
    WriteActs(g, s, x, a);
  }

  lemma AwaitingIsUnfilled(g: Graph, s: State)
    requires AwaitsFill(g, s) && forall x | x in g.inputs :: s.book.attempt[x].Succeeded?
    ensures Unfilled(g, s)
  {
  }

  // ------------------------------------------------------------------ restart

  lemma MirroredRowsAreSound(g: Graph, s: State)
    requires Steady(g, s) && MirroredState(g, s)
    ensures SoundRows(g, s.rows, s.clock)
  {
    forall n | n in Nodes(g) ensures SoundRow(g, s.rows, s.clock, n) {
      assert Mirrored(g, s.book, s.rows, n) && SoundNode(g, s.book, s.clock, n);
    }
  }

  lemma ReloadedAttempts(g: Graph, s: State)
    requires Steady(g, s) && MirroredState(g, s)
    ensures forall n | n in Nodes(g) :: Reload(g, s.rows).attempt[n] == s.book.attempt[n]
  {
    forall n | n in Nodes(g) ensures Reload(g, s.rows).attempt[n] == s.book.attempt[n] {
      assert Mirrored(g, s.book, s.rows, n);
    }
  }

  lemma ReloadedView(g: Graph, s: State, n: Id)
    requires Steady(g, s) && MirroredState(g, s) && Derived(g, n)
    ensures var b := Reload(g, s.rows);
      && Active(g, b.attempt, n) == Active(g, s.book.attempt, n)
      && ActiveAttempts(g, b.attempt, n) == ActiveAttempts(g, s.book.attempt, n)
      && b.attempt[n] == s.book.attempt[n]
      && (IsStale(g, b, n) <==> IsStale(g, s.book, n))
  {
    ReloadedAttempts(g, s);
    assert forall d | d in Active(g, s.book.attempt, n) :: Edge(g, n, d);
    SameView(g, s.book.attempt, Reload(g, s.rows).attempt, n);
    ReloadedVerdict(g, s, n);
  }

  /** r holds what the rows of s say, with exactly the stale nodes queued. */
  ghost predicate Resumed(g: Graph, s: State, r: State)
    requires WellFormed(g, s)
  {
    && Steady(g, r) && MirroredState(g, r) && r.book == Reload(g, s.rows)
    && forall n | Derived(g, n) :: n in r.q.scheduled <==> IsStale(g, r.book, n)
  }

  /** Such a state loses nothing of s: it is honest, and is converging if s was; what was queued is queued again. */
  lemma ResumedKeeps(g: Graph, s: State, r: State)
    requires Steady(g, s) && MirroredState(g, s) && AllHonest(g, s.book) && Resumed(g, s, r)
    ensures AllHonest(g, r.book) && AllAwake(g, r) && (AllConverging(g, s) ==> AllConverging(g, r))
    ensures forall n | n in s.q.scheduled :: n in r.q.scheduled
  {
    forall n | n in s.q.scheduled ensures n in r.q.scheduled {
      ReloadedVerdict(g, s, n);
    }
    forall n | Derived(g, n) ensures Honest(g, r.book, n) && Awake(g, r, n) {
      RestartStaysHonest(g, s, n);
    }
    if AllConverging(g, s) {
      forall n | Derived(g, n) ensures Converging(g, r.book, r.q, n) {
        assert Converging(g, s.book, s.q, n);
        ReloadedView(g, s, n);
        WaitsWhenPendingBound(g, s.book.attempt, n);
        WaitsWhenPendingBound(g, r.book.attempt, n);
      }
    }
  }

  lemma RowsAreSoundLater(g: Graph, s: State, clock: int)
    requires Steady(g, s) && MirroredState(g, s) && s.clock <= clock
    ensures SoundRows(g, s.rows, clock)
  {
    MirroredRowsAreSound(g, s);
    forall n | n in Nodes(g) ensures SoundRow(g, s.rows, clock, n) {
      assert SoundRow(g, s.rows, s.clock, n);
    }
  }

  /**
   * A restart loses nothing: a process that stops between two steps and starts
   * again from its rows, each node with the dependencies it had, is steady and
   * honest, and is still converging: what was queued is queued again.
   */
  lemma RestartResumes(g: Graph, s: State, clock: int)
    requires Steady(g, s) && MirroredState(g, s) && AllHonest(g, s.book) && s.clock <= clock
    ensures var r := Boot(g, s.rows, clock);
      && Steady(g, r) && MirroredState(g, r) && AllHonest(g, r.book)
      && (AllConverging(g, s) ==> AllConverging(g, r)) && AllAwake(g, r)
      && (forall n | n in s.q.scheduled :: n in r.q.scheduled)
    ensures Resumed(g, s, Boot(g, s.rows, clock))
  {
    RowsAreSoundLater(g, s, clock);
    BootActs(g, s.rows, clock);
    ResumedKeeps(g, s, Boot(g, s.rows, clock));
  }

  lemma RestartStaysHonest(g: Graph, s: State, n: Id)
    requires Steady(g, s) && MirroredState(g, s) && AllHonest(g, s.book) && Derived(g, n)
    ensures Honest(g, Reload(g, s.rows), n)
  {
    assert Honest(g, s.book, n);
    ReloadedView(g, s, n);
    if !IsStale(g, s.book, n) && !Consistent(g, s.book.attempt, n) {
      var d :| d in Active(g, s.book.attempt, n) && Derived(g, d) && IsStale(g, s.book, d);
      ReloadedVerdict(g, s, d);
    }
  }
}
