// The effect of every engine operation, stated once and used by all the
// whole-run proofs.
module Actions {
  import opened Attempts
  import opened DagGraph
  import opened Engine
  import opened Frames

  // ------------------------------------------------------------- the queue

  /** `scheduled` and the queued events are in bijection. */
  ghost predicate InStep(q: Queue) {
    forall e: Event ::
      q.events[e] == (if e.node in q.scheduled && q.scheduled[e.node] == e.at then 1 else 0)
  }

  /** Every scheduled entry has its event in the queue. */
  ghost predicate Covered(q: Queue) {
    forall n | n in q.scheduled :: Event(q.scheduled[n], n) in q.events
  }

  lemma NothingScheduledWhenEmpty(q: Queue)
    requires InStep(q) && q.events == multiset{}
    ensures q.scheduled.Keys == {}
  {
    forall n ensures n !in q.scheduled {
      var at := if n in q.scheduled then q.scheduled[n] else 0;
      assert q.events[Event(at, n)] == 0;
    }
  }

  /** Nothing scheduled in q is lost or moved in p. */
  ghost predicate Keeps(q: Queue, p: Queue) {
    && q.events <= p.events
    && forall n | n in q.scheduled :: n in p.scheduled && p.scheduled[n] == q.scheduled[n]
  }

  lemma EnqueueKeeps(q: Queue, n: Id, at: int)
    ensures Keeps(q, Enqueue(q, n, at))
    ensures n in Enqueue(q, n, at).scheduled
    ensures forall m | m in Enqueue(q, n, at).scheduled ::
              m in q.scheduled || (m == n && Enqueue(q, n, at).scheduled[n] == at)
    ensures InStep(q) ==> InStep(Enqueue(q, n, at))
    ensures Covered(q) ==> Covered(Enqueue(q, n, at))
  {
  }

  /** r is s after the handlers `hs` of one signal ran. */
  ghost predicate Notified(g: Graph, s: State, r: State, hs: seq<Id>)
    requires WellFormed(g, s)
    requires forall h | h in hs :: Derived(g, h)
  {
    && r.book == s.book && r.rows == s.rows && r.calls == s.calls
    && r.q.requeues == s.q.requeues
    && s.clock <= r.clock
    && Keeps(s.q, r.q)
    && (InStep(s.q) ==> InStep(r.q))
    && (Covered(s.q) ==> Covered(r.q))
    && (forall m | m in hs && IsStale(g, s.book, m) :: m in r.q.scheduled)
    && (forall m | m in r.q.scheduled ::
          || m in s.q.scheduled
          || (m in hs && IsStale(g, s.book, m) && s.clock < r.q.scheduled[m] <= r.clock))
    && (forall m :: Count(r.retries, m) == if m in hs then 0 else Count(s.retries, m))
  }

  lemma HandlerNotifies(g: Graph, s: State, h: Id)
    requires WellFormed(g, s) && Derived(g, h)
    ensures Notified(g, s, OnDepChanged(g, s, h), [h])
  {
    HandlerMoves(g, s, h);
    EnqueueKeeps(s.q, h, s.clock + 1);
    forall m ensures Count(OnDepChanged(g, s, h).retries, m) == if m in [h] then 0 else Count(s.retries, m) {
    }
  }

  /** What one handler moves. */
  lemma HandlerMoves(g: Graph, s: State, h: Id)
    requires WellFormed(g, s) && Derived(g, h)
    ensures var r := OnDepChanged(g, s, h);
      && r.book == s.book && r.rows == s.rows && r.calls == s.calls && r.retries == s.retries[h := 0]
      && (if IsStale(g, s.book, h) then r.q == Enqueue(s.q, h, s.clock + 1) && r.clock == s.clock + 1
          else r.q == s.q && r.clock == s.clock)
  {
  }

  lemma NotifiedTransitive(g: Graph, s: State, s1: State, r: State, h: Id, hs: seq<Id>)
    requires WellFormed(g, s) && WellFormed(g, s1) && Derived(g, h) && forall h | h in hs :: Derived(g, h)
    requires Notified(g, s, s1, [h]) && Notified(g, s1, r, hs)
    ensures Notified(g, s, r, [h] + hs)
  {
    assert forall m :: m in [h] + hs <==> m == h || m in hs;
    assert h in [h];
  }

  lemma {:induction false} EmitNotifies(g: Graph, s: State, hs: seq<Id>)
    requires WellFormed(g, s) && forall h | h in hs :: Derived(g, h)
    ensures Notified(g, s, EmitTo(g, s, hs), hs)
    decreases |hs|
  {
    if hs != [] {
      var h, rest := hs[0], hs[1..];
      var s1 := OnDepChanged(g, s, h);
      HandlerNotifies(g, s, h);
      EmitNotifies(g, s1, rest);
      NotifiedTransitive(g, s, s1, EmitTo(g, s1, rest), h, rest);
      assert [h] + rest == hs;
    }
  }

  /** A signal with one handler, of a stale node, queues that node. */
  lemma OneHandler(g: Graph, s: State, d: Id, n: Id)
    requires WellFormed(g, s) && d in Nodes(g) && g.dependents[d] == [n] && Derived(g, n) && IsStale(g, s.book, n)
    ensures var t := Emit(g, s, d);
      t.book == s.book && t.clock == s.clock + 1 && t.q == Enqueue(s.q, n, s.clock + 1)
  {
    var t := OnDepChanged(g, s, n);
    assert [n][1..] == [] && EmitTo(g, s, [n]) == EmitTo(g, t, []) == t;
  }

  // ---------------------------------------------------------- one operation

  /** From s to t, the only node written is n. */
  ghost predicate Acted(g: Graph, s: State, t: State, n: Id)
    requires WellFormed(g, s) && n in Nodes(g)
  {
    && WellFormed(g, t)
    && s.clock <= t.clock
    && (t.book == s.book || Stamps(g, s.book, t.book, n, s.clock))
    && SoundBook(g, t.book, t.clock)
    && (QuietNode(g, s.book, n) ==> QuietNode(g, t.book, n))
    && t.q.requeues == s.q.requeues
    && Keeps(s.q, t.q)
    && (InStep(s.q) ==> InStep(t.q))
    && (Covered(s.q) ==> Covered(t.q))
    && Admits(g, t.book, s.q, t.q, n)
    && (t.book.attempt[n] != s.book.attempt[n] && !t.book.attempt[n].Pending? ==> Announced(g, t.book, t.q, n))
  }

  /** From queue q to p, only n and its dependents were added, and they are stale. */
  ghost predicate Admits(g: Graph, b: Book, q: Queue, p: Queue, n: Id)
    requires WellFormedBook(g, b) && n in Nodes(g)
  {
    forall m | m in p.scheduled ::
      m in q.scheduled || (Derived(g, m) && (m == n || m in g.dependents[n]) && IsStale(g, b, m))
  }

  /** Every stale dependent of n is scheduled. */
  ghost predicate Announced(g: Graph, b: Book, q: Queue, n: Id)
    requires WellFormedBook(g, b) && n in Nodes(g)
  {
    forall m | m in g.dependents[n] && Derived(g, m) && IsStale(g, b, m) :: m in q.scheduled
  }

  /** A flight whose stamps are not from the future. */
  ghost predicate SoundFlight(g: Graph, f: Flight, clock: int) {
    && Derived(g, f.node)
    && forall d | d in f.stamps :: 0 <= f.stamps[d] <= clock
  }

  lemma BindIsSound(g: Graph, b: Book, clock: int, n: Id)
    requires SoundBook(g, b, clock) && Derived(g, n)
    ensures SoundFlight(g, Bind(g, b, n), clock)
  {
    var ds := Active(g, b.attempt, n);
    assert forall d | d in ds :: Edge(g, n, d);
    assert forall d | d in ds :: SoundNode(g, b, clock, d);
  }

  /** The stamps bound from one, or from two active dependencies. */
  lemma BindsOne(g: Graph, b: Book, n: Id, d: Id)
    requires WellFormedBook(g, b) && Derived(g, n) && Active(g, b.attempt, n) == [d] && d in b.meta
    ensures Bind(g, b, n).stamps == map[d := b.meta[d].persistedAt]
  {
    assert forall x | x in [d] :: x == d;
  }

  lemma BindsTwo(g: Graph, b: Book, n: Id, c: Id, d: Id)
    requires WellFormedBook(g, b) && Derived(g, n) && Active(g, b.attempt, n) == [c, d] && c in b.meta && d in b.meta
    ensures Bind(g, b, n).stamps == map[c := b.meta[c].persistedAt, d := b.meta[d].persistedAt]
  {
    assert forall x | x in [c, d] :: x == c || x == d;
  }

  lemma DependentsAreDerived(g: Graph, n: Id)
    requires Valid(g) && n in Nodes(g)
    ensures forall m | m in g.dependents[n] :: Derived(g, m)
  {
    assert forall m | m in g.dependents[n] :: Edge(g, m, n);
  }

  /** A state that announces nothing: only n's row, the clock and the rows moved. */
  ghost predicate Wrote(g: Graph, s: State, t: State, n: Id)
    requires WellFormed(g, s) && n in Nodes(g)
  {
    && WellFormed(g, t)
    && s.clock < t.clock
    && Stamps(g, s.book, t.book, n, s.clock)
    && SoundBook(g, t.book, t.clock)
    && (QuietNode(g, s.book, n) ==> QuietNode(g, t.book, n))
    && t.q == s.q && t.calls == s.calls
  }

  lemma PersistWrites(g: Graph, s: State, f: Flight)
    requires WellFormed(g, s) && SoundBook(g, s.book, s.clock) && SoundFlight(g, f, s.clock)
    ensures Wrote(g, s, PersistStatus(g, s, f), f.node)
  {
    var t := PersistStatus(g, s, f);
    assert SoundNode(g, s.book, s.clock, f.node);
    assert SoundNode(g, t.book, t.clock, f.node);
    SoundAfter(g, s.book, t.book, f.node, s.clock, t.clock);
  }

  /** n's bookkeeping after a completion with `result`. */
  function RecordedMeta(g: Graph, s: State, f: Flight, result: Attempt): Meta
    requires WellFormed(g, s) && Derived(g, f.node)
  {
    Meta(s.clock + 3, s.clock + 2, f.stamps, Some(g.version[f.node]),
         if result.Pending? then s.book.meta[f.node].retryAt else None)
  }

  lemma RecordShape(g: Graph, s: State, f: Flight, result: Attempt)
    requires WellFormed(g, s) && Derived(g, f.node)
    ensures var t := Record(g, s, f, result);
            && t.clock == s.clock + 3 && t.q == s.q && t.calls == s.calls
            && t.book == Book(s.book.attempt[f.node := result],
                              s.book.meta[f.node := RecordedMeta(g, s, f, result)])
  {
  }

  lemma RecordWrites(g: Graph, s: State, f: Flight, result: Attempt)
    requires WellFormed(g, s) && SoundBook(g, s.book, s.clock) && SoundFlight(g, f, s.clock)
    ensures Wrote(g, s, Record(g, s, f, result), f.node)
    ensures Record(g, s, f, result).book.attempt == s.book.attempt[f.node := result]
  {
    RecordShape(g, s, f, result);
    RecordedIsSound(g, s.book, Record(g, s, f, result).book, s.clock, f, result, RecordedMeta(g, s, f, result));
  }

  lemma RecordedIsSound(g: Graph, b: Book, c: Book, clock: int, f: Flight, result: Attempt, m: Meta)
    requires SoundBook(g, b, clock) && SoundFlight(g, f, clock)
    requires c == Book(b.attempt[f.node := result], b.meta[f.node := m])
    requires m.persistedAt == clock + 3 && m.computedAt == clock + 2 && m.depStamps == f.stamps
    requires m.version == Some(g.version[f.node]) && (!result.Pending? ==> m.retryAt == None)
    ensures Stamps(g, b, c, f.node, clock) && SoundBook(g, c, clock + 3)
  {
    assert SoundNode(g, c, clock + 3, f.node);
    SoundAfter(g, b, c, f.node, clock, clock + 3);
  }

  lemma StoreWrites(g: Graph, s: State, x: Id, a: Attempt)
    requires WellFormed(g, s) && SoundBook(g, s.book, s.clock) && x in g.inputs
    ensures Wrote(g, s, Store(g, s, x, a), x)
  {
    var t := Store(g, s, x, a);
    SoundAfter(g, s.book, t.book, x, s.clock, t.clock);
  }

  /** Writing n's row and announcing it. */
  lemma AnnouncedActs(g: Graph, s: State, t: State, n: Id)
    requires WellFormed(g, s) && n in Nodes(g) && Wrote(g, s, t, n)
    ensures Acted(g, s, Emit(g, t, n), n)
    ensures Emit(g, t, n).book == t.book && Emit(g, t, n).calls == s.calls
    ensures Announced(g, t.book, Emit(g, t, n).q, n)
    ensures forall m | m in Emit(g, t, n).q.scheduled :: m in s.q.scheduled || m in g.dependents[n]
  {
    DependentsAreDerived(g, n);
    EmitNotifies(g, t, g.dependents[n]);
    SoundLater(g, t.book, t.clock, Emit(g, t, n).clock);
  }

  lemma CompleteActs(g: Graph, s: State, f: Flight, result: Attempt)
    requires WellFormed(g, s) && SoundBook(g, s.book, s.clock) && SoundFlight(g, f, s.clock)
    ensures Acted(g, s, Complete(g, s, f, result), f.node)
    ensures Complete(g, s, f, result).book == Record(g, s, f, result).book
    ensures Stamps(g, s.book, Complete(g, s, f, result).book, f.node, s.clock)
    ensures Complete(g, s, f, result).book.attempt == s.book.attempt[f.node := result]
    ensures Complete(g, s, f, result).calls == s.calls
    ensures Complete(g, s, f, result).book.meta[f.node] == RecordedMeta(g, s, f, result)
    ensures result.Pending? ==> Complete(g, s, f, result).q == s.q
    ensures forall m | m in Complete(g, s, f, result).q.scheduled :: m in s.q.scheduled || m in g.dependents[f.node]
  {
    RecordWrites(g, s, f, result);
    RecordShape(g, s, f, result);
    if !result.Pending? {
      AnnouncedActs(g, s, Record(g, s, f, result), f.node);
    }
  }

  lemma WriteActs(g: Graph, s: State, x: Id, a: Attempt)
    requires WellFormed(g, s) && SoundBook(g, s.book, s.clock) && x in g.inputs
    ensures Acted(g, s, Write(g, s, x, a), x)
    ensures Write(g, s, x, a).book == Store(g, s, x, a).book
    ensures Stamps(g, s.book, Write(g, s, x, a).book, x, s.clock)
    ensures Write(g, s, x, a).calls == s.calls
    ensures Announced(g, Write(g, s, x, a).book, Write(g, s, x, a).q, x)
  {
    StoreWrites(g, s, x, a);
    AnnouncedActs(g, s, Store(g, s, x, a), x);
  }

  // ------------------------------------------------------ compute and finish

  /** s1 is s after one call of compute: a retry is scheduled, or only the log and the clock moved. */
  ghost predicate Ran(g: Graph, s: State, s1: State, f: Flight, r: Attempt)
    requires WellFormed(g, s) && Derived(g, f.node)
  {
    && WellFormed(g, s1) && s.clock < s1.clock
    && SoundBook(g, s1.book, s1.clock)
    && OnlyAt(g, s.book, s1.book, f.node) && s1.book.attempt == s.book.attempt
    && s1.book.meta[f.node].persistedAt == s.book.meta[f.node].persistedAt
    && s1.book.meta[f.node].depStamps == s.book.meta[f.node].depStamps
    && s1.calls == s.calls + [Call(f.node, f.atts, g.world(f.node, f.atts, s.clock))]
    && (|| (s1.book == s.book && s1.q == s.q && Answers(g.world(f.node, f.atts, s.clock), r))
        || (&& r.Pending? && g.world(f.node, f.atts, s.clock).Transient?
            && exists at :: s1.q == Enqueue(s.q, f.node, at) && s1.book == SetRetryAt(s.book, f.node, Some(at))))
  }

  lemma RunComputeActs(g: Graph, s: State, f: Flight)
    requires WellFormed(g, s) && SoundBook(g, s.book, s.clock) && Derived(g, f.node)
    ensures Ran(g, s, RunCompute(g, s, f).0, f, RunCompute(g, s, f).1)
  {
    var (t, result) := RunCompute(g, s, f);
    ComputeMoves(g, s, f);
    assert SoundNode(g, s.book, s.clock, f.node);
    assert SoundNode(g, t.book, t.clock, f.node);
    SoundAfter(g, s.book, t.book, f.node, s.clock, t.clock);
  }

  /** What one call of compute moves. */
  lemma ComputeMoves(g: Graph, s: State, f: Flight)
    requires WellFormed(g, s) && Derived(g, f.node)
    ensures var (t, r), o := RunCompute(g, s, f), g.world(f.node, f.atts, s.clock);
      && s.clock < t.clock && t.calls == s.calls + [Call(f.node, f.atts, o)]
      && (|| (t.book == s.book && t.q == s.q && Answers(o, r))
          || (&& r.Pending? && o.Transient?
              && exists at :: t.q == Enqueue(s.q, f.node, at) && t.book == SetRetryAt(s.book, f.node, Some(at))))
  {
    var s1 := s.(calls := s.calls + [Call(f.node, f.atts, g.world(f.node, f.atts, s.clock))], clock := s.clock + 1);
    match g.world(f.node, f.atts, s.clock)
    case Returned(a) =>
    case Transient(e, ra) => RetryMoves(g, s1, f.node, ra);
  }

  lemma RetryMoves(g: Graph, s: State, n: Id, retryAfter: Option<int>)
    requires WellFormed(g, s) && Derived(g, n)
    ensures var (t, retrying) := ScheduleRetry(g, s, n, retryAfter);
      && s.clock <= t.clock && t.calls == s.calls
      && (if !retrying then t.book == s.book && t.q == s.q
          else exists at :: t.q == Enqueue(s.q, n, at) && t.book == SetRetryAt(s.book, n, Some(at)))
  {
    var (delay, count) := RetryDelay(Count(s.retries, n), retryAfter);
    var due := s.clock + 1 + delay;
    var t := ScheduleRetry(g, s, n, retryAfter).0;
    if count < MAX_RETRIES {
      assert t.q == Enqueue(s.q, n, due) && t.book == SetRetryAt(s.book, n, Some(due));
    }
  }

  /** The early cutoff: the value is the one the node already holds. */
  predicate Identical(b: Book, n: Id, result: Attempt)
    requires n in b.attempt
  {
    result.Succeeded? && b.attempt[n].Succeeded? && result.value == b.attempt[n].value
  }

  lemma CutoffActs(g: Graph, s: State, f: Flight, result: Attempt)
    requires WellFormed(g, s) && SoundBook(g, s.book, s.clock) && SoundFlight(g, f, s.clock)
    requires Identical(s.book, f.node, result)
    ensures var t := Finish(g, s, f, result);
      && Acted(g, s, t, f.node)
      && t.book.attempt == s.book.attempt && t.q == s.q && t.calls == s.calls
      && t.book.meta[f.node].depStamps == f.stamps
      && (if f.stamps == s.book.meta[f.node].depStamps then t.book == s.book
          else Stamps(g, s.book, t.book, f.node, s.clock))
  {
    var n := f.node;
    assert SoundNode(g, s.book, s.clock, n);
    if f.stamps == s.book.meta[n].depStamps {
      assert s.book.meta[n := s.book.meta[n].(version := Some(g.version[n]))] == s.book.meta;
    } else {
      PersistWrites(g, s, f);
    }
  }

  /** A new result is written and announced. */
  lemma NewResultIsAnnounced(g: Graph, s: State, f: Flight, result: Attempt)
    requires WellFormed(g, s) && Derived(g, f.node) && !Identical(s.book, f.node, result) && !result.Pending?
    ensures Finish(g, s, f, result) == Emit(g, Record(g, s, f, result), f.node)
  {
  }

  /** The same value from the same inputs: the books change in the code version alone, and no row is written. */
  lemma OnlyTheCodeMoves(g: Graph, s: State, f: Flight, result: Attempt)
    requires WellFormed(g, s) && Derived(g, f.node) && Identical(s.book, f.node, result)
    requires f.stamps == s.book.meta[f.node].depStamps
    ensures var m := s.book.meta[f.node].(version := Some(g.version[f.node]));
      Finish(g, s, f, result) == s.(book := s.book.(meta := s.book.meta[f.node := m]))
  {
  }

  /** t is s after the tail of a refresh with `result`. */
  ghost predicate Finished(g: Graph, s: State, t: State, f: Flight, result: Attempt)
    requires WellFormed(g, s) && Derived(g, f.node)
  {
    && Acted(g, s, t, f.node)
    && t.book.attempt == s.book.attempt[f.node := result]
    && t.calls == s.calls
    && t.book.meta[f.node].depStamps == f.stamps
    && (if Identical(s.book, f.node, result) && f.stamps == s.book.meta[f.node].depStamps then t.book == s.book
        else Stamps(g, s.book, t.book, f.node, s.clock))
    && (result.Pending? ==> t.q == s.q)
    && (forall m | m in t.q.scheduled :: m in s.q.scheduled || m in g.dependents[f.node])
  }

  lemma FinishActs(g: Graph, s: State, f: Flight, result: Attempt)
    requires WellFormed(g, s) && SoundBook(g, s.book, s.clock) && SoundFlight(g, f, s.clock)
    ensures Finished(g, s, Finish(g, s, f, result), f, result)
  {
    if Identical(s.book, f.node, result) {
      CutoffActs(g, s, f, result);
      assert s.book.attempt[f.node := result] == s.book.attempt;
    } else {
      CompleteActs(g, s, f, result);
    }
  }
}
