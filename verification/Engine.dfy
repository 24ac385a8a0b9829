// The refresh engine as functions on its whole state: the staleness test, one
// refresh, the priority queue and one step of a drain. Runtime.dfy proves the
// classes that change this state in place equal to these functions.
module Engine {
  import opened Attempts
  import opened DagGraph
  import opened Powers

  const MAX_RETRIES: int := 3
  const SECOND: int := 1_000_000
  const RETRY_AFTER_CAP: int := 86_400 * SECOND
  const BACKOFF_CAP: int := 300 * SECOND
  const BASE_DELAY: int := 10 * SECOND

  /** An event of the priority queue, ordered by time alone. */
  datatype Event = Event(at: int, node: Id)

  /** One call of a node's compute, and its outcome. */
  datatype Call = Call(node: Id, atts: seq<Attempt>, outcome: Outcome)

  /** The latest stored row of a node. */
  datatype Row = Row(attempt: Attempt, stamp: int, depStamps: map<Id, int>, version: Option<int>,
                     retryAt: Option<int>, retryCount: int)

  /**
   * A node's bookkeeping. Times are microseconds of a clock that advances at
   * every reading; 0 is "never". A node's row stamp and its persisted-at time
   * come from one reading, so one field holds both.
   */
  datatype Meta = Meta(persistedAt: int, computedAt: int, depStamps: map<Id, int>,
                       version: Option<int>, retryAt: Option<int>)

  /** What the staleness test reads. */
  datatype Book = Book(attempt: map<Id, Attempt>, meta: map<Id, Meta>)

  datatype Queue = Queue(events: multiset<Event>, scheduled: map<Id, int>, requeues: map<Id, int>)

  datatype State = State(book: Book, retries: map<Id, int>, q: Queue, clock: int,
                         rows: map<Id, Row>, calls: seq<Call>)

  ghost predicate WellFormedBook(g: Graph, b: Book) {
    && Valid(g)
    && Nodes(g) <= b.attempt.Keys
    && Nodes(g) <= b.meta.Keys
  }

  ghost predicate WellFormed(g: Graph, s: State) {
    WellFormedBook(g, s.book)
  }

  function Count(m: map<Id, int>, n: Id): int {
    if n in m then m[n] else 0
  }

  // ---------------------------------------------------------------- staleness

  /** The row of dependency d is not the one n's last evaluation is known to have used. */
  predicate Moved(g: Graph, b: Book, n: Id, d: Id)
    requires WellFormedBook(g, b) && Derived(g, n) && d in Nodes(g)
  {
    var own, dep := b.meta[n], b.meta[d];
    || (own.computedAt != 0 && dep.persistedAt > own.computedAt)
    || (Derived(g, d) && own.computedAt != 0 && dep.computedAt > own.computedAt)
    || (d in own.depStamps && own.depStamps[d] != 0 && dep.persistedAt != 0
        && dep.persistedAt != own.depStamps[d])
  }

  predicate CodeIsStale(g: Graph, b: Book, n: Id)
    requires WellFormedBook(g, b) && Derived(g, n)
  {
    b.meta[n].version.Some? && b.meta[n].version.value != g.version[n]
  }

  /** DerivedNode._is_stale. */
  predicate IsStale(g: Graph, b: Book, n: Id)
    requires WellFormedBook(g, b) && Derived(g, n)
  {
    || CodeIsStale(g, b, n)
    || b.meta[n].retryAt.Some?
    || b.attempt[n].Pending?
    || exists d | d in Active(g, b.attempt, n) :: Moved(g, b, n, d)
  }

  // -------------------------------------------------------------- the queue

  /** AsyncRefreshQueue._enqueue: a no-op for a node that is already scheduled. */
  function Enqueue(q: Queue, n: Id, at: int): Queue {
    if n in q.scheduled then q
    else q.(events := q.events + multiset{Event(at, n)}, scheduled := q.scheduled[n := at])
  }

  function Schedule(s: State, n: Id): State {
    s.(q := Enqueue(s.q, n, s.clock + 1), clock := s.clock + 1)
  }

  /** Signal.emit to the handlers `hs` in order: each is DerivedNode._on_dep_changed. */
  function EmitTo(g: Graph, s: State, hs: seq<Id>): (r: State)
    requires WellFormed(g, s) && forall h | h in hs :: Derived(g, h)
    ensures WellFormed(g, r)
    decreases |hs|
  {
    if hs == [] then s
    else EmitTo(g, OnDepChanged(g, s, hs[0]), hs[1..])
  }

  function OnDepChanged(g: Graph, s: State, n: Id): (r: State)
    requires WellFormed(g, s) && Derived(g, n)
    ensures WellFormed(g, r)
  {
    var s1 := s.(retries := s.retries[n := 0]);
    if IsStale(g, s1.book, n) then Schedule(s1, n) else s1
  }

  function Emit(g: Graph, s: State, d: Id): (r: State)
    requires WellFormed(g, s) && d in Nodes(g)
    ensures WellFormed(g, r)
  {
    EmitTo(g, s, g.dependents[d])
  }

  // ---------------------------------------------------------------- refresh

  /** What a refresh binds in one pass: active dependencies, their attempts, their row stamps. */
  datatype Flight = Flight(node: Id, active: seq<Id>, atts: seq<Attempt>, stamps: map<Id, int>)

  function Bind(g: Graph, b: Book, n: Id): (f: Flight)
    requires WellFormedBook(g, b) && Derived(g, n)
  {
    var ds := Active(g, b.attempt, n);
    Flight(n, ds, ActiveAttempts(g, b.attempt, n), map d | d in ds :: b.meta[d].persistedAt)
  }

  predicate AnyQueued(q: Queue, ds: seq<Id>) {
    exists d | d in ds :: d in q.scheduled
  }

  /** Which branch a refresh takes. */
  datatype Verdict = UpToDate | DependencyFailed | Deferred | Blocked | Ready

  function Judge(g: Graph, s: State, n: Id): Verdict
    requires WellFormed(g, s) && Derived(g, n)
  {
    var f := Bind(g, s.book, n);
    if !IsStale(g, s.book, n) then UpToDate
    else if AnyImpossible(f.atts) then DependencyFailed
    else if AnyQueued(s.q, f.active) then Deferred
    else if AnyPending(f.atts) then Blocked
    else Ready
  }

  /** DerivedNode._persist_status: both clock columns, the bound stamps, and a row. */
  function PersistStatus(g: Graph, s: State, f: Flight): (r: State)
    requires WellFormed(g, s) && Derived(g, f.node)
    ensures WellFormed(g, r)
  {
    var n := f.node;
    var m := Meta(s.clock + 2, s.clock + 1, f.stamps, Some(g.version[n]), s.book.meta[n].retryAt);
    var row := Row(s.book.attempt[n], s.clock + 2, f.stamps, m.version, m.retryAt, Count(s.retries, n));
    s.(book := s.book.(meta := s.book.meta[n := m]), clock := s.clock + 2, rows := s.rows[n := row])
  }

  function SetRetryAt(b: Book, n: Id, due: Option<int>): Book
    requires n in b.meta
  {
    b.(meta := b.meta[n := b.meta[n].(retryAt := due)])
  }

  /** The written half of a completion: attempt, clocks, retry state, row. */
  function Record(g: Graph, s: State, f: Flight, result: Attempt): (r: State)
    requires WellFormed(g, s) && Derived(g, f.node)
    ensures WellFormed(g, r)
  {
    var n := f.node;
    var s1 := s.(book := s.book.(attempt := s.book.attempt[n := result]), clock := s.clock + 1);
    if result.Pending? then PersistStatus(g, s1, f)
    else
      PersistStatus(g, s1.(book := SetRetryAt(s1.book, n, None),
                           retries := if result.Succeeded? then s1.retries[n := 0] else s1.retries), f)
  }

  /** DerivedNode._complete_refresh: a pending result is recorded but not announced. */
  function Complete(g: Graph, s: State, f: Flight, result: Attempt): (r: State)
    requires WellFormed(g, s) && Derived(g, f.node)
    ensures WellFormed(g, r)
  {
    var t := Record(g, s, f, result);
    if result.Pending? then t else Emit(g, t, f.node)
  }

  function Min(a: int, b: int): int {
    if a <= b then a else b
  }

  /** DerivedNode._retry_delay_from: the delay and the new retry count. */
  function RetryDelay(count: int, retryAfter: Option<int>): (int, int) {
    match retryAfter
    case Some(seconds) => (Min(seconds * SECOND, RETRY_AFTER_CAP), count)
    case None => (Min(BASE_DELAY * Power(2, count), BACKOFF_CAP), if count < MAX_RETRIES then count + 1 else count)
  }

  /** The retry decision on a transient failure: the new state, and whether a retry was scheduled. */
  function ScheduleRetry(g: Graph, s: State, n: Id, retryAfter: Option<int>): (r: (State, bool))
    requires WellFormed(g, s) && Derived(g, n)
    ensures WellFormed(g, r.0)
  {
    var (delay, count) := RetryDelay(Count(s.retries, n), retryAfter);
    var s1 := s.(retries := s.retries[n := count]);
    if count >= MAX_RETRIES then (s1, false)
    else
      var due := s.clock + 1 + delay;
      (s1.(book := SetRetryAt(s1.book, n, Some(due)),
           clock := s.clock + 1,
           q := Enqueue(s1.q, n, due)), true)
  }

  /** One call of compute on the bound attempts, with the retry decision on its outcome. */
  function RunCompute(g: Graph, s: State, f: Flight): (r: (State, Attempt))
    requires WellFormed(g, s) && Derived(g, f.node)
    ensures WellFormed(g, r.0)
  {
    var outcome := g.world(f.node, f.atts, s.clock);
    var s1 := s.(calls := s.calls + [Call(f.node, f.atts, outcome)], clock := s.clock + 1);
    match outcome
    case Returned(a) => (s1, a)
    case Transient(e, ra) =>
      var (s2, retrying) := ScheduleRetry(g, s1, f.node, ra);
      (s2, if retrying then Pending else Impossible(e))
  }

  /** The tail of refresh: early cutoff of an identical value, or completion. */
  function Finish(g: Graph, s: State, f: Flight, result: Attempt): (r: State)
    requires WellFormed(g, s) && Derived(g, f.node)
    ensures WellFormed(g, r)
  {
    var n := f.node;
    if result.Succeeded? && s.book.attempt[n].Succeeded? && result.value == s.book.attempt[n].value then
      if f.stamps == s.book.meta[n].depStamps
      then s.(book := s.book.(meta := s.book.meta[n := s.book.meta[n].(version := Some(g.version[n]))]))
      else PersistStatus(g, s, f)
    else Complete(g, s, f, result)
  }

  /** DerivedNode.refresh without suspension. */
  function Refresh(g: Graph, s: State, n: Id): (r: State)
    requires WellFormed(g, s) && Derived(g, n)
    ensures WellFormed(g, r)
  {
    var f := Bind(g, s.book, n);
    match Judge(g, s, n)
    case UpToDate => s
    case DependencyFailed =>
      Complete(g, s.(retries := s.retries[n := 0]), f, Impossible(DepFailed(n, Causes(f.atts))))
    case Deferred => PersistStatus(g, s, f)
    case Blocked => s
    case Ready =>
      var (s1, result) := RunCompute(g, s, f);
      Finish(g, s1, f, result)
  }

  // ------------------------------------------------------------- the drain

  /** The latest event time among the queued ones of `ds`. */
  function LastQueued(q: Queue, ds: seq<Id>): (t: int)
    ensures forall d | d in ds && d in q.scheduled :: q.scheduled[d] <= t
    ensures AnyQueued(q, ds) ==> exists d | d in ds && d in q.scheduled :: q.scheduled[d] == t
  {
    if ds == [] then 0
    else
      var rest := LastQueued(q, ds[1..]);
      assert forall d | d in ds :: d == ds[0] || d in ds[1..];
      if ds[0] in q.scheduled && (rest <= q.scheduled[ds[0]] || !AnyQueued(q, ds[1..])) then q.scheduled[ds[0]]
      else rest
  }

  /** The queue with n put back one microsecond after the last of its queued dependencies. */
  function Requeued(q: Queue, ds: seq<Id>, n: Id): Queue {
    var at := LastQueued(q, ds) + 1;
    Queue(q.events + multiset{Event(at, n)}, q.scheduled[n := at], q.requeues[n := Count(q.requeues, n) + 1])
  }

  function ForgetRequeues(q: Queue, n: Id): Queue {
    q.(requeues := q.requeues - {n})
  }

  /** AsyncRefreshQueue._requeue_after_deps; false when it raises its RuntimeError. */
  function Requeue(g: Graph, s: State, n: Id): (r: (State, bool))
    requires WellFormed(g, s) && Derived(g, n)
    ensures WellFormed(g, r.0)
  {
    var ds := Active(g, s.book.attempt, n);
    if !AnyQueued(s.q, ds) then (s, true)
    else if Count(s.q.requeues, n) + 1 > |g.registered| then (s.(q := ForgetRequeues(s.q, n)), false)
    else (s.(q := Requeued(s.q, ds, n)), true)
  }

  /** The bookkeeping after a refresh (AsyncRefreshQueue._settle_event). */
  function Settle(g: Graph, s: State, n: Id): (r: (State, bool))
    requires WellFormed(g, s) && Derived(g, n)
    ensures WellFormed(g, r.0)
  {
    if s.book.attempt[n].Pending? then Requeue(g, s, n)
    else (s.(q := ForgetRequeues(s.q, n)), true)
  }

  function Take(s: State, e: Event): State {
    s.(q := s.q.(events := s.q.events - multiset{e}, scheduled := s.q.scheduled - {e.node}))
  }

  /** e may be popped next: no queued event is earlier (ties are free). */
  ghost predicate Next(g: Graph, q: Queue, e: Event) {
    e in q.events && Derived(g, e.node) && forall x | x in q.events :: e.at <= x.at
  }

  /** One pop of a drain: the event's node is refreshed and its bookkeeping settled. */
  function Pop(g: Graph, s: State, e: Event): (r: (State, bool))
    requires WellFormed(g, s) && Derived(g, e.node)
    ensures WellFormed(g, r.0)
  {
    Settle(g, Refresh(g, Take(s, e), e.node), e.node)
  }

  /** The stored half of UserInputNode.push / fail: the value and its row. */
  function Store(g: Graph, s: State, x: Id, a: Attempt): (r: State)
    requires WellFormed(g, s) && x in g.inputs
    ensures WellFormed(g, r)
  {
    s.(book := Book(s.book.attempt[x := a], s.book.meta[x := s.book.meta[x].(persistedAt := s.clock + 1)]),
       clock := s.clock + 1,
       rows := s.rows[x := Row(a, s.clock + 1, map[], None, None, 0)])
  }

  /** UserInputNode.push / fail with its queued half: store, then signal. */
  function Write(g: Graph, s: State, x: Id, a: Attempt): (r: State)
    requires WellFormed(g, s) && x in g.inputs
    ensures WellFormed(g, r)
  {
    Emit(g, Store(g, s, x, a), x)
  }

  // ------------------------------------------------------------------ runs

  datatype Action = Push(input: Id, value: Attempt) | Drain(event: Event)

  ghost predicate Enabled(g: Graph, s: State, act: Action) {
    match act
    case Push(x, _) => x in g.inputs
    case Drain(e) => Next(g, s.q, e)
  }

  function Act(g: Graph, s: State, act: Action): (r: (State, bool))
    requires WellFormed(g, s) && Enabled(g, s, act)
    ensures WellFormed(g, r.0)
  {
    match act
    case Push(x, a) => (Write(g, s, x, a), true)
    case Drain(e) => Pop(g, s, e)
  }

  /** `t` is reached from `s` by `acts`; a RuntimeError leaves its state behind and the run goes on. */
  ghost predicate Run(g: Graph, s: State, acts: seq<Action>, t: State)
    requires WellFormed(g, s)
    decreases |acts|
  {
    if acts == [] then s == t
    else Enabled(g, s, acts[0]) && Run(g, Act(g, s, acts[0]).0, acts[1..], t)
  }

  /** A run in which no step raises the requeue error. */
  ghost predicate OkRun(g: Graph, s: State, acts: seq<Action>, t: State)
    requires WellFormed(g, s)
    decreases |acts|
  {
    if acts == [] then s == t
    else Enabled(g, s, acts[0]) && Act(g, s, acts[0]).1 && OkRun(g, Act(g, s, acts[0]).0, acts[1..], t)
  }

  ghost predicate Idle(s: State) {
    s.q.events == multiset{}
  }
}
