// The engine as the program runs it: node objects and one queue object, changed
// in place. Every method is proved to do to the abstract state exactly what its
// function in Engine.dfy does, so every theorem about runs holds of it.
module Runtime {
  import opened Attempts
  import opened DagGraph
  import opened Powers
  import E = Engine
  import opened Actions
  import opened Pops
  import opened Runs
  import opened Termination

  /** The lifecycle fields of a node; the derived-only ones stay unset on inputs. */
  class Node {
    const id: Id
    var attempt: Attempt
    var persistedAt: int
    var computedAt: int
    var depStamps: map<Id, int>
    var version: Option<int>
    var retryAt: Option<int>
    var retryCount: int

    constructor (id: Id)
      ensures this.id == id && attempt == Pending && retryCount == 0
      ensures Bookkeeping() == E.Meta(0, 0, map[], None, None)
    {
      this.id := id;
      attempt, persistedAt, computedAt := Pending, 0, 0;
      depStamps, version, retryAt, retryCount := map[], None, None, 0;
    }

    ghost function Bookkeeping(): E.Meta
      reads this
    {
      E.Meta(persistedAt, computedAt, depStamps, version, retryAt)
    }

    /** The clocks, stamps and code version of a row just written. */
    method Stamp(persistedAt: int, computedAt: int, stamps: map<Id, int>, version: int)
      modifies this
      ensures attempt == old(attempt) && retryCount == old(retryCount)
      ensures Bookkeeping() == E.Meta(persistedAt, computedAt, stamps, Some(version), old(retryAt))
    {
      this.persistedAt, this.computedAt := persistedAt, computedAt;
      this.depStamps, this.version := stamps, Some(version);
    }
  }

  ghost predicate Earliest(events: multiset<E.Event>, e: E.Event) {
    e in events && forall x | x in events :: e.at <= x.at
  }

  lemma WithoutOne(events: seq<E.Event>, i: int)
    requires 0 <= i < |events|
    ensures multiset(events[..i] + events[i + 1..]) == multiset(events) - multiset{events[i]}
    ensures forall x | x in multiset(events) :: x in events
  {
    assert events == events[..i] + [events[i]] + events[i + 1..];
  }

  /** The priority queue with its index of scheduled nodes. */
  class AsyncRefreshQueue {
    var events: seq<E.Event>
    var scheduled: map<Id, int>
    var requeueCounts: map<Id, int>

    ghost function Contents(): E.Queue
      reads this
    {
      E.Queue(multiset(events), scheduled, requeueCounts)
    }

    constructor ()
      ensures Contents() == E.Queue(multiset{}, map[], map[])
    {
      events, scheduled, requeueCounts := [], map[], map[];
    }

    method Enqueue(n: Id, at: int)
      modifies this
      ensures Contents() == E.Enqueue(old(Contents()), n, at)
    {
      if n in scheduled {
        return;
      }
      scheduled := scheduled[n := at];
      events := events + [E.Event(at, n)];
    }

    method FindEarliest() returns (best: int)
      requires events != []
      ensures 0 <= best < |events| && forall k | 0 <= k < |events| :: events[best].at <= events[k].at
    {
      best := 0;
      for i := 1 to |events|
        invariant 0 <= best < i
        invariant forall k | 0 <= k < i :: events[best].at <= events[k].at
      {
        if events[i].at < events[best].at {
          best := i;
        }
      }
    }

    /** The earliest event leaves the queue, and its node the index. */
    method GetNowait() returns (e: E.Event)
      requires events != []
      modifies this
      ensures Earliest(old(Contents()).events, e)
      ensures Contents() == E.Queue(old(Contents()).events - multiset{e}, old(scheduled) - {e.node}, old(requeueCounts))
    {
      var best := FindEarliest();
      e := events[best];
      WithoutOne(events, best);
      events := events[..best] + events[best + 1..];
      scheduled := scheduled - {e.node};
    }

    /** AsyncRefreshQueue.unregister: the entry goes, the event stays. */
    method Unregister(n: Id)
      modifies this
      ensures Contents() == old(Contents()).(scheduled := old(scheduled) - {n})
    {
      scheduled := scheduled - {n};
    }

    method ForgetRequeues(n: Id)
      modifies this
      ensures Contents() == E.ForgetRequeues(old(Contents()), n)
    {
      requeueCounts := requeueCounts - {n};
    }

    /** Is one of the nodes in the queue? */
    method AnyScheduled(ds: seq<Id>) returns (r: bool)
      ensures r <==> E.AnyQueued(Contents(), ds)
    {
      for i := 0 to |ds|
        invariant forall k | 0 <= k < i :: ds[k] !in scheduled
      {
        if ds[i] in scheduled {
          return true;
        }
      }
      return false;
    }

    /** The latest scheduled time among the nodes that are queued. */
    method LastScheduled(ds: seq<Id>) returns (at: int)
      ensures at == E.LastQueued(Contents(), ds)
    {
      var i, found := |ds|, false;
      at := 0;
      while i > 0
        invariant 0 <= i <= |ds|
        invariant at == E.LastQueued(Contents(), ds[i..]) && found == E.AnyQueued(Contents(), ds[i..])
      {
        i := i - 1;
        assert ds[i..][1..] == ds[i + 1..] && ds[i..][0] == ds[i];
        assert E.AnyQueued(Contents(), ds[i..]) <==> ds[i] in scheduled || E.AnyQueued(Contents(), ds[i + 1..]) by {
          assert forall d | d in ds[i..] :: d == ds[i] || d in ds[i + 1..];
        }
        if ds[i] in scheduled {
          if !found || at <= scheduled[ds[i]] {
            at := scheduled[ds[i]];
          }
          found := true;
        }
      }
      assert ds[0..] == ds;
    }

    /** Put n back one microsecond behind its last queued dependency, unless it was put back too often. */
    method RequeueBehind(ds: seq<Id>, n: Id, bound: int) returns (ok: bool)
      requires E.AnyQueued(Contents(), ds)
      modifies this
      ensures ok <==> E.Count(old(Contents()).requeues, n) + 1 <= bound
      ensures Contents() == if ok then E.Requeued(old(Contents()), ds, n) else E.ForgetRequeues(old(Contents()), n)
    {
      var last := LastScheduled(ds);
      var at := last + 1;
      var count := E.Count(requeueCounts, n) + 1;
      if count > bound {
        ForgetRequeues(n);
        return false;
      }
      requeueCounts := requeueCounts[n := count];
      scheduled := scheduled[n := at];
      events := events + [E.Event(at, n)];
      return true;
    }
  }

  /** The retry decision as the two steps the program takes. */
  lemma RetrySplits(g: Graph, s: E.State, n: Id, retryAfter: Option<int>, s1: E.State, t: E.State, scheduled: bool)
    requires E.WellFormed(g, s) && Derived(g, n)
    requires s1 == s.(retries := s.retries[n := E.RetryDelay(E.Count(s.retries, n), retryAfter).1])
    requires scheduled == (E.Count(s1.retries, n) < E.MAX_RETRIES)
    requires t == RetriedIn(s1, n, E.RetryDelay(E.Count(s.retries, n), retryAfter).0, scheduled)
    ensures t == E.ScheduleRetry(g, s, n, retryAfter).0 && scheduled == E.ScheduleRetry(g, s, n, retryAfter).1
  {
  }

  function RetriedIn(s: E.State, n: Id, delay: int, scheduled: bool): E.State
    requires n in s.book.meta
  {
    var due := s.clock + 1 + delay;
    if scheduled then s.(book := E.SetRetryAt(s.book, n, Some(due)), clock := s.clock + 1, q := E.Enqueue(s.q, n, due))
    else s
  }

  /** n is queued for the delay from now, and its bookkeeping says so. */
  ghost predicate DueIn(s: E.State, n: Id, delay: int) {
    && n in s.q.scheduled && s.q.scheduled[n] == s.clock + delay
    && n in s.book.meta && s.book.meta[n].retryAt == Some(s.clock + delay)
  }

  lemma RetriedIsDue(s: E.State, n: Id, delay: int)
    requires n in s.book.meta
    ensures n !in s.q.scheduled ==> DueIn(RetriedIn(s, n, delay, true), n, delay)
  {
  }

  lemma RequeueSplits(g: Graph, s: E.State, n: Id, t: E.State, ok: bool)
    requires E.WellFormed(g, s) && Derived(g, n)
    requires var ds := Active(g, s.book.attempt, n);
      && E.AnyQueued(s.q, ds) && ok == (E.Count(s.q.requeues, n) + 1 <= |g.registered|)
      && t == s.(q := if ok then E.Requeued(s.q, ds, n) else E.ForgetRequeues(s.q, n))
    ensures t == E.Requeue(g, s, n).0 && ok == E.Requeue(g, s, n).1
  {
  }

  /** n's bookkeeping is that of a row written now. */
  function Stamped(s: E.State, n: Id, computedAt: int, stamps: map<Id, int>, version: int): E.State
    requires n in s.book.meta
  {
    var m := E.Meta(s.clock, computedAt, stamps, Some(version), s.book.meta[n].retryAt);
    s.(book := s.book.(meta := s.book.meta[n := m]))
  }

  /** n's row is written now, with these stamps. */
  function Persisted(s: E.State, n: Id, computedAt: int, stamps: map<Id, int>, version: int): E.State
    requires n in s.book.attempt && n in s.book.meta
  {
    var row := E.Row(s.book.attempt[n], s.clock, stamps, Some(version), s.book.meta[n].retryAt, E.Count(s.retries, n));
    Stamped(s, n, computedAt, stamps, version).(rows := s.rows[n := row])
  }

  function PersistedNow(s: E.State, n: Id, stamps: map<Id, int>, version: int): E.State
    requires n in s.book.attempt && n in s.book.meta
  {
    Persisted(s.(clock := s.clock + 2), n, s.clock + 1, stamps, version)
  }

  lemma PersistSplits(g: Graph, s: E.State, f: E.Flight)
    requires E.WellFormed(g, s) && Derived(g, f.node)
    ensures f.node in g.version && f.node in Nodes(g)
    ensures E.PersistStatus(g, s, f) == PersistedNow(s, f.node, f.stamps, g.version[f.node])
  {
  }

  function InputPersisted(s: E.State, x: Id, a: Attempt): E.State
    requires x in s.book.meta
  {
    s.(book := s.book.(meta := s.book.meta[x := s.book.meta[x].(persistedAt := s.clock)]),
       rows := s.rows[x := E.Row(a, s.clock, map[], None, None, 0)])
  }

  lemma StoreSplits(g: Graph, s: E.State, x: Id, a: Attempt)
    requires E.WellFormed(g, s) && x in g.inputs
    ensures E.Store(g, s, x, a)
              == InputPersisted(s.(book := s.book.(attempt := s.book.attempt[x := a]), clock := s.clock + 1), x, a)
  {
  }

  /** The state in which the outcome of a call is settled. */
  function Called(g: Graph, s: E.State, f: E.Flight): E.State {
    s.(calls := s.calls + [E.Call(f.node, f.atts, g.world(f.node, f.atts, s.clock))], clock := s.clock + 1)
  }

  lemma ComputeSplits(g: Graph, s: E.State, f: E.Flight, t: E.State, result: Attempt)
    requires E.WellFormed(g, s) && Derived(g, f.node)
    requires match g.world(f.node, f.atts, s.clock)
             case Returned(a) => t == Called(g, s, f) && result == a
             case Transient(e, retryAfter) =>
               var r := E.ScheduleRetry(g, Called(g, s, f), f.node, retryAfter);
               t == r.0 && result == if r.1 then Pending else Impossible(e)
    ensures t == E.RunCompute(g, s, f).0 && result == E.RunCompute(g, s, f).1
  {
  }

  /** One action leads from s to t; `ok` is false where it raises. */
  ghost predicate Linked(g: Graph, s: E.State, act: E.Action, t: E.State, ok: bool) {
    E.WellFormed(g, s) && E.Enabled(g, s, act) && E.Act(g, s, act) == (t, ok)
  }

  /** The states a drain went through, none of whose pops raised. */
  ghost predicate Trace(g: Graph, states: seq<E.State>, pops: seq<E.Event>)
    decreases |pops|
  {
    && |states| == |pops| + 1
    && (pops != [] ==>
          var last := |pops| - 1;
          && Trace(g, states[..|pops|], pops[..last])
          && Linked(g, states[last], E.Drain(pops[last]), states[|pops|], true))
  }

  /** How many pops of a trace left their node settled. */
  function SettledPops(states: seq<E.State>, pops: seq<E.Event>): int
    requires |states| == |pops| + 1
    decreases |pops|
  {
    if pops == [] then 0
    else
      var last := pops[|pops| - 1].node;
      var held := states[|pops|].book.attempt;
      SettledPops(states[..|pops|], pops[..|pops| - 1]) + if last in held && !held[last].Pending? then 1 else 0
  }

  /** The pops of a trace that left their node with a result. */
  ghost function SettledAt(states: seq<E.State>, pops: seq<E.Event>): set<int>
    requires |states| == |pops| + 1
  {
    set i | 0 <= i < |pops| && pops[i].node in states[i + 1].book.attempt
            && !states[i + 1].book.attempt[pops[i].node].Pending?
  }

  /** The number a drain returns is the number of its pops that left their node with a result. */
  lemma {:induction false} DrainedCountsSettled(states: seq<E.State>, pops: seq<E.Event>)
    requires |states| == |pops| + 1
    ensures SettledPops(states, pops) == |SettledAt(states, pops)|
    decreases |pops|
  {
    if pops != [] {
      var last := |pops| - 1;
      var before := SettledAt(states[..|pops|], pops[..last]);
      DrainedCountsSettled(states[..|pops|], pops[..last]);
      assert SettledAt(states, pops) - {last} == before;
    }
  }

  function Drains(pops: seq<E.Event>): seq<E.Action> {
    seq(|pops|, i requires 0 <= i < |pops| => E.Drain(pops[i]))
  }

  lemma TraceSplits(g: Graph, states: seq<E.State>, pops: seq<E.Event>)
    requires Trace(g, states, pops) && pops != []
    ensures Trace(g, states[..|pops|], pops[..|pops| - 1])
    ensures Linked(g, states[|pops| - 1], E.Drain(pops[|pops| - 1]), states[|pops|], true)
  {
  }

  lemma Unsnoc<T>(s: seq<T>, k: int)
    requires 0 <= k < |s|
    ensures s[..k + 1] == s[..k] + [s[k]] && s[..k + 1][0] == s[0] && s[..k + 1][k] == s[k]
  {
  }

  lemma DrainsSnoc(before: seq<E.Event>, e: E.Event)
    ensures Drains(before + [e]) == Drains(before) + [E.Drain(e)]
  {
  }

  /** A trace is a run of the engine. */
  lemma {:induction false} TraceIsRun(g: Graph, states: seq<E.State>, pops: seq<E.Event>)
    requires Trace(g, states, pops) && E.WellFormed(g, states[0])
    ensures E.OkRun(g, states[0], Drains(pops), states[|pops|])
    decreases |pops|
  {
    if pops != [] {
      var last := |pops| - 1;
      TraceSplits(g, states, pops);
      Unsnoc(states, last);
      Unsnoc(pops, last);
      TraceIsRun(g, states[..|pops|], pops[..last]);
      OkRunThen(g, states[0], Drains(pops[..last]), states[last], E.Drain(pops[last]));
      DrainsSnoc(pops[..last], pops[last]);
      assert pops[..last + 1] == pops;
    }
  }

  /** What a drain that has not raised keeps: its trace leads from `start` to s. */
  ghost predicate Traced(g: Graph, start: E.State, states: seq<E.State>, pops: seq<E.Event>, s: E.State, drained: int) {
    && Trace(g, states, pops) && states[0] == start && states[|pops|] == s
    && drained == SettledPops(states, pops)
  }

  lemma TraceStarts(g: Graph, s: E.State)
    ensures Traced(g, s, [s], [], s, 0)
  {
  }

  lemma TraceGrows(g: Graph, start: E.State, states: seq<E.State>, pops: seq<E.Event>, s: E.State, drained: int,
                   e: E.Event, t: E.State)
    requires Traced(g, start, states, pops, s, drained) && Linked(g, s, E.Drain(e), t, true)
    ensures Traced(g, start, states + [t], pops + [e], t,
                   drained + if e.node in t.book.attempt && !t.book.attempt[e.node].Pending? then 1 else 0)
  {
    var all, evs := states + [t], pops + [e];
    assert all[..|evs|] == states && evs[..|pops|] == pops;
  }

  /** One turn of the drain loop leaves a shorter drain, also where it raised. */
  lemma TurnDescends(k: ORDINAL, g: Graph, s: E.State, e: E.Event, t: E.State) returns (left: ORDINAL)
    requires Steady(g, s) && Halts#[k](g, s) && E.Next(g, s.q, e) && E.Pop(g, s, e).0 == t
    ensures Steady(g, t) && left < k && Halts#[left](g, t)
  {
    left := HaltsSooner(k, g, s, e);
    var refreshed := PopActs(g, s, e);
  }

  lemma EarliestIsNext(g: Graph, q: E.Queue, e: E.Event)
    requires Earliest(q.events, e) && Derived(g, e.node)
    ensures E.Next(g, q, e)
  {
  }

  lemma QueuedAreDerived(g: Graph, s: E.State)
    requires Steady(g, s)
    ensures forall x | x in s.q.events :: Derived(g, x.node)
  {
    forall x | x in s.q.events ensures Derived(g, x.node) {
      assert s.q.events[x] == 1;
    }
  }

  /** One process: its nodes, its queue, the stored rows and the clock, which moves at every reading. */
  class Process {
    const g: Graph
    const nodes: map<Id, Node>
    const all: set<Node>
    const queue: AsyncRefreshQueue
    var clock: int
    var rows: map<Id, E.Row>
    /** The abstract state; Valid ties it to the objects. */
    ghost var state: E.State

    /** A process over fresh nodes that hold what `b` and `retries` say, with nothing queued. */
    constructor (g: Graph, nodes: map<Id, Node>, all: set<Node>, queue: AsyncRefreshQueue, clock: int,
                 rows: map<Id, E.Row>, ghost b: E.Book, ghost retries: map<Id, int>)
      requires Shaped(g, nodes, all) && E.WellFormedBook(g, b)
      requires forall n | n in nodes :: Holds(nodes[n], b, retries)
      ensures Valid() && this.g == g && this.nodes == nodes && this.all == all && this.queue == queue
      ensures state == E.State(b, retries, queue.Contents(), clock, rows, [])
    {
      this.g, this.nodes, this.all, this.queue := g, nodes, all, queue;
      this.clock, this.rows := clock, rows;
      this.state := E.State(b, retries, queue.Contents(), clock, rows, []);
    }

    static ghost predicate Shaped(g: Graph, nodes: map<Id, Node>, all: set<Node>) {
      && DagGraph.Valid(g)
      && nodes.Keys == Nodes(g)
      && forall n | n in nodes :: nodes[n].id == n && nodes[n] in all
    }

    /** The object holds what the maps say of its node. */
    static ghost predicate Holds(node: Node, b: E.Book, retries: map<Id, int>)
      reads node
    {
      && node.id in b.attempt && node.id in b.meta
      && node.attempt == b.attempt[node.id]
      && node.Bookkeeping() == b.meta[node.id]
      && node.retryCount == E.Count(retries, node.id)
    }

    ghost predicate Valid()
      reads this, queue, all
    {
      && Shaped(g, nodes, all) && E.WellFormed(g, state)
      && (forall n {:trigger nodes[n]} | n in nodes :: Holds(nodes[n], state.book, state.retries))
      && queue.Contents() == state.q && clock == state.clock && rows == state.rows
    }

    // ------------------------------------------------------------ staleness

    /** The attempts of the nodes `ds`, read one by one. */
    method ReadAttempts(ds: seq<Id>) returns (atts: seq<Attempt>)
      requires Valid() && forall d | d in ds :: d in nodes
      ensures atts == AttemptsOf(state.book.attempt, ds)
    {
      atts := [];
      for i := 0 to |ds|
        invariant |atts| == i && forall k | 0 <= k < i :: atts[k] == state.book.attempt[ds[k]]
      {
        atts := atts + [nodes[ds[i]].attempt];
      }
    }

    /** DerivedNode._get_active_deps. */
    method ActiveDeps(n: Id) returns (ds: seq<Id>)
      requires Valid() && Derived(g, n)
      ensures ds == Active(g, state.book.attempt, n) && forall d | d in ds :: d in nodes
    {
      assert forall d | d in g.fixed[n] :: Edge(g, n, d);
      var conditions := ReadAttempts(g.fixed[n]);
      ds := g.fixed[n] + g.choose(n, conditions);
      assert forall d | d in ds :: Edge(g, n, d);
    }

    method HasMoved(n: Id, d: Id) returns (r: bool)
      requires Valid() && Derived(g, n) && d in nodes
      ensures r == E.Moved(g, state.book, n, d)
    {
      var own, dep := nodes[n], nodes[d];
      if own.computedAt != 0 && dep.persistedAt > own.computedAt {
        return true;
      }
      if d in g.fixed && own.computedAt != 0 && dep.computedAt > own.computedAt {
        return true;
      }
      var stored := if d in own.depStamps then own.depStamps[d] else 0;
      return stored != 0 && dep.persistedAt != 0 && dep.persistedAt != stored;
    }

    /** DerivedNode._is_stale. */
    method NeedsRefresh(n: Id) returns (r: bool)
      requires Valid() && Derived(g, n)
      ensures r == E.IsStale(g, state.book, n)
    {
      var node := nodes[n];
      if node.version.Some? && node.version.value != g.version[n] {
        return true;
      }
      if node.retryAt.Some? || node.attempt.Pending? {
        return true;
      }
      var ds := ActiveDeps(n);
      r := AnyMoved(n, ds);
    }

    method AnyMoved(n: Id, ds: seq<Id>) returns (r: bool)
      requires Valid() && Derived(g, n) && forall d | d in ds :: d in nodes
      ensures r <==> exists d | d in ds :: E.Moved(g, state.book, n, d)
    {
      for i := 0 to |ds|
        invariant forall k | 0 <= k < i :: !E.Moved(g, state.book, n, ds[k])
      {
        var moved := HasMoved(n, ds[i]);
        if moved {
          return true;
        }
      }
      return false;
    }

    // ------------------------------------------- one part of the state moves

    method SetAttempt(n: Id, a: Attempt)
      requires Valid() && n in nodes
      modifies nodes[n], `state
      ensures Valid()
      ensures state == old(state).(book := old(state).book.(attempt := old(state).book.attempt[n := a]))
    {
      nodes[n].attempt := a;
      state := state.(book := state.book.(attempt := state.book.attempt[n := a]));
    }

    method SetRetryCount(n: Id, count: int)
      requires Valid() && n in nodes
      modifies nodes[n], `state
      ensures Valid() && state == old(state).(retries := old(state).retries[n := count])
    {
      nodes[n].retryCount := count;
      state := state.(retries := state.retries[n := count]);
    }

    method SetRetryAt(n: Id, due: Option<int>)
      requires Valid() && n in nodes
      modifies nodes[n], `state
      ensures Valid() && state == old(state).(book := E.SetRetryAt(old(state).book, n, due))
    {
      nodes[n].retryAt := due;
      state := state.(book := E.SetRetryAt(state.book, n, due));
    }

    method SetPersistedAt(n: Id, at: int)
      requires Valid() && n in nodes
      modifies nodes[n], `state
      ensures Valid()
      ensures var b := old(state).book;
              state == old(state).(book := b.(meta := b.meta[n := b.meta[n].(persistedAt := at)]))
    {
      nodes[n].persistedAt := at;
      var b := state.book;
      state := state.(book := b.(meta := b.meta[n := b.meta[n].(persistedAt := at)]));
    }

    method StoreRow(n: Id, row: E.Row)
      requires Valid()
      modifies `rows, `state
      ensures Valid() && state == old(state).(rows := old(state).rows[n := row])
    {
      rows := rows[n := row];
      state := state.(rows := rows);
    }

    method SetVersion(n: Id, version: int)
      requires Valid() && n in nodes
      modifies nodes[n], `state
      ensures Valid()
      ensures var b := old(state).book;
              state == old(state).(book := b.(meta := b.meta[n := b.meta[n].(version := Some(version))]))
    {
      nodes[n].version := Some(version);
      var b := state.book;
      state := state.(book := b.(meta := b.meta[n := b.meta[n].(version := Some(version))]));
    }

    /** One reading of the clock. */
    method Tick()
      requires Valid()
      modifies `clock, `state
      ensures Valid() && state == old(state).(clock := old(state).clock + 1)
    {
      clock := clock + 1;
      state := state.(clock := clock);
    }

    /** PersistedNodeMixin._persist: n's clocks, stamps and code version, and its row. */
    method Persist(n: Id, computedAt: int, stamps: map<Id, int>, version: int)
      requires Valid() && n in nodes
      modifies nodes[n], `rows, `state
      ensures Valid() && state == Persisted(old(state), n, computedAt, stamps, version)
    {
      var node := nodes[n];
      var row := E.Row(node.attempt, clock, stamps, Some(version), node.retryAt, node.retryCount);
      StampNode(n, computedAt, stamps, version);
      StoreRow(n, row);
    }

    /** The half of a row that the node keeps. */
    method StampNode(n: Id, computedAt: int, stamps: map<Id, int>, version: int)
      requires Valid() && n in nodes
      modifies nodes[n], `state
      ensures Valid() && state == Stamped(old(state), n, computedAt, stamps, version)
    {
      nodes[n].Stamp(clock, computedAt, stamps, version);
      state := Stamped(state, n, computedAt, stamps, version);
    }

    method Enqueue(n: Id, at: int)
      requires Valid()
      modifies queue, `state
      ensures Valid() && state == old(state).(q := E.Enqueue(old(state).q, n, at))
    {
      queue.Enqueue(n, at);
      state := state.(q := queue.Contents());
    }

    // ------------------------------------------------------------- the queue

    method Schedule(n: Id)
      requires Valid()
      modifies this, queue
      ensures Valid() && state == E.Schedule(old(state), n)
    {
      Tick();
      Enqueue(n, clock);
    }

    /** DerivedNode._on_dep_changed. */
    method OnDepChanged(n: Id)
      requires Valid() && Derived(g, n)
      modifies this, queue, all
      ensures Valid() && state == E.OnDepChanged(g, old(state), n)
    {
      SetRetryCount(n, 0);
      var stale := NeedsRefresh(n);
      if stale {
        Schedule(n);
      }
    }

    /** Signal.emit: every handler in connection order. */
    method Emit(d: Id)
      requires Valid() && d in nodes
      modifies this, queue, all
      ensures Valid() && state == E.Emit(g, old(state), d)
    {
      var handlers := g.dependents[d];
      DependentsAreDerived(g, d);
      for i := 0 to |handlers|
        invariant Valid() && E.EmitTo(g, state, handlers[i..]) == E.Emit(g, old(state), d)
      {
        assert handlers[i..][0] == handlers[i] && handlers[i..][1..] == handlers[i + 1..];
        OnDepChanged(handlers[i]);
      }
      assert handlers[|handlers|..] == [];
    }

    // ---------------------------------------------------------------- refresh

    /** The row stamps of the nodes `ds`. */
    method ReadStamps(ds: seq<Id>) returns (stamps: map<Id, int>)
      requires Valid() && forall d | d in ds :: d in nodes
      ensures stamps == map d | d in ds :: state.book.meta[d].persistedAt
    {
      stamps := map[];
      for i := 0 to |ds|
        invariant forall d :: d in stamps <==> d in ds[..i]
        invariant forall d | d in stamps :: stamps[d] == state.book.meta[d].persistedAt
      {
        assert ds[..i + 1] == ds[..i] + [ds[i]];
        stamps := stamps[ds[i] := nodes[ds[i]].persistedAt];
      }
      assert ds[..|ds|] == ds;
    }

    /** One pass over the active dependencies: attempts and stamps together. */
    method Bind(n: Id) returns (f: E.Flight)
      requires Valid() && Derived(g, n)
      ensures f == E.Bind(g, state.book, n) && forall d | d in f.active :: d in nodes
    {
      var ds := ActiveDeps(n);
      var atts := ReadAttempts(ds);
      var stamps := ReadStamps(ds);
      f := E.Flight(n, ds, atts, stamps);
    }

    /** DerivedNode._persist_status. */
    method PersistStatus(f: E.Flight)
      requires Valid() && Derived(g, f.node)
      modifies this, all
      ensures Valid() && state == E.PersistStatus(g, old(state), f)
    {
      PersistSplits(g, state, f);
      PersistNow(f.node, f.stamps, g.version[f.node]);
    }

    /** Both clocks are read, then the row is written. */
    method PersistNow(n: Id, stamps: map<Id, int>, version: int)
      requires Valid() && n in nodes
      modifies nodes[n], `clock, `rows, `state
      ensures Valid() && state == PersistedNow(old(state), n, stamps, version)
    {
      var computedAt := ReadClocks();
      Persist(n, computedAt, stamps, version);
    }

    /** The compute time, then the time of the row. */
    method ReadClocks() returns (computedAt: int)
      requires Valid()
      modifies `clock, `state
      ensures Valid() && computedAt == old(state).clock + 1
      ensures state == old(state).(clock := old(state).clock + 2)
    {
      Tick();
      computedAt := clock;
      Tick();
    }

    /** DerivedNode._complete_refresh. */
    method CompleteRefresh(f: E.Flight, result: Attempt)
      requires Valid() && Derived(g, f.node)
      modifies this, queue, all
      ensures Valid() && state == E.Complete(g, old(state), f, result)
    {
      var n := f.node;
      SetAttempt(n, result);
      Tick();
      if result.Pending? {
        PersistStatus(f);
        return;
      }
      SetRetryAt(n, None);
      if result.Succeeded? {
        SetRetryCount(n, 0);
      }
      PersistStatus(f);
      Emit(n);
    }

    /** DerivedNode._retry_delay_from: the delay, and one more retry on the node's counter. */
    method RetryDelayFrom(n: Id, retryAfter: Option<int>) returns (delay: int)
      requires Valid() && n in nodes
      modifies nodes[n], `state
      ensures Valid()
      ensures var chosen := E.RetryDelay(E.Count(old(state).retries, n), retryAfter);
              delay == chosen.0 && state == old(state).(retries := old(state).retries[n := chosen.1])
    {
      var count := nodes[n].retryCount;
      match retryAfter
      case Some(seconds) =>
        delay := E.Min(seconds * E.SECOND, E.RETRY_AFTER_CAP);
        SetRetryCount(n, count);
      case None =>
        delay := E.Min(E.BASE_DELAY * Power(2, count), E.BACKOFF_CAP);
        SetRetryCount(n, if count < E.MAX_RETRIES then count + 1 else count);
    }

    /** The time of the retry, noted on the node. */
    method ReadyAgainIn(n: Id, delay: int) returns (due: int)
      requires Valid() && n in nodes
      modifies `clock, `state, nodes[n]
      ensures Valid() && due == old(state).clock + 1 + delay
      ensures state == old(state).(book := E.SetRetryAt(old(state).book, n, Some(due)), clock := old(state).clock + 1)
    {
      Tick();
      due := clock + delay;
      SetRetryAt(n, Some(due));
    }

    /** DerivedNode.schedule_retry, false when the retries are used up. */
    method ScheduleRetryIn(n: Id, delay: int) returns (scheduled: bool)
      requires Valid() && n in nodes
      modifies this, queue, nodes[n]
      ensures Valid() && scheduled == (E.Count(old(state).retries, n) < E.MAX_RETRIES)
      ensures state == RetriedIn(old(state), n, delay, scheduled)
      ensures scheduled && n !in old(state).q.scheduled ==> DueIn(state, n, delay)
    {
      RetriedIsDue(state, n, delay);
      if nodes[n].retryCount >= E.MAX_RETRIES {
        return false;
      }
      QueueRetry(n, delay);
      return true;
    }

    method QueueRetry(n: Id, delay: int)
      requires Valid() && n in nodes
      modifies `clock, `state, queue, nodes[n]
      ensures Valid() && state == RetriedIn(old(state), n, delay, true)
    {
      var due := ReadyAgainIn(n, delay);
      Enqueue(n, due);
    }

    /** The retry decision on one transient failure. */
    method ScheduleRetry(n: Id, retryAfter: Option<int>) returns (scheduled: bool)
      requires Valid() && Derived(g, n)
      modifies this, queue, nodes[n]
      ensures Valid()
      ensures state == E.ScheduleRetry(g, old(state), n, retryAfter).0
      ensures scheduled == E.ScheduleRetry(g, old(state), n, retryAfter).1
    {
      var delay := RetryDelayFrom(n, retryAfter);
      ghost var counted := state;
      scheduled := ScheduleRetryIn(n, delay);
      RetrySplits(g, old(state), n, retryAfter, counted, state, scheduled);
    }

    method CallCompute(f: E.Flight) returns (outcome: Outcome)
      requires Valid()
      modifies `clock, `state
      ensures Valid() && state == Called(g, old(state), f) && outcome == g.world(f.node, f.atts, old(state).clock)
    {
      outcome := g.world(f.node, f.atts, clock);
      state := state.(calls := state.calls + [E.Call(f.node, f.atts, outcome)]);
      Tick();
    }

    /** DerivedNode._compute_attempt, with the retry of a returned retryable failure. */
    method ComputeAttempt(f: E.Flight) returns (result: Attempt)
      requires Valid() && Derived(g, f.node)
      modifies this, queue, all
      ensures Valid()
      ensures state == E.RunCompute(g, old(state), f).0 && result == E.RunCompute(g, old(state), f).1
    {
      var outcome := CallCompute(f);
      match outcome {
        case Returned(a) =>
          result := a;
        case Transient(e, retryAfter) =>
          var retrying := ScheduleRetry(f.node, retryAfter);
          result := if retrying then Pending else Impossible(e);
      }
      ComputeSplits(g, old(state), f, state, result);
    }

    /** The tail of refresh: an identical value is cut off, anything else completes. */
    method Finish(f: E.Flight, result: Attempt)
      requires Valid() && Derived(g, f.node)
      modifies this, queue, all
      ensures Valid() && state == E.Finish(g, old(state), f, result)
    {
      var n := f.node;
      var held := nodes[n].attempt;
      if result.Succeeded? && held.Succeeded? && result.value == held.value {
        if f.stamps == nodes[n].depStamps {
          SetVersion(n, g.version[n]);
        } else {
          PersistStatus(f);
        }
        return;
      }
      CompleteRefresh(f, result);
    }

    method RefreshReady(f: E.Flight)
      requires Valid() && Derived(g, f.node)
      modifies this, queue, all
      ensures Valid()
      ensures var ran := E.RunCompute(g, old(state), f); state == E.Finish(g, ran.0, f, ran.1)
    {
      var result := ComputeAttempt(f);
      Finish(f, result);
    }

    method RefreshFailed(f: E.Flight)
      requires Valid() && Derived(g, f.node)
      modifies this, queue, all
      ensures Valid()
      ensures var s := old(state).(retries := old(state).retries[f.node := 0]);
              state == E.Complete(g, s, f, Impossible(DepFailed(f.node, Causes(f.atts))))
    {
      SetRetryCount(f.node, 0);
      CompleteRefresh(f, Impossible(DepFailed(f.node, Causes(f.atts))));
    }

    /** DerivedNode.refresh. */
    method Refresh(n: Id)
      requires Valid() && Derived(g, n)
      modifies this, queue, all
      ensures Valid() && state == E.Refresh(g, old(state), n)
    {
      var f := Bind(n);
      var verdict := Judge(f);
      match verdict
      case UpToDate =>
      case DependencyFailed => RefreshFailed(f);
      case Deferred => PersistStatus(f);
      case Blocked =>
      case Ready => RefreshReady(f);
    }

    /** The tests of refresh, in its order. */
    method Judge(f: E.Flight) returns (verdict: E.Verdict)
      requires Valid() && Derived(g, f.node) && f == E.Bind(g, state.book, f.node)
      ensures verdict == E.Judge(g, state, f.node)
    {
      var stale := NeedsRefresh(f.node);
      if !stale {
        return E.UpToDate;
      }
      if AnyImpossible(f.atts) {
        return E.DependencyFailed;
      }
      var queued := queue.AnyScheduled(f.active);
      if queued {
        return E.Deferred;
      }
      return if AnyPending(f.atts) then E.Blocked else E.Ready;
    }

    // -------------------------------------------------------------- the drain

    /** AsyncRefreshQueue._requeue_after_deps; false where it raises. */
    method RequeueAfterDeps(n: Id) returns (ok: bool)
      requires Valid() && Derived(g, n)
      modifies this, queue
      ensures Valid() && state == E.Requeue(g, old(state), n).0 && ok == E.Requeue(g, old(state), n).1
    {
      var ds := ActiveDeps(n);
      var queued := queue.AnyScheduled(ds);
      if !queued {
        return true;
      }
      ok := PutBack(ds, n);
      RequeueSplits(g, old(state), n, state, ok);
    }

    method PutBack(ds: seq<Id>, n: Id) returns (ok: bool)
      requires Valid() && E.AnyQueued(state.q, ds)
      modifies `state, queue
      ensures Valid() && ok == (E.Count(old(state).q.requeues, n) + 1 <= |g.registered|)
      ensures var q := old(state).q;
              state == old(state).(q := if ok then E.Requeued(q, ds, n) else E.ForgetRequeues(q, n))
    {
      ok := queue.RequeueBehind(ds, n, |g.registered|);
      state := state.(q := queue.Contents());
    }

    method Forget(n: Id)
      requires Valid()
      modifies `state, queue
      ensures Valid() && state == old(state).(q := E.ForgetRequeues(old(state).q, n))
    {
      queue.ForgetRequeues(n);
      state := state.(q := queue.Contents());
    }

    /** The bookkeeping after a refresh. */
    method Settle(n: Id) returns (ok: bool)
      requires Valid() && Derived(g, n)
      modifies this, queue
      ensures Valid() && state == E.Settle(g, old(state), n).0 && ok == E.Settle(g, old(state), n).1
    {
      if nodes[n].attempt.Pending? {
        ok := RequeueAfterDeps(n);
      } else {
        Forget(n);
        ok := true;
      }
    }

    method TakeEarliest() returns (e: E.Event)
      requires Valid() && queue.events != []
      modifies `state, queue
      ensures Valid() && Earliest(old(state).q.events, e) && state == E.Take(old(state), e)
    {
      e := queue.GetNowait();
      state := state.(q := queue.Contents());
    }

    /** One pop of the drain loop; `ok` is false where it raises. */
    method Step() returns (e: E.Event, ok: bool)
      requires Valid() && queue.events != [] && forall x | x in state.q.events :: Derived(g, x.node)
      modifies this, queue, all
      ensures Valid() && E.Next(g, old(state).q, e)
      ensures state == E.Pop(g, old(state), e).0 && ok == E.Pop(g, old(state), e).1
    {
      e := TakeEarliest();
      EarliestIsNext(g, old(state).q, e);
      Refresh(e.node);
      ok := Settle(e.node);
    }

    /** One turn of the drain loop; what is left of the drain is shorter. */
    method Turn(ghost k: ORDINAL) returns (e: E.Event, raised: bool, ghost left: ORDINAL)
      requires Valid() && queue.events != [] && Steady(g, state) && Halts#[k](g, state)
      modifies this, queue, all
      ensures Valid() && Steady(g, state) && Derived(g, e.node)
      ensures Linked(g, old(state), E.Drain(e), state, !raised)
      ensures left < k && Halts#[left](g, state)
    {
      QueuedAreDerived(g, state);
      var ok;
      e, ok := Step();
      raised := !ok;
      left := TurnDescends(k, g, old(state), e, state);
    }

    /**
     * AsyncRefreshQueue.process_pending without respect for time. It returns
     * from every state whose drains halt. `pops` and `states` are what it did,
     * `drained` how many pops settled their node; `raised` is its RuntimeError,
     * whose pop is the last one.
     */
    method ProcessPending() returns (drained: int, raised: bool, ghost pops: seq<E.Event>, ghost states: seq<E.State>)
      requires Valid() && Steady(g, state) && Halts(g, state)
      modifies this, queue, all
      ensures Valid() && Steady(g, state) && Halts(g, state)
      ensures !raised ==> Traced(g, old(state), states, pops, state, drained) && E.Idle(state)
      ensures raised ==> exists s, e ::
                Traced(g, old(state), states, pops, s, drained) && Linked(g, s, E.Drain(e), state, false)
    {
      drained, raised, pops, states := 0, false, [], [state];
      TraceStarts(g, state);
      ghost var left := HaltsAtSome(g, state);
      while queue.events != []
        invariant Valid() && Steady(g, state) && Halts#[left](g, state)
        invariant Traced(g, old(state), states, pops, state, drained)
        decreases left
      {
        var e;
        ghost var before := state;
        e, raised, left := Turn(left);
        if raised {
          return;
        }
        TraceGrows(g, old(state), states, pops, before, drained, e, state);
        pops, states := pops + [e], states + [state];
        if !nodes[e.node].attempt.Pending? {
          drained := drained + 1;
        }
      }
    }

    /** UserInputNode.push and fail, with their queued half. */
    method Push(x: Id, a: Attempt)
      requires Valid() && x in g.inputs
      modifies this, queue, all
      ensures Valid() && state == E.Write(g, old(state), x, a)
    {
      StoreInput(x, a);
      Emit(x);
    }

    /** The value, its time and its row, which states no dependencies. */
    method StoreInput(x: Id, a: Attempt)
      requires Valid() && x in g.inputs && x in nodes
      modifies nodes[x], `clock, `rows, `state
      ensures Valid() && state == E.Store(g, old(state), x, a)
    {
      ghost var start := state;
      AssignInput(x, a);
      PersistInput(x, a);
      StoreSplits(g, start, x, a);
    }

    method AssignInput(x: Id, a: Attempt)
      requires Valid() && x in nodes
      modifies nodes[x], `clock, `state
      ensures Valid()
      ensures var s := old(state);
              state == s.(book := s.book.(attempt := s.book.attempt[x := a]), clock := s.clock + 1)
    {
      SetAttempt(x, a);
      Tick();
    }

    method PersistInput(x: Id, a: Attempt)
      requires Valid() && x in nodes
      modifies nodes[x], `rows, `state
      ensures Valid() && state == InputPersisted(old(state), x, a)
    {
      SetPersistedAt(x, clock);
      StoreRow(x, E.Row(a, clock, map[], None, None, 0));
    }
  }
}
