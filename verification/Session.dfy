// A session of the program: load every node from its latest row, register the
// derived ones, then push and drain.
module Session {
  import opened Attempts
  import opened DagGraph
  import E = Engine
  import opened Pops
  import opened Scratch
  import opened Honesty
  import opened Termination
  import opened FirstFill
  import opened Restart
  import opened Start
  import opened Inputs
  import opened Lifecycle
  import opened Runs
  import opened Runtime

  /** The node objects built so far hold what their rows say. */
  ghost predicate Loaded(g: Graph, rows: map<Id, E.Row>, nodes: map<Id, Node>, all: set<Node>)
    requires Valid(g)
    reads all
  {
    forall n | n in nodes :: n in Nodes(g) && nodes[n].id == n && nodes[n] in all && HoldsLoaded(g, rows, nodes[n])
  }

  ghost predicate HoldsLoaded(g: Graph, rows: map<Id, E.Row>, node: Node)
    requires Valid(g)
    reads node
  {
    && node.id in Nodes(g)
    && Process.Holds(node, Reload(g, rows), RestoredRetries(g, rows))
  }

  /** One node's construction from its latest row (PersistedNodeMixin._load_attempt_from_db). */
  method Load(g: Graph, rows: map<Id, E.Row>, n: Id) returns (node: Node)
    requires Valid(g) && n in Nodes(g)
    ensures fresh(node) && node.id == n && HoldsLoaded(g, rows, node)
  {
    node := new Node(n);
    if n in rows {
      var r := rows[n];
      node.attempt := r.attempt;
      node.Stamp(r.stamp, r.stamp, r.depStamps, if r.version.Some? then r.version.value else 0);
      if r.attempt.Pending? {
        node.retryAt := r.retryAt;
        if r.retryAt.Some? && n in g.fixed {
          node.retryCount := r.retryCount;
        }
      }
    }
  }

  method LoadAll(g: Graph, rows: map<Id, E.Row>) returns (nodes: map<Id, Node>, all: set<Node>)
    requires Valid(g)
    ensures fresh(all) && nodes.Keys == Nodes(g) && Loaded(g, rows, nodes, all)
  {
    nodes, all := map[], {};
    var rest := Nodes(g);
    while rest != {}
      invariant rest <= Nodes(g) && nodes.Keys == Nodes(g) - rest
      invariant fresh(all) && Loaded(g, rows, nodes, all)
      decreases rest
    {
      var n :| n in rest;
      var node := Load(g, rows, n);
      nodes, all, rest := nodes[n := node], all + {node}, rest - {n};
    }
  }

  /** AsyncRefreshQueue.register: at the stored retry time, or at once if the node needs work. */
  method RegisterNode(p: Process, n: Id)
    requires p.Valid() && Derived(p.g, n)
    modifies p, p.queue
    ensures p.Valid() && p.state == Register(p.g, old(p.state), n)
  {
    RegisterCases(p.g, p.state, n);
    if n in p.queue.scheduled {
      return;
    }
    var due := p.nodes[n].retryAt;
    if due.Some? && due.value > p.clock {
      p.Enqueue(n, due.value);
      return;
    }
    var needed := NeedsWork(p, n);
    if needed {
      p.Schedule(n);
    }
  }

  method NeedsWork(p: Process, n: Id) returns (r: bool)
    requires p.Valid() && Derived(p.g, n)
    ensures r == (p.state.book.attempt[n].Pending? || E.IsStale(p.g, p.state.book, n))
  {
    r := p.NeedsRefresh(n);
    r := r || p.nodes[n].attempt.Pending?;
  }

  lemma RegisterCases(g: Graph, s: E.State, n: Id)
    requires E.WellFormed(g, s) && Derived(g, n)
    ensures var due := s.book.meta[n].retryAt;
      && (n in s.q.scheduled ==> Register(g, s, n) == s)
      && (n !in s.q.scheduled && due.Some? && due.value > s.clock ==>
            Register(g, s, n) == s.(q := E.Enqueue(s.q, n, due.value)))
      && (n !in s.q.scheduled && !(due.Some? && due.value > s.clock) ==>
            Register(g, s, n) == if s.book.attempt[n].Pending? || E.IsStale(g, s.book, n) then E.Schedule(s, n) else s)
  {
  }

  /** A process start: on these rows it comes up in exactly the state the restart theorems speak of. */
  method StartProcess(g: Graph, rows: map<Id, E.Row>, clock: int) returns (p: Process)
    requires Valid(g)
    ensures fresh(p) && fresh(p.queue) && fresh(p.all) && p.g == g
    ensures p.Valid() && p.state == Boot(g, rows, clock)
  {
    var nodes, all := LoadAll(g, rows);
    var queue := new AsyncRefreshQueue();
    p := new Process(g, nodes, all, queue, clock, rows, Reload(g, rows), RestoredRetries(g, rows));
    for i := 0 to |g.registered|
      invariant forall n | n in g.registered[i..] :: Derived(g, n)
      invariant p.Valid() && RegisterAll(g, p.state, g.registered[i..]) == Boot(g, rows, clock)
    {
      assert g.registered[i..][0] == g.registered[i] && g.registered[i..][1..] == g.registered[i + 1..];
      assert g.registered[i] in g.registered;
      RegisterNode(p, g.registered[i]);
    }
  }

  // -------------------------------------------------------- whole sessions

  function Pushes(values: seq<(Id, Attempt)>): seq<E.Action> {
    seq(|values|, i requires 0 <= i < |values| => E.Push(values[i].0, values[i].1))
  }

  lemma PushesSnoc(values: seq<(Id, Attempt)>, i: int)
    requires 0 <= i < |values|
    ensures Pushes(values[..i + 1]) == Pushes(values[..i]) + [E.Push(values[i].0, values[i].1)]
  {
  }

  /** A drain that raised is a run that raises. */
  lemma RaisedIsARun(g: Graph, start: E.State, states: seq<E.State>, pops: seq<E.Event>, s: E.State, drained: int,
                     e: E.Event, t: E.State)
    requires E.WellFormed(g, start) && Traced(g, start, states, pops, s, drained) && Linked(g, s, E.Drain(e), t, false)
    ensures E.Run(g, start, Drains(pops + [e]), t) && !E.OkRun(g, start, Drains(pops + [e]), t)
  {
    TraceIsRun(g, states, pops);
    OkRunIsRun(g, start, Drains(pops), s);
    RunThen(g, start, Drains(pops), s, E.Drain(e));
    RaisesAtLast(g, start, Drains(pops), s, E.Drain(e), t);
    DrainsSnoc(pops, e);
  }

  /** What the drain loop says where it raised. */
  ghost predicate RaisedFrom(g: Graph, start: E.State, states: seq<E.State>, pops: seq<E.Event>, drained: int,
                             t: E.State) {
    exists s, e :: Traced(g, start, states, pops, s, drained) && Linked(g, s, E.Drain(e), t, false)
  }

  /** Nothing is pending, and every node is vouched for. */
  ghost predicate Ready(g: Graph, s: E.State) {
    Steady(g, s) && AllSet(g, s.book) && AllVouched(g, s) && Counted(s)
  }

  /** A drain of a graph with nothing pending does not raise, and what it leaves is vouched for. */
  lemma VouchedDrain(g: Graph, start: E.State, states: seq<E.State>, pops: seq<E.Event>, drained: int, t: E.State,
                     raised: bool)
    requires Ready(g, start) && Answering(g)
    requires raised ==> RaisedFrom(g, start, states, pops, drained, t)
    requires !raised ==> Traced(g, start, states, pops, t, drained) && E.Idle(t)
    ensures !raised && Ready(g, t)
    ensures forall n | Derived(g, n) :: E.IsStale(g, t.book, n) || Consistent(g, t.book.attempt, n)
  {
    VouchedIsNotRaised(g, start, states, pops, drained, t);
    assert !raised;
    VouchedDrained(g, start, states, pops, drained, t);
  }

  lemma VouchedDrained(g: Graph, start: E.State, states: seq<E.State>, pops: seq<E.Event>, drained: int, t: E.State)
    requires Ready(g, start) && Answering(g) && Traced(g, start, states, pops, t, drained) && E.Idle(t)
    ensures Ready(g, t)
    ensures forall n | Derived(g, n) :: E.IsStale(g, t.book, n) || Consistent(g, t.book.attempt, n)
  {
    DrainedRun(g, start, states, pops, drained, t);
    DrainsPushNothing(pops);
    DrainLeaves(g, start, Drains(pops), t);
  }

  lemma DrainsPushNothing(pops: seq<E.Event>)
    ensures SetPushes(Drains(pops)) && OnlyDrains(Drains(pops))
  {
  }

  lemma DrainedRun(g: Graph, start: E.State, states: seq<E.State>, pops: seq<E.Event>, drained: int, t: E.State)
    requires E.WellFormed(g, start) && Traced(g, start, states, pops, t, drained)
    ensures E.OkRun(g, start, Drains(pops), t) && E.Run(g, start, Drains(pops), t)
  {
    TraceIsRun(g, states, pops);
    OkRunIsRun(g, start, Drains(pops), t);
  }

  /** The run behind a raised drain. */
  lemma RaisedRun(g: Graph, start: E.State, states: seq<E.State>, pops: seq<E.Event>, drained: int, t: E.State)
    returns (all: seq<E.Event>)
    requires E.WellFormed(g, start) && RaisedFrom(g, start, states, pops, drained, t)
    ensures E.Run(g, start, Drains(all), t) && !E.OkRun(g, start, Drains(all), t)
  {
    var s, e :| Traced(g, start, states, pops, s, drained) && Linked(g, s, E.Drain(e), t, false);
    RaisedIsARun(g, start, states, pops, s, drained, e, t);
    all := pops + [e];
  }

  lemma VouchedIsNotRaised(g: Graph, start: E.State, states: seq<E.State>, pops: seq<E.Event>, drained: int, t: E.State)
    requires Ready(g, start) && Answering(g)
    ensures !RaisedFrom(g, start, states, pops, drained, t)
  {
    if RaisedFrom(g, start, states, pops, drained, t) {
      var all := RaisedRun(g, start, states, pops, drained, t);
      DrainsPushNothing(all);
      RunStaysVouched(g, start, Drains(all), t);
    }
  }

  lemma FillIsNotRaised(g: Graph, f: (Id, seq<Attempt>) -> Attempt, start: E.State, states: seq<E.State>,
                        pops: seq<E.Event>, drained: int, t: E.State)
    requires Pure(g, f) && Succeeding(f) && Unfilled(g, start)
    ensures !RaisedFrom(g, start, states, pops, drained, t)
  {
    if RaisedFrom(g, start, states, pops, drained, t) {
      var all := RaisedRun(g, start, states, pops, drained, t);
      DrainsPushNothing(all);
      FirstFillNeverRaises(g, f, start, Drains(all), t, Id(""));
    }
  }

  /**
   * Push one input and drain: whatever was popped in whatever order, nothing
   * raises, every derived node is its own computation on its dependencies or
   * reports stale, and the process is ready for the next push.
   */
  method PushAndDrain(p: Process, x: Id, a: Attempt)
    requires p.Valid() && x in p.g.inputs && !a.Pending?
    requires Ready(p.g, p.state) && Answering(p.g)
    modifies p, p.queue, p.all
    ensures p.Valid() && Ready(p.g, p.state) && E.Idle(p.state)
    ensures InputsAfter(p.g, old(p.state), p.state, x, a)
    ensures forall n | Derived(p.g, n) ::
              E.IsStale(p.g, p.state.book, n) || Consistent(p.g, p.state.book.attempt, n)
  {
    PushMayDrain(p.g, p.state, x, a);
    p.Push(x, a);
    ghost var pushed := p.state;
    var drained, raised;
    ghost var pops, states;
    drained, raised, pops, states := p.ProcessPending();
    VouchedDrain(p.g, pushed, states, pops, drained, p.state, raised);
    DrainKeepsPushed(p.g, old(p.state), x, a, states, pops, drained, p.state);
  }

  /** The input x holds a, and every other input what it held. */
  ghost predicate InputsAfter(g: Graph, s: E.State, t: E.State, x: Id, a: Attempt) {
    && E.WellFormed(g, s) && E.WellFormed(g, t)
    && forall y | y in g.inputs :: t.book.attempt[y] == if y == x then a else s.book.attempt[y]
  }

  /** A drain pushes nothing. */
  lemma {:induction false} NothingPushed(pops: seq<E.Event>, x: Id, a: Attempt)
    ensures LastPushed(Drains(pops), x, a) == a
    decreases |pops|
  {
    if pops != [] {
      assert Drains(pops)[1..] == Drains(pops[1..]);
      NothingPushed(pops[1..], x, a);
    }
  }

  lemma DrainKeepsPushed(g: Graph, s: E.State, x: Id, a: Attempt, states: seq<E.State>, pops: seq<E.Event>,
                         drained: int, t: E.State)
    requires E.WellFormed(g, s) && x in g.inputs
    requires Traced(g, E.Write(g, s, x, a), states, pops, t, drained)
    ensures InputsAfter(g, s, t, x, a)
  {
    var u := E.Write(g, s, x, a);
    DrainedRun(g, u, states, pops, drained, t);
    WriteStores(g, s, x, a);
    forall y | y in g.inputs
      ensures E.WellFormed(g, t) && t.book.attempt[y] == if y == x then a else s.book.attempt[y] {
      InputHoldsLastPush(g, u, Drains(pops), t, y);
      NothingPushed(pops, y, u.book.attempt[y]);
    }
  }

  lemma PushMayDrain(g: Graph, s: E.State, x: Id, a: Attempt)
    requires Ready(g, s) && x in g.inputs && !a.Pending? && Answering(g)
    ensures Ready(g, E.Write(g, s, x, a)) && Halts(g, E.Write(g, s, x, a))
  {
    PushStaysReady(g, s, x, a);
    PushKeepsCounted(g, s, x, a);
    EveryDrainHalts(g, E.Write(g, s, x, a));
  }

  lemma DrainLeaves(g: Graph, s: E.State, acts: seq<E.Action>, t: E.State)
    requires Ready(g, s) && Answering(g) && E.Run(g, s, acts, t) && SetPushes(acts) && E.Idle(t)
    ensures Ready(g, t)
    ensures forall n | Derived(g, n) :: E.IsStale(g, t.book, n) || Consistent(g, t.book.attempt, n)
  {
    RunKeepsCounted(g, s, acts, t);
    RunStaysVouched(g, s, acts, t);
    IdleVerdicts(g, s, acts, t);
  }

  lemma IdleVerdicts(g: Graph, s: E.State, acts: seq<E.Action>, t: E.State)
    requires Ready(g, s) && Answering(g) && E.Run(g, s, acts, t) && SetPushes(acts) && E.Idle(t)
    ensures E.WellFormed(g, t)
    ensures forall n | Derived(g, n) :: E.IsStale(g, t.book, n) || Consistent(g, t.book.attempt, n)
  {
    RunStaysVouched(g, s, acts, t);
    assert PendingQueued(g, s.book, s.q);
    forall n | Derived(g, n) ensures E.IsStale(g, t.book, n) || Consistent(g, t.book.attempt, n) {
      IdleIsHonest(g, s, acts, t, n);
    }
  }

  /** The drain of a first fill does not raise and leaves the process in service, on the recomputation from scratch. */
  lemma FillDrain(g: Graph, f: (Id, seq<Attempt>) -> Attempt, start: E.State, states: seq<E.State>,
                  pops: seq<E.Event>, drained: int, t: E.State, raised: bool)
    requires Pure(g, f) && Succeeding(f) && Unfilled(g, start)
    requires raised ==> RaisedFrom(g, start, states, pops, drained, t)
    requires !raised ==> Traced(g, start, states, pops, t, drained) && E.Idle(t)
    ensures !raised && InService(g, t) && Answering(g) && E.Run(g, start, Drains(pops), t)
    ensures forall n | n in Nodes(g) :: t.book.attempt[n] == FromScratch(g, f, t.book.attempt, n)
  {
    FillIsNotRaised(g, f, start, states, pops, drained, t);
    DrainedRun(g, start, states, pops, drained, t);
    FilledIsSettled(g, f, start, Drains(pops), t);
  }

  ghost predicate PushedSoFar(g: Graph, start: E.State, values: seq<(Id, Attempt)>, i: int, s: E.State) {
    E.WellFormed(g, start) && 0 <= i <= |values| && E.Run(g, start, Pushes(values[..i]), s)
  }

  lemma PushedNext(g: Graph, start: E.State, values: seq<(Id, Attempt)>, i: int, s: E.State)
    requires PushedSoFar(g, start, values, i, s) && i < |values| && E.WellFormed(g, s) && values[i].0 in g.inputs
    ensures PushedSoFar(g, start, values, i + 1, E.Write(g, s, values[i].0, values[i].1))
  {
    PushesSnoc(values, i);
    RunThen(g, start, Pushes(values[..i]), s, E.Push(values[i].0, values[i].1));
  }

  /** Pushes before the first drain, in order. */
  method PushAll(p: Process, values: seq<(Id, Attempt)>)
    requires p.Valid() && forall i | 0 <= i < |values| :: values[i].0 in p.g.inputs
    modifies p, p.queue, p.all
    ensures p.Valid() && E.Run(p.g, old(p.state), Pushes(values), p.state)
  {
    ghost var start := p.state;
    for i := 0 to |values|
      invariant p.Valid() && PushedSoFar(p.g, start, values, i, p.state)
    {
      PushedNext(p.g, start, values, i, p.state);
      p.Push(values[i].0, values[i].1);
    }
    assert values[..|values|] == values;
  }

  /** The pushes of a first session, as a run of the engine. */
  lemma FirstPushes(g: Graph, values: seq<(Id, Attempt)>, clock: int, t: E.State)
    requires Valid(g) && 0 <= clock && E.Run(g, Boot(g, map[], clock), Pushes(values), t)
    requires forall i | 0 <= i < |values| :: values[i].0 in g.inputs && values[i].1.Succeeded?
    requires forall x | x in g.inputs :: exists i :: 0 <= i < |values| && values[i].0 == x
    ensures Unfilled(g, t) && Counted(t) && t.calls == []
  {
    FirstStart(g, clock);
    BootActs(g, map[], clock);
    EveryInputIsPushed(g, values);
    PushesFrom(g, Boot(g, map[], clock), Pushes(values), t);
  }

  lemma PushesFrom(g: Graph, s: E.State, acts: seq<E.Action>, t: E.State)
    requires AwaitsFill(g, s) && Counted(s) && E.Run(g, s, acts, t) && ValuePushes(acts)
    requires forall x | x in g.inputs :: PushedIn(acts, x)
    ensures Unfilled(g, t) && Counted(t) && t.calls == s.calls
  {
    PushedIsUnfilled(g, s, acts, t);
    RunKeepsCounted(g, s, acts, t);
  }

  lemma EveryInputIsPushed(g: Graph, values: seq<(Id, Attempt)>)
    requires forall i | 0 <= i < |values| :: values[i].1.Succeeded?
    requires forall x | x in g.inputs :: exists i :: 0 <= i < |values| && values[i].0 == x
    ensures ValuePushes(Pushes(values)) && forall x | x in g.inputs :: PushedIn(Pushes(values), x)
  {
    forall x | x in g.inputs ensures PushedIn(Pushes(values), x) {
      var i :| 0 <= i < |values| && values[i].0 == x;
      assert Pushes(values)[i].input == x;
    }
  }

  /**
   * The first session on an empty database: start, push every input, drain.
   * It does not raise; every node then equals the recomputation from scratch,
   * and the process is in service: PushAndDrain may follow, any number of times.
   */
  method FirstSession(g: Graph, ghost f: (Id, seq<Attempt>) -> Attempt, values: seq<(Id, Attempt)>, clock: int)
    returns (p: Process)
    requires Valid(g) && 0 <= clock && Pure(g, f) && Succeeding(f)
    requires forall i | 0 <= i < |values| :: values[i].0 in g.inputs && values[i].1.Succeeded?
    requires forall x | x in g.inputs :: exists i :: 0 <= i < |values| && values[i].0 == x
    ensures fresh(p) && fresh(p.queue) && fresh(p.all) && p.g == g && p.Valid()
    ensures InService(g, p.state) && Ready(g, p.state) && Answering(g) && E.Idle(p.state)
    ensures forall x | x in g.inputs :: p.state.book.attempt[x] == LastPushed(Pushes(values), x, Pending)
    ensures forall n | n in Nodes(g) :: p.state.book.attempt[n] == FromScratch(g, f, p.state.book.attempt, n)
  {
    p := StartProcess(g, map[], clock);
    PushAll(p, values);
    ghost var pushed := p.state;
    FirstPushes(g, values, clock, pushed);
    EveryDrainHalts(g, pushed);
    var drained, raised;
    ghost var pops, states;
    drained, raised, pops, states := p.ProcessPending();
    FillDrain(g, f, pushed, states, pops, drained, p.state, raised);
    RunKeepsCounted(g, pushed, Drains(pops), p.state);
    FirstInputs(g, values, clock, pushed, pops, p.state);
  }

  lemma FirstInputs(g: Graph, values: seq<(Id, Attempt)>, clock: int, pushed: E.State, pops: seq<E.Event>, t: E.State)
    requires Valid(g) && 0 <= clock && E.Run(g, Boot(g, map[], clock), Pushes(values), pushed)
    requires E.WellFormed(g, pushed) && E.Run(g, pushed, Drains(pops), t)
    ensures E.WellFormed(g, t)
    ensures forall x | x in g.inputs :: t.book.attempt[x] == LastPushed(Pushes(values), x, Pending)
  {
    FirstStart(g, clock);
    var start := Boot(g, map[], clock);
    OnePassOfInputs(g, start, Pushes(values), pushed, pops, t);
    assert forall x | x in g.inputs :: start.book.attempt[x] == Pending;
  }

  lemma OnePassOfInputs(g: Graph, start: E.State, acts: seq<E.Action>, pushed: E.State, pops: seq<E.Event>, t: E.State)
    requires E.WellFormed(g, start) && E.Run(g, start, acts, pushed)
    requires E.WellFormed(g, pushed) && E.Run(g, pushed, Drains(pops), t)
    ensures E.WellFormed(g, t)
    ensures forall x | x in g.inputs :: t.book.attempt[x] == LastPushed(acts, x, start.book.attempt[x])
  {
    OkAfterDrains(g, pushed, Drains(pops), t);
    forall x | x in g.inputs ensures t.book.attempt[x] == LastPushed(acts, x, start.book.attempt[x]) {
      InputHoldsLastPush(g, start, acts, pushed, x);
      InputHoldsLastPush(g, pushed, Drains(pops), t, x);
      NothingPushed(pops, x, pushed.book.attempt[x]);
    }
  }

  lemma {:induction false} OkAfterDrains(g: Graph, s: E.State, acts: seq<E.Action>, t: E.State)
    requires E.WellFormed(g, s) && E.Run(g, s, acts, t)
    ensures E.WellFormed(g, t)
    decreases |acts|
  {
    if acts != [] {
      OkAfterDrains(g, E.Act(g, s, acts[0]).0, acts[1..], t);
    }
  }
}
