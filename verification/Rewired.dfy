// A start of nodes that get their dependencies later: each one registers against
// the dependencies it was built with, and the sweep over the final graph queues
// what registration could not see.
module Rewired {
  import opened Attempts
  import opened DagGraph
  import opened Engine
  import opened Frames
  import opened Actions
  import opened Pops
  import opened WhatIf
  import opened Regenerate
  import opened Restart
  import opened Start
  import opened Lifecycle

  /**
   * h is the graph as it was built, g the graph after set_deps: the same nodes,
   * and whatever was an active dependency still is one.
   */
  ghost predicate Grown(h: Graph, g: Graph) {
    && Valid(h) && Valid(g)
    && h.inputs == g.inputs && h.fixed.Keys == g.fixed.Keys && h.version == g.version
    && forall a: map<Id, Attempt>, n, d {:trigger d in Active(h, a, n)} |
         Nodes(g) <= a.Keys && Nodes(h) <= a.Keys && Derived(g, n) && Derived(h, n) && d in Active(h, a, n) ::
         d in Active(g, a, n)
  }

  lemma SameNodes(h: Graph, g: Graph)
    requires Grown(h, g)
    ensures Nodes(h) == Nodes(g) && forall n :: Derived(h, n) <==> Derived(g, n)
  {
  }

  lemma SameReload(h: Graph, g: Graph, rows: map<Id, Row>)
    requires Grown(h, g)
    ensures Reload(h, rows) == Reload(g, rows)
  {
    SameNodes(h, g);
  }

  lemma SameRows(h: Graph, g: Graph, rows: map<Id, Row>, clock: int)
    requires Grown(h, g) && SoundRows(g, rows, clock)
    ensures SoundRows(h, rows, clock)
  {
    forall n | n in Nodes(h) ensures SoundRow(h, rows, clock, n) {
      assert SoundRow(g, rows, clock, n);
    }
  }

  lemma SameSoundness(h: Graph, g: Graph, b: Book, clock: int)
    requires Grown(h, g) && SoundBook(h, b, clock)
    ensures SoundBook(g, b, clock)
  {
    forall m | m in Nodes(g) ensures SoundNode(g, b, clock, m) {
      assert SoundNode(h, b, clock, m);
    }
  }

  lemma SameMirror(h: Graph, g: Graph, s: State)
    requires Grown(h, g) && WellFormed(h, s) && WellFormed(g, s) && MirroredState(h, s)
    ensures MirroredState(g, s)
  {
    forall n | n in Nodes(g) ensures Mirrored(g, s.book, s.rows, n) {
      assert Mirrored(h, s.book, s.rows, n);
    }
    forall n, d | Derived(g, n) && d in Nodes(g) ensures Contiguous(g, s.book, n, d) {
      assert Contiguous(h, s.book, n, d);
    }
  }

  /** What a node that is stale against its first dependencies is against its final ones: stale. */
  lemma StaleGrows(h: Graph, g: Graph, b: Book, n: Id)
    requires Grown(h, g) && WellFormedBook(h, b) && WellFormedBook(g, b) && Derived(g, n) && IsStale(h, b, n)
    ensures IsStale(g, b, n)
  {
    if d :| d in Active(h, b.attempt, n) && Moved(h, b, n, d) {
      assert d in Active(g, b.attempt, n) && Moved(g, b, n, d);
    }
  }

  /** What registration cannot see: moves of dependencies that n got later, and nothing else. */
  ghost predicate Unseen(h: Graph, g: Graph, b: Book, n: Id)
    requires WellFormedBook(h, b) && WellFormedBook(g, b) && Derived(g, n) && Derived(h, n)
  {
    && !b.attempt[n].Pending? && b.meta[n].retryAt == None && !CodeIsStale(g, b, n)
    && forall d | d in Active(g, b.attempt, n) && Moved(g, b, n, d) :: d !in Active(h, b.attempt, n)
  }

  lemma StaleIsUnseen(h: Graph, g: Graph, b: Book, n: Id)
    requires Grown(h, g) && WellFormedBook(h, b) && WellFormedBook(g, b) && Derived(g, n)
    requires !IsStale(h, b, n)
    ensures Derived(h, n) && Unseen(h, g, b, n)
  {
    assert forall d | d in Active(h, b.attempt, n) :: Edge(h, n, d) && !Moved(h, b, n, d);
  }

  /**
   * A start of the graph as built is steady for the final graph and mirrors its
   * rows. It queues exactly the nodes that are stale against the dependencies
   * they were built with; a stale node that it does not queue holds a result of
   * the current code, and only dependencies that it got later have moved.
   */
  lemma RewiredBoot(h: Graph, g: Graph, rows: map<Id, Row>, clock: int)
    requires Grown(h, g) && SoundRows(g, rows, clock)
    ensures var r := Boot(h, rows, clock);
      && Steady(g, r) && MirroredState(g, r) && r.book == Reload(g, rows)
      && forall n | Derived(g, n) ::
           && Derived(h, n)
           && (n in r.q.scheduled <==> IsStale(h, r.book, n))
           && (n in r.q.scheduled || Unseen(h, g, r.book, n))
  {
    var r := Boot(h, rows, clock);
    SameRows(h, g, rows, clock);
    SameReload(h, g, rows);
    BootActs(h, rows, clock);
    SameNodes(h, g);
    SameSoundness(h, g, r.book, r.clock);
    SameMirror(h, g, r);
    GrownIsSteady(h, g, r);
    forall n | Derived(g, n) && n !in r.q.scheduled ensures Unseen(h, g, r.book, n) {
      StaleIsUnseen(h, g, r.book, n);
    }
  }

  lemma GrownIsSteady(h: Graph, g: Graph, r: State)
    requires Grown(h, g) && Steady(h, r) && SoundBook(g, r.book, r.clock)
    ensures Steady(g, r)
  {
    forall m | m in Nodes(g) ensures QuietNode(g, r.book, m) {
      assert QuietNode(h, r.book, m);
    }
    forall m | m in r.q.scheduled ensures Derived(g, m) && IsStale(g, r.book, m) {
      StaleGrows(h, g, r.book, m);
    }
  }

  /** The sweep reaches every derived node. */
  ghost predicate ReachesAll(g: Graph, roots: seq<Id>)
    requires Valid(g)
  {
    forall n | Derived(g, n) :: ReachedFrom(GraphDeps(g), roots, n)
  }

  /** t is r after a sweep that met every derived node. */
  ghost predicate Swept(g: Graph, r: State, t: State)
    requires WellFormed(g, r)
  {
    && t == r.(q := t.q, clock := t.clock) && r.clock <= t.clock
    && Keeps(r.q, t.q) && (InStep(r.q) ==> InStep(t.q))
    && forall n :: n in t.q.scheduled <==> n in r.q.scheduled || (Derived(g, n) && IsStale(g, r.book, n))
  }

  lemma SweepMeetsAll(g: Graph, r: State, roots: seq<Id>, stale: seq<Id>, t: State)
    requires WellFormed(g, r) && ReachesAll(g, roots) && Queued(r, stale, t)
    requires forall m :: m in stale <==>
        Derived(g, m) && ReachedFrom(GraphDeps(g), roots, m) && IsStale(g, r.book, m)
    ensures Swept(g, r, t)
  {
  }

  /** schedule_code_stale_nodes over the final graph, after the start. */
  method SweepAfterStart(h: Graph, g: Graph, rows: map<Id, Row>, clock: int, roots: seq<Id>) returns (t: State)
    requires Grown(h, g) && SoundRows(g, rows, clock) && ReachesAll(g, roots)
    ensures WellFormed(g, Boot(h, rows, clock)) && Swept(g, Boot(h, rows, clock), t)
  {
    var r := Boot(h, rows, clock);
    RewiredBoot(h, g, rows, clock);
    var stale;
    stale, t := SweepEngine(g, r, roots);
    SweepMeetsAll(g, r, roots, stale, t);
  }

  /** The sweep closes the gap: what it leaves is what a start against the final dependencies would have left. */
  lemma SweepResumes(h: Graph, g: Graph, s: State, clock: int, t: State)
    requires Grown(h, g) && Steady(g, s) && MirroredState(g, s) && s.clock <= clock
    requires WellFormed(g, Boot(h, s.rows, clock)) && Swept(g, Boot(h, s.rows, clock), t)
    ensures Resumed(g, s, t)
  {
    var r := Boot(h, s.rows, clock);
    RowsAreSoundLater(g, s, clock);
    RewiredBoot(h, g, s.rows, clock);
    SweptIsSteady(g, r, t);
    SweptIsMirrored(g, r, t);
  }

  lemma SweptIsSteady(g: Graph, r: State, t: State)
    requires Steady(g, r) && Swept(g, r, t)
    ensures Steady(g, t) && forall n | Derived(g, n) :: n in t.q.scheduled <==> IsStale(g, t.book, n)
  {
    SoundLater(g, r.book, r.clock, t.clock);
    assert forall m | m in Nodes(g) :: QuietNode(g, r.book, m);
  }

  lemma SweptIsMirrored(g: Graph, r: State, t: State)
    requires WellFormed(g, r) && MirroredState(g, r) && Swept(g, r, t)
    ensures MirroredState(g, t)
  {
    forall n | n in Nodes(g) ensures Mirrored(g, t.book, t.rows, n) {
      assert Mirrored(g, r.book, r.rows, n);
    }
    forall n, d | Derived(g, n) && d in Nodes(g) ensures Contiguous(g, t.book, n, d) {
      assert Contiguous(g, r.book, n, d);
    }
  }

  /** A restart with rewired nodes and a full sweep resumes in service, with everything queued that was queued. */
  lemma RewiredRestartStaysSettled(h: Graph, g: Graph, s: State, clock: int, t: State)
    requires Grown(h, g) && InService(g, s) && MirroredState(g, s) && s.clock <= clock
    requires WellFormed(g, Boot(h, s.rows, clock)) && Swept(g, Boot(h, s.rows, clock), t)
    ensures InService(g, t) && MirroredState(g, t) && forall n | n in s.q.scheduled :: n in t.q.scheduled
  {
    SweepResumes(h, g, s, clock, t);
    ResumedKeeps(g, s, t);
    ResumedStaysSettled(g, s, t);
  }
}
