// What one action does to the books, and what that means for the staleness and
// the consistency of the other nodes.
module Frames {
  import opened Attempts
  import opened DagGraph
  import opened Engine

  /**
   * The bookkeeping of node m is sound at time `clock`, for a process whose
   * code does not change: no stamp lies in the future, a stored code version is
   * the current one, a node that holds a result has a row written by that code,
   * and bound stamps are no later than the node's own compute time.
   */
  ghost predicate SoundNode(g: Graph, b: Book, clock: int, m: Id)
    requires WellFormedBook(g, b) && m in Nodes(g)
  {
    var x := b.meta[m];
    && 0 <= x.persistedAt <= clock
    && (Derived(g, m) ==>
          && 0 <= x.computedAt <= x.persistedAt
          && (x.version.Some? ==> x.version.value == g.version[m])
          && (forall d | d in x.depStamps :: 0 <= x.depStamps[d] <= x.computedAt)
          && (!b.attempt[m].Pending? ==> 0 < x.computedAt && x.version == Some(g.version[m])))
  }

  /** A retry is outstanding only while the node is pending. */
  ghost predicate QuietNode(g: Graph, b: Book, m: Id)
    requires WellFormedBook(g, b) && m in Nodes(g)
  {
    Derived(g, m) && !b.attempt[m].Pending? ==> b.meta[m].retryAt == None
  }

  ghost predicate SoundBook(g: Graph, b: Book, clock: int) {
    && WellFormedBook(g, b)
    && 0 <= clock
    && forall m {:trigger SoundNode(g, b, clock, m)} | m in Nodes(g) :: SoundNode(g, b, clock, m)
  }

  /** The books differ at n only. */
  ghost predicate OnlyAt(g: Graph, b: Book, c: Book, n: Id) {
    && WellFormedBook(g, b) && WellFormedBook(g, c) && n in Nodes(g)
    && forall m | m in Nodes(g) && m != n :: c.attempt[m] == b.attempt[m] && c.meta[m] == b.meta[m]
  }

  /** c extends b by one write of n's row after `clock`. */
  ghost predicate Stamps(g: Graph, b: Book, c: Book, n: Id, clock: int) {
    && OnlyAt(g, b, c, n)
    && c.meta[n].persistedAt > clock
    && (Derived(g, n) ==> c.meta[n].computedAt > clock)
  }

  /** n's own row is none of its inputs. */
  lemma OwnView(g: Graph, b: Book, c: Book, n: Id)
    requires Derived(g, n) && OnlyAt(g, b, c, n)
    ensures Active(g, c.attempt, n) == Active(g, b.attempt, n)
    ensures ActiveAttempts(g, c.attempt, n) == ActiveAttempts(g, b.attempt, n)
  {
    assert forall d | d in Active(g, b.attempt, n) :: Edge(g, n, d) && d != n;
    SameView(g, b.attempt, c.attempt, n);
  }

  lemma SoundAfter(g: Graph, b: Book, c: Book, n: Id, clock: int, later: int)
    requires SoundBook(g, b, clock) && OnlyAt(g, b, c, n) && clock <= later
    requires SoundNode(g, c, later, n)
    ensures SoundBook(g, c, later)
  {
    forall m | m in Nodes(g) ensures SoundNode(g, c, later, m) {
      assert SoundNode(g, b, clock, m);
    }
  }

  lemma SoundLater(g: Graph, b: Book, clock: int, later: int)
    requires SoundBook(g, b, clock) && clock <= later
    ensures SoundBook(g, b, later)
  {
    forall m | m in Nodes(g) ensures SoundNode(g, b, later, m) {
      assert SoundNode(g, b, clock, m);
    }
  }

  /** A fresh row of n makes every other node that actively depends on it stale. */
  lemma StampedDependencyIsStale(g: Graph, b: Book, c: Book, n: Id, clock: int, m: Id)
    requires SoundBook(g, b, clock) && Stamps(g, b, c, n, clock)
    requires Derived(g, m) && m != n && n in Active(g, c.attempt, m)
    ensures IsStale(g, c, m)
  {
    assert SoundNode(g, b, clock, m);
    if !c.attempt[m].Pending? {
      assert Moved(g, c, m, n);
    }
  }

  /** If m is not stale afterwards, n's fresh row is none of its business. */
  lemma UnaffectedView(g: Graph, b: Book, c: Book, n: Id, clock: int, m: Id)
    requires SoundBook(g, b, clock) && Stamps(g, b, c, n, clock)
    requires Derived(g, m) && m != n && !IsStale(g, c, m)
    ensures !IsStale(g, b, m)
    ensures n !in Active(g, c.attempt, m)
    ensures Active(g, b.attempt, m) == Active(g, c.attempt, m)
    ensures ActiveAttempts(g, b.attempt, m) == ActiveAttempts(g, c.attempt, m)
  {
    if n in Active(g, c.attempt, m) {
      StampedDependencyIsStale(g, b, c, n, clock, m);
    }
    var ds := Active(g, c.attempt, m);
    assert forall d | d in ds :: Edge(g, m, d);
    SameView(g, c.attempt, b.attempt, m);
    forall d | d in Active(g, b.attempt, m) ensures !Moved(g, b, m, d) {
      assert !Moved(g, c, m, d);
    }
  }

  /** Staleness of m survives a write of another node's row. */
  lemma StaleSurvives(g: Graph, b: Book, c: Book, n: Id, clock: int, m: Id)
    requires SoundBook(g, b, clock) && Stamps(g, b, c, n, clock)
    requires Derived(g, m) && m != n && IsStale(g, b, m)
    ensures IsStale(g, c, m)
  {
    if !IsStale(g, c, m) {
      UnaffectedView(g, b, c, n, clock, m);
    }
  }

  /** Consistency of m survives a write of another node's row, unless m is stale. */
  lemma ConsistentOrStale(g: Graph, b: Book, c: Book, n: Id, clock: int, m: Id)
    requires SoundBook(g, b, clock) && Stamps(g, b, c, n, clock)
    requires Derived(g, m) && m != n && Consistent(g, b.attempt, m)
    ensures IsStale(g, c, m) || Consistent(g, c.attempt, m)
  {
    if !IsStale(g, c, m) {
      UnaffectedView(g, b, c, n, clock, m);
    }
  }

  // A node whose stored stamps are exactly those of its active dependencies,
  // with nothing else wrong, is up to date.
  lemma EqualStampsAreFresh(g: Graph, b: Book, clock: int, n: Id)
    requires SoundBook(g, b, clock) && Derived(g, n)
    requires !b.attempt[n].Pending? && b.meta[n].retryAt == None
    requires Bind(g, b, n).stamps == b.meta[n].depStamps
    ensures !IsStale(g, b, n)
  {
    assert SoundNode(g, b, clock, n);
    var ds := Active(g, b.attempt, n);
    forall d | d in ds ensures !Moved(g, b, n, d) {
      assert Edge(g, n, d);
      assert SoundNode(g, b, clock, d);
      assert d in Bind(g, b, n).stamps;
    }
  }
}
