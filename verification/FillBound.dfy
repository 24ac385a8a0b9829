// How often a node can be put back while a graph is filled for the first time,
// conditional nodes included: no more often than other nodes become final.
module FillBound {
  import opened Attempts
  import opened DagGraph
  import opened Engine

  /** What the argument sees of one moment of a fill: queue times, requeue counts, active dependencies. */
  datatype Moment = Moment(scheduled: map<Id, int>, counts: map<Id, int>, active: map<Id, seq<Id>>)

  predicate SomeQueued(m: Moment, ds: seq<Id>) {
    exists d | d in ds :: d in m.scheduled
  }

  predicate Waiting(m: Moment, n: Id) {
    n in m.active && SomeQueued(m, m.active[n])
  }

  /** The active dependencies are the fixed ones and others, all upstream. */
  ghost predicate Shaped(g: Graph, m: Moment) {
    && Valid(g) && m.active.Keys == g.fixed.Keys && m.scheduled.Keys <= g.fixed.Keys
    && forall n, d {:trigger d in m.active[n]} {:trigger Edge(g, n, d)} | n in m.active ::
         && (d in m.active[n] ==> Edge(g, n, d))
         && (d in g.fixed[n] ==> d in m.active[n])
  }

  /**
   * n is earliest, and nothing but n's event and count moves. A node whose
   * fixed dependencies are all out of the queue keeps its active ones.
   */
  ghost predicate Beside(g: Graph, m: Moment, n: Id, t: Moment) {
    && Shaped(g, m) && Shaped(g, t)
    && n in m.scheduled && (forall x | x in m.scheduled :: m.scheduled[n] <= m.scheduled[x])
    && (forall x | x in g.fixed && !SomeQueued(m, g.fixed[x]) :: t.active[x] == m.active[x])
    && (forall x | x != n && x in m.scheduled :: x in t.scheduled && t.scheduled[x] == m.scheduled[x])
    && (forall x | x != n :: Count(t.counts, x) == Count(m.counts, x))
    && (forall x | x in t.scheduled :: x in m.scheduled)
  }

  /** n was put back later than all of its queued dependencies. */
  ghost predicate PutBack(m: Moment, n: Id, t: Moment) {
    && n in t.scheduled && n in m.active
    && Count(t.counts, n) == Count(m.counts, n) + 1
    && forall d | d in m.active[n] && d in m.scheduled :: m.scheduled[d] < t.scheduled[n]
  }

  /** One pop of a fill: behind a queued dependency n is put back, otherwise it leaves the queue for good. */
  ghost predicate Popped(g: Graph, m: Moment, n: Id, t: Moment) {
    && Beside(g, m, n, t)
    && if Waiting(m, n) then PutBack(m, n, t) else n !in t.scheduled
  }

  ghost predicate ShapedAt(g: Graph, ms: seq<Moment>, i: int) {
    0 <= i < |ms| && Shaped(g, ms[i])
  }

  ghost predicate PoppedFrom(g: Graph, ms: seq<Moment>, ns: seq<Id>, i: int) {
    0 <= i < |ns| && i + 1 < |ms| && Popped(g, ms[i], ns[i], ms[i + 1])
  }

  /** The moments of a fill: between two of them one node was popped. */
  ghost predicate History(g: Graph, ms: seq<Moment>, ns: seq<Id>) {
    && |ms| == |ns| + 1
    && (forall i {:trigger ShapedAt(g, ms, i)} | 0 <= i < |ms| :: ShapedAt(g, ms, i))
    && (forall i {:trigger PoppedFrom(g, ms, ns, i)} | 0 <= i < |ns| :: PoppedFrom(g, ms, ns, i))
  }

  lemma HistoryGrows(g: Graph, ms: seq<Moment>, ns: seq<Id>, n: Id, t: Moment)
    requires History(g, ms, ns) && Popped(g, ms[|ns|], n, t)
    ensures History(g, ms + [t], ns + [n])
  {
    var ts, xs := ms + [t], ns + [n];
    forall i | 0 <= i < |ts| ensures ShapedAt(g, ts, i) {
      assert i < |ms| ==> ShapedAt(g, ms, i);
    }
    forall i | 0 <= i < |xs| ensures PoppedFrom(g, ts, xs, i) {
      assert i < |ns| ==> PoppedFrom(g, ms, ns, i);
    }
  }

  /** How often n was put back between two moments. */
  function Requeues(ms: seq<Moment>, k: int, j: int, n: Id): int
    requires 0 <= k < |ms| && 0 <= j < |ms|
  {
    Count(ms[j].counts, n) - Count(ms[k].counts, n)
  }

  /** How many nodes became final between two moments. */
  function Finals(ms: seq<Moment>, k: int, j: int): int
    requires 0 <= k < |ms| && 0 <= j < |ms|
  {
    |ms[k].scheduled.Keys| - |ms[j].scheduled.Keys|
  }

  /** The queued nodes upstream of n's rank. */
  function Lower(g: Graph, m: Moment, n: Id): set<Id> {
    set x | x in m.scheduled && x in g.rank && n in g.rank && g.rank[x] < g.rank[n]
  }

  lemma {:induction false} QueuedBefore(g: Graph, ms: seq<Moment>, ns: seq<Id>, i: int, j: int, x: Id)
    requires History(g, ms, ns) && 0 <= i <= j < |ms| && x in ms[j].scheduled
    ensures x in ms[i].scheduled
    decreases j
  {
    if i < j {
      StepBack(g, ms, ns, j - 1, x);
      QueuedBefore(g, ms, ns, i, j - 1, x);
    }
  }

  lemma AtStep(g: Graph, ms: seq<Moment>, ns: seq<Id>, i: int)
    requires History(g, ms, ns) && 0 <= i < |ns|
    ensures Popped(g, ms[i], ns[i], ms[i + 1])
  {
    assert PoppedFrom(g, ms, ns, i);
  }

  /** One step, seen from a node that is still queued after it. */
  lemma StepBack(g: Graph, ms: seq<Moment>, ns: seq<Id>, i: int, x: Id)
    requires History(g, ms, ns) && 0 <= i < |ns| && x in ms[i + 1].scheduled
    ensures x in ms[i].scheduled
    ensures x == ns[i] ==> Waiting(ms[i], x)
    ensures x != ns[i] ==> Count(ms[i + 1].counts, x) == Count(ms[i].counts, x)
  {
    assert PoppedFrom(g, ms, ns, i);
  }

  /** One more put-back is due for n before c. */
  function Late(m: Moment, n: Id, c: Id): int
    requires n in m.scheduled && c in m.scheduled
  {
    if m.scheduled[n] <= m.scheduled[c] then 0 else 1
  }

  lemma LagMoves(g: Graph, m: Moment, x: Id, t: Moment, n: Id, c: Id)
    requires Popped(g, m, x, t) && n != c && n in t.scheduled && c in t.scheduled
    requires x == n ==> n in m.active && c in m.active[n]
    ensures n in m.scheduled && c in m.scheduled
    ensures Count(t.counts, n) - Count(m.counts, n) + Late(m, n, c)
              <= Count(t.counts, c) - Count(m.counts, c) + Late(t, n, c)
  {
  }

  lemma LagStep(g: Graph, ms: seq<Moment>, ns: seq<Id>, k: int, i: int, n: Id, c: Id)
    requires History(g, ms, ns) && 0 <= k <= i < |ns| && n != c && n in ms[i + 1].scheduled && c in ms[i + 1].scheduled
    requires ns[i] == n ==> n in ms[i].active && c in ms[i].active[n]
    ensures n in ms[i].scheduled && c in ms[i].scheduled
    ensures Requeues(ms, k, i + 1, n) - Requeues(ms, k, i, n) + Late(ms[i], n, c)
              <= Requeues(ms, k, i + 1, c) - Requeues(ms, k, i, c) + Late(ms[i + 1], n, c)
  {
    AtStep(g, ms, ns, i);
    LagMoves(g, ms[i], ns[i], ms[i + 1], n, c);
  }

  /**
   * While n is put back only behind c, it is put back at most once more often
   * than c, and no more often while it is earlier.
   */
  lemma {:induction false} Lag(g: Graph, ms: seq<Moment>, ns: seq<Id>, k: int, j: int, n: Id, c: Id)
    requires History(g, ms, ns) && 0 <= k <= j < |ms| && n != c
    requires n in ms[j].scheduled && c in ms[j].scheduled
    requires forall i | k <= i < j && ns[i] == n :: n in ms[i].active && c in ms[i].active[n]
    ensures Requeues(ms, k, j, n) <= Requeues(ms, k, j, c) + Late(ms[j], n, c)
    decreases j
  {
    if k < j {
      LagStep(g, ms, ns, k, j - 1, n, c);
      Lag(g, ms, ns, k, j - 1, n, c);
    }
  }

  /** A pop of a node that is still queued later put it back. */
  lemma PoppedWaiting(g: Graph, ms: seq<Moment>, ns: seq<Id>, i: int, j: int, n: Id)
    requires History(g, ms, ns) && 0 <= i < j < |ms| && ns[i] == n && n in ms[j].scheduled
    ensures Waiting(ms[i], n)
  {
    QueuedBefore(g, ms, ns, i + 1, j, n);
    StepBack(g, ms, ns, i, n);
  }

  lemma StepFreezes(g: Graph, ms: seq<Moment>, ns: seq<Id>, i: int, n: Id)
    requires History(g, ms, ns) && 0 <= i < |ns| && n in g.fixed && !SomeQueued(ms[i], g.fixed[n])
    ensures n in ms[i].active && n in ms[i + 1].active && ms[i + 1].active[n] == ms[i].active[n]
    ensures !SomeQueued(ms[i + 1], g.fixed[n])
  {
    assert PoppedFrom(g, ms, ns, i);
  }

  /** Out of the queue for good, n's fixed dependencies leave its active ones as they are. */
  lemma {:induction false} Frozen(g: Graph, ms: seq<Moment>, ns: seq<Id>, i: int, j: int, n: Id)
    requires History(g, ms, ns) && 0 <= i <= j < |ms| && n in g.fixed && !SomeQueued(ms[i], g.fixed[n])
    ensures n in ms[i].active && n in ms[j].active && ms[j].active[n] == ms[i].active[n]
    ensures !SomeQueued(ms[j], g.fixed[n])
    decreases j
  {
    if i < j {
      Frozen(g, ms, ns, i, j - 1, n);
      StepFreezes(g, ms, ns, j - 1, n);
    } else {
      assert ShapedAt(g, ms, i);
    }
  }

  lemma LowerGrows(g: Graph, m: Moment, n: Id, c: Id)
    requires c in Lower(g, m, n)
    ensures |Lower(g, m, c)| + 1 <= |Lower(g, m, n)|
  {
    assert Lower(g, m, c) + {c} <= Lower(g, m, n);
    Fits(Lower(g, m, c) + {c}, Lower(g, m, n));
  }

  lemma {:induction false} Fits(a: set<Id>, b: set<Id>)
    requires a <= b
    ensures |a| <= |b|
    decreases a
  {
    if a != {} {
      var x :| x in a;
      Fits(a - {x}, b - {x});
    }
  }

  /** The nodes `ds` are upstream of n, and from k to j each pop of n is behind a queued one of them. */
  ghost predicate Behind(g: Graph, ms: seq<Moment>, ns: seq<Id>, k: int, j: int, n: Id, ds: seq<Id>)
    requires 0 <= k <= j < |ms| && |ms| == |ns| + 1
  {
    && n in g.rank
    && (forall d | d in ds :: d in g.rank && g.rank[d] < g.rank[n])
    && forall i | k <= i < j && ns[i] == n ::
         n in ms[i].active && (forall d | d in ds :: d in ms[i].active[n]) && SomeQueued(ms[i], ds)
  }

  /** What is left to wait for, once more queued dependencies remain. */
  function Ahead(g: Graph, m: Moment, n: Id, waiting: bool): int {
    if waiting then |Lower(g, m, n)| else 0
  }

  /** While n waits behind one group of dependencies, each time it is put back some node became final, or will. */
  lemma {:induction false} PhaseBound(g: Graph, ms: seq<Moment>, ns: seq<Id>, k: int, j: int, n: Id, ds: seq<Id>)
    requires Valid(g) && History(g, ms, ns) && 0 <= k <= j < |ms|
    requires n in ms[j].scheduled && Behind(g, ms, ns, k, j, n, ds)
    ensures Requeues(ms, k, j, n) <= Finals(ms, k, j) + Ahead(g, ms[j], n, SomeQueued(ms[j], ds))
    decreases g.rank[n], 0, j
  {
    if SomeQueued(ms[j], ds) {
      var c :| c in ds && c in ms[j].scheduled;
      BehindLag(g, ms, ns, k, j, n, c, ds);
      LowerGrows(g, ms[j], n, c);
      RequeueBound(g, ms, ns, k, j, c);
    } else if k < j {
      StepBack(g, ms, ns, j - 1, n);
      if SomeQueued(ms[j - 1], ds) {
        LastOneLeft(g, ms, ns, k, j, n, ds);
      } else {
        BehindNothing(g, ms, ns, k, j, n, ds);
        PhaseBound(g, ms, ns, k, j - 1, n, ds);
        FinalsGrow(g, ms, ns, k, j);
      }
    }
  }

  /** Once none of `ds` is queued, n is not put back behind them. */
  lemma BehindNothing(g: Graph, ms: seq<Moment>, ns: seq<Id>, k: int, j: int, n: Id, ds: seq<Id>)
    requires History(g, ms, ns) && 0 <= k < j < |ms| && Behind(g, ms, ns, k, j, n, ds) && !SomeQueued(ms[j - 1], ds)
    requires n in ms[j].scheduled
    ensures Behind(g, ms, ns, k, j - 1, n, ds) && Requeues(ms, k, j, n) == Requeues(ms, k, j - 1, n)
  {
    StepBack(g, ms, ns, j - 1, n);
  }

  lemma FinalsGrow(g: Graph, ms: seq<Moment>, ns: seq<Id>, k: int, j: int)
    requires History(g, ms, ns) && 0 <= k < j < |ms|
    ensures Finals(ms, k, j - 1) <= Finals(ms, k, j)
  {
    forall x | x in ms[j].scheduled ensures x in ms[j - 1].scheduled {
      StepBack(g, ms, ns, j - 1, x);
    }
    Fits(ms[j].scheduled.Keys, ms[j - 1].scheduled.Keys);
  }

  /** The pop that took the last queued one of `ds` out of the queue was its own, and it waited for nothing. */
  lemma LastLeaves(m: Moment, c: Id, t: Moment, ds: seq<Id>)
    requires c in m.scheduled && (c in t.scheduled <==> Waiting(m, c))
    requires forall x | x != c :: x in m.scheduled <==> x in t.scheduled
    requires SomeQueued(m, ds) && !SomeQueued(t, ds)
    ensures c in ds && c in m.scheduled && !Waiting(m, c)
    ensures |t.scheduled.Keys| == |m.scheduled.Keys| - 1
  {
    assert t.scheduled.Keys == m.scheduled.Keys - {c};
  }

  lemma OnlyOneLeaves(g: Graph, m: Moment, c: Id, t: Moment)
    requires Popped(g, m, c, t)
    ensures c in m.scheduled && (c in t.scheduled <==> Waiting(m, c))
    ensures forall x | x != c :: x in m.scheduled <==> x in t.scheduled
  {
  }

  lemma LastLeft(g: Graph, ms: seq<Moment>, ns: seq<Id>, k: int, j: int, ds: seq<Id>)
    requires History(g, ms, ns) && 0 <= k < j < |ms|
    requires SomeQueued(ms[j - 1], ds) && !SomeQueued(ms[j], ds)
    ensures var c := ns[j - 1]; c in ds && c in ms[j - 1].scheduled && !Waiting(ms[j - 1], c)
    ensures Finals(ms, k, j) == Finals(ms, k, j - 1) + 1
  {
    AtStep(g, ms, ns, j - 1);
    OnlyOneLeaves(g, ms[j - 1], ns[j - 1], ms[j]);
    LastLeaves(ms[j - 1], ns[j - 1], ms[j], ds);
  }

  lemma LastOneLeft(g: Graph, ms: seq<Moment>, ns: seq<Id>, k: int, j: int, n: Id, ds: seq<Id>)
    requires Valid(g) && History(g, ms, ns) && 0 <= k < j < |ms|
    requires n in ms[j].scheduled && Behind(g, ms, ns, k, j, n, ds)
    requires SomeQueued(ms[j - 1], ds) && !SomeQueued(ms[j], ds)
    ensures Requeues(ms, k, j, n) <= Finals(ms, k, j)
    decreases g.rank[n], 0, j - 1
  {
    var c := ns[j - 1];
    LastLeft(g, ms, ns, k, j, ds);
    StepBack(g, ms, ns, j - 1, n);
    BehindLag(g, ms, ns, k, j - 1, n, c, ds);
    RequeueBound(g, ms, ns, k, j - 1, c);
  }

  /** Lag behind one of the dependencies n waits for. */
  lemma BehindLag(g: Graph, ms: seq<Moment>, ns: seq<Id>, k: int, j: int, n: Id, c: Id, ds: seq<Id>)
    requires History(g, ms, ns) && 0 <= k <= j < |ms| && n in ms[j].scheduled && c in ms[j].scheduled && c in ds
    requires Behind(g, ms, ns, k, j, n, ds)
    ensures Requeues(ms, k, j, n) <= Requeues(ms, k, j, c) + 1
  {
    Lag(g, ms, ns, k, j, n, c);
  }

  /** The first moment from k on at which n's fixed dependencies are all out of the queue. */
  lemma {:induction false} FixedLeave(g: Graph, ms: seq<Moment>, ns: seq<Id>, k: int, j: int, n: Id) returns (i: int)
    requires History(g, ms, ns) && 0 <= k <= j < |ms| && n in g.fixed && !SomeQueued(ms[j], g.fixed[n])
    ensures k <= i <= j && !SomeQueued(ms[i], g.fixed[n])
    ensures forall h | k <= h < i :: SomeQueued(ms[h], g.fixed[n])
    decreases j - k
  {
    i := k;
    if SomeQueued(ms[k], g.fixed[n]) {
      i := FixedLeave(g, ms, ns, k + 1, j, n);
    }
  }

  lemma BehindFixed(g: Graph, ms: seq<Moment>, ns: seq<Id>, k: int, j: int, n: Id)
    requires History(g, ms, ns) && 0 <= k <= j < |ms| && n in g.fixed
    requires forall h | k <= h < j :: SomeQueued(ms[h], g.fixed[n])
    ensures Behind(g, ms, ns, k, j, n, g.fixed[n])
  {
    assert ShapedAt(g, ms, k);
    assert forall d | d in g.fixed[n] :: Edge(g, n, d);
    forall i | k <= i < j && ns[i] == n
      ensures n in ms[i].active && forall d | d in g.fixed[n] :: d in ms[i].active[n]
    {
      assert ShapedAt(g, ms, i);
    }
  }

  lemma BehindActive(g: Graph, ms: seq<Moment>, ns: seq<Id>, i: int, j: int, n: Id)
    requires History(g, ms, ns) && 0 <= i <= j < |ms| && n in ms[j].scheduled && n in g.fixed
    requires !SomeQueued(ms[i], g.fixed[n])
    ensures n in ms[i].active && Behind(g, ms, ns, i, j, n, ms[i].active[n])
  {
    assert ShapedAt(g, ms, i);
    assert forall d | d in ms[i].active[n] :: Edge(g, n, d);
    forall h | i <= h < j && ns[h] == n
      ensures n in ms[h].active && ms[h].active[n] == ms[i].active[n] && SomeQueued(ms[h], ms[i].active[n])
    {
      Frozen(g, ms, ns, i, h, n);
      PoppedWaiting(g, ms, ns, h, j, n);
    }
  }

  /**
   * The bound: from any moment on, a node is put back no more often than nodes
   * became final since, plus, while it still waits, the queued nodes upstream.
   */
  lemma {:induction false} RequeueBound(g: Graph, ms: seq<Moment>, ns: seq<Id>, k: int, j: int, n: Id)
    requires Valid(g) && History(g, ms, ns) && 0 <= k <= j < |ms| && n in ms[j].scheduled && n in g.rank
    ensures Requeues(ms, k, j, n) <= Finals(ms, k, j) + Ahead(g, ms[j], n, Waiting(ms[j], n))
    decreases g.rank[n], 1, 0
  {
    assert ShapedAt(g, ms, j);
    if SomeQueued(ms[j], g.fixed[n]) {
      forall h | k <= h < j ensures SomeQueued(ms[h], g.fixed[n]) {
        var d :| d in g.fixed[n] && d in ms[j].scheduled;
        QueuedBefore(g, ms, ns, h, j, d);
      }
      BehindFixed(g, ms, ns, k, j, n);
      PhaseBound(g, ms, ns, k, j, n, g.fixed[n]);
      assert Waiting(ms[j], n);
    } else {
      var i := FixedLeave(g, ms, ns, k, j, n);
      QueuedBefore(g, ms, ns, i, j, n);
      BehindFixed(g, ms, ns, k, i, n);
      PhaseBound(g, ms, ns, k, i, n, g.fixed[n]);
      BehindActive(g, ms, ns, i, j, n);
      PhaseBound(g, ms, ns, i, j, n, ms[i].active[n]);
      Frozen(g, ms, ns, i, j, n);
    }
  }

  /** From a start with all counts at zero a waiting node was put back less often than there were queued nodes. */
  lemma WaitersStayBelow(g: Graph, ms: seq<Moment>, ns: seq<Id>, n: Id)
    requires Valid(g) && History(g, ms, ns) && n in ms[|ns|].scheduled && n in g.rank
    requires Count(ms[0].counts, n) == 0
    ensures Count(ms[|ns|].counts, n) < |ms[0].scheduled|
  {
    var j := |ns|;
    RequeueBound(g, ms, ns, 0, j, n);
    assert Lower(g, ms[j], n) + {n} <= ms[j].scheduled.Keys;
    Fits(Lower(g, ms[j], n) + {n}, ms[j].scheduled.Keys);
    assert |ms[0].scheduled.Keys| == |ms[0].scheduled|;
  }
}
