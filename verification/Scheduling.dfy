// The priority queue and its index of scheduled nodes, over every sequence of
// queue operations, unregistering included.
module Scheduling {
  import opened Attempts
  import opened Engine
  import opened Actions

  datatype QueueOp =
    | Add(node: Id, at: int)
    | TakeNext(event: Event)
    | PutBack(node: Id, deps: seq<Id>)
    | Forget(node: Id)
    | Unregister(node: Id)

  predicate Possible(q: Queue, op: QueueOp) {
    match op
    case TakeNext(e) => e in q.events && forall x | x in q.events :: e.at <= x.at
    case PutBack(_, deps) => AnyQueued(q, deps)
    case _ => true
  }

  /** AsyncRefreshQueue.unregister takes the index entry and leaves the event queued. */
  function Apply(q: Queue, op: QueueOp): Queue {
    match op
    case Add(n, at) => Enqueue(q, n, at)
    case TakeNext(e) => q.(events := q.events - multiset{e}, scheduled := q.scheduled - {e.node})
    case PutBack(n, deps) => Requeued(q, deps, n)
    case Forget(n) => ForgetRequeues(q, n)
    case Unregister(n) => q.(scheduled := q.scheduled - {n})
  }

  ghost predicate QueueRun(q: Queue, ops: seq<QueueOp>, r: Queue)
    decreases |ops|
  {
    if ops == [] then q == r else Possible(q, ops[0]) && QueueRun(Apply(q, ops[0]), ops[1..], r)
  }

  /** Every scheduled entry has its event in the queue, whatever the operations. */
  lemma {:induction false} RunsStayCovered(q: Queue, ops: seq<QueueOp>, r: Queue)
    requires Covered(q) && QueueRun(q, ops, r)
    ensures Covered(r)
    decreases |ops|
  {
    if ops != [] {
      var p := Apply(q, ops[0]);
      forall n | n in p.scheduled ensures Event(p.scheduled[n], n) in p.events {
        assert n in q.scheduled ==> Event(q.scheduled[n], n) in q.events;
      }
      RunsStayCovered(p, ops[1..], r);
    }
  }

  /** No node is unregistered, and a node is put back only when it is not scheduled, as the synchronous drain does. */
  ghost predicate Orderly(q: Queue, ops: seq<QueueOp>)
    decreases |ops|
  {
    ops != [] ==>
      && !ops[0].Unregister?
      && (ops[0].PutBack? ==> ops[0].node !in q.scheduled)
      && Orderly(Apply(q, ops[0]), ops[1..])
  }

  lemma StepStaysInStep(q: Queue, op: QueueOp)
    requires InStep(q) && Possible(q, op) && !op.Unregister? && (op.PutBack? ==> op.node !in q.scheduled)
    ensures InStep(Apply(q, op))
  {
    var p := Apply(q, op);
    forall e: Event
      ensures p.events[e] == (if e.node in p.scheduled && p.scheduled[e.node] == e.at then 1 else 0)
    {
      assert q.events[e] == (if e.node in q.scheduled && q.scheduled[e.node] == e.at then 1 else 0);
      if op.TakeNext? {
        assert q.events[op.event] == 1;
      }
    }
  }

  /** In orderly runs the index and the queue are in bijection. */
  lemma {:induction false} OrderlyRunsStayInStep(q: Queue, ops: seq<QueueOp>, r: Queue)
    requires InStep(q) && QueueRun(q, ops, r) && Orderly(q, ops)
    ensures InStep(r)
    decreases |ops|
  {
    if ops != [] {
      StepStaysInStep(q, ops[0]);
      OrderlyRunsStayInStep(Apply(q, ops[0]), ops[1..], r);
    }
  }

  /** Unregistering keeps the bijection if and only if the node was not scheduled: its event stays behind. */
  lemma UnregisterLeavesItsEvent(q: Queue, n: Id)
    requires InStep(q)
    ensures InStep(Apply(q, Unregister(n))) <==> n !in q.scheduled
  {
    var p := Apply(q, Unregister(n));
    if n in q.scheduled {
      var e := Event(q.scheduled[n], n);
      assert q.events[e] == 1 && p.events[e] == 1;
    } else {
      assert p.scheduled == q.scheduled;
    }
  }

  lemma NoEntryWithoutEvent(q: Queue, n: Id)
    requires Covered(q) && q.events == multiset{}
    ensures n !in q.scheduled
  {
  }

  /**
   * stop_processor counts the scheduled entries as its drain leaves, at an
   * empty queue: the count of abandoned retries it returns is always zero.
   */
  lemma NothingIsEverAbandoned(q: Queue, ops: seq<QueueOp>, r: Queue)
    requires Covered(q) && QueueRun(q, ops, r) && r.events == multiset{}
    ensures |r.scheduled| == 0
  {
    RunsStayCovered(q, ops, r);
    forall n ensures n !in r.scheduled {
      NoEntryWithoutEvent(r, n);
    }
    assert r.scheduled == map[];
  }
}
