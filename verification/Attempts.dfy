// The three-state result every node holds, and what one call of a node's
// compute can do (dag/attempt.py, dag/derived_node.py).
module Attempts {

  /** A node id. Ids are compared for equality only. */
  datatype Id = Id(name: string)

  /** A node's value. Values are compared for equality only. */
  datatype Value = Nothing | Just(payload: int)

  datatype Option<+T> = None | Some(value: T)

  /** A structured error: raised by one node, or the chain of failed dependencies. */
  datatype Failure =
    | Raised(source: Id, code: int)
    | DepFailed(failedNode: Id, causes: seq<Failure>)

  datatype Attempt = Succeeded(value: Value) | Pending | Impossible(error: Failure)

  /**
   * What one call of compute does. `Returned` covers a returned attempt and a
   * permanent exception (an impossible attempt). `Transient` covers both styles
   * of a retryable failure, raised or returned with a retryable error; they
   * take the same retry decision.
   */
  datatype Outcome =
    | Returned(attempt: Attempt)
    | Transient(error: Failure, retryAfter: Option<int>)

  function Causes(atts: seq<Attempt>): seq<Failure> {
    if atts == [] then []
    else (if atts[0].Impossible? then [atts[0].error] else []) + Causes(atts[1..])
  }

  predicate AnyImpossible(atts: seq<Attempt>) {
    exists i | 0 <= i < |atts| :: atts[i].Impossible?
  }

  predicate AnyPending(atts: seq<Attempt>) {
    exists i | 0 <= i < |atts| :: atts[i].Pending?
  }

  lemma {:induction false} CausesAppend(before: seq<Attempt>, after: seq<Attempt>)
    ensures Causes(before + after) == Causes(before) + Causes(after)
    decreases |before|
  {
    if before == [] {
      assert before + after == after;
    } else {
      assert (before + after)[1..] == before[1..] + after;
      CausesAppend(before[1..], after);
    }
  }

  /** Each failed attempt adds its own error to the causes, at its place among the others; no other attempt adds any. */
  lemma CausesInOrder(before: seq<Attempt>, a: Attempt, after: seq<Attempt>)
    ensures Causes(before + [a] + after)
         == Causes(before) + (if a.Impossible? then [a.error] else []) + Causes(after)
  {
    CausesAppend(before + [a], after);
    CausesAppend(before, [a]);
    assert [a][1..] == [];
  }
}
