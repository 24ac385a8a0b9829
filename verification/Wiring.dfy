// Signals, slots and connections: which handlers sit on which dependency's
// signal. Slots are held by live edges; weak references are not modelled.
module Wiring {

  /** One bound handler of a node; a fresh slot is made for every connection. */
  class Slot {
    const owner: DerivedNode

    constructor (owner: DerivedNode)
      ensures this.owner == owner
    {
      this.owner := owner;
    }
  }

  /** The handle that disconnects one slot from one signal. */
  datatype Connection = Connection(signal: Signal, slot: Slot)

  predicate NoDuplicates<T(==)>(s: seq<T>) {
    forall i, j | 0 <= i < j < |s| :: s[i] != s[j]
  }

  function RemoveFirst<T(==)>(s: seq<T>, x: T): seq<T> {
    if s == [] then [] else if s[0] == x then s[1..] else [s[0]] + RemoveFirst(s[1..], x)
  }

  /** The slots that are not n's, in order. */
  function Others(s: seq<Slot>, n: DerivedNode): seq<Slot> {
    if s == [] then []
    else
      var last := s[|s| - 1];
      Others(s[..|s| - 1], n) + (if last.owner == n then [] else [last])
  }

  lemma {:induction false} RemoveFirstRemoves<T>(s: seq<T>, x: T)
    requires NoDuplicates(s)
    ensures NoDuplicates(RemoveFirst(s, x))
    ensures forall y :: y in RemoveFirst(s, x) <==> y in s && y != x
    decreases |s|
  {
    if s != [] {
      RemoveFirstRemoves(s[1..], x);
      assert s == [s[0]] + s[1..];
      assert s[0] !in s[1..];
    }
  }

  lemma OthersAppended(s: seq<Slot>, x: Slot, n: DerivedNode)
    ensures Others(s + [x], n) == Others(s, n) + (if x.owner == n then [] else [x])
  {
    assert (s + [x])[..|s|] == s;
  }

  lemma {:induction false} OthersPrepended(s: seq<Slot>, x: Slot, n: DerivedNode)
    ensures Others([x] + s, n) == (if x.owner == n then [] else [x]) + Others(s, n)
    decreases |s|
  {
    if s == [] {
      assert [x] + s == [] + [x];
      OthersAppended([], x, n);
    } else {
      var front, last := s[..|s| - 1], s[|s| - 1];
      OthersPrepended(front, x, n);
      assert [x] + s == ([x] + front) + [last];
      OthersAppended([x] + front, last, n);
    }
  }

  lemma {:induction false} OthersKept(s: seq<Slot>, x: Slot, n: DerivedNode)
    requires x.owner == n
    ensures Others(RemoveFirst(s, x), n) == Others(s, n)
    decreases |s|
  {
    if s != [] {
      assert s == [s[0]] + s[1..];
      OthersPrepended(s[1..], s[0], n);
      if s[0] != x {
        OthersKept(s[1..], x, n);
        OthersPrepended(RemoveFirst(s[1..], x), s[0], n);
      }
    }
  }

  lemma {:induction false} OthersMembers(s: seq<Slot>, n: DerivedNode)
    ensures forall x :: x in Others(s, n) <==> x in s && x.owner != n
    decreases |s|
  {
    if s != [] {
      OthersMembers(s[..|s| - 1], n);
      assert s == s[..|s| - 1] + [s[|s| - 1]];
    }
  }

  /** The slots of n among a signal's handlers `hs` are exactly those of the connections to it. */
  ghost predicate Exactly(n: DerivedNode, s: Signal, hs: seq<Slot>, cs: seq<Connection>) {
    && NoDuplicates(hs)
    && (forall x | x in hs && x.owner == n :: Connection(s, x) in cs)
    && (forall c | c in cs && c.signal == s :: c.slot in hs)
  }

  /** Every connection has its own slot, and the slot is n's. */
  ghost predicate Owned(n: DerivedNode, cs: seq<Connection>) {
    && (forall i, j | 0 <= i < j < |cs| :: cs[i].slot != cs[j].slot)
    && (forall c | c in cs :: c.slot.owner == n)
  }

  lemma Dropped(n: DerivedNode, s: Signal, hs: seq<Slot>, cs: seq<Connection>)
    requires cs != [] && Owned(n, cs) && Exactly(n, s, hs, cs)
    ensures Owned(n, cs[1..])
    ensures Exactly(n, s, if s == cs[0].signal then RemoveFirst(hs, cs[0].slot) else hs, cs[1..])
  {
    RestIsOwned(n, cs);
    RemoveFirstRemoves(hs, cs[0].slot);
    RestIsExact(n, s, hs, cs, if s == cs[0].signal then RemoveFirst(hs, cs[0].slot) else hs);
  }

  lemma RestIsOwned(n: DerivedNode, cs: seq<Connection>)
    requires cs != [] && Owned(n, cs)
    ensures Owned(n, cs[1..])
    ensures forall k | k in cs :: k == cs[0] || k in cs[1..]
    ensures forall k | k in cs[1..] :: k in cs && k.slot != cs[0].slot
  {
    assert cs == [cs[0]] + cs[1..];
  }

  /** The slots left without the first connection's are those of the other connections. */
  lemma RestIsExact(n: DerivedNode, s: Signal, hs: seq<Slot>, cs: seq<Connection>, after: seq<Slot>)
    requires cs != [] && Exactly(n, s, hs, cs) && NoDuplicates(after)
    requires forall k | k in cs :: k == cs[0] || k in cs[1..]
    requires forall k | k in cs[1..] :: k in cs && k.slot != cs[0].slot
    requires forall x :: x in after <==> x in hs && !(s == cs[0].signal && x == cs[0].slot)
    ensures Exactly(n, s, after, cs[1..])
  {
    forall x | x in after && x.owner == n ensures Connection(s, x) in cs[1..] {
      assert Connection(s, x) in cs && Connection(s, x) != cs[0];
    }
  }

  lemma Added(n: DerivedNode, s: Signal, hs: seq<Slot>, cs: seq<Connection>, c: Connection)
    requires Owned(n, cs) && Exactly(n, s, hs, cs)
    requires c.slot.owner == n && c.slot !in hs && forall k | k in cs :: k.slot != c.slot
    ensures Owned(n, cs + [c])
    ensures Exactly(n, s, if s == c.signal then hs + [c.slot] else hs, cs + [c])
  {
  }

  /** What moves none of m's handlers keeps m's wiring. */
  lemma OthersKeepTheirs(n: DerivedNode, m: DerivedNode, s: Signal, before: seq<Slot>, after: seq<Slot>,
                         cs: seq<Connection>)
    requires m != n && Others(before, n) == Others(after, n) && NoDuplicates(after)
    requires Exactly(m, s, before, cs) && Owned(m, cs)
    ensures Exactly(m, s, after, cs)
  {
    OthersMembers(before, n);
    OthersMembers(after, n);
  }

  class Signal {
    var handlers: seq<Slot>

    constructor ()
      ensures handlers == []
    {
      handlers := [];
    }

    method Connect(slot: Slot) returns (c: Connection)
      modifies this
      ensures handlers == if slot in old(handlers) then old(handlers) else old(handlers) + [slot]
      ensures c == Connection(this, slot)
    {
      if slot !in handlers {
        handlers := handlers + [slot];
      }
      c := Connection(this, slot);
    }

    method Disconnect(slot: Slot)
      modifies this
      ensures handlers == RemoveFirst(old(handlers), slot)
    {
      handlers := RemoveFirst(handlers, slot);
    }
  }

  /** The signals of the dependencies `ds` before the first missing one. */
  predicate Covers(cs: seq<Connection>, ds: seq<Signal?>) {
    Follows(cs, ds) && (|cs| < |ds| ==> ds[|cs|] == null)
  }

  predicate Follows(cs: seq<Connection>, ds: seq<Signal?>) {
    |cs| <= |ds| && forall i | 0 <= i < |cs| :: cs[i].signal == ds[i]
  }

  lemma FollowsOn(cs: seq<Connection>, ds: seq<Signal?>, c: Connection)
    requires Follows(cs, ds) && |cs| < |ds| && c.signal == ds[|cs|]
    ensures Follows(cs + [c], ds)
  {
  }

  class DerivedNode {
    var deps: seq<Signal?>
    var connections: seq<Connection>

    /** This node's handlers on the signals are exactly `cs`. */
    ghost predicate SitsOn(cs: seq<Connection>, signals: set<Signal>)
      reads signals
    {
      && Owned(this, cs)
      && (forall c | c in cs :: c.signal in signals)
      && (forall s | s in signals ::
            Exactly(this, s, s.handlers, cs))
    }

    ghost predicate Wired(signals: set<Signal>)
      reads this, signals
    {
      SitsOn(connections, signals)
    }

    constructor ()
      ensures deps == [] && connections == []
    {
      deps, connections := [], [];
    }

    method DisconnectFirst(cs: seq<Connection>, ghost signals: set<Signal>)
      requires cs != [] && SitsOn(cs, signals)
      modifies cs[0].signal
      ensures SitsOn(cs[1..], signals)
      ensures Others(cs[0].signal.handlers, this) == old(Others(cs[0].signal.handlers, this))
    {
      forall s | s in signals
        ensures Exactly(this, s, if s == cs[0].signal then RemoveFirst(s.handlers, cs[0].slot) else s.handlers, cs[1..])
        ensures Owned(this, cs[1..])
      {
        Dropped(this, s, s.handlers, cs);
      }
      OthersKept(cs[0].signal.handlers, cs[0].slot, this);
      cs[0].signal.Disconnect(cs[0].slot);
    }

    /** Disconnect every connection and forget it. */
    method DisconnectAll(ghost signals: set<Signal>)
      requires Wired(signals)
      modifies this`connections, signals
      ensures Wired(signals) && connections == []
      ensures OthersUntouched(signals)
    {
      var all := connections;
      for i := 0 to |all|
        invariant SitsOn(all[i..], signals)
        invariant OthersUntouched(signals)
      {
        assert all[i..][1..] == all[i + 1..] && all[i] in all[i..];
        DisconnectFirst(all[i..], signals);
      }
      assert all[|all|..] == [];
      connections := [];
    }

    /** No other node's handler moved. */
    twostate predicate OthersUntouched(signals: set<Signal>)
      reads signals
    {
      forall s | s in signals :: Others(s.handlers, this) == old(Others(s.handlers, this))
    }

    method ConnectFresh(dep: Signal, ghost cs: seq<Connection>, ghost signals: set<Signal>) returns (c: Connection)
      requires dep in signals && SitsOn(cs, signals)
      modifies dep
      ensures c.signal == dep && SitsOn(cs + [c], signals)
      ensures Others(dep.handlers, this) == old(Others(dep.handlers, this))
    {
      var slot := new Slot(this);
      OthersAppended(dep.handlers, slot, this);
      c := Connection(dep, slot);
      forall s | s in signals
        ensures Exactly(this, s, if s == dep then s.handlers + [slot] else s.handlers, cs + [c])
        ensures Owned(this, cs + [c])
      {
        Added(this, s, s.handlers, cs, c);
      }
      c := dep.Connect(slot);
    }

    /** Connect a fresh slot to each dependency, up to a missing one. */
    method ConnectAll(ds: seq<Signal?>, ghost signals: set<Signal>) returns (cs: seq<Connection>)
      requires SitsOn([], signals)
      requires forall d | d in ds && d != null :: d in signals
      modifies signals
      ensures SitsOn(cs, signals) && Covers(cs, ds)
      ensures OthersUntouched(signals)
    {
      cs := [];
      while |cs| < |ds| && ds[|cs|] != null
        invariant Follows(cs, ds) && SitsOn(cs, signals) && OthersUntouched(signals)
      {
        var dep := ds[|cs|];
        assert dep in ds;
        var c := ConnectOne(dep, cs, signals);
        FollowsOn(cs, ds, c);
        cs := cs + [c];
      }
    }

    method ConnectOne(dep: Signal, ghost cs: seq<Connection>, ghost signals: set<Signal>) returns (c: Connection)
      requires dep in signals && SitsOn(cs, signals)
      modifies signals
      ensures c.signal == dep && SitsOn(cs + [c], signals)
      ensures OthersUntouched(signals)
    {
      c := ConnectFresh(dep, cs, signals);
    }

    /** DerivedNode.set_deps: every slot of the old dependencies goes, every new dependency gets one. */
    method SetDeps(newDeps: seq<Signal?>, ghost others: set<DerivedNode>, ghost signals: set<Signal>) returns (ok: bool)
      requires Wired(signals) && this !in others && AllWired(others, signals)
      requires forall d | d in newDeps && d != null :: d in signals
      modifies this, signals
      ensures Wired(signals) && deps == newDeps && Covers(connections, deps)
      ensures ok <==> null !in newDeps
      ensures ok ==> |connections| == |deps|
      ensures AllWired(others, signals)
    {
      DisconnectAll(signals);
      deps := newDeps;
      connections := ConnectAll(deps, signals);
      ok := |connections| == |deps|;
      forall m, s | m in others && s in signals ensures Exactly(m, s, s.handlers, m.connections) {
        OthersKeepTheirs(this, m, s, old(s.handlers), s.handlers, m.connections);
      }
    }

    /** DerivedNode.disconnect. */
    method Disconnect(ghost others: set<DerivedNode>, ghost signals: set<Signal>)
      requires Wired(signals) && this !in others && AllWired(others, signals)
      modifies this, signals
      ensures Wired(signals) && connections == [] && deps == old(deps)
      ensures AllWired(others, signals)
    {
      DisconnectAll(signals);
      forall m, s | m in others && s in signals ensures Exactly(m, s, s.handlers, m.connections) {
        OthersKeepTheirs(this, m, s, old(s.handlers), s.handlers, m.connections);
      }
    }
  }

  /** Every node's handlers are exactly its connections. */
  ghost predicate AllWired(nodes: set<DerivedNode>, signals: set<Signal>)
    reads nodes, signals
  {
    forall n | n in nodes :: n.Wired(signals)
  }

  /** Construction: a missing dependency refuses the node before any signal is touched. */
  method Construct(deps: seq<Signal?>, ghost nodes: set<DerivedNode>, ghost signals: set<Signal>)
    returns (node: DerivedNode?)
    requires AllWired(nodes, signals)
    requires forall s | s in signals :: NoDuplicates(s.handlers)
    requires forall d | d in deps && d != null :: d in signals
    modifies signals
    ensures node == null <==> null in deps
    ensures node == null ==> forall s | s in signals :: s.handlers == old(s.handlers)
    ensures AllWired(nodes, signals)
    ensures node != null ==>
              && fresh(node) && node.deps == deps && node.Wired(signals)
              && |node.connections| == |deps| && Covers(node.connections, deps)
  {
    if null in deps {
      return null;
    }
    var n := new DerivedNode();
    assert forall s, x | s in signals && x in s.handlers :: x.owner != n;
    var ok := n.SetDeps(deps, nodes, signals);
    node := n;
  }

  function Own(hs: seq<Slot>, n: DerivedNode): seq<Slot> {
    if hs == [] then [] else (if hs[0].owner == n then [hs[0]] else []) + Own(hs[1..], n)
  }

  lemma {:induction false} OwnRemoved(hs: seq<Slot>, x: Slot, n: DerivedNode)
    requires x in hs && x.owner == n
    ensures |Own(RemoveFirst(hs, x), n)| == |Own(hs, n)| - 1
    decreases |hs|
  {
    if hs[0] != x {
      assert x in hs[1..];
      OwnRemoved(hs[1..], x, n);
      assert RemoveFirst(hs, x)[1..] == RemoveFirst(hs[1..], x);
    }
  }

  lemma {:induction false} NoneOwn(hs: seq<Slot>, n: DerivedNode)
    requires forall x | x in hs :: x.owner != n
    ensures Own(hs, n) == []
    decreases |hs|
  {
    if hs != [] {
      NoneOwn(hs[1..], n);
    }
  }

  lemma CountTail(ds: seq<Signal?>, s: Signal)
    requires ds != []
    ensures multiset(ds)[s] == (if ds[0] == s then 1 else 0) + multiset(ds[1..])[s]
  {
    assert ds == [ds[0]] + ds[1..];
  }

  lemma OwnDropped(n: DerivedNode, s: Signal, hs: seq<Slot>, cs: seq<Connection>)
    requires cs != [] && Owned(n, cs) && Exactly(n, s, hs, cs)
    ensures |Own(if s == cs[0].signal then RemoveFirst(hs, cs[0].slot) else hs, n)|
              == |Own(hs, n)| - (if s == cs[0].signal then 1 else 0)
  {
    assert cs[0] in cs;
    if s == cs[0].signal {
      OwnRemoved(hs, cs[0].slot, n);
    }
  }

  /** As many of n's handlers sit on a signal as the dependencies name it. */
  lemma {:induction false} HandlersCountDependencies(n: DerivedNode, s: Signal, hs: seq<Slot>, cs: seq<Connection>,
                                                     ds: seq<Signal?>)
    requires Owned(n, cs) && Exactly(n, s, hs, cs) && |cs| == |ds| && Follows(cs, ds)
    ensures |Own(hs, n)| == multiset(ds)[s]
    decreases |cs|
  {
    if cs == [] {
      NoneOwn(hs, n);
    } else {
      Dropped(n, s, hs, cs);
      OwnDropped(n, s, hs, cs);
      CountTail(ds, s);
      HandlersCountDependencies(n, s, if s == cs[0].signal then RemoveFirst(hs, cs[0].slot) else hs, cs[1..], ds[1..]);
    }
  }

  /** A fully connected node hears a signal exactly when it is one of its current dependencies. */
  lemma HearsExactlyItsDependencies(n: DerivedNode, signals: set<Signal>, s: Signal)
    requires n.Wired(signals) && |n.connections| == |n.deps| && Covers(n.connections, n.deps) && s in signals
    ensures |Own(s.handlers, n)| == multiset(n.deps)[s]
    ensures (exists x | x in s.handlers :: x.owner == n) <==> s in n.deps
  {
    assert Exactly(n, s, s.handlers, n.connections);
    HandlersCountDependencies(n, s, s.handlers, n.connections, n.deps);
    forall x | x in s.handlers && x.owner == n ensures s in n.deps {
      assert Connection(s, x) in n.connections;
    }
    if s in n.deps {
      var i :| 0 <= i < |n.deps| && n.deps[i] == s;
      assert n.connections[i].slot in s.handlers;
    }
  }
}
