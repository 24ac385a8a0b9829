// Runs of the engine, one step longer.
module Runs {
  import opened DagGraph
  import opened Engine

  lemma {:induction false} OkRunThen(g: Graph, s: State, acts: seq<Action>, m: State, act: Action)
    requires WellFormed(g, s) && OkRun(g, s, acts, m) && WellFormed(g, m) && Enabled(g, m, act) && Act(g, m, act).1
    ensures OkRun(g, s, acts + [act], Act(g, m, act).0)
    decreases |acts|
  {
    if acts == [] {
      assert (acts + [act])[0] == act && (acts + [act])[1..] == [];
    } else {
      Snoc(acts, act);
      OkRunThen(g, Act(g, s, acts[0]).0, acts[1..], m, act);
    }
  }

  lemma {:induction false} OkRunIsRun(g: Graph, s: State, acts: seq<Action>, t: State)
    requires WellFormed(g, s) && OkRun(g, s, acts, t)
    ensures WellFormed(g, t) && Run(g, s, acts, t)
    decreases |acts|
  {
    if acts != [] {
      OkRunIsRun(g, Act(g, s, acts[0]).0, acts[1..], t);
    }
  }

  lemma {:induction false} RunThen(g: Graph, s: State, acts: seq<Action>, m: State, act: Action)
    requires WellFormed(g, s) && Run(g, s, acts, m) && WellFormed(g, m) && Enabled(g, m, act)
    ensures Run(g, s, acts + [act], Act(g, m, act).0)
    decreases |acts|
  {
    if acts == [] {
      assert (acts + [act])[0] == act && (acts + [act])[1..] == [];
    } else {
      Snoc(acts, act);
      RunThen(g, Act(g, s, acts[0]).0, acts[1..], m, act);
    }
  }

  /** A step that raises after a run that did not makes it a run that raises. */
  lemma {:induction false} RaisesAtLast(g: Graph, s: State, acts: seq<Action>, m: State, act: Action, t: State)
    requires WellFormed(g, s) && OkRun(g, s, acts, m) && WellFormed(g, m) && Enabled(g, m, act) && !Act(g, m, act).1
    ensures !OkRun(g, s, acts + [act], t)
    decreases |acts|
  {
    if acts == [] {
      RaisesAtOnce(g, s, acts + [act], t);
    } else {
      Snoc(acts, act);
      RaisesAtLast(g, Act(g, s, acts[0]).0, acts[1..], m, act, t);
      NotOkTail(g, s, acts + [act], t);
    }
  }

  /** A step before a run. */
  lemma RunFrom(g: Graph, s: State, act: Action, rest: seq<Action>, t: State)
    requires WellFormed(g, s) && Enabled(g, s, act) && Run(g, Act(g, s, act).0, rest, t)
    ensures Run(g, s, [act] + rest, t)
  {
    assert ([act] + rest)[1..] == rest;
  }

  lemma Snoc(acts: seq<Action>, act: Action)
    requires acts != []
    ensures (acts + [act])[0] == acts[0] && (acts + [act])[1..] == acts[1..] + [act]
  {
  }

  lemma RaisesAtOnce(g: Graph, s: State, acts: seq<Action>, t: State)
    requires WellFormed(g, s) && acts != [] && Enabled(g, s, acts[0]) && !Act(g, s, acts[0]).1
    ensures !OkRun(g, s, acts, t)
  {
  }

  lemma NotOkTail(g: Graph, s: State, acts: seq<Action>, t: State)
    requires WellFormed(g, s) && acts != [] && Enabled(g, s, acts[0]) && !OkRun(g, Act(g, s, acts[0]).0, acts[1..], t)
    ensures !OkRun(g, s, acts, t)
  {
  }
}
