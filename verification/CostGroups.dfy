// Pricing a public-transport journey: the accumulator that groups its legs and
// puts the fares on the groups. Money is pence.
module CostGroups {
  import opened Attempts

  /** A leg of a journey response; `details` stands for everything but its mode. */
  datatype Leg = Leg(mode: Option<string>, details: string)

  datatype FareEntry = FareEntry(mode: Option<string>, cost: Option<int>)

  datatype Fare = Fare(total: Option<int>, entries: seq<FareEntry>)

  datatype Journey = Journey(duration: Option<int>, legs: seq<Leg>, fare: Option<Fare>)

  datatype CostGroup = CostGroup(legs: seq<Leg>, operator: string, cost: Option<int>)

  const WALKING := "walking"
  const NO_DURATION := 9999

  /** The mode name a leg is grouped by; a leg without one is a transit leg of mode "?". */
  function ModeOf(l: Leg): (m: string)
    ensures m != ""
  {
    if l.mode.Some? && l.mode.value != "" then l.mode.value else "?"
  }

  predicate IsTransit(l: Leg) {
    ModeOf(l) != WALKING
  }

  /** What the accumulator is built from: single fares by mode, and the whole-journey fare. */
  datatype Prices = Prices(byMode: map<string, int>, total: Option<int>)

  /** The per-mode dictionary of the fare entries; a later entry of a mode wins. */
  function ByMode(entries: seq<FareEntry>): map<string, int> {
    if entries == [] then map[]
    else
      var e := entries[|entries| - 1];
      var rest := ByMode(entries[..|entries| - 1]);
      if e.cost.Some? && e.mode.Some? && e.mode.value != "" then rest[e.mode.value := e.cost.value] else rest
  }

  function PricesOf(j: Journey): Prices {
    match j.fare
    case None => Prices(map[], None)
    case Some(f) => Prices(ByMode(f.entries), f.total)
  }

  // ----------------------------------------------------- the accumulator

  datatype Acc = Acc(groups: seq<CostGroup>, legs: seq<Leg>, mode: Option<string>, inTransit: bool, totalApplied: bool)

  const EMPTY := Acc([], [], None, false, false)

  function AddWalking(a: Acc, l: Leg): Acc {
    if a.inTransit then a.(legs := a.legs + [l])
    else a.(groups := a.groups + [CostGroup([l], "", None)])
  }

  /** The fare the accumulated legs are emitted with, and whether the whole-journey fare is now spent. */
  function Charge(p: Prices, a: Acc): (Option<int>, bool) {
    if a.mode.Some? && a.mode.value in p.byMode then (Some(2 * p.byMode[a.mode.value]), a.totalApplied)
    else if p.total.Some? && !a.totalApplied then (Some(2 * p.total.value), true)
    else (None, a.totalApplied)
  }

  function Flush(p: Prices, a: Acc): Acc {
    if a.legs == [] then a
    else
      var (cost, applied) := Charge(p, a);
      Acc(a.groups + [CostGroup(a.legs, "TfL", cost)], [], None, a.inTransit, applied)
  }

  function AddTransit(p: Prices, a: Acc, l: Leg): Acc {
    var m := ModeOf(l);
    var a1 := if a.mode.Some? && a.mode.value != m && (p.byMode != map[] || a.inTransit) then Flush(p, a) else a;
    var a2 := if !a1.inTransit && a1.legs != []
              then a1.(groups := a1.groups + [CostGroup(a1.legs, "", None)], legs := [])
              else a1;
    a2.(inTransit := true, mode := Some(m), legs := a2.legs + [l])
  }

  function AddLeg(p: Prices, a: Acc, l: Leg): Acc {
    if IsTransit(l) then AddTransit(p, a, l) else AddWalking(a, l)
  }

  function Accumulated(p: Prices, legs: seq<Leg>): Acc {
    if legs == [] then EMPTY
    else AddLeg(p, Accumulated(p, legs[..|legs| - 1]), legs[|legs| - 1])
  }

  function Build(p: Prices, legs: seq<Leg>): seq<CostGroup> {
    Flush(p, Accumulated(p, legs)).groups
  }

  // ------------------------------------------------ what the groups mean

  function LegsOf(gs: seq<CostGroup>): seq<Leg> {
    if gs == [] then [] else LegsOf(gs[..|gs| - 1]) + gs[|gs| - 1].legs
  }

  function Total(gs: seq<CostGroup>): int {
    if gs == [] then 0
    else
      var cost := gs[|gs| - 1].cost;
      Total(gs[..|gs| - 1]) + (if cost.Some? then cost.value else 0)
  }

  /** The modes of the maximal same-mode runs of transit legs; walks do not split a run. */
  function Runs(legs: seq<Leg>): seq<string> {
    if legs == [] then []
    else
      var before, last := Runs(legs[..|legs| - 1]), legs[|legs| - 1];
      if !IsTransit(last) || (before != [] && before[|before| - 1] == ModeOf(last)) then before
      else before + [ModeOf(last)]
  }

  predicate Unpriced(p: Prices, runs: seq<string>) {
    exists i | 0 <= i < |runs| :: runs[i] !in p.byMode
  }

  /** The per-mode fares of the runs, once per run. */
  function RunFares(p: Prices, runs: seq<string>): int {
    if runs == [] then 0
    else
      var m := runs[|runs| - 1];
      RunFares(p, runs[..|runs| - 1]) + (if m in p.byMode then p.byMode[m] else 0)
  }

  /** The return fare of the runs: every priced run its own fare, the first unpriced run the whole-journey fare. */
  function ReturnFare(p: Prices, runs: seq<string>): int {
    2 * RunFares(p, runs) + (if p.total.Some? && Unpriced(p, runs) then 2 * p.total.value else 0)
  }

  /** A group is one leading walk without a cost, or a transit leg and the legs up to the next change of mode. */
  predicate IsRun(c: CostGroup, m: string) {
    && c.operator == "TfL" && c.legs != [] && IsTransit(c.legs[0])
    && forall i | 0 <= i < |c.legs| && IsTransit(c.legs[i]) :: ModeOf(c.legs[i]) == m
  }

  predicate IsLeadingWalk(c: CostGroup) {
    |c.legs| == 1 && !IsTransit(c.legs[0]) && c.operator == "" && c.cost == None
  }

  /** The groups are leading walks and then exactly the runs, in order. */
  predicate Grouped(gs: seq<CostGroup>, runs: seq<string>) {
    && |runs| <= |gs|
    && (forall i | 0 <= i < |gs| - |runs| :: IsLeadingWalk(gs[i]))
    && (forall i | |gs| - |runs| <= i < |gs| :: IsRun(gs[i], runs[i - (|gs| - |runs|)]))
  }

  /** What run i costs: its own return fare, or the whole-journey fare if it is the first run without one. */
  function RunCost(p: Prices, runs: seq<string>, i: int): Option<int>
    requires 0 <= i < |runs|
  {
    if runs[i] in p.byMode then Some(2 * p.byMode[runs[i]])
    else if p.total.Some? && !Unpriced(p, runs[..i]) then Some(2 * p.total.value)
    else None
  }

  /** The groups of the runs carry exactly the costs of the runs; no cost is put on a group that has none. */
  predicate Costed(p: Prices, gs: seq<CostGroup>, runs: seq<string>) {
    |runs| <= |gs| && forall i | 0 <= i < |runs| :: gs[|gs| - |runs| + i].cost == RunCost(p, runs, i)
  }

  // -------------------------------------------------------- the invariant

  /** The mode of the run that is still open. */
  function Current(a: Acc): seq<string> {
    if a.mode.Some? then [a.mode.value] else []
  }

  /** The runs `done` are emitted, and the accumulated legs are the open run. */
  predicate Shaped(runs: seq<string>, a: Acc, done: seq<string>) {
    && runs == done + Current(a)
    && (a.inTransit <==> a.mode.Some?)
    && (if a.mode.Some? then IsRun(CostGroup(a.legs, "TfL", None), a.mode.value) else done == [] && a.legs == [])
  }

  /** The emitted groups cost the return fare of the emitted runs. */
  predicate Charged(p: Prices, a: Acc, done: seq<string>) {
    a.totalApplied == (p.total.Some? && Unpriced(p, done)) && Total(a.groups) == ReturnFare(p, done)
  }

  predicate Holds(p: Prices, legs: seq<Leg>, a: Acc, done: seq<string>) {
    && Shaped(Runs(legs), a, done)
    && LegsOf(a.groups) + a.legs == legs
    && Charged(p, a, done)
    && Grouped(a.groups, done)
    && Costed(p, a.groups, done)
  }

  lemma Appended(gs: seq<CostGroup>, c: CostGroup)
    ensures LegsOf(gs + [c]) == LegsOf(gs) + c.legs
    ensures Total(gs + [c]) == Total(gs) + (if c.cost.Some? then c.cost.value else 0)
  {
    assert (gs + [c])[..|gs|] == gs;
  }

  lemma RunAppended(p: Prices, runs: seq<string>, m: string)
    ensures RunFares(p, runs + [m]) == RunFares(p, runs) + (if m in p.byMode then p.byMode[m] else 0)
    ensures Unpriced(p, runs + [m]) <==> Unpriced(p, runs) || m !in p.byMode
  {
    var all := runs + [m];
    assert all[..|runs|] == runs;
    if Unpriced(p, runs) {
      var i :| 0 <= i < |runs| && runs[i] !in p.byMode;
      assert all[i] !in p.byMode;
    }
    assert all[|runs|] == m;
  }

  lemma RunsAppended(legs: seq<Leg>, l: Leg)
    ensures Runs(legs + [l]) ==
            if !IsTransit(l) || (Runs(legs) != [] && Runs(legs)[|Runs(legs)| - 1] == ModeOf(l)) then Runs(legs)
            else Runs(legs) + [ModeOf(l)]
  {
    assert (legs + [l])[..|legs|] == legs;
  }

  lemma GroupedAppended(gs: seq<CostGroup>, done: seq<string>, c: CostGroup, m: string)
    requires Grouped(gs, done) && IsRun(c, m)
    ensures Grouped(gs + [c], done + [m])
  {
  }

  lemma ReturnFareAppended(p: Prices, runs: seq<string>, m: string)
    ensures ReturnFare(p, runs + [m]) == ReturnFare(p, runs) + (
              if m in p.byMode then 2 * p.byMode[m]
              else if p.total.Some? && !Unpriced(p, runs) then 2 * p.total.value
              else 0)
    ensures Unpriced(p, runs + [m]) <==> Unpriced(p, runs) || m !in p.byMode
  {
    RunAppended(p, runs, m);
  }

  /** Emitting the open run charges it exactly. */
  lemma FlushCharges(p: Prices, a: Acc, done: seq<string>)
    requires a.mode.Some? && a.legs != [] && Charged(p, a, done)
    ensures Charged(p, Flush(p, a), done + [a.mode.value])
  {
    Appended(a.groups, CostGroup(a.legs, "TfL", Charge(p, a).0));
    ReturnFareAppended(p, done, a.mode.value);
  }

  lemma FlushGroups(p: Prices, a: Acc, done: seq<string>)
    requires a.mode.Some? && IsRun(CostGroup(a.legs, "TfL", None), a.mode.value) && Grouped(a.groups, done)
    ensures Grouped(Flush(p, a).groups, done + [a.mode.value])
    ensures LegsOf(Flush(p, a).groups) == LegsOf(a.groups) + a.legs
  {
    var c := CostGroup(a.legs, "TfL", Charge(p, a).0);
    Appended(a.groups, c);
    GroupedAppended(a.groups, done, c, a.mode.value);
  }

  /** The emitted group carries the cost of its run. */
  lemma FlushCosts(p: Prices, a: Acc, done: seq<string>)
    requires a.mode.Some? && a.legs != [] && Charged(p, a, done) && Costed(p, a.groups, done)
    ensures Costed(p, Flush(p, a).groups, done + [a.mode.value])
  {
    var c := CostGroup(a.legs, "TfL", Charge(p, a).0);
    CostAppended(p, a.groups, done, c, a.mode.value);
  }

  lemma CostAppended(p: Prices, gs: seq<CostGroup>, done: seq<string>, c: CostGroup, m: string)
    requires Costed(p, gs, done)
    requires c.cost == (if m in p.byMode then Some(2 * p.byMode[m])
                        else if p.total.Some? && !Unpriced(p, done) then Some(2 * p.total.value) else None)
    ensures Costed(p, gs + [c], done + [m])
  {
    var all, runs := gs + [c], done + [m];
    forall i | 0 <= i < |runs| ensures all[|all| - |runs| + i].cost == RunCost(p, runs, i) {
      if i < |done| {
        assert runs[..i] == done[..i];
        assert gs[|gs| - |done| + i].cost == RunCost(p, done, i);
      } else {
        assert runs[..i] == done;
      }
    }
  }

  /** A walk before any transit leg is a group of its own. */
  lemma LeadingWalkHolds(p: Prices, legs: seq<Leg>, a: Acc, done: seq<string>, l: Leg)
    requires Holds(p, legs, a, done) && !IsTransit(l) && a.mode.None?
    ensures Holds(p, legs + [l], AddLeg(p, a, l), done)
  {
    RunsAppended(legs, l);
    Appended(a.groups, CostGroup([l], "", None));
  }

  /** A leg that joins the open run, or opens the first one. */
  lemma JoiningHolds(p: Prices, legs: seq<Leg>, a: Acc, done: seq<string>, l: Leg, m: string)
    requires Holds(p, legs, a, done) && (IsTransit(l) ==> ModeOf(l) == m) && (a.mode.None? ==> IsTransit(l))
    requires a.mode.Some? ==> a.mode.value == m
    ensures AddLeg(p, a, l) == a.(inTransit := true, mode := Some(m), legs := a.legs + [l])
    ensures Holds(p, legs + [l], a.(inTransit := true, mode := Some(m), legs := a.legs + [l]), done)
  {
    RunsAppended(legs, l);
    assert LegsOf(a.groups) + (a.legs + [l]) == legs + [l];
    JoinedRun(a.legs, m, l, a.mode);
  }

  lemma JoinedRun(legs: seq<Leg>, m: string, l: Leg, mode: Option<string>)
    requires if mode.Some? then IsRun(CostGroup(legs, "TfL", None), m) else legs == [] && IsTransit(l)
    requires IsTransit(l) ==> ModeOf(l) == m
    ensures IsRun(CostGroup(legs + [l], "TfL", None), m)
  {
  }

  /** A transit leg of another mode emits the open run and opens its own. */
  lemma TurningHolds(p: Prices, legs: seq<Leg>, a: Acc, done: seq<string>, l: Leg)
    requires Holds(p, legs, a, done) && IsTransit(l) && a.mode.Some? && a.mode.value != ModeOf(l)
    ensures AddLeg(p, a, l) == Flush(p, a).(mode := Some(ModeOf(l)), legs := [l])
    ensures Holds(p, legs + [l], Flush(p, a).(mode := Some(ModeOf(l)), legs := [l]), done + [a.mode.value])
  {
    RunsAppended(legs, l);
    FlushCharges(p, a, done);
    FlushGroups(p, a, done);
    FlushCosts(p, a, done);
    JoinedRun([], ModeOf(l), l, None);
    assert [] + [l] == [l];
  }

  lemma StepHolds(p: Prices, legs: seq<Leg>, a: Acc, done: seq<string>, l: Leg) returns (now: seq<string>)
    requires Holds(p, legs, a, done)
    ensures Holds(p, legs + [l], AddLeg(p, a, l), now)
  {
    now := done;
    if a.mode.None? && !IsTransit(l) {
      LeadingWalkHolds(p, legs, a, done, l);
    } else if a.mode.Some? && IsTransit(l) && a.mode.value != ModeOf(l) {
      TurningHolds(p, legs, a, done, l);
      now := done + [a.mode.value];
    } else {
      JoiningHolds(p, legs, a, done, l, if a.mode.Some? then a.mode.value else ModeOf(l));
    }
  }

  lemma {:induction false} AccumulatedHolds(p: Prices, legs: seq<Leg>) returns (done: seq<string>)
    ensures Holds(p, legs, Accumulated(p, legs), done)
    decreases |legs|
  {
    if legs == [] {
      done := [];
    } else {
      var front, l := legs[..|legs| - 1], legs[|legs| - 1];
      assert front + [l] == legs;
      done := AccumulatedHolds(p, front);
      done := StepHolds(p, front, Accumulated(p, front), done, l);
    }
  }

  // ------------------------------------------------------------- theorems

  /**
   * Conservation, for every journey: no leg is lost, invented or reordered, the
   * groups are the leading walks and then exactly the same-mode runs, each with
   * the cost of its run, and together they cost the return fare of those runs.
   */
  lemma BuildConserves(p: Prices, legs: seq<Leg>)
    ensures LegsOf(Build(p, legs)) == legs
    ensures Grouped(Build(p, legs), Runs(legs))
    ensures Total(Build(p, legs)) == ReturnFare(p, Runs(legs))
    ensures Costed(p, Build(p, legs), Runs(legs))
  {
    var done := AccumulatedHolds(p, legs);
    var a := Accumulated(p, legs);
    if a.mode.Some? {
      FlushCharges(p, a, done);
      FlushGroups(p, a, done);
      FlushCosts(p, a, done);
    }
  }

  // ------------------------------------------------------- the fare block

  /** e is a single fare of mode m. */
  predicate PricesMode(e: FareEntry, m: string) {
    e.mode == Some(m) && m != "" && e.cost.Some?
  }

  /** Entry i is the last one that prices m. */
  predicate LastPrice(entries: seq<FareEntry>, i: int, m: string) {
    0 <= i < |entries| && PricesMode(entries[i], m) && forall k | i < k < |entries| :: !PricesMode(entries[k], m)
  }

  predicate SomePrice(entries: seq<FareEntry>, m: string) {
    exists i | 0 <= i < |entries| :: PricesMode(entries[i], m)
  }

  lemma SomePriceSnoc(front: seq<FareEntry>, e: FareEntry, m: string)
    ensures SomePrice(front + [e], m) <==> SomePrice(front, m) || PricesMode(e, m)
  {
    var all := front + [e];
    if SomePrice(front, m) {
      var i :| 0 <= i < |front| && PricesMode(front[i], m);
      assert PricesMode(all[i], m);
    }
    assert all[|front|] == e;
  }

  lemma LastPriceSnoc(front: seq<FareEntry>, e: FareEntry, m: string, i: int)
    requires LastPrice(front + [e], i, m)
    ensures if PricesMode(e, m) then i == |front| else LastPrice(front, i, m)
  {
    var all := front + [e];
    assert all[|front|] == e;
    forall k | i < k < |front| ensures !PricesMode(front[k], m) {
      assert !PricesMode(all[k], m);
    }
  }

  lemma {:induction false} EntriesAreRead(entries: seq<FareEntry>, m: string)
    ensures m in ByMode(entries) <==> SomePrice(entries, m)
    ensures forall i | LastPrice(entries, i, m) :: m in ByMode(entries) && ByMode(entries)[m] == entries[i].cost.value
    decreases |entries|
  {
    if entries != [] {
      var front, e := entries[..|entries| - 1], entries[|entries| - 1];
      assert front + [e] == entries;
      EntriesAreRead(front, m);
      SomePriceSnoc(front, e, m);
      forall i | LastPrice(entries, i, m) ensures m in ByMode(entries) && ByMode(entries)[m] == entries[i].cost.value {
        LastPriceSnoc(front, e, m, i);
      }
    }
  }

  /**
   * What is read off the fare block: a mode has a single fare if and only if some
   * entry prices it, the last such entry deciding; the whole-journey fare is the
   * total as it stands; without a block there is neither.
   */
  lemma FareBlockIsRead(j: Journey, m: string)
    ensures m in PricesOf(j).byMode <==>
            j.fare.Some? && SomePrice(j.fare.value.entries, m)
    ensures j.fare.Some? ==> forall i | LastPrice(j.fare.value.entries, i, m) ::
              m in PricesOf(j).byMode && PricesOf(j).byMode[m] == j.fare.value.entries[i].cost.value
    ensures PricesOf(j).total == if j.fare.Some? then j.fare.value.total else None
  {
    if j.fare.Some? {
      EntriesAreRead(j.fare.value.entries, m);
    }
  }

  lemma OneRun(l: Leg)
    requires IsTransit(l)
    ensures Runs([l]) == [ModeOf(l)]
  {
    RunsAppended([], l);
    assert [] + [l] == [l] && [] + [ModeOf(l)] == [ModeOf(l)];
  }

  /** A journey of one transit leg whose mode the block prices at c costs twice c, whatever the total says. */
  lemma SingleFareIsDoubled(j: Journey, l: Leg, i: int)
    requires j.legs == [l] && l.mode.Some? && l.mode.value != "" && l.mode.value != "walking"
    requires j.fare.Some? && LastPrice(j.fare.value.entries, i, l.mode.value)
    ensures Total(Build(PricesOf(j), j.legs)) == 2 * j.fare.value.entries[i].cost.value
  {
    var p, m := PricesOf(j), l.mode.value;
    FareBlockIsRead(j, m);
    BuildConserves(p, j.legs);
    OneRun(l);
    RunAppended(p, [], m);
    assert [] + [m] == [m];
  }

  /** A single transit leg of a mode without a fare of its own costs the whole-journey fare. */
  lemma UnpricedLegTakesTheTotal(p: Prices, l: Leg, m: string)
    requires IsTransit(l) && ModeOf(l) == m && m !in p.byMode && p.total.Some?
    ensures Total(Build(p, [l])) == 2 * p.total.value
  {
    BuildConserves(p, [l]);
    OneRun(l);
    FirstUnpriced(p, m);
  }

  lemma FirstUnpriced(p: Prices, m: string)
    requires m !in p.byMode && p.total.Some?
    ensures ReturnFare(p, [m]) == 2 * p.total.value
  {
    assert RunFares(p, [m]) == RunFares(p, [m][..0]);
    assert [m][0] !in p.byMode;
  }

  lemma UnnamedIsTransit(l: Leg)
    requires l.mode == None || l.mode == Some("")
    ensures IsTransit(l) && ModeOf(l) == "?"
  {
  }

  /** A leg without a mode is transit of an unnamed mode: alone it costs the whole-journey fare. */
  lemma UnnamedLegTakesTheTotal(j: Journey, l: Leg)
    requires j.legs == [l] && (l.mode == None || l.mode == Some(""))
    requires j.fare.Some? && j.fare.value.total.Some? && !SomePrice(j.fare.value.entries, "?")
    ensures Total(Build(PricesOf(j), j.legs)) == 2 * j.fare.value.total.value
  {
    UnnamedIsTransit(l);
    FareBlockIsRead(j, ModeOf(l));
    UnpricedLegTakesTheTotal(PricesOf(j), l, ModeOf(l));
  }

  lemma {:induction false} NoFares(p: Prices, runs: seq<string>)
    requires p.byMode == map[]
    ensures RunFares(p, runs) == 0
    decreases |runs|
  {
    if runs != [] {
      NoFares(p, runs[..|runs| - 1]);
    }
  }

  lemma {:induction false} SomeTransitRuns(legs: seq<Leg>)
    ensures Runs(legs) != [] <==> exists i | 0 <= i < |legs| :: IsTransit(legs[i])
    decreases |legs|
  {
    if legs != [] {
      SomeTransitRuns(legs[..|legs| - 1]);
      assert forall i | 0 <= i < |legs| - 1 :: legs[..|legs| - 1][i] == legs[i];
    }
  }

  /** With a whole-journey fare only, the groups cost exactly twice it as soon as one leg is transit. */
  lemma TotalFareLandsOnce(p: Prices, legs: seq<Leg>)
    requires p.byMode == map[] && p.total.Some?
    ensures Total(Build(p, legs)) == if exists i | 0 <= i < |legs| :: IsTransit(legs[i]) then 2 * p.total.value else 0
  {
    BuildConserves(p, legs);
    NoFares(p, Runs(legs));
    SomeTransitRuns(legs);
    if Runs(legs) != [] {
      assert Runs(legs)[0] !in p.byMode;
    }
  }

  /** The runs are maximal: neighbours differ. */
  lemma {:induction false} RunsAlternate(legs: seq<Leg>, i: int)
    requires 0 <= i < |Runs(legs)| - 1
    ensures Runs(legs)[i] != Runs(legs)[i + 1]
    decreases |legs|
  {
    var before := Runs(legs[..|legs| - 1]);
    if i < |before| - 1 {
      RunsAlternate(legs[..|legs| - 1], i);
    }
  }

  lemma {:induction false} RunsAreModes(legs: seq<Leg>, m: string)
    requires m in Runs(legs)
    ensures exists i | 0 <= i < |legs| :: IsTransit(legs[i]) && ModeOf(legs[i]) == m
    decreases |legs|
  {
    if legs != [] {
      var front := legs[..|legs| - 1];
      if m in Runs(front) {
        RunsAreModes(front, m);
        var i :| 0 <= i < |front| && IsTransit(front[i]) && ModeOf(front[i]) == m;
        assert IsTransit(legs[i]) && ModeOf(legs[i]) == m;
      }
    }
  }

  /** With a fare for every transit mode of the journey, the groups cost twice the fare of each run. */
  lemma EveryModePriced(p: Prices, legs: seq<Leg>)
    requires forall i | 0 <= i < |legs| && IsTransit(legs[i]) :: ModeOf(legs[i]) in p.byMode
    ensures Total(Build(p, legs)) == 2 * RunFares(p, Runs(legs))
  {
    BuildConserves(p, legs);
    forall m | m in Runs(legs) ensures m in p.byMode {
      RunsAreModes(legs, m);
    }
  }

  /**
   * "The sum of group costs equals the total exactly" is false in general: the
   * groups cost twice the whole-journey fare if and only if the per-mode fares
   * of the runs sum to nothing beside an unpriced run, or to that fare without one.
   */
  lemma SumEqualsTotalIff(p: Prices, legs: seq<Leg>)
    requires p.total.Some?
    ensures Total(Build(p, legs)) == 2 * p.total.value <==>
            RunFares(p, Runs(legs)) == if Unpriced(p, Runs(legs)) then 0 else p.total.value
  {
    BuildConserves(p, legs);
  }

  lemma TwoRuns(first: Leg, second: Leg)
    requires IsTransit(first) && IsTransit(second) && ModeOf(first) != ModeOf(second)
    ensures Runs([first, second]) == [ModeOf(first), ModeOf(second)]
  {
    RunsAppended([], first);
    assert [] + [first] == [first] && [] + [ModeOf(first)] == [ModeOf(first)];
    RunsAppended([first], second);
    assert [first] + [second] == [first, second];
  }

  lemma TwoFares(p: Prices, m: string, n: string)
    requires m in p.byMode && n !in p.byMode
    ensures RunFares(p, [m, n]) == p.byMode[m] && Unpriced(p, [m, n])
  {
    RunAppended(p, [], m);
    assert [] + [m] == [m];
    RunAppended(p, [m], n);
    assert [m] + [n] == [m, n];
  }

  /** A priced run beside an unpriced one, such as tube then bus, costs its fare and the whole-journey fare. */
  lemma PartialFaresAreChargedTwice(p: Prices, first: Leg, second: Leg)
    requires IsTransit(first) && IsTransit(second) && p.total.Some?
    requires ModeOf(first) in p.byMode && ModeOf(second) !in p.byMode
    ensures Total(Build(p, [first, second])) == 2 * (p.byMode[ModeOf(first)] + p.total.value)
  {
    BuildConserves(p, [first, second]);
    TwoRuns(first, second);
    TwoFares(p, ModeOf(first), ModeOf(second));
  }

  // ------------------------------------------------------------- in place

  class TransitCostGroups {
    const prices: Prices
    var groups: seq<CostGroup>
    var currentLegs: seq<Leg>
    var currentMode: Option<string>
    var inTransit: bool
    var totalApplied: bool

    ghost function State(): Acc
      reads this
    {
      Acc(groups, currentLegs, currentMode, inTransit, totalApplied)
    }

    constructor (prices: Prices)
      ensures this.prices == prices && State() == EMPTY
    {
      this.prices := prices;
      groups, currentLegs, currentMode, inTransit, totalApplied := [], [], None, false, false;
    }

    method AddWalkingLeg(l: Leg)
      modifies this
      ensures State() == AddWalking(old(State()), l)
    {
      if inTransit {
        currentLegs := currentLegs + [l];
        return;
      }
      groups := groups + [CostGroup([l], "", None)];
    }

    method AddTransitLeg(l: Leg)
      modifies this
      ensures State() == AddTransit(prices, old(State()), l)
    {
      var m := ModeOf(l);
      if currentMode.Some? && currentMode.value != m && (prices.byMode != map[] || inTransit) {
        FlushTransit();
      }
      if !inTransit && currentLegs != [] {
        groups := groups + [CostGroup(currentLegs, "", None)];
        currentLegs := [];
      }
      inTransit := true;
      currentMode := Some(m);
      currentLegs := currentLegs + [l];
    }

    method FlushTransit()
      modifies this
      ensures State() == Flush(prices, old(State()))
    {
      if currentLegs == [] {
        return;
      }
      var cost := None;
      if currentMode.Some? && currentMode.value in prices.byMode {
        cost := Some(2 * prices.byMode[currentMode.value]);
      } else if prices.total.Some? && !totalApplied {
        cost := Some(2 * prices.total.value);
        totalApplied := true;
      }
      groups := groups + [CostGroup(currentLegs, "TfL", cost)];
      currentLegs := [];
      currentMode := None;
    }

    method Finish() returns (all: seq<CostGroup>)
      modifies this
      ensures State() == Flush(prices, old(State())) && all == groups
    {
      FlushTransit();
      all := groups;
    }
  }

  function Minutes(j: Journey): int {
    if j.duration.Some? then j.duration.value else NO_DURATION
  }

  /** The first shortest journey. */
  predicate IsBest(js: seq<Journey>, i: int) {
    && 0 <= i < |js|
    && (forall k | 0 <= k < |js| :: Minutes(js[i]) <= Minutes(js[k]))
    && (forall k | 0 <= k < i :: Minutes(js[i]) < Minutes(js[k]))
  }

  /** A journey without a duration counts as 9999 minutes: it loses to a shorter one, and to an equal one before it. */
  lemma UntimedJourneyLoses(js: seq<Journey>, i: int, k: int)
    requires IsBest(js, i) && js[i].duration == None && 0 <= k < |js| && js[k].duration.Some?
    ensures 9999 <= js[k].duration.value && (k < i ==> 9999 < js[k].duration.value)
  {
  }

  method PickBest(js: seq<Journey>) returns (best: int)
    requires js != []
    ensures IsBest(js, best)
  {
    best := 0;
    for i := 1 to |js|
      invariant 0 <= best < i
      invariant forall k | 0 <= k < i :: Minutes(js[best]) <= Minutes(js[k])
      invariant forall k | 0 <= k < best :: Minutes(js[best]) < Minutes(js[k])
    {
      if Minutes(js[i]) < Minutes(js[best]) {
        best := i;
      }
    }
  }

  method CollectFares(entries: seq<FareEntry>) returns (fares: map<string, int>)
    ensures fares == ByMode(entries)
  {
    fares := map[];
    for i := 0 to |entries|
      invariant fares == ByMode(entries[..i])
    {
      var e := entries[i];
      assert entries[..i + 1][..i] == entries[..i];
      if e.cost.Some? && e.mode.Some? && e.mode.value != "" {
        fares := fares[e.mode.value := e.cost.value];
      }
    }
    assert entries[..|entries|] == entries;
  }

  method GroupLegs(prices: Prices, legs: seq<Leg>) returns (groups: seq<CostGroup>)
    ensures groups == Build(prices, legs)
  {
    var builder := new TransitCostGroups(prices);
    for i := 0 to |legs|
      invariant builder.prices == prices
      invariant builder.State() == Accumulated(prices, legs[..i])
    {
      assert legs[..i + 1][..i] == legs[..i];
      if ModeOf(legs[i]) == WALKING {
        builder.AddWalkingLeg(legs[i]);
      } else {
        builder.AddTransitLeg(legs[i]);
      }
    }
    assert legs[..|legs|] == legs;
    groups := builder.Finish();
  }

  /**
   * TflClient._build_cost_groups: the groups of the first shortest journey keep
   * its legs in order and cost the return fare of its runs.
   */
  method BuildCostGroups(js: seq<Journey>) returns (groups: seq<CostGroup>)
    ensures js == [] ==> groups == []
    ensures forall best | IsBest(js, best) ::
              && LegsOf(groups) == js[best].legs
              && Grouped(groups, Runs(js[best].legs))
              && Total(groups) == ReturnFare(PricesOf(js[best]), Runs(js[best].legs))
              && Costed(PricesOf(js[best]), groups, Runs(js[best].legs))
  {
    if js == [] {
      return [];
    }
    var best := PickBest(js);
    var journey := js[best];
    if journey.legs == [] {
      return [];
    }
    var entries := if journey.fare.Some? then journey.fare.value.entries else [];
    var fares := CollectFares(entries);
    var total := if journey.fare.Some? then journey.fare.value.total else None;
    groups := GroupLegs(Prices(fares, total), journey.legs);
    BuildConserves(PricesOf(journey), journey.legs);
  }

  /** The summing part of TflClient._process_data. */
  method DailyCost(groups: seq<CostGroup>) returns (total: int)
    ensures total == Total(groups)
  {
    total := 0;
    for i := 0 to |groups|
      invariant total == Total(groups[..i])
    {
      assert groups[..i + 1][..i] == groups[..i];
      if groups[i].cost.Some? {
        total := total + groups[i].cost.value;
      }
    }
    assert groups[..|groups|] == groups;
  }
}
