// Handing writes to the processor thread, counting them, and the drain that
// stop_processor runs: every interleaving of the producers' threads with the
// processor's, one step at a time.
module Shutdown {

  /** One call of submit_to_processor. */
  datatype Ticket = Ticket(n: int)

  /** Counted under the lock, handed to the loop, run there, and its future resolved. */
  datatype Stage = Counted | Handed | Ran(ok: bool) | Resolved(ok: bool)

  /**
   * The done-callback: not attached yet, waiting for the future, or, when the
   * future was resolved before it was attached, being run by the producer's own
   * thread in two steps; then over.
   */
  datatype Callback = Unattached | Attached | CalledLate | DiscountedLate | Over

  datatype Submission = Submission(stage: Stage, callback: Callback)

  /** `queued` is the number of queued refresh events; `exit` holds what was counted when the drain loop left. */
  datatype State = State(subs: map<Ticket, Submission>, pending: int, applied: set<Ticket>, logged: set<Ticket>,
                         queued: int, drained: bool, seen: set<Ticket>)

  datatype Step =
    | Count(t: Ticket)
    | Hand(t: Ticket)
    | Attach(t: Ticket)
    | RunWork(t: Ticket, ok: bool, cascade: int)
    | Resolve(t: Ticket)
    | DiscountLate(t: Ticket)
    | LogLate(t: Ticket)
    | RunInline(t: Ticket, ok: bool, cascade: int)
    | ProcessPending
    | Leave

  predicate Enabled(s: State, p: Step) {
    match p
    case Count(t) => t !in s.subs
    case Hand(t) => t in s.subs && s.subs[t].stage.Counted?
    case Attach(t) => t in s.subs && !s.subs[t].stage.Counted? && s.subs[t].callback.Unattached?
    case RunWork(t, ok, cascade) => t in s.subs && s.subs[t].stage.Handed? && 0 <= cascade && (!ok ==> cascade == 0)
    case Resolve(t) => t in s.subs && s.subs[t].stage.Ran?
    case DiscountLate(t) => t in s.subs && s.subs[t].callback.CalledLate?
    case LogLate(t) => t in s.subs && s.subs[t].callback.DiscountedLate?
    case RunInline(t, ok, cascade) => t !in s.subs && 0 <= cascade && (!ok ==> cascade == 0)
    case ProcessPending => true
    case Leave => !s.drained && s.pending == 0 && s.queued == 0
  }

  function WithCallback(s: State, t: Ticket, c: Callback): State
    requires t in s.subs
  {
    s.(subs := s.subs[t := s.subs[t].(callback := c)])
  }

  function WithStage(s: State, t: Ticket, stage: Stage): State
    requires t in s.subs
  {
    s.(subs := s.subs[t := s.subs[t].(stage := stage)])
  }

  /** The write landed with its cascade, or it did not. */
  function Work(s: State, t: Ticket, ok: bool, cascade: int): State {
    if ok then s.(applied := s.applied + {t}, queued := s.queued + cascade) else s
  }

  function Log(s: State, t: Ticket): State
    requires t in s.subs
  {
    var stage := s.subs[t].stage;
    if (stage.Resolved? || stage.Ran?) && !stage.ok then s.(logged := s.logged + {t}) else s
  }

  function Apply(s: State, p: Step): State
    requires Enabled(s, p)
  {
    match p
    case Count(t) => s.(subs := s.subs[t := Submission(Counted, Unattached)], pending := s.pending + 1)
    case Hand(t) => WithStage(s, t, Handed)
    case Attach(t) => WithCallback(s, t, if s.subs[t].stage.Resolved? then CalledLate else Attached)
    case RunWork(t, ok, cascade) => Work(WithStage(s, t, Ran(ok)), t, ok, cascade)
    case Resolve(t) =>
      var s1 := WithStage(s, t, Resolved(s.subs[t].stage.ok));
      // An attached callback runs in the same turn of the processor.
      if s.subs[t].callback.Attached? then Log(WithCallback(s1.(pending := s1.pending - 1), t, Over), t) else s1
    case DiscountLate(t) => WithCallback(s.(pending := s.pending - 1), t, DiscountedLate)
    case LogLate(t) => Log(WithCallback(s, t, Over), t)
    case RunInline(t, ok, cascade) =>
      Log(Work(s.(subs := s.subs[t := Submission(Resolved(ok), Over)]), t, ok, cascade), t)
    case ProcessPending => s.(queued := 0)
    case Leave => s.(drained := true, seen := s.subs.Keys)
  }

  ghost predicate Run(s: State, steps: seq<Step>, t: State)
    decreases |steps|
  {
    if steps == [] then s == t else Enabled(s, steps[0]) && Run(Apply(s, steps[0]), steps[1..], t)
  }

  const START := State(map[], 0, {}, {}, 0, false, {})

  // ------------------------------------------------------------- invariant

  predicate Open(x: Submission) {
    x.callback.Unattached? || x.callback.Attached? || x.callback.CalledLate?
  }

  /** The submissions not yet discounted. */
  function Unfinished(subs: map<Ticket, Submission>): set<Ticket> {
    set t | t in subs && Open(subs[t])
  }

  predicate HasRun(subs: map<Ticket, Submission>, t: Ticket, ok: bool) {
    t in subs && (subs[t].stage.Ran? || subs[t].stage.Resolved?) && subs[t].stage.ok == ok
  }

  /** What a submission's progress says about its effects. */
  predicate Recorded(s: State, t: Ticket) {
    && (t in s.subs && !Open(s.subs[t]) ==> s.subs[t].stage.Resolved?)
    && (t in s.subs && s.subs[t].callback.CalledLate? ==> s.subs[t].stage.Resolved?)
    && (t in s.applied <==> HasRun(s.subs, t, true))
    && (t in s.logged <==> HasRun(s.subs, t, false) && s.subs[t].callback.Over?)
  }

  /** Everything the drain saw counted when it left had been discounted. */
  predicate Settled(s: State, t: Ticket) {
    t in s.seen ==> t in s.subs && !Open(s.subs[t])
  }

  ghost predicate Sound(s: State) {
    && s.pending == |Unfinished(s.subs)|
    && (forall t {:trigger Recorded(s, t)} :: Recorded(s, t))
    && (forall t {:trigger Settled(s, t)} :: Settled(s, t))
  }

  lemma Updated(subs: map<Ticket, Submission>, t: Ticket, x: Submission)
    ensures |Unfinished(subs[t := x])| == |Unfinished(subs)| + (if Open(x) then 1 else 0)
                                          - (if t in subs && Open(subs[t]) then 1 else 0)
  {
    var before, after := Unfinished(subs), Unfinished(subs[t := x]);
    assert after - {t} == before - {t};
    assert after == if Open(x) then (before - {t}) + {t} else before - {t};
    assert t in before ==> before == (before - {t}) + {t};
    assert t !in before ==> before == before - {t};
  }

  /** The count follows the set of unfinished submissions through one step. */
  lemma PendingFollows(s: State, p: Step)
    requires Enabled(s, p) && s.pending == |Unfinished(s.subs)|
    requires forall t {:trigger Recorded(s, t)} :: Recorded(s, t)
    ensures Apply(s, p).pending == |Unfinished(Apply(s, p).subs)|
  {
    if !p.ProcessPending? && !p.Leave? {
      assert Recorded(s, p.t);
      var u := Apply(s, p);
      Updated(s.subs, p.t, u.subs[p.t]);
      assert u.subs == s.subs[p.t := u.subs[p.t]];
    }
  }

  lemma RecordedKept(s: State, p: Step, t: Ticket)
    requires Enabled(s, p) && Recorded(s, t)
    ensures Recorded(Apply(s, p), t)
  {
    if Touches(p, t) {
      RecordedHere(s, p, t);
    } else {
      RecordedElsewhere(s, p, t);
    }
  }

  /** The step is one of submission t. */
  predicate Touches(p: Step, t: Ticket) {
    !p.ProcessPending? && !p.Leave? && p.t == t
  }

  lemma RecordedElsewhere(s: State, p: Step, t: Ticket)
    requires Enabled(s, p) && Recorded(s, t) && !Touches(p, t)
    ensures Recorded(Apply(s, p), t)
  {
    var u := Apply(s, p);
    assert t in u.subs <==> t in s.subs;
    assert t in s.subs ==> u.subs[t] == s.subs[t];
    assert (t in u.applied <==> t in s.applied) && (t in u.logged <==> t in s.logged);
  }

  lemma RecordedHere(s: State, p: Step, t: Ticket)
    requires Enabled(s, p) && Recorded(s, t) && Touches(p, t)
    ensures Recorded(Apply(s, p), t)
  {
  }

  lemma SettledKept(s: State, p: Step, t: Ticket)
    requires Sound(s) && Enabled(s, p)
    ensures Settled(Apply(s, p), t)
  {
    assert Settled(s, t) && Recorded(s, t);
    if p.Leave? {
      assert Unfinished(s.subs) == {};
      assert t in s.subs && Open(s.subs[t]) ==> t in Unfinished(s.subs);
    }
  }

  lemma StepKeeps(s: State, p: Step)
    requires Sound(s) && Enabled(s, p)
    ensures Sound(Apply(s, p))
  {
    PendingFollows(s, p);
    forall t ensures Recorded(Apply(s, p), t) {
      RecordedKept(s, p, t);
    }
    forall t ensures Settled(Apply(s, p), t) {
      SettledKept(s, p, t);
    }
  }

  lemma {:induction false} RunKeeps(s: State, steps: seq<Step>, t: State)
    requires Sound(s) && Run(s, steps, t)
    ensures Sound(t)
    decreases |steps|
  {
    if steps != [] {
      StepKeeps(s, steps[0]);
      RunKeeps(Apply(s, steps[0]), steps[1..], t);
    }
  }

  lemma StartIsSound()
    ensures Sound(START)
  {
    assert Unfinished(START.subs) == {};
  }

  // --------------------------------------------------------------- theorems

  /** pending_submissions is the handed-over submissions minus the finished ones, over every interleaving. */
  lemma PendingCountsUnfinished(steps: seq<Step>, s: State)
    requires Run(START, steps, s)
    ensures s.pending == |Unfinished(s.subs)|
  {
    StartIsSound();
    RunKeeps(START, steps, s);
  }

  /**
   * No confirmed write vanishes: once the drain loop has left, every submission
   * counted before its last check has run, and its write is applied if and only
   * if it succeeded. A failed one is in the log if and only if its callback is
   * over: it is missing only while a producer that attached the callback late,
   * and so runs it on its own thread, has not written the line yet.
   */
  lemma NoWriteVanishes(steps: seq<Step>, s: State, t: Ticket)
    requires Run(START, steps, s) && t in s.seen
    ensures t in s.subs && s.subs[t].stage.Resolved?
    ensures t in s.applied <==> s.subs[t].stage.ok
    ensures t in s.logged <==> !s.subs[t].stage.ok && s.subs[t].callback.Over?
    ensures s.subs[t].callback.DiscountedLate? || s.subs[t].callback.Over?
  {
    StartIsSound();
    RunKeeps(START, steps, s);
    assert Settled(s, t) && Recorded(s, t);
  }

  /**
   * The drain leaves exactly when nothing is queued and every counted submission
   * is discounted: no cascade of a landed write is left unprocessed.
   */
  lemma DrainLeavesAtRest(steps: seq<Step>, s: State)
    requires Run(START, steps, s)
    ensures Enabled(s, Leave) <==>
            && !s.drained && s.queued == 0
            && forall t | t in s.subs :: s.subs[t].callback.DiscountedLate? || s.subs[t].callback.Over?
  {
    PendingCountsUnfinished(steps, s);
    if forall t | t in s.subs :: !Open(s.subs[t]) {
      assert Unfinished(s.subs) == {};
    } else {
      var t :| t in s.subs && Open(s.subs[t]);
      assert t in Unfinished(s.subs);
    }
  }

  /** A landed write queues its cascade, and a failed one nothing. */
  lemma WorkQueuesItsCascade(s: State, t: Ticket, ok: bool, cascade: int)
    requires Enabled(s, RunWork(t, ok, cascade))
    ensures var u := Apply(s, RunWork(t, ok, cascade));
      && u.queued == s.queued + cascade && u.pending == s.pending
      && (t in u.applied <==> ok || t in s.applied) && u.subs[t].stage == Ran(ok)
  {
  }

  /** The drain can leave before such a failure is logged: its callback discounts first and logs after. */
  lemma DrainCanLeaveBeforeTheLog(t: Ticket)
    ensures exists steps, s :: Run(START, steps, s) && t in s.seen && t !in s.logged && t !in s.applied
  {
    var s1 := Apply(START, Count(t));
    var s2 := Apply(s1, Hand(t));
    var s3 := Apply(s2, RunWork(t, false, 0));
    var s4 := Apply(s3, Resolve(t));
    var s5 := Apply(s4, Attach(t));
    var s6 := Apply(s5, DiscountLate(t));
    var s7 := Apply(s6, Leave);
    assert Run(s7, [], s7);
    RunFrom(s6, Leave, [], s7);
    RunFrom(s5, DiscountLate(t), [Leave], s7);
    RunFrom(s4, Attach(t), [DiscountLate(t), Leave], s7);
    RunFrom(s3, Resolve(t), [Attach(t), DiscountLate(t), Leave], s7);
    RunFrom(s2, RunWork(t, false, 0), [Resolve(t), Attach(t), DiscountLate(t), Leave], s7);
    RunFrom(s1, Hand(t), [RunWork(t, false, 0), Resolve(t), Attach(t), DiscountLate(t), Leave], s7);
    RunFrom(START, Count(t), [Hand(t), RunWork(t, false, 0), Resolve(t), Attach(t), DiscountLate(t), Leave], s7);
  }

  lemma RunFrom(s: State, p: Step, rest: seq<Step>, t: State)
    requires Enabled(s, p) && Run(Apply(s, p), rest, t)
    ensures Run(s, [p] + rest, t)
  {
    assert ([p] + rest)[1..] == rest;
  }
}
