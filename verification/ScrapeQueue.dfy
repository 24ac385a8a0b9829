// The durable scrape queue: claims, reports, stale claims, backoff and the
// terminal failed state.
module ScrapeQueue {
  import opened Attempts
  import opened Powers

  const MAX_ATTEMPTS := 8
  const BACKOFF_BASE := 60
  const BACKOFF_CAP := 3600
  const STALE_CLAIM := 900

  datatype Status = Waiting | InProgress | Failed

  /** A primary key. */
  datatype Key = Key(n: int)

  /** A row of pending_scrapes; times are seconds. */
  datatype Job = Job(rid: string, url: string, attempts: int, nextRetryAt: int, status: Status,
                     claimedAt: Option<int>, lastError: Option<string>, createdAt: int)

  /**
   * The table by primary key. Keys are never reused. `claims` counts how often
   * each job was ever claimed and `failedAt` remembers its latest failed
   * attempt; both are history, not columns.
   */
  datatype Store = Store(rows: map<Key, Job>, nextId: int, claims: map<Key, int>, failedAt: map<Key, int>)

  predicate Active(j: Job) {
    j.status == Waiting || j.status == InProgress
  }

  function BackoffDelay(attempts: int): int {
    if BACKOFF_BASE * Power(2, attempts) <= BACKOFF_CAP then BACKOFF_BASE * Power(2, attempts) else BACKOFF_CAP
  }

  // ------------------------------------------------------------ operations

  predicate HasActive(rows: map<Key, Job>, rid: string) {
    exists id | id in rows :: rows[id].rid == rid && Active(rows[id])
  }

  /** enqueue_scrape: a no-op when a job of the property is active. */
  function Enqueue(s: Store, rid: string, url: string, now: int): (Store, bool) {
    if HasActive(s.rows, rid) then (s, false)
    else
      var added := Job(rid, url, 0, now, Waiting, None, None, now);
      (s.(rows := s.rows[Key(s.nextId) := added], nextId := s.nextId + 1), true)
  }

  predicate IsStale(j: Job, now: int) {
    j.status == InProgress && j.claimedAt.Some? && j.claimedAt.value <= now - STALE_CLAIM
  }

  /** A failed attempt: back to waiting after the backoff, or failed for good. */
  function AfterFailure(j: Job, error: Option<string>, now: int, release: bool): Job {
    var attempts := j.attempts + 1;
    if attempts >= MAX_ATTEMPTS then j.(attempts := attempts, status := Failed, lastError := error)
    else j.(attempts := attempts, status := Waiting, lastError := error, nextRetryAt := now + BackoffDelay(attempts),
            claimedAt := if release then None else j.claimedAt)
  }

  const DIED := Some("worker died before reporting")

  function StaleClaims(rows: map<Key, Job>, now: int): set<Key> {
    set id | id in rows && IsStale(rows[id], now)
  }

  /** The claims `ids` count as failed attempts. */
  function Restart(s: Store, ids: set<Key>, now: int): Store {
    s.(rows := map id | id in s.rows :: if id in ids then AfterFailure(s.rows[id], DIED, now, true) else s.rows[id],
       failedAt := s.failedAt + map id | id in ids :: now)
  }

  /** The first half of claim_due_scrape: abandoned claims count as failed attempts. */
  function RequeueStale(s: Store, now: int): Store {
    Restart(s, StaleClaims(s.rows, now), now)
  }

  predicate Due(rows: map<Key, Job>, now: int, id: Key) {
    id in rows && rows[id].status == Waiting && rows[id].nextRetryAt <= now
  }

  /** id is a due job no due job is older than. */
  ghost predicate OldestDue(rows: map<Key, Job>, now: int, id: Key) {
    Due(rows, now, id) && forall other | Due(rows, now, other) :: rows[id].createdAt <= rows[other].createdAt
  }

  function ClaimCount(s: Store, id: Key): int {
    if id in s.claims then s.claims[id] else 0
  }

  /** The second half of claim_due_scrape on the picked job. */
  function MarkClaimed(s: Store, id: Key, now: int): Store
    requires id in s.rows
  {
    s.(rows := s.rows[id := s.rows[id].(status := InProgress, claimedAt := Some(now))],
       claims := s.claims[id := ClaimCount(s, id) + 1])
  }

  function Claim(s: Store, now: int, pick: Option<Key>): Store
    requires pick.Some? ==> pick.value in s.rows
  {
    var s1 := RequeueStale(s, now);
    if pick.Some? then MarkClaimed(s1, pick.value, now) else s1
  }

  /** report_scrape: whatever the job's status is, as in the source. */
  function Report(s: Store, id: Key, ok: bool, error: Option<string>, now: int): (Store, Option<string>) {
    if id !in s.rows then (s, None)
    else if ok then (s.(rows := s.rows - {id}), Some(s.rows[id].rid))
    else
      (s.(rows := s.rows[id := AfterFailure(s.rows[id], error, now, false)], failedAt := s.failedAt[id := now]), None)
  }

  /** cancel_scrape_for_rid. */
  function Cancel(s: Store, rid: string): (Store, bool) {
    var kept := map id | id in s.rows && s.rows[id].rid != rid :: s.rows[id];
    (s.(rows := kept), kept != s.rows)
  }

  // ------------------------------------------------------------------ runs

  datatype Op =
    | EnqueueOp(rid: string, url: string, now: int)
    | ClaimOp(now: int, pick: Option<Key>)
    | ReportOp(id: Key, ok: bool, error: Option<string>, now: int)
    | CancelOp(rid: string)

  /** A claim picks an oldest due job of the table after the stale claims went back, or nothing when none is due. */
  ghost predicate Enabled(s: Store, op: Op) {
    match op
    case ClaimOp(now, pick) =>
      var rows := RequeueStale(s, now).rows;
      if pick.Some? then OldestDue(rows, now, pick.value) && pick.value in s.rows
      else forall id :: !Due(rows, now, id)
    case _ => true
  }

  function Apply(s: Store, op: Op): Store
    requires op.ClaimOp? && op.pick.Some? ==> op.pick.value in s.rows
  {
    match op
    case EnqueueOp(rid, url, now) => Enqueue(s, rid, url, now).0
    case ClaimOp(now, pick) => Claim(s, now, pick)
    case ReportOp(id, ok, error, now) => Report(s, id, ok, error, now).0
    case CancelOp(rid) => Cancel(s, rid).0
  }

  ghost predicate Run(s: Store, ops: seq<Op>, t: Store)
    decreases |ops|
  {
    if ops == [] then s == t else Enabled(s, ops[0]) && Run(Apply(s, ops[0]), ops[1..], t)
  }

  // ------------------------------------------------------------- invariants

  /** One job of a sound table. */
  ghost predicate SoundJob(s: Store, id: Key) {
    id in s.rows ==>
      var j := s.rows[id];
      && id.n < s.nextId
      && 0 <= j.attempts && (Active(j) <==> j.attempts < MAX_ATTEMPTS)
      && ClaimCount(s, id) <= j.attempts + (if j.status == InProgress then 1 else 0)
      && (0 < j.attempts ==> id in s.failedAt)
      && (j.status == Waiting && id in s.failedAt ==> s.failedAt[id] + BackoffDelay(j.attempts) <= j.nextRetryAt)
  }

  ghost predicate OneActivePerRid(rows: map<Key, Job>) {
    forall a, b | a in rows && b in rows && Active(rows[a]) && Active(rows[b]) && rows[a].rid == rows[b].rid :: a == b
  }

  ghost predicate Sound(s: Store) {
    && (forall id {:trigger SoundJob(s, id)} :: SoundJob(s, id))
    && OneActivePerRid(s.rows)
    && (forall id {:trigger ClaimCount(s, id)} :: 0 <= ClaimCount(s, id) <= MAX_ATTEMPTS)
    && (forall id | id in s.claims || id in s.failedAt :: id.n < s.nextId)
  }

  lemma EnqueueKeeps(s: Store, rid: string, url: string, now: int)
    requires Sound(s)
    ensures Sound(Enqueue(s, rid, url, now).0)
  {
    if HasActive(s.rows, rid) {
      return;
    }
    assert !HasActive(s.rows, rid);
    var t := Enqueue(s, rid, url, now).0;
    var added := Key(s.nextId);
    assert added !in s.claims && added !in s.failedAt && SoundJob(s, added);
    forall id ensures SoundJob(t, id) && 0 <= ClaimCount(t, id) <= MAX_ATTEMPTS {
      assert SoundJob(s, id) && ClaimCount(t, id) == ClaimCount(s, id);
    }
    forall id | id in s.rows && Active(s.rows[id]) ensures s.rows[id].rid != rid {
    }
    assert OneActivePerRid(t.rows);
  }

  lemma RequeueStaleKeeps(s: Store, now: int)
    requires Sound(s)
    ensures Sound(RequeueStale(s, now))
  {
    var t := RequeueStale(s, now);
    forall id | id in t.failedAt ensures id.n < t.nextId {
      assert SoundJob(s, id);
    }
    forall id ensures SoundJob(t, id) && 0 <= ClaimCount(t, id) <= MAX_ATTEMPTS {
      RestartedIsSound(s, now, id);
    }
    forall a, b | a in t.rows && b in t.rows && Active(t.rows[a]) && Active(t.rows[b]) && t.rows[a].rid == t.rows[b].rid
      ensures a == b {
      assert Active(s.rows[a]) && Active(s.rows[b]);
    }
  }

  lemma RestartedIsSound(s: Store, now: int, id: Key)
    requires Sound(s)
    ensures SoundJob(RequeueStale(s, now), id) && 0 <= ClaimCount(RequeueStale(s, now), id) <= MAX_ATTEMPTS
  {
    assert SoundJob(s, id) && 0 <= ClaimCount(s, id) <= MAX_ATTEMPTS;
  }

  lemma MarkClaimedKeeps(s: Store, id: Key, now: int)
    requires Sound(s) && Due(s.rows, now, id)
    ensures Sound(MarkClaimed(s, id, now))
  {
    var t := MarkClaimed(s, id, now);
    assert SoundJob(s, id);
    forall other ensures SoundJob(t, other) && 0 <= ClaimCount(t, other) <= MAX_ATTEMPTS {
      assert SoundJob(s, other) && 0 <= ClaimCount(s, other) <= MAX_ATTEMPTS;
    }
    forall a, b | a in t.rows && b in t.rows && Active(t.rows[a]) && Active(t.rows[b]) && t.rows[a].rid == t.rows[b].rid
      ensures a == b {
      assert Active(s.rows[a]) && Active(s.rows[b]);
    }
  }

  lemma ReportKeeps(s: Store, id: Key, ok: bool, error: Option<string>, now: int)
    requires Sound(s)
    ensures Sound(Report(s, id, ok, error, now).0)
  {
    var t := Report(s, id, ok, error, now).0;
    assert SoundJob(s, id);
    forall other ensures SoundJob(t, other) && 0 <= ClaimCount(t, other) <= MAX_ATTEMPTS {
      assert SoundJob(s, other) && 0 <= ClaimCount(s, other) <= MAX_ATTEMPTS;
    }
    forall a, b | a in t.rows && b in t.rows && Active(t.rows[a]) && Active(t.rows[b]) && t.rows[a].rid == t.rows[b].rid
      ensures a == b {
      assert Active(s.rows[a]) && Active(s.rows[b]);
    }
  }

  lemma CancelKeeps(s: Store, rid: string)
    requires Sound(s)
    ensures Sound(Cancel(s, rid).0)
  {
    var t := Cancel(s, rid).0;
    forall id ensures SoundJob(t, id) && 0 <= ClaimCount(t, id) <= MAX_ATTEMPTS {
      assert SoundJob(s, id) && 0 <= ClaimCount(s, id) <= MAX_ATTEMPTS;
    }
  }

  lemma ApplyKeeps(s: Store, op: Op)
    requires Sound(s) && Enabled(s, op)
    ensures Sound(Apply(s, op))
  {
    match op
    case EnqueueOp(rid, url, now) => EnqueueKeeps(s, rid, url, now);
    case ClaimOp(now, pick) =>
      RequeueStaleKeeps(s, now);
      if pick.Some? {
        MarkClaimedKeeps(RequeueStale(s, now), pick.value, now);
      }
    case ReportOp(id, ok, error, now) => ReportKeeps(s, id, ok, error, now);
    case CancelOp(rid) => CancelKeeps(s, rid);
  }

  lemma {:induction false} RunKeeps(s: Store, ops: seq<Op>, t: Store)
    requires Sound(s) && Run(s, ops, t)
    ensures Sound(t)
    decreases |ops|
  {
    if ops != [] {
      ApplyKeeps(s, ops[0]);
      RunKeeps(Apply(s, ops[0]), ops[1..], t);
    }
  }

  // --------------------------------------------------------------- theorems

  const EMPTY := Store(map[], 0, map[], map[])

  /**
   * Over every run from an empty table: no job is ever claimed more than
   * MAX_ATTEMPTS times, deleted jobs included; a stored job's claims are
   * covered by its attempts; and a property has at most one active job.
   */
  lemma ClaimsAreBounded(ops: seq<Op>, t: Store, id: Key)
    requires Run(EMPTY, ops, t)
    ensures ClaimCount(t, id) <= 8
    ensures id in t.rows ==>
              ClaimCount(t, id) <= t.rows[id].attempts + (if t.rows[id].status == InProgress then 1 else 0)
    ensures OneActivePerRid(t.rows)
  {
    assert Sound(EMPTY) by {
      forall id ensures SoundJob(EMPTY, id) && ClaimCount(EMPTY, id) == 0 {
      }
    }
    RunKeeps(EMPTY, ops, t);
    assert SoundJob(t, id);
    assert ClaimCount(t, id) <= MAX_ATTEMPTS;
  }

  /** Failed is left only by deletion, and a failed job is never claimed again. */
  lemma {:induction false} FailedIsTerminal(s: Store, ops: seq<Op>, t: Store, id: Key)
    requires Sound(s) && Run(s, ops, t) && id in s.rows && s.rows[id].status == Failed
    ensures id in t.rows ==> t.rows[id].status == Failed
    ensures ClaimCount(t, id) == ClaimCount(s, id)
    decreases |ops|
  {
    if ops != [] {
      var next := Apply(s, ops[0]);
      ApplyKeeps(s, ops[0]);
      assert SoundJob(s, id) && SoundJob(next, id);
      if id in next.rows {
        FailedIsTerminal(next, ops[1..], t, id);
      } else {
        DeletedKeepsClaims(next, ops[1..], t, id);
      }
    }
  }

  /** Keys are not reused: a deleted job stays deleted and is never claimed again. */
  lemma {:induction false} DeletedKeepsClaims(s: Store, ops: seq<Op>, t: Store, id: Key)
    requires Sound(s) && Run(s, ops, t) && id.n < s.nextId && id !in s.rows
    ensures id !in t.rows && ClaimCount(t, id) == ClaimCount(s, id)
    decreases |ops|
  {
    if ops != [] {
      ApplyKeeps(s, ops[0]);
      DeletedKeepsClaims(Apply(s, ops[0]), ops[1..], t, id);
    }
  }

  /** A job is claimed no earlier than the backoff of its latest failed attempt, stale claims included. */
  lemma ClaimRespectsBackoff(ops: seq<Op>, t: Store, now: int, id: Key)
    requires Run(EMPTY, ops, t) && Enabled(t, ClaimOp(now, Some(id)))
    ensures var before := RequeueStale(t, now);
      && id in before.rows && before.rows[id].status == Waiting
      && (0 < before.rows[id].attempts ==> id in before.failedAt)
      && (id in before.failedAt ==> before.failedAt[id] + BackoffDelay(before.rows[id].attempts) <= now)
  {
    assert Sound(EMPTY) by {
      forall id ensures SoundJob(EMPTY, id) && ClaimCount(EMPTY, id) == 0 {
      }
    }
    RunKeeps(EMPTY, ops, t);
    RequeueStaleKeeps(t, now);
    assert SoundJob(RequeueStale(t, now), id);
  }

  /** The backoff doubles until it reaches the cap, and stays there. */
  lemma BackoffDoubles(attempts: int)
    requires 0 <= attempts
    ensures BackoffDelay(attempts) <= BackoffDelay(attempts + 1) <= 3600
    ensures BackoffDelay(attempts + 1) < 3600 ==> BackoffDelay(attempts + 1) == 2 * BackoffDelay(attempts)
    ensures 6 <= attempts ==> BackoffDelay(attempts) == 3600
    ensures BackoffDelay(1) == 120
  {
    PowerMonotone(2, attempts, attempts + 1);
    assert Power(2, 1) == 2;
    if 6 <= attempts {
      PowerMonotone(2, 6, attempts);
      assert Power(2, 6) == 64;
    }
  }

  // ------------------------------------------------ the table, row by row

  /** Every row but `id` is as it was. */
  ghost predicate OtherRowsKept(a: map<Key, Job>, b: map<Key, Job>, id: Key) {
    forall other | other != id :: (other in b <==> other in a) && (other in a ==> b[other] == a[other])
  }

  /** Cancelling drops every job of the property, failed ones too, and tells whether there was one. */
  lemma CancelDropsEveryJob(s: Store, rid: string)
    ensures var (t, dropped) := Cancel(s, rid);
      && (forall id :: id in t.rows <==> id in s.rows && s.rows[id].rid != rid)
      && (forall id | id in t.rows :: t.rows[id] == s.rows[id])
      && (dropped <==> exists id :: id in s.rows && s.rows[id].rid == rid)
      && t.nextId == s.nextId
  {
    if forall id | id in s.rows :: s.rows[id].rid != rid {
      assert Cancel(s, rid).0.rows == s.rows;
    }
  }

  /** Without a waiting or claimed job of the property one is added, due at once; with one nothing changes. */
  lemma EnqueueAddsAFreshJob(s: Store, rid: string, url: string, now: int)
    requires Sound(s)
    ensures var (t, queued) := Enqueue(s, rid, url, now);
      && (queued <==> forall id | id in s.rows && s.rows[id].rid == rid :: s.rows[id].status == Failed)
      && (!queued ==> t == s)
      && (queued ==>
            var id := Key(s.nextId);
            && id !in s.rows && id in t.rows && OtherRowsKept(s.rows, t.rows, id) && Due(t.rows, now, id)
            && t.rows[id] == Job(rid, url, 0, now, Waiting, None, None, now))
  {
    var (t, queued) := Enqueue(s, rid, url, now);
    if queued {
      assert SoundJob(s, Key(s.nextId)) && Key(s.nextId) !in s.rows;
      assert Due(t.rows, now, Key(s.nextId));
      assert forall id | id in s.rows && s.rows[id].rid == rid :: !Active(s.rows[id]);
    }
  }

  /** What one failed attempt makes of a job. */
  predicate FailedOnce(j: Job, k: Job, error: Option<string>, now: int) {
    && k.rid == j.rid && k.url == j.url && k.createdAt == j.createdAt
    && k.attempts == j.attempts + 1 && k.lastError == error
    && if j.attempts + 1 < 8
       then k.status == Waiting && k.nextRetryAt == now + BackoffDelay(j.attempts + 1)
       else k.status == Failed && k.nextRetryAt == j.nextRetryAt && k.claimedAt == j.claimedAt
  }

  /** A report: success deletes the job, a failure counts an attempt on it with its error, an unknown job is ignored. */
  lemma ReportTouchesOneJob(s: Store, id: Key, ok: bool, error: Option<string>, now: int)
    ensures var (t, rid) := Report(s, id, ok, error, now);
      && OtherRowsKept(s.rows, t.rows, id)
      && (id !in s.rows ==> t == s && rid == None)
      && (id in s.rows && ok ==> id !in t.rows && rid == Some(s.rows[id].rid))
      && (id in s.rows && !ok ==>
            && rid == None && id in t.rows && FailedOnce(s.rows[id], t.rows[id], error, now)
            && t.rows[id].claimedAt == s.rows[id].claimedAt)
  {
  }

  /** A claim abandoned for a quarter of an hour is a failed attempt whose job may be claimed again. */
  lemma AbandonedClaimsFail(s: Store, now: int, id: Key)
    ensures var t := RequeueStale(s, now);
      && (id in t.rows <==> id in s.rows)
      && (id in s.rows ==>
            var j := s.rows[id];
            if j.status == InProgress && j.claimedAt.Some? && j.claimedAt.value + 900 <= now then
              && FailedOnce(j, t.rows[id], Some("worker died before reporting"), now)
              && (t.rows[id].status == Waiting ==> t.rows[id].claimedAt == None)
            else t.rows[id] == j)
  {
  }

  /**
   * A claim takes a job that waits and is due, none of which was created before
   * it, marks it as claimed now and changes nothing else; without such a job
   * nothing is claimed.
   */
  lemma ClaimMarksItsJob(s: Store, now: int, pick: Option<Key>)
    requires Enabled(s, ClaimOp(now, pick))
    ensures var (t, rows) := (Claim(s, now, pick), RequeueStale(s, now).rows);
      match pick
      case None =>
        && t == RequeueStale(s, now)
        && forall id | id in rows && rows[id].status == Waiting :: now < rows[id].nextRetryAt
      case Some(id) =>
        && id in rows && rows[id].status == Waiting && rows[id].nextRetryAt <= now
        && (forall other | other in rows && rows[other].status == Waiting && rows[other].nextRetryAt <= now ::
              rows[id].createdAt <= rows[other].createdAt)
        && id in t.rows && t.rows[id] == rows[id].(status := InProgress, claimedAt := Some(now))
        && OtherRowsKept(rows, t.rows, id)
  {
    var rows := RequeueStale(s, now).rows;
    assert forall id :: Due(rows, now, id) <==> id in rows && rows[id].status == Waiting && rows[id].nextRetryAt <= now;
  }

  // ------------------------------------------------------------- in place

  lemma RestartOne(s: Store, ids: set<Key>, id: Key, now: int)
    requires id in s.rows && id !in ids
    ensures var t := Restart(s, ids, now);
      && id in t.rows && t.rows[id] == s.rows[id]
      && Restart(s, ids + {id}, now) == t.(rows := t.rows[id := AfterFailure(s.rows[id], DIED, now, true)],
                                           failedAt := t.failedAt[id := now])
  {
    var t, u := Restart(s, ids, now), Restart(s, ids + {id}, now);
    assert u.rows == t.rows[id := AfterFailure(s.rows[id], DIED, now, true)];
    assert u.failedAt == t.failedAt[id := now];
  }

  class ScrapeTable {
    var rows: map<Key, Job>
    var nextId: int
    ghost var claims: map<Key, int>
    ghost var failedAt: map<Key, int>

    ghost function Contents(): Store
      reads this
    {
      Store(rows, nextId, claims, failedAt)
    }

    constructor ()
      ensures Contents() == EMPTY
    {
      rows, nextId, claims, failedAt := map[], 0, map[], map[];
    }

    method EnqueueScrape(rid: string, url: string, now: int) returns (queued: bool)
      modifies this
      ensures (Contents(), queued) == Enqueue(old(Contents()), rid, url, now)
    {
      if HasActive(rows, rid) {
        return false;
      }
      rows := rows[Key(nextId) := Job(rid, url, 0, now, Waiting, None, None, now)];
      nextId := nextId + 1;
      return true;
    }

    /** The stale claims, one row at a time. */
    method RequeueStaleClaims(now: int)
      modifies this
      ensures Contents() == RequeueStale(old(Contents()), now)
    {
      ghost var start := Contents();
      ghost var handled := {};
      var stale := StaleClaims(rows, now);
      assert Contents() == Restart(start, {}, now);
      while stale != {}
        invariant stale !! handled && handled + stale == StaleClaims(start.rows, now)
        invariant Contents() == Restart(start, handled, now)
        decreases stale
      {
        var id :| id in stale;
        RestartOne(start, handled, id, now);
        rows := rows[id := AfterFailure(rows[id], DIED, now, true)];
        failedAt := failedAt[id := now];
        stale, handled := stale - {id}, handled + {id};
      }
      assert handled == StaleClaims(start.rows, now);
    }

    /** The oldest due job, if any is due. */
    method PickDue(now: int) returns (pick: Option<Key>)
      ensures pick.Some? ==> OldestDue(rows, now, pick.value)
      ensures pick.None? ==> forall id {:trigger Due(rows, now, id)} :: !Due(rows, now, id)
    {
      var due := set id | id in rows && Due(rows, now, id);
      assert forall id {:trigger Due(rows, now, id)} :: Due(rows, now, id) ==> id in due;
      if due == {} {
        return None;
      }
      var best :| best in due;
      var rest := due - {best};
      while rest != {}
        invariant best in due && rest <= due
        invariant forall other | other in due - rest :: rows[best].createdAt <= rows[other].createdAt
        decreases rest
      {
        var id :| id in rest;
        if rows[id].createdAt < rows[best].createdAt {
          best := id;
        }
        rest := rest - {id};
      }
      return Some(best);
    }

    /** claim_due_scrape. */
    method ClaimDueScrape(now: int) returns (claimed: Option<Key>)
      modifies this
      ensures claimed.Some? ==> claimed.value in old(rows)
      ensures Enabled(old(Contents()), ClaimOp(now, claimed))
      ensures Contents() == Claim(old(Contents()), now, claimed)
    {
      RequeueStaleClaims(now);
      claimed := PickDue(now);
      if claimed.Some? {
        claims := claims[claimed.value := ClaimCount(Contents(), claimed.value) + 1];
        rows := rows[claimed.value := rows[claimed.value].(status := InProgress, claimedAt := Some(now))];
      }
    }

    method ReportScrape(id: Key, ok: bool, error: Option<string>, now: int) returns (rid: Option<string>)
      modifies this
      ensures (Contents(), rid) == Report(old(Contents()), id, ok, error, now)
    {
      if id !in rows {
        return None;
      }
      if ok {
        rid := Some(rows[id].rid);
        rows := rows - {id};
        return;
      }
      rows := rows[id := AfterFailure(rows[id], error, now, false)];
      failedAt := failedAt[id := now];
      return None;
    }

    method CancelScrape(rid: string) returns (dropped: bool)
      modifies this
      ensures (Contents(), dropped) == Cancel(old(Contents()), rid)
      ensures forall id :: id in rows <==> id in old(rows) && old(rows)[id].rid != rid
    {
      var kept := map id | id in rows && rows[id].rid != rid :: rows[id];
      dropped := kept != rows;
      rows := kept;
    }
  }
}
