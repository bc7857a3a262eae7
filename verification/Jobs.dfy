/**
 The job queue of one tenant, as values, with the function each transaction of the store computes. A
 transaction that raises is rolled back, so an error leaves the tables as they were.
 */
module Jobs {
  import opened Core

  type Id = nat

  /** The text that Python prints for a missing run id. Job ids are never that text. */
  const NONE_TEXT: Id := 0

  datatype Kind =
    | Pipeline | Discover | Research | Analysis | Backtest | Forecast | RiskReview | ExecuteOrder | LogReview
    | Other(name: nat)

  /** The `pipeline_id` field of a payload: missing, JSON null, or a text. */
  datatype RunField = Absent | Null | Text(run: Id)

  datatype Payload = Payload(pipeline: RunField, parent: Option<Id>, autoExecute: bool, body: nat)

  /** Idempotency keys. `schedule:` keys are reserved for the scheduler. */
  datatype Key = Caller(text: nat) | FollowUp(job: Id, kind: Kind) | Bucket(schedule: Id, interval: real, bucket: int)

  datatype Status = Queued | Running | Succeeded | Deadletter

  datatype Job = Job(
    row: nat, kind: Kind, payload: Payload, key: Key, initialNotBefore: Option<real>, notBefore: real,
    status: Status, attempts: nat, maxAttempts: nat, worker: Option<Id>, token: nat, leaseUntil: Option<real>,
    result: Option<nat>, error: Option<nat>, createdAt: real, updatedAt: real, finishedAt: Option<real>)

  datatype EventBody =
    | JobQueued | JobClaimed(worker: Id, token: nat, attempts: nat) | JobSucceeded(worker: Id, token: nat)
    | FollowupEnqueued(next: Id, kind: Kind) | JobRequeued(attempts: nat, token: nat) | JobDeferred(token: nat)
    | RetryScheduled(attempts: nat) | JobDeadletter(attempts: nat) | LeaseExpired(token: nat, attempts: nat)
    | JobCancelled(run: Id) | ScheduleEnqueued(schedule: Id, bucket: int) | ScheduleMissed(schedule: Id, bucket: int)
    | ScheduleSaved(schedule: Id, created: bool) | Custom(name: nat)

  datatype Event = Event(job: Option<Id>, body: EventBody, at: real)

  datatype Overlap = Skip | SkipIfRunning | BufferOne | Allow

  datatype Schedule = Schedule(
    kind: Kind, payload: Payload, interval: real, enabled: bool, overlap: Overlap, catchup: real, nextRunAt: real)

  datatype Store = Store(
    jobs: map<Id, Job>, events: seq<Event>, cancelled: set<Id>, schedules: map<Id, Schedule>)

  datatype StoreError = Reserved | KeyConflict | RunCancelled | NotFound | NotDeadletter | SelfFollowUp | Collision

  const LEASE_EXPIRED := 1
  const CANCELLED_BY_OWNER := 2

  function EmptyStore(): Store {
    Store(map[], [], {}, map[])
  }

  predicate Active(j: Job) {
    j.status.Queued? || j.status.Running?
  }

  /** The run id that `_check_not_cancelled` looks up; null matches no row. */
  function RunOf(id: Id, p: Payload): Option<Id> {
    match p.pipeline
    case Absent => Some(id)
    case Null => None
    case Text(run) => Some(run)
  }

  predicate Cancelled(s: Store, id: Id, p: Payload) {
    RunOf(id, p).Some? && RunOf(id, p).value in s.cancelled
  }

  // Row updates with their events

  function Log(s: Store, id: Option<Id>, body: EventBody, now: real): Store {
    s.(events := s.events + [Event(id, body, now)])
  }

  /** UPDATE one job row and append its event. */
  function Put(s: Store, id: Id, j: Job, body: EventBody, now: real): Store {
    Log(s.(jobs := s.jobs[id := j]), Some(id), body, now)
  }

  predicate HasKey(s: Store, key: Key, id: Id) {
    id in s.jobs && s.jobs[id].key == key
  }

  function NewJob(row: nat, kind: Kind, p: Payload, key: Key, notBefore: Option<real>, maxAttempts: nat, now: real): Job {
    Job(row, kind, p, key, notBefore, if notBefore.Some? then notBefore.value else now, Queued, 0, maxAttempts,
        None, 0, None, None, None, now, now, None)
  }

  /** The stored request a key must match to count as a retry. */
  predicate SameRequest(j: Job, kind: Kind, p: Payload, notBefore: Option<real>, maxAttempts: nat) {
    j.kind == kind && j.payload == p && j.initialNotBefore == notBefore && j.maxAttempts == maxAttempts
  }

  ghost predicate KeyUsed(s: Store, key: Key) {
    exists id :: HasKey(s, key, id)
  }

  ghost function Holder(s: Store, key: Key): (id: Id)
    requires KeyUsed(s, key)
    ensures HasKey(s, key, id)
  {
    var id :| HasKey(s, key, id);
    id
  }

  /** `_enqueue`; `uuid` is the identifier drawn for a new row. */
  ghost function EnqueueRow(
    s: Store, uuid: Id, kind: Kind, p: Payload, key: Key, notBefore: Option<real>, maxAttempts: nat, now: real)
    : Result<(Store, Id), StoreError>
  {
    if KeyUsed(s, key) then
      if SameRequest(s.jobs[Holder(s, key)], kind, p, notBefore, maxAttempts) then Ok((s, Holder(s, key)))
      else Err(KeyConflict)
    else if Cancelled(s, uuid, p) then Err(StoreError.RunCancelled)
    else if uuid in s.jobs then Err(Collision)
    else Ok((Put(s, uuid, NewJob(|s.jobs|, kind, p, key, notBefore, maxAttempts, now), JobQueued, now), uuid))
  }

  ghost function Enqueue(
    s: Store, uuid: Id, kind: Kind, p: Payload, key: Key, notBefore: Option<real>, maxAttempts: nat, now: real)
    : Result<(Store, Id), StoreError>
  {
    if key.Bucket? then Err(Reserved) else EnqueueRow(s, uuid, kind, p, key, notBefore, maxAttempts, now)
  }

  // Leases

  /** The fence of heartbeat, complete, fail and defer. */
  predicate Holds(s: Store, id: Id, worker: Id, token: nat, now: real) {
    && id in s.jobs && s.jobs[id].worker == Some(worker) && s.jobs[id].token == token
    && s.jobs[id].status.Running? && s.jobs[id].leaseUntil.Some? && s.jobs[id].leaseUntil.value > now
  }

  predicate Expired(j: Job, now: real) {
    j.status.Running? && j.leaseUntil.Some? && j.leaseUntil.value <= now
  }

  /** One row of `_expire`: back to the queue, or dead when the budget is spent. */
  function ExpireOne(s: Store, id: Id, now: real): Store
    requires id in s.jobs
  {
    var j := s.jobs[id];
    var dead := j.attempts >= j.maxAttempts;
    var j1 := j.(status := if dead then Deadletter else Queued, worker := None, leaseUntil := None, notBefore := now,
                 updatedAt := now, finishedAt := if dead then Some(now) else None, error := Some(LEASE_EXPIRED));
    var s1 := Put(s, id, j1, LeaseExpired(j.token, j.attempts), now);
    if dead then Log(s1, Some(id), JobDeadletter(j.attempts), now) else s1
  }

  /** Expires the rows of `ids` in order; rows that are not expired are not selected. */
  function Expire(s: Store, ids: seq<Id>, now: real): Store {
    if ids == [] then s
    else
      var s1 := Expire(s, ids[..|ids| - 1], now);
      var id := ids[|ids| - 1];
      if id in s1.jobs && Expired(s1.jobs[id], now) then ExpireOne(s1, id, now) else s1
  }

  /** `ids` lists every row that the SELECT of `_expire` returns, in some order. */
  ghost predicate ListsExpired(s: Store, ids: seq<Id>, now: real) {
    forall id :: id in s.jobs && Expired(s.jobs[id], now) ==> id in ids
  }

  predicate Claimable(j: Job, now: real, kinds: Option<set<Kind>>) {
    && j.status.Queued? && j.notBefore <= now && j.attempts < j.maxAttempts
    && (kinds.Some? ==> j.kind in kinds.value)
  }

  /** ORDER BY not_before, created_at, rowid. */
  predicate ClaimBefore(a: Job, b: Job) {
    || a.notBefore < b.notBefore
    || (a.notBefore == b.notBefore && (a.createdAt < b.createdAt || (a.createdAt == b.createdAt && a.row <= b.row)))
  }

  predicate IsFirst(s: Store, id: Id, now: real, kinds: Option<set<Kind>>) {
    && id in s.jobs && Claimable(s.jobs[id], now, kinds)
    && (forall o :: o in s.jobs && Claimable(s.jobs[o], now, kinds) ==> ClaimBefore(s.jobs[id], s.jobs[o]))
  }

  function Claimed(j: Job, worker: Id, lease: real, now: real): Job {
    j.(status := Running, attempts := j.attempts + 1, worker := Some(worker), token := j.token + 1,
       leaseUntil := Some(now + lease), updatedAt := now)
  }

  /** The rest of `claim` once the leases have been expired and the row has been chosen. */
  function ClaimRow(s: Store, id: Id, worker: Id, lease: real, now: real): Store
    requires id in s.jobs
  {
    var j := Claimed(s.jobs[id], worker, lease, now);
    Put(s, id, j, JobClaimed(worker, j.token, j.attempts), now)
  }

  function HeartbeatRow(s: Store, id: Id, worker: Id, token: nat, lease: real, now: real): Store {
    if !Holds(s, id, worker, token, now) then s
    else
      var j := s.jobs[id];
      s.(jobs := s.jobs[id := j.(leaseUntil := Some(Max(j.leaseUntil.value, now + lease)), updatedAt := now)])
  }

  /** What follows a completed step: its kind and payload, and the key its row will hold. */
  datatype Next = Next(kind: Kind, payload: Payload, key: Key)

  function SucceededRow(j: Job, result: nat, now: real): Job {
    j.(status := Succeeded, result := Some(result), error := None, leaseUntil := None, updatedAt := now,
       finishedAt := Some(now))
  }

  /** `complete_and_enqueue`: the result and the next step, in one fenced transaction. */
  ghost function Complete(
    s: Store, id: Id, worker: Id, token: nat, result: nat, next: Option<Next>, uuid: Id, now: real)
    : Result<(Store, bool), StoreError>
  {
    if next.Some? && next.value.key.Bucket? then Err(Reserved)
    else if !Holds(s, id, worker, token, now) then Ok((s, false))
    else
      var s1 := Put(s, id, SucceededRow(s.jobs[id], result, now), JobSucceeded(worker, token), now);
      if next.None? then Ok((s1, true))
      else
        match EnqueueRow(s1, uuid, next.value.kind, next.value.payload, next.value.key, None, 3, now)
        case Err(e) => Err(e)
        case Ok((s2, child)) =>
          if child == id then Err(SelfFollowUp)
          else Ok((Log(s2, Some(id), FollowupEnqueued(child, next.value.kind), now), true))
  }

  function Requeue(s: Store, id: Id, now: real): Result<Store, StoreError> {
    if id !in s.jobs then Err(NotFound)
    else if Cancelled(s, id, s.jobs[id].payload) then Err(StoreError.RunCancelled)
    else if !s.jobs[id].status.Deadletter? then Err(NotDeadletter)
    else
      var j := s.jobs[id];
      Ok(Put(s, id,
             j.(status := Queued, attempts := 0, worker := None, leaseUntil := None, result := None, error := None,
                finishedAt := None, notBefore := now, updatedAt := now),
             JobRequeued(j.attempts, j.token), now))
  }

  function Defer(s: Store, id: Id, worker: Id, token: nat, delay: real, now: real): (Store, bool) {
    if !Holds(s, id, worker, token, now) || s.jobs[id].attempts == 0 then (s, false)
    else
      var j := s.jobs[id];
      (Put(s, id, j.(status := Queued, attempts := j.attempts - 1, worker := None, leaseUntil := None,
                     notBefore := now + delay, updatedAt := now),
           JobDeferred(token), now), true)
  }

  function Fail(s: Store, id: Id, worker: Id, token: nat, error: nat, delay: real, now: real): (Store, bool) {
    if !Holds(s, id, worker, token, now) then (s, false)
    else
      var j := s.jobs[id];
      var dead := j.attempts >= j.maxAttempts;
      (Put(s, id, j.(status := if dead then Deadletter else Queued, error := Some(error), worker := None,
                     leaseUntil := None, notBefore := now + delay, updatedAt := now,
                     finishedAt := if dead then Some(now) else None),
           if dead then JobDeadletter(j.attempts) else RetryScheduled(j.attempts), now), true)
  }

  // Cancellation

  /** `str(payload.get("pipeline_id", job_id))`. */
  function CancelTarget(id: Id, p: Payload): Id {
    match p.pipeline
    case Absent => id
    case Null => NONE_TEXT
    case Text(run) => run
  }

  predicate InCancelledRun(id: Id, j: Job, run: Id) {
    (id == run || j.payload.pipeline == Text(run)) && Active(j)
  }

  function CancelOne(s: Store, id: Id, run: Id, now: real): Store
    requires id in s.jobs
  {
    var j := s.jobs[id];
    Put(s, id, j.(status := Deadletter, error := Some(CANCELLED_BY_OWNER), token := j.token + 1, leaseUntil := None,
                  updatedAt := now, finishedAt := Some(now)),
        JobCancelled(run), now)
  }

  function CancelRows(s: Store, ids: seq<Id>, run: Id, now: real): Store {
    if ids == [] then s
    else
      var s1 := CancelRows(s, ids[..|ids| - 1], run, now);
      var id := ids[|ids| - 1];
      if id in s1.jobs && InCancelledRun(id, s1.jobs[id], run) then CancelOne(s1, id, run, now) else s1
  }

  ghost predicate ListsRun(s: Store, ids: seq<Id>, run: Id) {
    forall id :: id in s.jobs && InCancelledRun(id, s.jobs[id], run) ==> id in ids
  }

  function Cancel(s: Store, id: Id, ids: seq<Id>, now: real): Result<Store, StoreError> {
    if id !in s.jobs then Err(NotFound)
    else
      var run := CancelTarget(id, s.jobs[id].payload);
      Ok(CancelRows(s.(cancelled := s.cancelled + {run}), ids, run, now))
  }

  /** The public event method: it cannot use the store's own event names here. */
  function CallerEvent(s: Store, id: Option<Id>, name: nat, now: real): Result<Store, StoreError> {
    if id.Some? && id.value !in s.jobs then Err(NotFound) else Ok(Log(s, id, Custom(name), now))
  }

  // Schedules

  function BucketOf(t: real, interval: real): int
    requires interval > 0.0
  {
    (t / interval).Floor
  }

  ghost predicate HasActiveBucket(s: Store, schedule: Id) {
    exists id :: id in s.jobs && Active(s.jobs[id]) && s.jobs[id].key.Bucket? && s.jobs[id].key.schedule == schedule
  }

  datatype Verdict = Hold | Miss | Due

  /** What a due schedule does at time `t`. */
  ghost function Judge(s: Store, id: Id, t: real): Verdict
    requires id in s.schedules
  {
    var c := s.schedules[id];
    if c.catchup != 0.0 && t - c.nextRunAt > c.catchup then Miss
    else if c.overlap.SkipIfRunning? && HasActiveBucket(s, id) then Miss
    else if c.overlap.BufferOne? && HasActiveBucket(s, id) then Hold
    else Due
  }

  /** The start of the bucket after the one that holds `t`. */
  function NextRun(t: real, interval: real): real
    requires interval > 0.0
  {
    (BucketOf(t, interval) + 1) as real * interval
  }

  function Advance(s: Store, id: Id, t: real): Store
    requires id in s.schedules && s.schedules[id].interval > 0.0
  {
    var c := s.schedules[id];
    s.(schedules := s.schedules[id := c.(nextRunAt := NextRun(t, c.interval))])
  }

  predicate DueAt(c: Schedule, t: real) {
    c.enabled && c.nextRunAt <= t
  }

  /** One due schedule of a tick; `uuid` is the identifier drawn if it enqueues. */
  ghost function TickOne(s: Store, id: Id, uuid: Id, t: real): Result<(Store, nat), StoreError>
    requires id in s.schedules && s.schedules[id].interval > 0.0
  {
    var c := s.schedules[id];
    var bucket := BucketOf(t, c.interval);
    var key := Bucket(id, c.interval, bucket);
    match Judge(s, id, t)
    case Hold => Ok((s, 0))
    case Miss => Ok((Advance(Log(s, None, ScheduleMissed(id, bucket), t), id, t), 0))
    case Due =>
      if KeyUsed(s, key) then Ok((Advance(s, id, t), 0))
      else
        match EnqueueRow(s, uuid, c.kind, c.payload, key, Some(t), 3, t)
        case Err(e) => Err(e)
        case Ok((s1, job)) => Ok((Advance(Log(s1, Some(job), ScheduleEnqueued(id, bucket), t), id, t), 1))
  }

  /** The schedules of `ids` in order, each with the UUID it would use; any error undoes the whole tick. */
  ghost function Tick(s: Store, ids: seq<(Id, Id)>, t: real): Result<(Store, nat), StoreError> {
    if ids == [] then Ok((s, 0))
    else
      match Tick(s, ids[..|ids| - 1], t)
      case Err(e) => Err(e)
      case Ok((s1, n)) =>
        var (id, uuid) := ids[|ids| - 1];
        if id !in s1.schedules || !(s1.schedules[id].interval > 0.0) || !DueAt(s1.schedules[id], t) then Ok((s1, n))
        else
          match TickOne(s1, id, uuid, t)
          case Err(e) => Err(e)
          case Ok((s2, m)) => Ok((s2, n + m))
  }

  /** `put_schedule`: a new row is due at once; an edit keeps the due time unless the interval changed
      or the schedule was switched on. */
  function PutSchedule(s: Store, id: Id, c: Schedule, now: real): Store {
    var due :=
      if id !in s.schedules then now
      else if c.interval != s.schedules[id].interval || (c.enabled && !s.schedules[id].enabled) then now
      else s.schedules[id].nextRunAt;
    Log(s.(schedules := s.schedules[id := c.(nextRunAt := due)]), None, ScheduleSaved(id, id !in s.schedules), now)
  }

  // Every operation as a command, with the inputs the environment supplies

  datatype Cmd =
    | CEnqueue(uuid: Id, kind: Kind, payload: Payload, key: Key, notBefore: Option<real>, maxAttempts: nat, now: real)
    | CClaim(worker: Id, lease: real, kinds: Option<set<Kind>>, order: seq<Id>, now: real)
    | CHeartbeat(id: Id, worker: Id, token: nat, lease: real, now: real)
    | CComplete(id: Id, worker: Id, token: nat, result: nat, next: Option<Next>, uuid: Id, now: real)
    | CRequeue(id: Id, now: real)
    | CDefer(id: Id, worker: Id, token: nat, delay: real, now: real)
    | CFail(id: Id, worker: Id, token: nat, error: nat, delay: real, now: real)
    | CCancel(id: Id, order: seq<Id>, now: real)
    | CEvent(job: Option<Id>, name: nat, now: real)
    | CPutSchedule(id: Id, schedule: Schedule, now: real)
    | CTick(ids: seq<(Id, Id)>, now: real)

  /** The chosen row of a claim, if any job qualifies. */
  ghost function FirstOf(s: Store, now: real, kinds: Option<set<Kind>>): Option<Id> {
    if exists id :: IsFirst(s, id, now, kinds) then
      var id :| IsFirst(s, id, now, kinds);
      Some(id)
    else None
  }

  ghost function Claim(s: Store, worker: Id, lease: real, kinds: Option<set<Kind>>, order: seq<Id>, now: real): Store {
    var s1 := Expire(s, order, now);
    match FirstOf(s1, now, kinds)
    case None => s1
    case Some(id) => ClaimRow(s1, id, worker, lease, now)
  }

  /** What the caller's argument checks demand: at least one attempt, an interval of at least one second,
      and row listings that miss no selected row. */
  ghost predicate Admissible(s: Store, c: Cmd) {
    match c
    case CEnqueue(_, _, _, _, _, maxAttempts, _) => 1 <= maxAttempts <= 100
    case CClaim(_, _, _, order, now) => ListsExpired(s, order, now)
    case CCancel(id, order, _) =>
      id in s.jobs ==> ListsRun(s, order, CancelTarget(id, s.jobs[id].payload))
    case CPutSchedule(_, schedule, _) => schedule.interval >= 1.0 && schedule.catchup >= 0.0
    case _ => true
  }

  ghost function Apply(s: Store, c: Cmd): Store {
    match c
    case CEnqueue(uuid, kind, p, key, notBefore, maxAttempts, now) =>
      (match Enqueue(s, uuid, kind, p, key, notBefore, maxAttempts, now)
       case Ok((s1, _)) => s1
       case Err(_) => s)
    case CClaim(worker, lease, kinds, order, now) => Claim(s, worker, lease, kinds, order, now)
    case CHeartbeat(id, worker, token, lease, now) => HeartbeatRow(s, id, worker, token, lease, now)
    case CComplete(id, worker, token, result, next, uuid, now) =>
      (match Complete(s, id, worker, token, result, next, uuid, now)
       case Ok((s1, _)) => s1
       case Err(_) => s)
    case CRequeue(id, now) => (match Requeue(s, id, now) case Ok(s1) => s1 case Err(_) => s)
    case CDefer(id, worker, token, delay, now) => Defer(s, id, worker, token, delay, now).0
    case CFail(id, worker, token, error, delay, now) => Fail(s, id, worker, token, error, delay, now).0
    case CCancel(id, order, now) => (match Cancel(s, id, order, now) case Ok(s1) => s1 case Err(_) => s)
    case CEvent(job, name, now) => (match CallerEvent(s, job, name, now) case Ok(s1) => s1 case Err(_) => s)
    case CPutSchedule(id, schedule, now) => PutSchedule(s, id, schedule, now)
    case CTick(ids, now) => (match Tick(s, ids, now) case Ok((s1, _)) => s1 case Err(_) => s)
  }

  ghost function Run(s: Store, cmds: seq<Cmd>): Store {
    if cmds == [] then s
    else Apply(Run(s, cmds[..|cmds| - 1]), cmds[|cmds| - 1])
  }

  ghost predicate AdmissibleRun(s: Store, cmds: seq<Cmd>) {
    forall n :: 0 <= n < |cmds| ==> Admissible(Run(s, cmds[..n]), cmds[n])
  }
}
