/** What every transaction of the store keeps, and what it can never undo. */
module JobHistory {
  import opened Core
  import opened Jobs

  // The journal

  /** The events of one job, oldest first. */
  function HistoryOf(events: seq<Event>, id: Id): seq<EventBody> {
    if events == [] then []
    else
      var rest, last := HistoryOf(events[..|events| - 1], id), events[|events| - 1];
      if last.job == Some(id) then rest + [last.body] else rest
  }

  datatype Summary = Summary(status: Status, attempts: int, token: int)

  function ReplayOne(v: Option<Summary>, e: EventBody): Option<Summary> {
    if e.JobQueued? then Some(Summary(Queued, 0, 0))
    else if v.None? then None
    else
      var Summary(status, attempts, token) := v.value;
      Some(match e
        case JobClaimed(_, _, _) => Summary(Running, attempts + 1, token + 1)
        case JobSucceeded(_, _) => Summary(Succeeded, attempts, token)
        case RetryScheduled(_) => Summary(Queued, attempts, token)
        case LeaseExpired(_, _) => Summary(Queued, attempts, token)
        case JobDeadletter(_) => Summary(Deadletter, attempts, token)
        case JobDeferred(_) => Summary(Queued, attempts - 1, token)
        case JobRequeued(_, _) => Summary(Queued, 0, token)
        case JobCancelled(_) => Summary(Deadletter, attempts, token + 1)
        case _ => v.value)
  }

  /** Folding a job's events from the oldest. */
  function Replay(h: seq<EventBody>): Option<Summary> {
    if h == [] then None else ReplayOne(Replay(h[..|h| - 1]), h[|h| - 1])
  }

  function Claims(h: seq<EventBody>): nat {
    if h == [] then 0 else Claims(h[..|h| - 1]) + if h[|h| - 1].JobClaimed? then 1 else 0
  }

  function Cancellations(h: seq<EventBody>): nat {
    if h == [] then 0 else Cancellations(h[..|h| - 1]) + if h[|h| - 1].JobCancelled? then 1 else 0
  }

  /** Claims less defers since the last requeue. */
  function NetClaims(h: seq<EventBody>): int {
    if h == [] || h[|h| - 1].JobRequeued? then 0
    else
      NetClaims(h[..|h| - 1])
      + (if h[|h| - 1].JobClaimed? then 1 else if h[|h| - 1].JobDeferred? then -1 else 0)
  }

  /** The journal of a job tells its status, its attempts and its token. */
  predicate Journaled(j: Job, h: seq<EventBody>) {
    && Replay(h) == Some(Summary(j.status, j.attempts, j.token))
    && j.token == Claims(h) + Cancellations(h)
    && j.attempts == NetClaims(h)
  }

  lemma AppendEvent(h: seq<EventBody>, e: EventBody)
    ensures Replay(h + [e]) == ReplayOne(Replay(h), e)
    ensures Claims(h + [e]) == Claims(h) + if e.JobClaimed? then 1 else 0
    ensures Cancellations(h + [e]) == Cancellations(h) + if e.JobCancelled? then 1 else 0
    ensures NetClaims(h + [e])
         == if e.JobRequeued? then 0
            else NetClaims(h) + (if e.JobClaimed? then 1 else if e.JobDeferred? then -1 else 0)
  {
  }

  lemma AppendHistory(events: seq<Event>, e: Event, id: Id)
    ensures HistoryOf(events + [e], id)
         == if e.job == Some(id) then HistoryOf(events, id) + [e.body] else HistoryOf(events, id)
  {
  }

  // The invariant

  predicate JobOk(j: Job) {
    && 1 <= j.maxAttempts && j.attempts <= j.maxAttempts
    && (j.status.Queued? ==> j.attempts < j.maxAttempts)
    && (j.status.Running? ==> 1 <= j.attempts && j.worker.Some? && j.leaseUntil.Some?)
  }

  ghost predicate JournalOk(jobs: map<Id, Job>, events: seq<Event>) {
    && (forall id :: id in jobs ==> Journaled(jobs[id], HistoryOf(events, id)))
    && (forall id: Id :: id !in jobs ==> HistoryOf(events, id) == [])
  }

  /** Keys and row numbers are unique. */
  ghost predicate Distinct(jobs: map<Id, Job>) {
    forall i, j :: i in jobs && j in jobs && i != j ==> jobs[i].key != jobs[j].key && jobs[i].row != jobs[j].row
  }

  ghost predicate RowsOk(jobs: map<Id, Job>) {
    (forall id :: id in jobs ==> JobOk(jobs[id]) && jobs[id].row < |jobs|) && Distinct(jobs)
  }

  ghost predicate SchedulesOk(s: Store) {
    forall id :: id in s.schedules ==> s.schedules[id].interval >= 1.0
  }

  ghost predicate Base(s: Store) {
    RowsOk(s.jobs) && JournalOk(s.jobs, s.events) && SchedulesOk(s)
  }

  /** No job of a cancelled run is queued or running. */
  ghost predicate CancelledAreDead(s: Store) {
    forall id :: id in s.jobs && Cancelled(s, id, s.jobs[id].payload) ==> !Active(s.jobs[id])
  }

  ghost predicate Inv(s: Store) {
    Base(s) && CancelledAreDead(s)
  }

  // What a transaction can never undo

  /** The request of a job never changes, its token never decreases, a token once released never runs
      again, and a succeeded job is final. */
  predicate Evolves(j: Job, j1: Job) {
    && j1.kind == j.kind && j1.payload == j.payload && j1.key == j.key && j1.maxAttempts == j.maxAttempts
    && j1.initialNotBefore == j.initialNotBefore && j1.createdAt == j.createdAt && j1.row == j.row
    && j.token <= j1.token
    && (j.token == j1.token && !j.status.Running? ==> !j1.status.Running?)
    && (j.token == j1.token && j1.status.Running? ==> j1.worker == j.worker)
    && (j.status.Succeeded? ==> j1 == j)
  }

  ghost predicate JobsGrow(jobs: map<Id, Job>, jobs1: map<Id, Job>) {
    forall id :: id in jobs ==> id in jobs1 && Evolves(jobs[id], jobs1[id])
  }

  ghost predicate Grows(s: Store, s1: Store) {
    && JobsGrow(s.jobs, s1.jobs) && s.events <= s1.events && s.cancelled <= s1.cancelled
    && s.schedules.Keys <= s1.schedules.Keys
  }

  lemma GrowsReflexive(s: Store)
    ensures Grows(s, s)
  {
  }

  lemma GrowsTransitive(a: Store, b: Store, c: Store)
    requires Grows(a, b) && Grows(b, c)
    ensures Grows(a, c)
  {
  }

  // The ways a transaction writes

  lemma RowsPut(jobs: map<Id, Job>, id: Id, j1: Job)
    requires RowsOk(jobs) && id in jobs && JobOk(j1) && Evolves(jobs[id], j1)
    ensures RowsOk(jobs[id := j1]) && JobsGrow(jobs, jobs[id := j1])
  {
    hide JobOk;
    DistinctPut(jobs, id, j1);
    hide Distinct;
    assert jobs[id := j1].Keys == jobs.Keys;
    assert |jobs[id := j1]| == |jobs[id := j1].Keys| == |jobs.Keys| == |jobs|;
  }

  lemma DistinctPut(jobs: map<Id, Job>, id: Id, j1: Job)
    requires Distinct(jobs) && id in jobs && j1.key == jobs[id].key && j1.row == jobs[id].row
    ensures Distinct(jobs[id := j1])
  {
  }

  lemma JournalPut(jobs: map<Id, Job>, events: seq<Event>, id: Id, j1: Job, body: EventBody, now: real)
    requires forall k :: k in jobs && k != id ==> Journaled(jobs[k], HistoryOf(events, k))
    requires forall k: Id :: k !in jobs ==> HistoryOf(events, k) == []
    requires Journaled(j1, HistoryOf(events, id) + [body])
    ensures JournalOk(jobs[id := j1], events + [Event(Some(id), body, now)])
  {
    hide Journaled, HistoryOf;
    forall k: Id
      ensures HistoryOf(events + [Event(Some(id), body, now)], k)
           == if k == id then HistoryOf(events, id) + [body] else HistoryOf(events, k)
    {
      AppendHistory(events, Event(Some(id), body, now), k);
    }
  }

  /** Updating a row with its event. */
  lemma PutBase(s: Store, id: Id, j1: Job, body: EventBody, now: real)
    requires Base(s) && id in s.jobs && JobOk(j1) && Evolves(s.jobs[id], j1)
    requires Journaled(j1, HistoryOf(s.events, id) + [body])
    ensures Base(Put(s, id, j1, body, now)) && Grows(s, Put(s, id, j1, body, now))
  {
    hide Journaled, HistoryOf;
    JournalPut(s.jobs, s.events, id, j1, body, now);
    hide JournalOk;
    RowsPut(s.jobs, id, j1);
    hide RowsOk, JobsGrow;
  }

  predicate Neutral(body: EventBody) {
    body.FollowupEnqueued? || body.ScheduleEnqueued? || body.ScheduleMissed? || body.Custom?
  }

  lemma NeutralKeepsJournal(j: Job, h: seq<EventBody>, body: EventBody)
    requires Journaled(j, h) && Neutral(body)
    ensures Journaled(j, h + [body])
  {
  }

  /** Appending an event that says nothing about a job's state. */
  lemma LogInv(s: Store, job: Option<Id>, body: EventBody, now: real)
    requires Base(s) && (job.Some? ==> job.value in s.jobs && Neutral(body))
    ensures Base(Log(s, job, body, now)) && Grows(s, Log(s, job, body, now))
    ensures CancelledAreDead(s) ==> CancelledAreDead(Log(s, job, body, now))
  {
    hide RowsOk, Journaled, HistoryOf;
    var s1 := Log(s, job, body, now);
    if job.Some? {
      NeutralKeepsJournal(s.jobs[job.value], HistoryOf(s.events, job.value), body);
    }
    forall k: Id
      ensures HistoryOf(s1.events, k)
           == if job == Some(k) then HistoryOf(s.events, k) + [body] else HistoryOf(s.events, k)
    {
      AppendHistory(s.events, Event(job, body, now), k);
    }
  }

  lemma RowsInsert(jobs: map<Id, Job>, id: Id, j: Job)
    requires RowsOk(jobs) && id !in jobs && JobOk(j) && j.row == |jobs|
    requires forall o :: o in jobs ==> jobs[o].key != j.key
    ensures RowsOk(jobs[id := j]) && JobsGrow(jobs, jobs[id := j])
  {
    hide JobOk, Evolves;
    EvolvesReflexive(jobs);
    DistinctInsert(jobs, id, j);
    hide Distinct;
    assert jobs[id := j].Keys == jobs.Keys + {id};
    assert |jobs[id := j]| == |jobs[id := j].Keys| == |jobs| + 1;
  }

  lemma DistinctInsert(jobs: map<Id, Job>, id: Id, j: Job)
    requires Distinct(jobs) && id !in jobs
    requires forall o :: o in jobs ==> jobs[o].key != j.key && jobs[o].row != j.row
    ensures Distinct(jobs[id := j])
  {
  }

  lemma EvolvesReflexive(jobs: map<Id, Job>)
    ensures forall k :: k in jobs ==> Evolves(jobs[k], jobs[k])
  {
  }

  /** Inserting a new row. */
  lemma InsertBase(s: Store, id: Id, j: Job, now: real)
    requires Base(s) && id !in s.jobs && JobOk(j) && j.row == |s.jobs|
    requires j.status.Queued? && j.attempts == 0 && j.token == 0
    requires forall o :: o in s.jobs ==> s.jobs[o].key != j.key
    ensures Base(Put(s, id, j, JobQueued, now)) && Grows(s, Put(s, id, j, JobQueued, now))
  {
    AppendEvent([], JobQueued);
    assert Journaled(j, [] + [JobQueued]);
    hide HistoryOf, Journaled;
    assert HistoryOf(s.events, id) == [];
    JournalPut(s.jobs, s.events, id, j, JobQueued, now);
    hide JournalOk;
    RowsInsert(s.jobs, id, j);
    hide RowsOk, JobsGrow;
  }

  // Each transaction

  lemma TwoEvents(jobs: map<Id, Job>, events: seq<Event>, id: Id, j1: Job, e1: EventBody, e2: EventBody, now: real)
    requires JournalOk(jobs, events) && id in jobs && Journaled(j1, HistoryOf(events, id) + [e1] + [e2])
    ensures JournalOk(jobs[id := j1], events + [Event(Some(id), e1, now)] + [Event(Some(id), e2, now)])
  {
    hide Journaled, HistoryOf;
    var events1 := events + [Event(Some(id), e1, now)];
    forall k: Id
      ensures HistoryOf(events1, k) == if k == id then HistoryOf(events, id) + [e1] else HistoryOf(events, k)
    {
      AppendHistory(events, Event(Some(id), e1, now), k);
    }
    JournalPut(jobs, events1, id, j1, e2, now);
  }

  /** Updating a row with two events, the second of which settles the status. */
  lemma PutTwoBase(s: Store, id: Id, j1: Job, e1: EventBody, e2: EventBody, now: real)
    requires Base(s) && id in s.jobs && JobOk(j1) && Evolves(s.jobs[id], j1)
    requires Journaled(j1, HistoryOf(s.events, id) + [e1] + [e2])
    ensures Base(Log(Put(s, id, j1, e1, now), Some(id), e2, now))
    ensures Grows(s, Log(Put(s, id, j1, e1, now), Some(id), e2, now))
  {
    hide Journaled, HistoryOf;
    TwoEvents(s.jobs, s.events, id, j1, e1, e2, now);
    hide JournalOk;
    RowsPut(s.jobs, id, j1);
    hide RowsOk, JobsGrow;
  }

  /** The expired row: its condition, and what its events say of it. */
  lemma ExpiredRow(j: Job, h: seq<EventBody>, j1: Job, now: real)
    requires JobOk(j) && Journaled(j, h) && Expired(j, now)
    requires var dead := j.attempts >= j.maxAttempts;
      j1 == j.(status := if dead then Deadletter else Queued, worker := None, leaseUntil := None, notBefore := now,
               updatedAt := now, finishedAt := if dead then Some(now) else None, error := Some(LEASE_EXPIRED))
    ensures JobOk(j1) && Evolves(j, j1)
    ensures j.attempts < j.maxAttempts ==> Journaled(j1, h + [LeaseExpired(j.token, j.attempts)])
    ensures j.attempts >= j.maxAttempts ==>
      Journaled(j1, h + [LeaseExpired(j.token, j.attempts)] + [JobDeadletter(j.attempts)])
  {
  }

  lemma ExpireOneInv(s: Store, id: Id, now: real)
    requires Base(s) && id in s.jobs && Expired(s.jobs[id], now)
    ensures Base(ExpireOne(s, id, now)) && Grows(s, ExpireOne(s, id, now))
    ensures CancelledAreDead(s) ==> CancelledAreDead(ExpireOne(s, id, now))
  {
    var j, h := s.jobs[id], HistoryOf(s.events, id);
    var j1 := ExpireOne(s, id, now).jobs[id];
    ExpiredRow(j, h, j1, now);
    hide Base, Journaled, HistoryOf, JobOk, Evolves, Grows;
    if j.attempts >= j.maxAttempts {
      PutTwoBase(s, id, j1, LeaseExpired(j.token, j.attempts), JobDeadletter(j.attempts), now);
    } else {
      PutBase(s, id, j1, LeaseExpired(j.token, j.attempts), now);
    }
  }

  lemma {:induction false} ExpireInv(s: Store, ids: seq<Id>, now: real)
    requires Inv(s)
    ensures Inv(Expire(s, ids, now)) && Grows(s, Expire(s, ids, now))
  {
    hide Base, CancelledAreDead, ExpireOne;
    if ids == [] {
      GrowsReflexive(s);
    } else {
      var s1, id := Expire(s, ids[..|ids| - 1], now), ids[|ids| - 1];
      ExpireInv(s, ids[..|ids| - 1], now);
      if id in s1.jobs && Expired(s1.jobs[id], now) {
        ExpireOneInv(s1, id, now);
        hide Grows, Expired;
        GrowsTransitive(s, s1, Expire(s, ids, now));
      }
    }
  }

  lemma ClaimRowInv(s: Store, id: Id, worker: Id, lease: real, now: real)
    requires Inv(s) && id in s.jobs && s.jobs[id].status.Queued? && s.jobs[id].attempts < s.jobs[id].maxAttempts
    ensures Inv(ClaimRow(s, id, worker, lease, now)) && Grows(s, ClaimRow(s, id, worker, lease, now))
  {
    var j, h := s.jobs[id], HistoryOf(s.events, id);
    var j1 := Claimed(j, worker, lease, now);
    var e := JobClaimed(worker, j1.token, j1.attempts);
    AppendEvent(h, e);
    assert JobOk(j) && Journaled(j, h);
    hide Base, Replay, Claims, Cancellations, NetClaims, HistoryOf;
    PutBase(s, id, j1, e, now);
  }

  lemma ClaimInv(s: Store, worker: Id, lease: real, kinds: Option<set<Kind>>, order: seq<Id>, now: real)
    requires Inv(s)
    ensures Inv(Claim(s, worker, lease, kinds, order, now)) && Grows(s, Claim(s, worker, lease, kinds, order, now))
  {
    ExpireInv(s, order, now);
    var s1 := Expire(s, order, now);
    hide Inv, Expire, ClaimRow, Grows;
    var first := FirstOf(s1, now, kinds);
    if first.Some? {
      ClaimRowInv(s1, first.value, worker, lease, now);
      GrowsTransitive(s, s1, ClaimRow(s1, first.value, worker, lease, now));
    }
  }

  /** A row that keeps its status, attempts and token keeps its journal. */
  lemma JournalSame(jobs: map<Id, Job>, events: seq<Event>, id: Id, j1: Job)
    requires JournalOk(jobs, events) && id in jobs
    requires j1.status == jobs[id].status && j1.attempts == jobs[id].attempts && j1.token == jobs[id].token
    ensures JournalOk(jobs[id := j1], events)
  {
  }

  lemma HeartbeatInv(s: Store, id: Id, worker: Id, token: nat, lease: real, now: real)
    requires Inv(s)
    ensures Inv(HeartbeatRow(s, id, worker, token, lease, now))
    ensures Grows(s, HeartbeatRow(s, id, worker, token, lease, now))
  {
    hide JournalOk;
    if Holds(s, id, worker, token, now) {
      var j := s.jobs[id];
      var j1 := j.(leaseUntil := Some(Max(j.leaseUntil.value, now + lease)), updatedAt := now);
      assert JobOk(j) && JobOk(j1) && Evolves(j, j1);
      hide JobOk, Evolves, RowsOk;
      JournalSame(s.jobs, s.events, id, j1);
      RowsPut(s.jobs, id, j1);
      hide JobsGrow;
    }
  }

  lemma FailedRow(j: Job, h: seq<EventBody>, error: nat, delay: real, now: real)
    requires JobOk(j) && Journaled(j, h) && j.status.Running?
    ensures var dead := j.attempts >= j.maxAttempts;
      var j1 := j.(status := if dead then Deadletter else Queued, error := Some(error), worker := None,
                   leaseUntil := None, notBefore := now + delay, updatedAt := now,
                   finishedAt := if dead then Some(now) else None);
      JobOk(j1) && Evolves(j, j1)
      && Journaled(j1, h + [if dead then JobDeadletter(j.attempts) else RetryScheduled(j.attempts)])
  {
  }

  lemma FailInv(s: Store, id: Id, worker: Id, token: nat, error: nat, delay: real, now: real)
    requires Inv(s)
    ensures Inv(Fail(s, id, worker, token, error, delay, now).0)
    ensures Grows(s, Fail(s, id, worker, token, error, delay, now).0)
  {
    if Holds(s, id, worker, token, now) {
      var j := s.jobs[id];
      var j1 := Fail(s, id, worker, token, error, delay, now).0.jobs[id];
      FailedRow(j, HistoryOf(s.events, id), error, delay, now);
      hide Base, Journaled, HistoryOf, JobOk, Evolves, Grows;
      PutBase(s, id, j1, if j.attempts >= j.maxAttempts then JobDeadletter(j.attempts) else RetryScheduled(j.attempts), now);
    }
  }

  lemma DeferInv(s: Store, id: Id, worker: Id, token: nat, delay: real, now: real)
    requires Inv(s)
    ensures Inv(Defer(s, id, worker, token, delay, now).0) && Grows(s, Defer(s, id, worker, token, delay, now).0)
  {
    if Defer(s, id, worker, token, delay, now).1 {
      var j, h := s.jobs[id], HistoryOf(s.events, id);
      var j1 := Defer(s, id, worker, token, delay, now).0.jobs[id];
      AppendEvent(h, JobDeferred(token));
      assert JobOk(j) && Journaled(j, h);
      hide Base, HistoryOf;
      assert JobOk(j1) && Evolves(j, j1) && Journaled(j1, h + [JobDeferred(token)]);
      hide Journaled, JobOk, Evolves, Grows;
      PutBase(s, id, j1, JobDeferred(token), now);
    }
  }

  lemma RequeueInv(s: Store, id: Id, now: real)
    requires Inv(s) && Requeue(s, id, now).Ok?
    ensures Inv(Requeue(s, id, now).value) && Grows(s, Requeue(s, id, now).value)
  {
    var j, h := s.jobs[id], HistoryOf(s.events, id);
    var j1 := Requeue(s, id, now).value.jobs[id];
    var e := JobRequeued(j.attempts, j.token);
    AppendEvent(h, e);
    assert JobOk(j) && Journaled(j, h);
    hide Base, Replay, Claims, Cancellations, NetClaims, HistoryOf;
    PutBase(s, id, j1, e, now);
  }

  lemma SucceedInv(s: Store, id: Id, worker: Id, token: nat, result: nat, now: real)
    requires Inv(s) && Holds(s, id, worker, token, now)
    ensures var s1 := Put(s, id, SucceededRow(s.jobs[id], result, now), JobSucceeded(worker, token), now);
      Inv(s1) && Grows(s, s1)
  {
    var j, h := s.jobs[id], HistoryOf(s.events, id);
    AppendEvent(h, JobSucceeded(worker, token));
    assert JobOk(j) && Journaled(j, h);
    hide Base, Replay, Claims, Cancellations, NetClaims, HistoryOf;
    PutBase(s, id, SucceededRow(j, result, now), JobSucceeded(worker, token), now);
  }

  lemma EnqueueRowInv(
    s: Store, uuid: Id, kind: Kind, p: Payload, key: Key, notBefore: Option<real>, maxAttempts: nat, now: real)
    requires Inv(s) && 1 <= maxAttempts
    requires EnqueueRow(s, uuid, kind, p, key, notBefore, maxAttempts, now).Ok?
    ensures var (s1, id) := EnqueueRow(s, uuid, kind, p, key, notBefore, maxAttempts, now).value;
      Inv(s1) && Grows(s, s1) && id in s1.jobs && s1.jobs[id].key == key
  {
    hide Base, Grows;
    if KeyUsed(s, key) {
      GrowsReflexive(s);
    } else {
      forall o | o in s.jobs
        ensures s.jobs[o].key != key
      {
        assert !HasKey(s, key, o);
      }
      hide KeyUsed, HasKey;
      var j := NewJob(|s.jobs|, kind, p, key, notBefore, maxAttempts, now);
      InsertBase(s, uuid, j, now);
      InsertKeepsDead(s, uuid, j, now);
    }
  }

  lemma InsertKeepsDead(s: Store, id: Id, j: Job, now: real)
    requires CancelledAreDead(s) && !Cancelled(s, id, j.payload)
    ensures CancelledAreDead(Put(s, id, j, JobQueued, now))
  {
  }

  /** The result and the follow-up event around the next step. */
  lemma FollowUpInv(s: Store, s1: Store, id: Id, next: Next, uuid: Id, now: real)
    requires Grows(s, s1) && id in s.jobs && Inv(s1)
    requires EnqueueRow(s1, uuid, next.kind, next.payload, next.key, None, 3, now).Ok?
    ensures var (s2, child) := EnqueueRow(s1, uuid, next.kind, next.payload, next.key, None, 3, now).value;
      var s3 := Log(s2, Some(id), FollowupEnqueued(child, next.kind), now);
      Inv(s3) && Grows(s, s3)
  {
    var (s2, child) := EnqueueRow(s1, uuid, next.kind, next.payload, next.key, None, 3, now).value;
    EnqueueRowInv(s1, uuid, next.kind, next.payload, next.key, None, 3, now);
    assert id in s2.jobs;
    hide EnqueueRow, Base, CancelledAreDead;
    LogInv(s2, Some(id), FollowupEnqueued(child, next.kind), now);
    GrowsTransitive(s, s1, s2);
    GrowsTransitive(s, s2, Log(s2, Some(id), FollowupEnqueued(child, next.kind), now));
  }

  lemma CompleteInv(s: Store, id: Id, worker: Id, token: nat, result: nat, next: Option<Next>, uuid: Id, now: real)
    requires Inv(s) && Complete(s, id, worker, token, result, next, uuid, now).Ok?
    ensures Inv(Complete(s, id, worker, token, result, next, uuid, now).value.0)
    ensures Grows(s, Complete(s, id, worker, token, result, next, uuid, now).value.0)
  {
    hide Base, CancelledAreDead, EnqueueRow;
    if !Holds(s, id, worker, token, now) {
      GrowsReflexive(s);
    } else {
      SucceedInv(s, id, worker, token, result, now);
      var s1 := Put(s, id, SucceededRow(s.jobs[id], result, now), JobSucceeded(worker, token), now);
      if next.Some? {
        FollowUpInv(s, s1, id, next.value, uuid, now);
      }
    }
  }

  // Cancellation

  lemma CancelOneInv(s: Store, id: Id, run: Id, now: real)
    requires Base(s) && id in s.jobs && Active(s.jobs[id])
    ensures Base(CancelOne(s, id, run, now)) && Grows(s, CancelOne(s, id, run, now))
  {
    var j, h := s.jobs[id], HistoryOf(s.events, id);
    var j1 := CancelOne(s, id, run, now).jobs[id];
    AppendEvent(h, JobCancelled(run));
    assert JobOk(j) && Journaled(j, h);
    hide Base, Replay, Claims, Cancellations, NetClaims, HistoryOf;
    PutBase(s, id, j1, JobCancelled(run), now);
  }

  /** Every listed job of the run that was active is dead; every other job is untouched. */
  ghost predicate Stopped(s: Store, s1: Store, ids: seq<Id>, run: Id) {
    && s1.jobs.Keys == s.jobs.Keys && s1.cancelled == s.cancelled && s1.schedules == s.schedules
    && (forall id :: id in s.jobs && id in ids && InCancelledRun(id, s.jobs[id], run) ==>
          s1.jobs[id].status.Deadletter? && s1.jobs[id].payload == s.jobs[id].payload)
    && (forall id :: id in s.jobs && !(id in ids && InCancelledRun(id, s.jobs[id], run)) ==>
          s1.jobs[id] == s.jobs[id])
  }

  lemma {:induction false} CancelRowsInv(s: Store, ids: seq<Id>, run: Id, now: real)
    requires Base(s)
    ensures var s1 := CancelRows(s, ids, run, now); Base(s1) && Grows(s, s1) && Stopped(s, s1, ids, run)
  {
    hide Base, Grows, Stopped, CancelOne;
    if ids == [] {
      GrowsReflexive(s);
      NothingStopped(s, run);
    } else {
      var front, id := ids[..|ids| - 1], ids[|ids| - 1];
      var s1 := CancelRows(s, front, run, now);
      CancelRowsInv(s, front, run, now);
      StoppedNext(s, s1, front, id, run, now);
      assert ids == front + [id];
      if id in s1.jobs && InCancelledRun(id, s1.jobs[id], run) {
        CancelOneInv(s1, id, run, now);
        GrowsTransitive(s, s1, CancelOne(s1, id, run, now));
      }
    }
  }

  lemma NothingStopped(s: Store, run: Id)
    ensures Stopped(s, s, [], run)
  {
  }

  lemma StoppedNext(s: Store, s1: Store, front: seq<Id>, id: Id, run: Id, now: real)
    requires Stopped(s, s1, front, run)
    ensures Stopped(s, if id in s1.jobs && InCancelledRun(id, s1.jobs[id], run) then CancelOne(s1, id, run, now) else s1,
                    front + [id], run)
  {
  }

  lemma CancelledStayDead(s: Store, s1: Store, ids: seq<Id>, run: Id)
    requires CancelledAreDead(s) && ListsRun(s, ids, run)
    requires Stopped(s.(cancelled := s.cancelled + {run}), s1, ids, run)
    ensures CancelledAreDead(s1)
  {
  }

  lemma CancelInv(s: Store, id: Id, ids: seq<Id>, now: real)
    requires Inv(s) && id in s.jobs && ListsRun(s, ids, CancelTarget(id, s.jobs[id].payload))
    ensures Inv(Cancel(s, id, ids, now).value) && Grows(s, Cancel(s, id, ids, now).value)
  {
    var run := CancelTarget(id, s.jobs[id].payload);
    var s0 := s.(cancelled := s.cancelled + {run});
    GrowsReflexive(s);
    assert Base(s0) && Grows(s, s0);
    CancelRowsInv(s0, ids, run, now);
    hide Base, Grows;
    var s1 := CancelRows(s0, ids, run, now);
    CancelledStayDead(s, s1, ids, run);
    hide CancelledAreDead, Stopped;
    GrowsTransitive(s, s0, s1);
  }

  // Schedules

  lemma IntervalPositive(s: Store, id: Id)
    requires Inv(s) && id in s.schedules
    ensures s.schedules[id].interval > 0.0
  {
  }

  lemma AdvanceInv(s: Store, s1: Store, id: Id, t: real)
    requires Inv(s1) && Grows(s, s1) && id in s1.schedules
    ensures s1.schedules[id].interval >= 1.0 && Inv(Advance(s1, id, t)) && Grows(s, Advance(s1, id, t))
  {
  }

  /** The bucket's job, its event and the next due time. */
  lemma DueInv(s: Store, id: Id, uuid: Id, key: Key, bucket: int, t: real)
    requires Inv(s) && id in s.schedules
    requires EnqueueRow(s, uuid, s.schedules[id].kind, s.schedules[id].payload, key, Some(t), 3, t).Ok?
    ensures var (s1, job) := EnqueueRow(s, uuid, s.schedules[id].kind, s.schedules[id].payload, key, Some(t), 3, t).value;
      var s2 := Log(s1, Some(job), ScheduleEnqueued(id, bucket), t);
      id in s2.schedules && s2.schedules[id].interval >= 1.0 && Inv(Advance(s2, id, t)) && Grows(s, Advance(s2, id, t))
  {
    var c := s.schedules[id];
    EnqueueRowInv(s, uuid, c.kind, c.payload, key, Some(t), 3, t);
    var (s1, job) := EnqueueRow(s, uuid, c.kind, c.payload, key, Some(t), 3, t).value;
    assert id in s1.schedules;
    hide EnqueueRow, Base, CancelledAreDead, Advance;
    var s2 := Log(s1, Some(job), ScheduleEnqueued(id, bucket), t);
    LogInv(s1, Some(job), ScheduleEnqueued(id, bucket), t);
    GrowsTransitive(s, s1, s2);
    AdvanceInv(s, s2, id, t);
  }

  lemma TickOneInv(s: Store, id: Id, uuid: Id, t: real)
    requires Inv(s) && id in s.schedules && s.schedules[id].interval > 0.0 && TickOne(s, id, uuid, t).Ok?
    ensures Inv(TickOne(s, id, uuid, t).value.0) && Grows(s, TickOne(s, id, uuid, t).value.0)
  {
    var c := s.schedules[id];
    var bucket := BucketOf(t, c.interval);
    var key := Bucket(id, c.interval, bucket);
    GrowsReflexive(s);
    var verdict := Judge(s, id, t);
    hide Base, CancelledAreDead, SchedulesOk, Grows, KeyUsed, Judge, EnqueueRow, Advance, BucketOf;
    match verdict {
      case Hold =>
      case Miss =>
        LogInv(s, None, ScheduleMissed(id, bucket), t);
        AdvanceInv(s, Log(s, None, ScheduleMissed(id, bucket), t), id, t);
      case Due =>
        if KeyUsed(s, key) {
          AdvanceInv(s, s, id, t);
        } else {
          DueInv(s, id, uuid, key, bucket, t);
        }
    }
  }

  lemma {:induction false} TickInv(s: Store, ids: seq<(Id, Id)>, t: real)
    requires Inv(s) && Tick(s, ids, t).Ok?
    ensures Inv(Tick(s, ids, t).value.0) && Grows(s, Tick(s, ids, t).value.0)
  {
    if ids == [] {
      GrowsReflexive(s);
    } else {
      var front, id, uuid := ids[..|ids| - 1], ids[|ids| - 1].0, ids[|ids| - 1].1;
      TickInv(s, front, t);
      var s1 := Tick(s, front, t).value.0;
      hide Inv, Grows, TickOne;
      if id in s1.schedules && s1.schedules[id].interval > 0.0 && DueAt(s1.schedules[id], t) {
        TickOneInv(s1, id, uuid, t);
        GrowsTransitive(s, s1, TickOne(s1, id, uuid, t).value.0);
      }
    }
  }

  lemma PutScheduleInv(s: Store, id: Id, c: Schedule, now: real)
    requires Inv(s) && c.interval >= 1.0
    ensures Inv(PutSchedule(s, id, c, now)) && Grows(s, PutSchedule(s, id, c, now))
  {
  }

  // Every step and every run

  lemma StepInv(s: Store, c: Cmd)
    requires Inv(s) && Admissible(s, c)
    ensures Inv(Apply(s, c)) && Grows(s, Apply(s, c))
  {
    GrowsReflexive(s);
    hide Inv, Grows, EnqueueRow, Complete, Requeue, Defer, Fail, Tick, Claim, HeartbeatRow, PutSchedule, CancelRows;
    match c {
      case CEnqueue(uuid, kind, p, key, notBefore, maxAttempts, now) =>
        if Enqueue(s, uuid, kind, p, key, notBefore, maxAttempts, now).Ok? {
          EnqueueRowInv(s, uuid, kind, p, key, notBefore, maxAttempts, now);
        }
      case CClaim(worker, lease, kinds, order, now) => ClaimInv(s, worker, lease, kinds, order, now);
      case CHeartbeat(id, worker, token, lease, now) => HeartbeatInv(s, id, worker, token, lease, now);
      case CComplete(id, worker, token, result, next, uuid, now) =>
        if Complete(s, id, worker, token, result, next, uuid, now).Ok? {
          CompleteInv(s, id, worker, token, result, next, uuid, now);
        }
      case CRequeue(id, now) => if Requeue(s, id, now).Ok? { RequeueInv(s, id, now); }
      case CDefer(id, worker, token, delay, now) => DeferInv(s, id, worker, token, delay, now);
      case CFail(id, worker, token, error, delay, now) => FailInv(s, id, worker, token, error, delay, now);
      case CCancel(id, order, now) => if id in s.jobs { CancelInv(s, id, order, now); }
      case CEvent(job, name, now) => LogCustom(s, job, name, now);
      case CPutSchedule(id, schedule, now) => PutScheduleInv(s, id, schedule, now);
      case CTick(ids, now) => if Tick(s, ids, now).Ok? { TickInv(s, ids, now); }
    }
  }

  lemma LogCustom(s: Store, job: Option<Id>, name: nat, now: real)
    requires Inv(s)
    ensures CallerEvent(s, job, name, now).Ok? ==>
      Inv(CallerEvent(s, job, name, now).value) && Grows(s, CallerEvent(s, job, name, now).value)
  {
    hide Base, CancelledAreDead, Grows, Log;
    if CallerEvent(s, job, name, now).Ok? {
      LogInv(s, job, Custom(name), now);
    }
  }

  lemma EmptyInv()
    ensures Inv(EmptyStore())
  {
  }

  lemma {:induction false} RunInv(s: Store, cmds: seq<Cmd>)
    requires Inv(s) && AdmissibleRun(s, cmds)
    ensures Inv(Run(s, cmds))
  {
    hide Inv, Apply, Admissible;
    if cmds != [] {
      var front := cmds[..|cmds| - 1];
      assert forall n :: 0 <= n < |front| ==> front[..n] == cmds[..n];
      RunInv(s, front);
      assert Admissible(Run(s, cmds[..|front|]), cmds[|front|]);
      StepInv(Run(s, front), cmds[|front|]);
    }
  }

  lemma {:induction false} RunGrows(s: Store, cmds: seq<Cmd>, m: nat)
    requires Inv(s) && AdmissibleRun(s, cmds) && m <= |cmds|
    ensures Grows(Run(s, cmds[..m]), Run(s, cmds))
    decreases |cmds|
  {
    hide Inv, Grows, Apply, Admissible;
    if m == |cmds| {
      assert cmds[..m] == cmds;
      GrowsReflexive(Run(s, cmds));
    } else {
      var front := cmds[..|cmds| - 1];
      assert forall n :: 0 <= n <= |front| ==> front[..n] == cmds[..n];
      assert AdmissibleRun(s, front);
      RunGrows(s, front, m);
      RunInv(s, front);
      StepInv(Run(s, front), cmds[|front|]);
      GrowsTransitive(Run(s, cmds[..m]), Run(s, front), Run(s, cmds));
    }
  }

  lemma PrefixAdmissible(s: Store, cmds: seq<Cmd>, m: nat)
    requires AdmissibleRun(s, cmds) && m <= |cmds|
    ensures AdmissibleRun(s, cmds[..m])
  {
    assert forall n :: 0 <= n < m ==> cmds[..m][..n] == cmds[..n];
  }
}
