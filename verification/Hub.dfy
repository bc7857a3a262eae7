/** `HubStore` for one tenant: the tables are fields and each transaction is a method. */
module Hub {
  import opened Core
  import opened Jobs
  import opened JobHistory
  import opened Fencing
  import opened Leases

  class HubStore {
    var jobs: map<Id, Job>
    var events: seq<Event>
    var cancelled: set<Id>
    var schedules: map<Id, Schedule>

    ghost function View(): Store
      reads this
    {
      Store(jobs, events, cancelled, schedules)
    }

    ghost predicate Valid()
      reads this
    {
      Inv(View())
    }

    constructor ()
      ensures Valid() && View() == EmptyStore()
    {
      jobs, events, cancelled, schedules := map[], [], {}, map[];
      new;
      EmptyInv();
    }

    method AppendEvent(id: Option<Id>, body: EventBody, now: real)
      modifies this`events
      ensures View() == Log(old(View()), id, body, now)
    {
      events := events + [Event(id, body, now)];
    }

    /** UPDATE or INSERT one job row and append its event. */
    method Write(id: Id, j: Job, body: EventBody, now: real)
      modifies this`jobs, this`events
      ensures View() == Put(old(View()), id, j, body, now)
    {
      jobs := jobs[id := j];
      AppendEvent(Some(id), body, now);
    }

    /** `event`: anyone may append an event of their own to a job. */
    method AddEvent(id: Option<Id>, name: nat, now: real) returns (failed: Option<StoreError>)
      requires Valid()
      modifies this`events
      ensures Valid()
      ensures match CallerEvent(old(View()), id, name, now)
        case Ok(s1) => View() == s1 && failed.None?
        case Err(e) => View() == old(View()) && failed == Some(e)
    {
      hide Inv;
      LogCustom(View(), id, name, now);
      if id.Some? && id.value !in jobs {
        return Some(NotFound);
      }
      AppendEvent(id, Custom(name), now);
      return None;
    }

    /** `_expire`: the rows of the SELECT, one by one; `order` is the order in which it returned them. */
    method Expire(now: real) returns (ghost order: seq<Id>)
      requires Valid()
      modifies this`jobs, this`events
      ensures Valid() && ListsExpired(old(View()), order, now) && View() == Jobs.Expire(old(View()), order, now)
    {
      hide Inv;
      ghost var before := View();
      var todo := set id | id in jobs && Expired(jobs[id], now);
      order := [];
      assert Jobs.Expire(before, order, now) == before;
      hide Jobs.Expire;
      while todo != {}
        invariant View() == Jobs.Expire(before, order, now)
        invariant forall id :: id in todo ==> id in jobs && Expired(jobs[id], now)
        invariant forall id :: id in before.jobs && Expired(before.jobs[id], now) ==> id in order || id in todo
        decreases |todo|
      {
        ghost var was := View();
        var id :| id in todo;
        var j := jobs[id];
        var dead := j.attempts >= j.maxAttempts;
        Write(id, j.(status := if dead then Deadletter else Queued, worker := None, leaseUntil := None,
                     notBefore := now, updatedAt := now, finishedAt := if dead then Some(now) else None,
                     error := Some(LEASE_EXPIRED)),
              LeaseExpired(j.token, j.attempts), now);
        if dead {
          AppendEvent(Some(id), JobDeadletter(j.attempts), now);
        }
        assert View() == ExpireOne(was, id, now);
        ExpireSnoc(before, order, id, now);
        order := order + [id];
        todo := todo - {id};
      }
      ExpireInv(before, order, now);
    }

    /** The row that the claim's SELECT returns first. */
    method First(now: real, kinds: Option<set<Kind>>) returns (first: Option<Id>)
      requires Valid()
      ensures first == FirstOf(View(), now, kinds)
    {
      hide Inv, Claimable, ClaimBefore, FirstOf, Best;
      first := None;
      NothingBest(jobs, now, kinds);
      var todo := jobs.Keys;
      while todo != {}
        invariant todo <= jobs.Keys
        invariant first.Some? ==> first.value in jobs
        invariant Best(jobs, jobs.Keys - todo, first, now, kinds)
        decreases |todo|
      {
        var id :| id in todo;
        BestNext(jobs, jobs.Keys - todo, first, now, kinds, id);
        assert jobs.Keys - (todo - {id}) == jobs.Keys - todo + {id};
        if Claimable(jobs[id], now, kinds) && (first.None? || ClaimBefore(jobs[id], jobs[first.value])) {
          first := Some(id);
        }
        todo := todo - {id};
      }
      assert jobs.Keys - todo == jobs.Keys;
      BestIsFirst(View(), first, now, kinds);
    }

    method Claim(worker: Id, lease: real, kinds: Option<set<Kind>>, now: real)
      returns (job: Option<(Id, Job)>, ghost order: seq<Id>)
      requires Valid()
      modifies this`jobs, this`events
      ensures Valid() && ListsExpired(old(View()), order, now)
      ensures View() == Jobs.Claim(old(View()), worker, lease, kinds, order, now)
      ensures job.None? <==> FirstOf(Jobs.Expire(old(View()), order, now), now, kinds).None?
      ensures job.Some? ==>
        && FirstOf(Jobs.Expire(old(View()), order, now), now, kinds) == Some(job.value.0)
        && job.value.0 in jobs && jobs[job.value.0] == job.value.1
        && Holds(View(), job.value.0, worker, job.value.1.token, now) == (lease > 0.0)
        && HeldUntil(View(), job.value.0, worker, job.value.1.token, now + lease)
    {
      hide Inv, Jobs.Expire, ListsExpired, HeldUntil;
      ghost var before := View();
      order := Expire(now);
      ClaimInv(before, worker, lease, kinds, order, now);
      if kinds == Some({}) {
        FirstOfFinds(View(), now, kinds);
        return None, order;
      }
      var first := First(now, kinds);
      if first.None? {
        return None, order;
      }
      var id := first.value;
      FirstOfFinds(View(), now, kinds);
      var j := jobs[id];
      j := j.(status := Running, attempts := j.attempts + 1, worker := Some(worker), token := j.token + 1,
              leaseUntil := Some(now + lease), updatedAt := now);
      Write(id, j, JobClaimed(worker, j.token, j.attempts), now);
      HeldIs(View(), id, worker, j.token, now + lease);
      return Some((id, j)), order;
    }

    method Heartbeat(id: Id, worker: Id, token: nat, lease: real, now: real) returns (alive: bool)
      requires Valid()
      modifies this`jobs
      ensures Valid() && View() == HeartbeatRow(old(View()), id, worker, token, lease, now)
      ensures alive == Holds(old(View()), id, worker, token, now)
      ensures alive ==> HeldUntil(View(), id, worker, token, now + lease)
    {
      hide Inv, HeldUntil;
      HeartbeatInv(View(), id, worker, token, lease, now);
      alive := Holds(Store(jobs, [], {}, map[]), id, worker, token, now);
      if alive {
        var j := jobs[id];
        jobs := jobs[id := j.(leaseUntil := Some(Max(j.leaseUntil.value, now + lease)), updatedAt := now)];
        HeldIs(View(), id, worker, token, now + lease);
      }
    }

    /** `_enqueue`. */
    method EnqueueRow(
      uuid: Id, kind: Kind, p: Payload, key: Key, notBefore: Option<real>, maxAttempts: nat, now: real)
      returns (r: Result<Id, StoreError>)
      requires Valid() && 1 <= maxAttempts
      modifies this`jobs, this`events
      ensures Valid()
      ensures match Jobs.EnqueueRow(old(View()), uuid, kind, p, key, notBefore, maxAttempts, now)
        case Ok((s1, id)) => View() == s1 && r == Ok(id)
        case Err(e) => View() == old(View()) && r == Err(e)
    {
      hide Inv, Put, KeyUsed;
      if Jobs.EnqueueRow(View(), uuid, kind, p, key, notBefore, maxAttempts, now).Ok? {
        EnqueueRowInv(View(), uuid, kind, p, key, notBefore, maxAttempts, now);
      }
      if id :| id in jobs && jobs[id].key == key {
        assert HasKey(View(), key, id);
        HolderUnique(View(), key, id);
        if !SameRequest(jobs[id], kind, p, notBefore, maxAttempts) {
          return Err(KeyConflict);
        }
        return Ok(id);
      }
      KeyUnused(View(), key);
      if RunOf(uuid, p).Some? && RunOf(uuid, p).value in cancelled {
        return Err(StoreError.RunCancelled);
      }
      if uuid in jobs {
        return Err(Collision);
      }
      Write(uuid, NewJob(|jobs|, kind, p, key, notBefore, maxAttempts, now), JobQueued, now);
      return Ok(uuid);
    }

    method Enqueue(
      uuid: Id, kind: Kind, p: Payload, key: Key, notBefore: Option<real>, maxAttempts: nat, now: real)
      returns (r: Result<Id, StoreError>)
      requires Valid() && 1 <= maxAttempts
      modifies this`jobs, this`events
      ensures Valid()
      ensures match Jobs.Enqueue(old(View()), uuid, kind, p, key, notBefore, maxAttempts, now)
        case Ok((s1, id)) => View() == s1 && r == Ok(id)
        case Err(e) => View() == old(View()) && r == Err(e)
    {
      hide Inv, Jobs.EnqueueRow;
      if key.Bucket? {
        return Err(Reserved);
      }
      r := EnqueueRow(uuid, kind, p, key, notBefore, maxAttempts, now);
    }

    method Complete(id: Id, worker: Id, token: nat, result: nat, next: Option<Next>, uuid: Id, now: real)
      returns (r: Result<bool, StoreError>)
      requires Valid()
      modifies this`jobs, this`events
      ensures Valid()
      ensures match Jobs.Complete(old(View()), id, worker, token, result, next, uuid, now)
        case Ok((s1, done)) => View() == s1 && r == Ok(done)
        case Err(e) => View() == old(View()) && r == Err(e)
    {
      hide Inv, Jobs.EnqueueRow, Put;
      if Jobs.Complete(View(), id, worker, token, result, next, uuid, now).Ok? {
        CompleteInv(View(), id, worker, token, result, next, uuid, now);
      }
      if next.Some? && next.value.key.Bucket? {
        return Err(Reserved);
      }
      if !Holds(Store(jobs, [], {}, map[]), id, worker, token, now) {
        return Ok(false);
      }
      SucceedInv(View(), id, worker, token, result, now);
      var jobs0, events0 := jobs, events;
      Write(id, SucceededRow(jobs[id], result, now), JobSucceeded(worker, token), now);
      if next.None? {
        return Ok(true);
      }
      var child := EnqueueRow(uuid, next.value.kind, next.value.payload, next.value.key, None, 3, now);
      if child.Err? {
        jobs, events := jobs0, events0;
        return Err(child.error);
      }
      if child.value == id {
        jobs, events := jobs0, events0;
        return Err(SelfFollowUp);
      }
      AppendEvent(Some(id), FollowupEnqueued(child.value, next.value.kind), now);
      return Ok(true);
    }

    method Requeue(id: Id, now: real) returns (failed: Option<StoreError>)
      requires Valid()
      modifies this`jobs, this`events
      ensures Valid()
      ensures match Jobs.Requeue(old(View()), id, now)
        case Ok(s1) => View() == s1 && failed.None?
        case Err(e) => View() == old(View()) && failed == Some(e)
    {
      hide Inv, Put;
      if Jobs.Requeue(View(), id, now).Ok? {
        RequeueInv(View(), id, now);
      }
      if id !in jobs {
        return Some(NotFound);
      }
      var j := jobs[id];
      if RunOf(id, j.payload).Some? && RunOf(id, j.payload).value in cancelled {
        return Some(StoreError.RunCancelled);
      }
      if !j.status.Deadletter? {
        return Some(NotDeadletter);
      }
      Write(id, j.(status := Queued, attempts := 0, worker := None, leaseUntil := None, result := None,
                   error := None, finishedAt := None, notBefore := now, updatedAt := now),
            JobRequeued(j.attempts, j.token), now);
      return None;
    }

    method Defer(id: Id, worker: Id, token: nat, delay: real, now: real) returns (deferred: bool)
      requires Valid()
      modifies this`jobs, this`events
      ensures Valid() && (View(), deferred) == Jobs.Defer(old(View()), id, worker, token, delay, now)
    {
      hide Inv, Put;
      DeferInv(View(), id, worker, token, delay, now);
      deferred := Holds(Store(jobs, [], {}, map[]), id, worker, token, now) && jobs[id].attempts > 0;
      if deferred {
        var j := jobs[id];
        Write(id, j.(status := Queued, attempts := j.attempts - 1, worker := None, leaseUntil := None,
                     notBefore := now + delay, updatedAt := now),
              JobDeferred(token), now);
      }
    }

    method Fail(id: Id, worker: Id, token: nat, error: nat, delay: real, now: real) returns (failed: bool)
      requires Valid()
      modifies this`jobs, this`events
      ensures Valid() && (View(), failed) == Jobs.Fail(old(View()), id, worker, token, error, delay, now)
    {
      hide Inv, Put;
      FailInv(View(), id, worker, token, error, delay, now);
      failed := Holds(Store(jobs, [], {}, map[]), id, worker, token, now);
      if failed {
        var j := jobs[id];
        var dead := j.attempts >= j.maxAttempts;
        Write(id, j.(status := if dead then Deadletter else Queued, error := Some(error), worker := None,
                     leaseUntil := None, notBefore := now + delay, updatedAt := now,
                     finishedAt := if dead then Some(now) else None),
              if dead then JobDeadletter(j.attempts) else RetryScheduled(j.attempts), now);
      }
    }

    /** `cancel_run`; `order` is the order in which the SELECT returned the run's active jobs. */
    method CancelRun(id: Id, now: real) returns (failed: Option<StoreError>, ghost order: seq<Id>)
      requires Valid()
      modifies this`jobs, this`events, this`cancelled
      ensures Valid()
      ensures id in old(jobs) ==> ListsRun(old(View()), order, CancelTarget(id, old(jobs)[id].payload))
      ensures match Jobs.Cancel(old(View()), id, order, now)
        case Ok(s1) => View() == s1 && failed.None?
        case Err(e) => View() == old(View()) && failed == Some(e)
    {
      hide Inv;
      order := [];
      if id !in jobs {
        return Some(NotFound), order;
      }
      ghost var start := View();
      var run := CancelTarget(id, jobs[id].payload);
      cancelled := cancelled + {run};
      ghost var before := View();
      assert CancelRows(before, order, run, now) == before;
      hide CancelRows, ListsRun;
      var todo := set k | k in jobs && InCancelledRun(k, jobs[k], run);
      while todo != {}
        invariant cancelled == start.cancelled + {run}
        invariant View() == CancelRows(before, order, run, now)
        invariant forall k :: k in todo ==> k in jobs && InCancelledRun(k, jobs[k], run)
        invariant forall k :: k in before.jobs && InCancelledRun(k, before.jobs[k], run) ==> k in order || k in todo
        decreases |todo|
      {
        ghost var was := View();
        var k :| k in todo;
        var j := jobs[k];
        Write(k, j.(status := Deadletter, error := Some(CANCELLED_BY_OWNER), token := j.token + 1,
                    leaseUntil := None, updatedAt := now, finishedAt := Some(now)),
              JobCancelled(run), now);
        assert View() == CancelOne(was, k, run, now);
        CancelSnoc(before, order, k, run, now);
        order := order + [k];
        todo := todo - {k};
      }
      CancelInv(start, id, order, now);
      return None, order;
    }

    method PutSchedule(id: Id, c: Schedule, now: real)
      requires Valid() && c.interval >= 1.0
      modifies this`schedules, this`events
      ensures Valid() && View() == Jobs.PutSchedule(old(View()), id, c, now)
    {
      hide Inv;
      PutScheduleInv(View(), id, c, now);
      var created := id !in schedules;
      var due := now;
      if !created && c.interval == schedules[id].interval && !(c.enabled && !schedules[id].enabled) {
        due := schedules[id].nextRunAt;
      }
      schedules := schedules[id := c.(nextRunAt := due)];
      AppendEvent(None, ScheduleSaved(id, created), now);
    }

    method SetNextRun(id: Id, t: real)
      requires id in schedules && schedules[id].interval > 0.0
      modifies this`schedules
      ensures View() == Advance(old(View()), id, t)
    {
      var c := schedules[id];
      schedules := schedules[id := c.(nextRunAt := NextRun(t, c.interval))];
    }

    /** One due schedule of a tick. */
    method TickOne(id: Id, uuid: Id, t: real) returns (r: Result<nat, StoreError>)
      requires Valid() && id in schedules
      modifies this`jobs, this`events, this`schedules
      ensures old(schedules)[id].interval > 0.0
      ensures match Jobs.TickOne(old(View()), id, uuid, t)
        case Ok((s1, n)) => Valid() && View() == s1 && r == Ok(n)
        case Err(e) => View() == old(View()) && r == Err(e)
    {
      hide Inv, Jobs.EnqueueRow, BucketOf;
      IntervalPositive(View(), id);
      if Jobs.TickOne(View(), id, uuid, t).Ok? {
        TickOneInv(View(), id, uuid, t);
      }
      var c := schedules[id];
      var bucket := BucketOf(t, c.interval);
      var key := Bucket(id, c.interval, bucket);
      hide Advance, Log;
      var active := exists k :: k in jobs && Active(jobs[k]) && jobs[k].key.Bucket? && jobs[k].key.schedule == id;
      assert active == HasActiveBucket(View(), id);
      var missed := c.catchup != 0.0 && t - c.nextRunAt > c.catchup;
      if !missed && c.overlap.SkipIfRunning? && active {
        missed := true;
      }
      if !missed && c.overlap.BufferOne? && active {
        return Ok(0);
      }
      if missed {
        AppendEvent(None, ScheduleMissed(id, bucket), t);
        SetNextRun(id, t);
        return Ok(0);
      }
      var used := exists k :: k in jobs && jobs[k].key == key;
      assert used == KeyUsed(View(), key) by {
        if used {
          var k :| k in jobs && jobs[k].key == key;
          assert HasKey(View(), key, k);
        }
      }
      if used {
        SetNextRun(id, t);
        return Ok(0);
      }
      hide KeyUsed, HasActiveBucket;
      var job := EnqueueRow(uuid, c.kind, c.payload, key, Some(t), 3, t);
      if job.Err? {
        return Err(job.error);
      }
      AppendEvent(Some(job.value), ScheduleEnqueued(id, bucket), t);
      SetNextRun(id, t);
      return Ok(1);
    }

    /** ORDER BY next_run_at, id. */
    method NextDue(todo: set<Id>) returns (id: Id)
      requires todo != {} && todo <= schedules.Keys
      ensures id in todo && forall o :: o in todo && o != id ==> DueFirst(schedules, id, o)
    {
      id :| id in todo;
      var rest := todo - {id};
      while rest != {}
        invariant rest <= todo && id in todo
        invariant forall o :: o in todo && o !in rest && o != id ==> DueFirst(schedules, id, o)
        decreases |rest|
      {
        var o :| o in rest;
        if DueFirst(schedules, o, id) {
          id := o;
        }
        rest := rest - {o};
      }
    }

    /** `tick_schedules`; `drawn` holds the identifier each schedule's job would get. */
    method TickSchedules(drawn: map<Id, Id>, t: real)
      returns (r: Result<nat, StoreError>, ghost order: seq<(Id, Id)>)
      requires Valid() && schedules.Keys <= drawn.Keys
      modifies this`jobs, this`events, this`schedules
      ensures Valid()
      ensures match Tick(old(View()), order, t)
        case Ok((s1, n)) => View() == s1 && r == Ok(n)
        case Err(e) => View() == old(View()) && r == Err(e)
      ensures r.Ok? ==> forall id :: id in old(schedules) && DueAt(old(schedules)[id], t) ==> (id, drawn[id]) in order
      ensures InDueOrder(old(schedules), order)
    {
      hide Inv, Jobs.TickOne, Tick;
      ghost var before := View();
      TickNothing(before, t);
      var jobs0, events0, schedules0 := jobs, events, schedules;
      var todo := set id | id in schedules && DueAt(schedules[id], t);
      var created := 0;
      order := [];
      hide DueAt;
      while todo != {}
        invariant Valid() && Tick(before, order, t) == Ok((View(), created))
        invariant Unvisited(before.schedules, schedules, todo, order, drawn, t)
        invariant DueLater(before.schedules, schedules, todo, order)
        decreases |todo|
      {
        ghost var was := View();
        var id := NextDue(todo);
        var n := TickOne(id, drawn[id], t);
        TickSnoc(before, order, id, drawn[id], t);
        if n.Ok? {
          TickOneFrame(was, id, drawn[id], t);
        }
        VisitInOrder(before.schedules, was.schedules, schedules, todo, order, id, drawn[id]);
        hide Unvisited, DueLater;
        if n.Err? {
          jobs, events, schedules := jobs0, events0, schedules0;
          VisitNext(before.schedules, was.schedules, was.schedules, todo, order, drawn, t, id);
          order := order + [(id, drawn[id])];
          return Err(n.error), order;
        }
        VisitNext(before.schedules, was.schedules, schedules, todo, order, drawn, t, id);
        order := order + [(id, drawn[id])];
        created := created + n.value;
        todo := todo - {id};
      }
      return Ok(created), order;
    }
  }

  /** ORDER BY next_run_at, id. */
  predicate DueFirst(schedules: map<Id, Schedule>, a: Id, b: Id)
    requires a in schedules && b in schedules
  {
    || schedules[a].nextRunAt < schedules[b].nextRunAt
    || (schedules[a].nextRunAt == schedules[b].nextRunAt && a < b)
  }

  /** Every schedule once, by its due time before the tick. */
  ghost predicate InDueOrder(start: map<Id, Schedule>, order: seq<(Id, Id)>) {
    && (forall n :: 0 <= n < |order| ==> order[n].0 in start)
    && (forall m, n :: 0 <= m < n < |order| ==> DueFirst(start, order[m].0, order[n].0))
  }

  /** The schedules still to visit are untouched and come after those visited. */
  ghost predicate DueLater(start: map<Id, Schedule>, now: map<Id, Schedule>, todo: set<Id>, order: seq<(Id, Id)>) {
    && InDueOrder(start, order)
    && (forall id :: id in todo ==> id in start && id in now && now[id] == start[id])
    && (forall n, id :: 0 <= n < |order| && id in todo ==> DueFirst(start, order[n].0, id))
  }

  lemma VisitInOrder(
    start: map<Id, Schedule>, now: map<Id, Schedule>, now1: map<Id, Schedule>, todo: set<Id>, order: seq<(Id, Id)>,
    id: Id, uuid: Id)
    requires DueLater(start, now, todo, order) && id in todo && forall o :: o in todo && o != id ==> DueFirst(now, id, o)
    requires forall o :: o in now && o != id ==> o in now1 && now1[o] == now[o]
    ensures DueLater(start, now1, todo - {id}, order + [(id, uuid)])
  {
  }

  /** The visited schedules are in the list, the rest are still due. */
  ghost predicate Unvisited(
    start: map<Id, Schedule>, now: map<Id, Schedule>, todo: set<Id>, order: seq<(Id, Id)>, drawn: map<Id, Id>, t: real)
  {
    && todo <= now.Keys <= drawn.Keys
    && (forall id :: id in todo ==> DueAt(now[id], t))
    && (forall id :: id in start && DueAt(start[id], t) ==> id in todo || (id in drawn && (id, drawn[id]) in order))
  }

  lemma VisitNext(
    start: map<Id, Schedule>, now: map<Id, Schedule>, now1: map<Id, Schedule>, todo: set<Id>, order: seq<(Id, Id)>,
    drawn: map<Id, Id>, t: real, id: Id)
    requires Unvisited(start, now, todo, order, drawn, t) && id in todo
    requires now1.Keys == now.Keys && forall o :: o in now && o != id ==> now1[o] == now[o]
    ensures Unvisited(start, now1, todo - {id}, order + [(id, drawn[id])], drawn, t)
  {
  }

  /** The first claimable row of those visited. */
  ghost predicate Best(jobs: map<Id, Job>, done: set<Id>, first: Option<Id>, now: real, kinds: Option<set<Kind>>) {
    && (first.Some? ==> first.value in jobs && Claimable(jobs[first.value], now, kinds))
    && (forall o :: o in jobs && o in done && Claimable(jobs[o], now, kinds) ==>
          first.Some? && ClaimBefore(jobs[first.value], jobs[o]))
  }

  lemma NothingBest(jobs: map<Id, Job>, now: real, kinds: Option<set<Kind>>)
    ensures jobs.Keys - jobs.Keys == {} && Best(jobs, {}, None, now, kinds)
  {
  }

  lemma BestNext(
    jobs: map<Id, Job>, done: set<Id>, first: Option<Id>, now: real, kinds: Option<set<Kind>>, id: Id)
    requires Best(jobs, done, first, now, kinds) && id in jobs
    ensures Best(jobs, done + {id},
                 if Claimable(jobs[id], now, kinds) && (first.None? || ClaimBefore(jobs[id], jobs[first.value])) then Some(id)
                 else first, now, kinds)
  {
  }

  lemma BestIsFirst(s: Store, first: Option<Id>, now: real, kinds: Option<set<Kind>>)
    requires Inv(s) && Best(s.jobs, s.jobs.Keys, first, now, kinds)
    ensures first == FirstOf(s, now, kinds)
  {
    FirstOfFinds(s, now, kinds);
    hide Claimable, ClaimBefore;
    if first.Some? {
      assert IsFirst(s, first.value, now, kinds);
      FirstUnique(s, first.value, FirstOf(s, now, kinds).value, now, kinds);
    }
  }

  lemma ExpireSnoc(s: Store, order: seq<Id>, id: Id, now: real)
    ensures var s1 := Jobs.Expire(s, order, now);
      Jobs.Expire(s, order + [id], now)
      == if id in s1.jobs && Expired(s1.jobs[id], now) then ExpireOne(s1, id, now) else s1
  {
  }

  lemma CancelSnoc(s: Store, order: seq<Id>, id: Id, run: Id, now: real)
    ensures var s1 := CancelRows(s, order, run, now);
      CancelRows(s, order + [id], run, now)
      == if id in s1.jobs && InCancelledRun(id, s1.jobs[id], run) then CancelOne(s1, id, run, now) else s1
  {
  }

  lemma TickNothing(s: Store, t: real)
    ensures Tick(s, [], t) == Ok((s, 0))
  {
  }

  lemma TickSnoc(s: Store, order: seq<(Id, Id)>, id: Id, uuid: Id, t: real)
    requires Tick(s, order, t).Ok?
    ensures var (s1, n) := Tick(s, order, t).value;
      id in s1.schedules && s1.schedules[id].interval > 0.0 && DueAt(s1.schedules[id], t) ==>
        Tick(s, order + [(id, uuid)], t)
        == match Jobs.TickOne(s1, id, uuid, t) case Ok((s2, m)) => Ok((s2, n + m)) case Err(e) => Err(e)
  {
    hide Jobs.TickOne, DueAt;
    assert (order + [(id, uuid)])[..|order + [(id, uuid)]| - 1] == order;
  }

  /** A tick of one schedule leaves the other schedules and the cancelled runs alone. */
  lemma TickOneFrame(s: Store, id: Id, uuid: Id, t: real)
    requires id in s.schedules && s.schedules[id].interval > 0.0 && Jobs.TickOne(s, id, uuid, t).Ok?
    ensures var s1 := Jobs.TickOne(s, id, uuid, t).value.0;
      && s1.cancelled == s.cancelled && s1.schedules.Keys == s.schedules.Keys
      && (forall o :: o in s.schedules && o != id ==> s1.schedules[o] == s.schedules[o])
  {
  }

  lemma KeyUnused(s: Store, key: Key)
    requires forall id :: id in s.jobs ==> s.jobs[id].key != key
    ensures !KeyUsed(s, key)
  {
  }

  lemma HolderUnique(s: Store, key: Key, id: Id)
    requires Inv(s) && HasKey(s, key, id)
    ensures KeyUsed(s, key) && Holder(s, key) == id
  {
  }
}
