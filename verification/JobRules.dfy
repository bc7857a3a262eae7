/** What the queue promises a caller: which job a claim takes, from when a job can start, what an enqueue stores, and
    where a result comes from. */
module JobRules {
  import opened Core
  import opened Jobs
  import opened JobHistory
  import opened Fencing

  // Who is next

  /** The job can start at `t` for a worker of these kinds. */
  predicate Waits(j: Job, t: real, kinds: Option<set<Kind>>) {
    && j.status == Queued && t >= j.notBefore && j.maxAttempts > j.attempts && (kinds == None || j.kind in kinds.value)
  }

  /** Due sooner; of those due at the same time, created sooner; of those, stored sooner. */
  predicate Sooner(a: Job, b: Job) {
    if a.notBefore != b.notBefore then a.notBefore < b.notBefore
    else if a.createdAt != b.createdAt then a.createdAt < b.createdAt
    else a.row < b.row
  }

  /** A claim takes the job that is waiting and sooner than every other, and none only when none is waiting. */
  lemma ClaimTakesSoonest(s: Store, now: real, kinds: Option<set<Kind>>, id: Id)
    requires RowsOk(s.jobs)
    ensures FirstOf(s, now, kinds) == None <==> forall o :: o in s.jobs ==> !Waits(s.jobs[o], now, kinds)
    ensures FirstOf(s, now, kinds) == Some(id) <==>
      && id in s.jobs && Waits(s.jobs[id], now, kinds)
      && forall o :: o in s.jobs && o != id && Waits(s.jobs[o], now, kinds) ==> Sooner(s.jobs[id], s.jobs[o])
  {
    FirstOfFinds(s, now, kinds);
    hide FirstOf;
    if IsFirst(s, id, now, kinds) {
      FirstUnique(s, id, FirstOf(s, now, kinds).value, now, kinds);
    }
  }

  // From when a job can start

  /** The command puts the job back into the queue, to start at `from`. */
  ghost predicate PutsBack(s: Store, c: Cmd, id: Id, from: real) {
    match c
    case CFail(k, worker, token, _, delay, now) =>
      k == id && Holds(s, id, worker, token, now) && s.jobs[id].attempts < s.jobs[id].maxAttempts && from == now + delay
    case CDefer(k, worker, token, delay, now) => k == id && Holds(s, id, worker, token, now) && from == now + delay
    case CRequeue(k, now) =>
      && k == id && id in s.jobs && s.jobs[id].status.Deadletter? && from == now
      && !Cancelled(s, id, s.jobs[id].payload)
    case _ => false
  }

  /** A job that failed with attempts left, was given back or was requeued can start from then on, and not before. */
  lemma StartsAgainExactly(s: Store, c: Cmd, id: Id, from: real, t: real, kinds: Option<set<Kind>>)
    requires Inv(s) && PutsBack(s, c, id, from)
    ensures id in Apply(s, c).jobs
    ensures Waits(Apply(s, c).jobs[id], t, kinds) <==> t >= from && (kinds == None || s.jobs[id].kind in kinds.value)
    ensures Apply(s, c).jobs[id].attempts ==
      match c case CFail(_, _, _, _, _, _) => s.jobs[id].attempts case CDefer(_, _, _, _, _) => s.jobs[id].attempts - 1 case _ => 0
  {
    assert JobOk(s.jobs[id]);
    hide Inv, Cancelled;
  }

  /** A failure with no attempt left ends the job with its error. */
  lemma LastFailureIsFinal(s: Store, id: Id, worker: Id, token: nat, error: nat, delay: real, now: real)
    requires Holds(s, id, worker, token, now) && s.jobs[id].attempts >= s.jobs[id].maxAttempts
    ensures var s1 := Apply(s, CFail(id, worker, token, error, delay, now));
      && s1.jobs.Keys == s.jobs.Keys && s1.jobs[id].status == Deadletter && s1.jobs[id].error == Some(error)
      && s1.jobs[id].finishedAt == Some(now) && s1.jobs[id].result == s.jobs[id].result
  {
  }

  /** A job whose worker let the lease run out can start at once while attempts are left, and is dead otherwise. */
  lemma ExpiredStartsAgainExactly(s: Store, ids: seq<Id>, now: real, id: Id, t: real, kinds: Option<set<Kind>>)
    requires Inv(s) && id in ids && id in s.jobs && s.jobs[id].status == Running
    requires s.jobs[id].leaseUntil.Some? && s.jobs[id].leaseUntil.value <= now
    ensures id in Expire(s, ids, now).jobs
    ensures var j, j1 := s.jobs[id], Expire(s, ids, now).jobs[id];
      && (j1.status == Deadletter <==> j.attempts >= j.maxAttempts) && j1.attempts == j.attempts && j1.token == j.token
      && j1.error == Some(LEASE_EXPIRED) && j1.worker == None && j1.leaseUntil == None
      && j1.finishedAt == (if j.attempts >= j.maxAttempts then Some(now) else None)
      && (Waits(j1, t, kinds) <==> j.attempts < j.maxAttempts && t >= now && (kinds == None || j.kind in kinds.value))
  {
    ExpireExactly(s, ids, now, id);
    hide Expire, Inv;
  }

  /** Cancelling a run kills its queued and running jobs, each under a new token and without a lease, and touches no other
      job. */
  lemma CancelledExactly(s: Store, id: Id, ids: seq<Id>, now: real, k: Id)
    requires id in s.jobs && ListsRun(s, ids, CancelTarget(id, s.jobs[id].payload)) && k in s.jobs
    ensures var run := CancelTarget(id, s.jobs[id].payload);
      var s1 := Cancel(s, id, ids, now).value;
      && s1.cancelled == s.cancelled + {run} && k in s1.jobs
      && s1.jobs[k] ==
         if (k == run || s.jobs[k].payload.pipeline == Text(run)) && (s.jobs[k].status == Queued || s.jobs[k].status == Running)
         then
           s.jobs[k].(status := Deadletter, error := Some(CANCELLED_BY_OWNER), token := s.jobs[k].token + 1,
                      leaseUntil := None, updatedAt := now, finishedAt := Some(now))
         else s.jobs[k]
  {
    var run := CancelTarget(id, s.jobs[id].payload);
    CancelledRow(s.(cancelled := s.cancelled + {run}), ids, run, now, k);
    hide CancelRows;
  }

  lemma {:induction false} CancelledRow(s: Store, ids: seq<Id>, run: Id, now: real, k: Id)
    requires k in s.jobs
    ensures var s1 := CancelRows(s, ids, run, now);
      && s1.cancelled == s.cancelled && k in s1.jobs
      && s1.jobs[k] == if k in ids && InCancelledRun(k, s.jobs[k], run) then CancelOne(s, k, run, now).jobs[k] else s.jobs[k]
  {
    if ids != [] {
      var front, last := ids[..|ids| - 1], ids[|ids| - 1];
      CancelledRow(s, front, run, now, k);
      assert ids == front + [last];
    }
  }

  // What an enqueue stores

  predicate SameAsked(j: Job, c: Cmd)
    requires c.CEnqueue?
  {
    j.kind == c.kind && j.payload == c.payload && j.maxAttempts == c.maxAttempts && j.initialNotBefore == c.notBefore
  }

  /** The run is cancelled that the payload names; a payload without the field is a run of its own. */
  predicate RunIsCancelled(s: Store, p: Payload, id: Id) {
    p.pipeline != Null && (if p.pipeline == Absent then id else p.pipeline.run) in s.cancelled
  }

  /** A caller's enqueue under a new key stores one job as it was asked for, that can start from the time asked for or at
      once, unless its run is cancelled or its identifier is taken. */
  lemma EnqueuedExactly(s: Store, c: Cmd, t: real)
    requires c.CEnqueue? && 1 <= c.maxAttempts && !c.key.Bucket? && forall o :: o in s.jobs ==> s.jobs[o].key != c.key
    ensures var refused := RunIsCancelled(s, c.payload, c.uuid) || c.uuid in s.jobs;
      && (refused ==> Apply(s, c) == s)
      && (!refused ==>
            && c.uuid in Apply(s, c).jobs && Apply(s, c).jobs == s.jobs[c.uuid := Apply(s, c).jobs[c.uuid]]
            && Apply(s, c).events == s.events + [Event(Some(c.uuid), JobQueued, c.now)]
            && Apply(s, c).cancelled == s.cancelled && Apply(s, c).schedules == s.schedules
            && var j := Apply(s, c).jobs[c.uuid];
            && SameAsked(j, c) && j.key == c.key && j.row == |s.jobs| && j.createdAt == c.now && j.attempts == 0
            && j.token == 0 && j.result == None && j.worker == None
            && (Waits(j, t, None) <==> t >= if c.notBefore.Some? then c.notBefore.value else c.now))
  {
  }

  /** Under a key in use nothing is stored; the answer is the job of the key exactly when it was asked for in the same
      way. */
  lemma RepeatedExactly(s: Store, c: Cmd, id: Id)
    requires RowsOk(s.jobs) && c.CEnqueue? && !c.key.Bucket? && id in s.jobs && s.jobs[id].key == c.key
    ensures Apply(s, c) == s
    ensures Enqueue(s, c.uuid, c.kind, c.payload, c.key, c.notBefore, c.maxAttempts, c.now)
      == if SameAsked(s.jobs[id], c) then Ok((s, id)) else Err(KeyConflict)
  {
    assert HasKey(s, c.key, id);
    assert Holder(s, c.key) == id by {
      assert HasKey(s, c.key, Holder(s, c.key));
    }
    hide RowsOk;
  }

  // Where a result comes from

  /** Every job that has succeeded had succeeded before. */
  ghost predicate NoneSucceeds(s: Store, s1: Store) {
    forall k :: k in s1.jobs && s1.jobs[k].status.Succeeded? ==> k in s.jobs && s.jobs[k].status.Succeeded?
  }

  lemma {:induction false} ExpireSucceedsNone(s: Store, ids: seq<Id>, now: real)
    ensures NoneSucceeds(s, Expire(s, ids, now))
  {
    if ids != [] {
      ExpireSucceedsNone(s, ids[..|ids| - 1], now);
    }
  }

  lemma {:induction false} CancelSucceedsNone(s: Store, ids: seq<Id>, run: Id, now: real)
    ensures NoneSucceeds(s, CancelRows(s, ids, run, now))
  {
    if ids != [] {
      CancelSucceedsNone(s, ids[..|ids| - 1], run, now);
    }
  }

  lemma EnqueueSucceedsNone(
    s: Store, uuid: Id, kind: Kind, p: Payload, key: Key, notBefore: Option<real>, maxAttempts: nat, now: real)
    ensures EnqueueRow(s, uuid, kind, p, key, notBefore, maxAttempts, now).Ok? ==>
      NoneSucceeds(s, EnqueueRow(s, uuid, kind, p, key, notBefore, maxAttempts, now).value.0)
  {
    hide Cancelled, KeyUsed, SameRequest;
  }

  lemma TickOneSucceedsNone(s: Store, id: Id, uuid: Id, t: real)
    requires id in s.schedules && s.schedules[id].interval > 0.0
    ensures TickOne(s, id, uuid, t).Ok? ==> NoneSucceeds(s, TickOne(s, id, uuid, t).value.0)
  {
    hide EnqueueRow, Judge, KeyUsed, BucketOf, NextRun;
    var c := s.schedules[id];
    EnqueueSucceedsNone(s, uuid, c.kind, c.payload, Bucket(id, c.interval, BucketOf(t, c.interval)), Some(t), 3, t);
  }

  lemma {:induction false} TickSucceedsNone(s: Store, ids: seq<(Id, Id)>, t: real)
    ensures Tick(s, ids, t).Ok? ==> NoneSucceeds(s, Tick(s, ids, t).value.0)
  {
    hide TickOne, DueAt;
    if ids != [] && Tick(s, ids[..|ids| - 1], t).Ok? {
      TickSucceedsNone(s, ids[..|ids| - 1], t);
      var s1, n, uuid := Tick(s, ids[..|ids| - 1], t).value.0, ids[|ids| - 1].0, ids[|ids| - 1].1;
      if n in s1.schedules && s1.schedules[n].interval > 0.0 {
        TickOneSucceedsNone(s1, n, uuid, t);
      }
    }
  }

  /** The command reports the result under a token that was accepted. */
  ghost predicate Reports(s: Store, c: Cmd, id: Id, result: Option<nat>) {
    c.CComplete? && c.id == id && Holds(s, id, c.worker, c.token, c.now) && result == Some(c.result)
  }

  lemma CompleteReports(s: Store, c: Cmd, id: Id)
    requires c.CComplete? && id in Apply(s, c).jobs && Apply(s, c).jobs[id].status.Succeeded?
    requires !(id in s.jobs && s.jobs[id].status.Succeeded?)
    ensures Reports(s, c, id, Apply(s, c).jobs[id].result)
  {
    hide EnqueueRow, Holds;
    if Complete(s, c.id, c.worker, c.token, c.result, c.next, c.uuid, c.now).Ok? && c.next.Some?
      && Holds(s, c.id, c.worker, c.token, c.now) {
      HoldsJob(s, c.id, c.worker, c.token, c.now);
      var s1 := Put(s, c.id, SucceededRow(s.jobs[c.id], c.result, c.now), JobSucceeded(c.worker, c.token), c.now);
      EnqueueSucceedsNone(s1, c.uuid, c.next.value.kind, c.next.value.payload, c.next.value.key, None, 3, c.now);
      EnqueueKeeps(s1, c.uuid, c.next.value.kind, c.next.value.payload, c.next.value.key, None, 3, c.now, c.id);
    }
  }

  lemma HoldsJob(s: Store, id: Id, worker: Id, token: nat, now: real)
    requires Holds(s, id, worker, token, now)
    ensures id in s.jobs
  {
  }

  lemma StepReports(s: Store, c: Cmd, id: Id)
    requires id in Apply(s, c).jobs && Apply(s, c).jobs[id].status.Succeeded?
    requires !(id in s.jobs && s.jobs[id].status.Succeeded?)
    ensures Reports(s, c, id, Apply(s, c).jobs[id].result)
  {
    hide EnqueueRow, Expire, CancelRows, Tick, Complete, FirstOf, Cancelled;
    match c {
      case CClaim(_, _, kinds, order, now) =>
        ExpireSucceedsNone(s, order, now);
        FirstOfFinds(Expire(s, order, now), now, kinds);
      case CCancel(k, order, now) =>
        if k in s.jobs {
          var run := CancelTarget(k, s.jobs[k].payload);
          CancelSucceedsNone(s.(cancelled := s.cancelled + {run}), order, run, now);
        }
      case CTick(ids, now) => TickSucceedsNone(s, ids, now);
      case CEnqueue(uuid, kind, p, key, notBefore, maxAttempts, now) =>
        EnqueueSucceedsNone(s, uuid, kind, p, key, notBefore, maxAttempts, now);
      case CComplete(_, _, _, _, _, _, _) => CompleteReports(s, c, id);
      case _ =>
    }
  }

  /** In every reachable state, the result of a job that has succeeded is the one that one completion of the run reported
      for it, under a token that held at that moment. */
  lemma {:induction false} ResultWasReported(cmds: seq<Cmd>, id: Id) returns (n: nat)
    requires Possible(cmds) && id in After(cmds, |cmds|).jobs && After(cmds, |cmds|).jobs[id].status.Succeeded?
    ensures n < |cmds| && Reports(After(cmds, n), cmds[n], id, After(cmds, |cmds|).jobs[id].result)
  {
    hide Apply, Inv, Reports, Admissible;
    assert cmds[..|cmds|] == cmds;
    if cmds != [] {
      var last := |cmds| - 1;
      Reachable(cmds, last);
      hide AdmissibleRun;
      if id in After(cmds, last).jobs && After(cmds, last).jobs[id].status.Succeeded? {
        SucceededIsFinal(cmds, last, last + 1, id);
        FrontPossible(cmds, last);
        assert cmds[..last][..last] == cmds[..last];
        n := ResultWasReported(cmds[..last], id);
        assert cmds[..last][..n] == cmds[..n];
      } else {
        StepReports(After(cmds, last), cmds[last], id);
        n := last;
      }
    }
  }

  lemma FrontPossible(cmds: seq<Cmd>, m: nat)
    requires Possible(cmds) && m <= |cmds|
    ensures Possible(cmds[..m])
  {
    PrefixAdmissible(EmptyStore(), cmds, m);
  }

  /** A caller's event is appended as it is, unless it names a job that is not there. */
  lemma EventAdded(s: Store, c: Cmd)
    requires c.CEvent?
    ensures Apply(s, c)
      == if c.job == None || c.job.value in s.jobs then
           Store(s.jobs, s.events + [Event(c.job, Custom(c.name), c.now)], s.cancelled, s.schedules)
         else s
  {
  }

  // Completing with a next step

  ghost predicate Accepted(s: Store, c: Cmd)
    requires c.CComplete?
  {
    Ends(s, c, c.id, c.token)
  }

  /** A completion with a next step is accepted exactly when its token holds and the next step can be stored, or is there
      already as another job that was asked for in the same way; otherwise nothing is stored, the result included. */
  lemma CompletedExactly(s: Store, c: Cmd)
    requires RowsOk(s.jobs) && c.CComplete? && c.next.Some? && !c.next.value.key.Bucket?
    ensures var next := c.next.value;
      && (!Accepted(s, c) ==> Apply(s, c) == s)
      && ((forall o :: o in s.jobs ==> s.jobs[o].key != next.key) ==>
            (Accepted(s, c) <==>
               Holds(s, c.id, c.worker, c.token, c.now) && c.uuid !in s.jobs && !RunIsCancelled(s, next.payload, c.uuid)))
      && (forall k :: k in s.jobs && s.jobs[k].key == next.key ==>
            (Accepted(s, c) <==>
               && Holds(s, c.id, c.worker, c.token, c.now) && k != c.id && s.jobs[k].kind == next.kind
               && s.jobs[k].payload == next.payload && s.jobs[k].maxAttempts == 3 && s.jobs[k].initialNotBefore == None))
  {
    hide RowsOk;
    if Holds(s, c.id, c.worker, c.token, c.now) {
      var s1 := Put(s, c.id, SucceededRow(s.jobs[c.id], c.result, c.now), JobSucceeded(c.worker, c.token), c.now);
      SameKeys(s, s1, c.id, c.next.value.key);
      if k :| k in s.jobs && s.jobs[k].key == c.next.value.key {
        HolderIs(s, s1, c.id, c.next.value.key, k);
      }
      hide KeyUsed, Holds;
    }
  }

  /** The key is used after the job's own row was written exactly when it was used before. */
  lemma SameKeys(s: Store, s1: Store, id: Id, key: Key)
    requires id in s.jobs && id in s1.jobs && s1.jobs == s.jobs[id := s1.jobs[id]] && s1.jobs[id].key == s.jobs[id].key
    ensures KeyUsed(s1, key) <==> exists k :: k in s.jobs && s.jobs[k].key == key
  {
    if k :| k in s.jobs && s.jobs[k].key == key {
      assert HasKey(s1, key, k);
    }
  }

  lemma HolderIs(s: Store, s1: Store, id: Id, key: Key, k: Id)
    requires RowsOk(s.jobs) && id in s.jobs && id in s1.jobs
    requires s1.jobs == s.jobs[id := s1.jobs[id]] && s1.jobs[id].key == s.jobs[id].key
    requires k in s.jobs && s.jobs[k].key == key && KeyUsed(s1, key)
    ensures Holder(s1, key) == k && forall o :: o in s.jobs && s.jobs[o].key == key ==> o == k
  {
    assert HasKey(s1, key, Holder(s1, key));
  }

  // Editing a schedule

  /** Saving a schedule touches no job and no other schedule. It is due now when it is new, has another interval, or is
      switched on; otherwise it stays due when it was. */
  lemma SavedExactly(s: Store, id: Id, c: Schedule, now: real)
    ensures var s1 := Apply(s, CPutSchedule(id, c, now));
      && s1.jobs == s.jobs && s1.cancelled == s.cancelled && s1.schedules.Keys == s.schedules.Keys + {id}
      && (forall o :: o in s.schedules && o != id ==> s1.schedules[o] == s.schedules[o])
      && s1.schedules[id] == Schedule(c.kind, c.payload, c.interval, c.enabled, c.overlap, c.catchup, s1.schedules[id].nextRunAt)
      && (id !in s.schedules ==> s1.schedules[id].nextRunAt == now)
      && (id in s.schedules ==>
            var was := s.schedules[id];
            var restarts := c.interval != was.interval || (!was.enabled && c.enabled);
            s1.schedules[id].nextRunAt == if restarts then now else was.nextRunAt)
  {
  }
}
