/** What holds of every run of the job store: its journal, its lease tokens, its attempts, its cancellations. */
module Fencing {
  import opened Core
  import opened Jobs
  import opened JobHistory

  /** The store after the first n commands, from empty. */
  ghost function After(cmds: seq<Cmd>, n: nat): Store
    requires n <= |cmds|
  {
    Run(EmptyStore(), cmds[..n])
  }

  ghost predicate Possible(cmds: seq<Cmd>) {
    AdmissibleRun(EmptyStore(), cmds)
  }

  lemma Reachable(cmds: seq<Cmd>, n: nat)
    requires Possible(cmds) && n <= |cmds|
    ensures Inv(After(cmds, n))
    ensures n < |cmds| ==>
      Admissible(After(cmds, n), cmds[n]) && After(cmds, n + 1) == Apply(After(cmds, n), cmds[n])
  {
    EmptyInv();
    PrefixAdmissible(EmptyStore(), cmds, n);
    RunInv(EmptyStore(), cmds[..n]);
    if n < |cmds| {
      assert cmds[..n + 1][..|cmds[..n + 1]| - 1] == cmds[..n];
    }
  }

  lemma Later(cmds: seq<Cmd>, m: nat, n: nat)
    requires Possible(cmds) && m <= n <= |cmds|
    ensures Grows(After(cmds, m), After(cmds, n))
  {
    EmptyInv();
    PrefixAdmissible(EmptyStore(), cmds, n);
    RunGrows(EmptyStore(), cmds[..n], m);
    assert cmds[..n][..m] == cmds[..m];
  }

  /** The events of a job alone tell its status, its attempts and its token; the token counts its claims and
      cancellations, the attempts its claims less its defers since the last requeue. */
  lemma JournalReplay(cmds: seq<Cmd>, id: Id)
    requires Possible(cmds)
    ensures var s := After(cmds, |cmds|);
      var h := HistoryOf(s.events, id);
      if id in s.jobs then
        && Replay(h) == Some(Summary(s.jobs[id].status, s.jobs[id].attempts, s.jobs[id].token))
        && s.jobs[id].token == Claims(h) + Cancellations(h)
        && s.jobs[id].attempts == NetClaims(h)
      else h == []
  {
    Reachable(cmds, |cmds|);
    hide HistoryOf, Replay, Claims, Cancellations, NetClaims;
  }

  lemma AttemptBudget(cmds: seq<Cmd>, id: Id)
    requires Possible(cmds) && id in After(cmds, |cmds|).jobs
    ensures var j := After(cmds, |cmds|).jobs[id];
      && 0 <= j.attempts <= j.maxAttempts
      && (j.status.Queued? ==> j.attempts < j.maxAttempts)
      && (j.status.Running? ==> 1 <= j.attempts)
  {
    Reachable(cmds, |cmds|);
    hide HistoryOf, Replay, Claims, Cancellations, NetClaims;
  }

  // Lease tokens

  /** The store accepted this command as the end of the attempt that holds the token. */
  ghost predicate Ends(s: Store, c: Cmd, id: Id, token: nat) {
    match c
    case CComplete(i, worker, t, result, next, uuid, now) =>
      && i == id && t == token && Complete(s, i, worker, t, result, next, uuid, now).Ok?
      && Complete(s, i, worker, t, result, next, uuid, now).value.1
    case CFail(i, worker, t, error, delay, now) =>
      i == id && t == token && Fail(s, i, worker, t, error, delay, now).1
    case CDefer(i, worker, t, delay, now) =>
      i == id && t == token && Defer(s, i, worker, t, delay, now).1
    case _ => false
  }

  /** The command uses the token: it ends the attempt, or extends its lease. */
  ghost predicate Uses(s: Store, c: Cmd, id: Id, token: nat) {
    || Ends(s, c, id, token)
    || (c.CHeartbeat? && c.id == id && c.token == token && Holds(s, id, c.worker, token, c.now))
  }

  /** A later token was issued, or the attempt that held this one is over. */
  predicate Superseded(j: Job, token: nat) {
    token < j.token || (token == j.token && !j.status.Running?)
  }

  lemma UsesNeedsLease(s: Store, c: Cmd, id: Id, token: nat)
    requires Uses(s, c, id, token)
    ensures id in s.jobs && !Superseded(s.jobs[id], token)
  {
  }

  lemma EndsSupersedes(s: Store, c: Cmd, id: Id, token: nat)
    requires Inv(s) && Admissible(s, c) && Ends(s, c, id, token)
    ensures id in Apply(s, c).jobs && Superseded(Apply(s, c).jobs[id], token)
  {
    hide Inv, EnqueueRow;
    if c.CComplete? && c.next.Some? {
      SucceedInv(s, id, c.worker, token, c.result, c.now);
      var s1 := Put(s, id, SucceededRow(s.jobs[id], c.result, c.now), JobSucceeded(c.worker, token), c.now);
      EnqueueRowInv(s1, c.uuid, c.next.value.kind, c.next.value.payload, c.next.value.key, None, 3, c.now);
    }
  }

  /** Once superseded, a token is refused for ever: no heartbeat, completion, failure or defer with it. */
  lemma SupersededForever(cmds: seq<Cmd>, m: nat, n: nat, id: Id, token: nat)
    requires Possible(cmds) && m <= n < |cmds|
    requires id in After(cmds, m).jobs && Superseded(After(cmds, m).jobs[id], token)
    ensures !Uses(After(cmds, n), cmds[n], id, token)
  {
    Later(cmds, m, n);
    if Uses(After(cmds, n), cmds[n], id, token) {
      UsesNeedsLease(After(cmds, n), cmds[n], id, token);
      hide After;
    }
  }

  /** Each token ends at most one attempt, whoever presents it, and nothing uses it afterwards. */
  lemma TokenSpentOnce(cmds: seq<Cmd>, m: nat, n: nat, id: Id, token: nat)
    requires Possible(cmds) && m < n < |cmds| && Ends(After(cmds, m), cmds[m], id, token)
    ensures !Uses(After(cmds, n), cmds[n], id, token)
  {
    Reachable(cmds, m);
    EndsSupersedes(After(cmds, m), cmds[m], id, token);
    SupersededForever(cmds, m + 1, n, id, token);
  }

  /** A token belongs to one worker: no other worker ever holds a lease with it. */
  lemma OneWorkerPerToken(
    cmds: seq<Cmd>, m: nat, n: nat, id: Id, token: nat, a: Id, b: Id, t: real, u: real)
    requires Possible(cmds) && m <= n <= |cmds|
    requires Holds(After(cmds, m), id, a, token, t) && Holds(After(cmds, n), id, b, token, u)
    ensures a == b
  {
    Later(cmds, m, n);
  }

  /** Tokens never decrease, and the request of a job never changes. */
  lemma TokensNeverDecrease(cmds: seq<Cmd>, m: nat, n: nat, id: Id)
    requires Possible(cmds) && m <= n <= |cmds| && id in After(cmds, m).jobs
    ensures id in After(cmds, n).jobs
    ensures var j, j1 := After(cmds, m).jobs[id], After(cmds, n).jobs[id];
      j.token <= j1.token && j1.payload == j.payload && j1.kind == j.kind && j1.key == j.key
  {
    Later(cmds, m, n);
  }

  /** A succeeded job keeps its status and its result for ever. */
  lemma SucceededIsFinal(cmds: seq<Cmd>, m: nat, n: nat, id: Id)
    requires Possible(cmds) && m <= n <= |cmds|
    requires id in After(cmds, m).jobs && After(cmds, m).jobs[id].status.Succeeded?
    ensures id in After(cmds, n).jobs && After(cmds, n).jobs[id] == After(cmds, m).jobs[id]
  {
    Later(cmds, m, n);
  }

  // What ends an attempt

  /** Exactly the listed rows whose lease is over are expired. */
  lemma {:induction false} ExpireExactly(s: Store, ids: seq<Id>, now: real, id: Id)
    requires id in s.jobs
    ensures id in Expire(s, ids, now).jobs
    ensures Expire(s, ids, now).jobs[id]
         == if id in ids && Expired(s.jobs[id], now) then ExpireOne(s, id, now).jobs[id] else s.jobs[id]
  {
    if ids != [] {
      var front, last := ids[..|ids| - 1], ids[|ids| - 1];
      ExpireExactly(s, front, now, id);
      assert ids == front + [last];
      hide Expired;
      if last == id && Expired(s.jobs[id], now) && id in front {
        NotExpiredTwice(s, id, now);
      }
    }
  }

  lemma NotExpiredTwice(s: Store, id: Id, now: real)
    requires id in s.jobs
    ensures id in ExpireOne(s, id, now).jobs && !Expired(ExpireOne(s, id, now).jobs[id], now)
  {
  }

  predicate SameAttempt(j: Job, j1: Job) {
    j1.status.Running? && j1.token == j.token
  }

  lemma ClaimEnds(s: Store, worker: Id, lease: real, kinds: Option<set<Kind>>, order: seq<Id>, now: real, id: Id)
    requires id in s.jobs && s.jobs[id].status.Running? && ListsExpired(s, order, now)
    ensures var s1 := Claim(s, worker, lease, kinds, order, now);
      id in s1.jobs && (SameAttempt(s.jobs[id], s1.jobs[id]) <==> !Expired(s.jobs[id], now))
  {
    ExpireExactly(s, order, now, id);
    FirstOfFinds(Expire(s, order, now), now, kinds);
    hide Expire;
  }

  lemma CancelEnds(s: Store, c: Id, order: seq<Id>, now: real, id: Id)
    requires Inv(s) && id in s.jobs && s.jobs[id].status.Running? && c in s.jobs
    requires ListsRun(s, order, CancelTarget(c, s.jobs[c].payload))
    ensures var s1 := Cancel(s, c, order, now).value;
      id in s1.jobs
      && (SameAttempt(s.jobs[id], s1.jobs[id])
          <==> !InCancelledRun(id, s.jobs[id], CancelTarget(c, s.jobs[c].payload)))
  {
    var run := CancelTarget(c, s.jobs[c].payload);
    hide Base, CancelRows, Grows;
    CancelRowsInv(s.(cancelled := s.cancelled + {run}), order, run, now);
  }

  lemma EnqueueKeeps(
    s: Store, uuid: Id, kind: Kind, p: Payload, key: Key, notBefore: Option<real>, maxAttempts: nat, now: real, id: Id)
    requires id in s.jobs && EnqueueRow(s, uuid, kind, p, key, notBefore, maxAttempts, now).Ok?
    ensures var s1 := EnqueueRow(s, uuid, kind, p, key, notBefore, maxAttempts, now).value.0;
      id in s1.jobs && s1.jobs[id] == s.jobs[id]
  {
    hide Cancelled, KeyUsed, SameRequest;
  }

  lemma {:induction false} TickKeeps(s: Store, ids: seq<(Id, Id)>, t: real, id: Id)
    requires id in s.jobs && Tick(s, ids, t).Ok?
    ensures id in Tick(s, ids, t).value.0.jobs && Tick(s, ids, t).value.0.jobs[id] == s.jobs[id]
  {
    hide EnqueueRow, Judge, KeyUsed, BucketOf, NextRun;
    if ids != [] {
      TickKeeps(s, ids[..|ids| - 1], t, id);
      var s1, n, uuid := Tick(s, ids[..|ids| - 1], t).value.0, ids[|ids| - 1].0, ids[|ids| - 1].1;
      if n in s1.schedules && s1.schedules[n].interval > 0.0 {
        var c := s1.schedules[n];
        var key := Bucket(n, c.interval, BucketOf(t, c.interval));
        if EnqueueRow(s1, uuid, c.kind, c.payload, key, Some(t), 3, t).Ok? {
          EnqueueKeeps(s1, uuid, c.kind, c.payload, key, Some(t), 3, t, id);
        }
      }
    }
  }

  /** The ways in which a command can end the attempt under way. */
  ghost predicate EndsAttempt(s: Store, c: Cmd, id: Id)
    requires id in s.jobs
  {
    || Ends(s, c, id, s.jobs[id].token)
    || (c.CClaim? && Expired(s.jobs[id], c.now))
    || (c.CCancel? && c.id in s.jobs && InCancelledRun(id, s.jobs[id], CancelTarget(c.id, s.jobs[c.id].payload)))
  }

  /** A running attempt is exclusive: it ends exactly when its own token completes, fails or defers it, when a
      claim comes at or after the end of its lease, or when its run is cancelled. */
  lemma AttemptEndsExactly(s: Store, c: Cmd, id: Id)
    requires Inv(s) && Admissible(s, c) && id in s.jobs && s.jobs[id].status.Running?
    ensures id in Apply(s, c).jobs
    ensures SameAttempt(s.jobs[id], Apply(s, c).jobs[id]) <==> !EndsAttempt(s, c, id)
  {
    hide Inv, Claim, EnqueueRow, CancelRows, Tick, Admissible, ListsExpired, ListsRun, PutSchedule, InCancelledRun, Expired;
    match c {
      case CClaim(worker, lease, kinds, order, now) =>
        assert ListsExpired(s, order, now) by { AdmissibleLists(s, c); }
        ClaimEnds(s, worker, lease, kinds, order, now, id);
      case CCancel(k, order, now) =>
        if k in s.jobs {
          assert ListsRun(s, order, CancelTarget(k, s.jobs[k].payload)) by { AdmissibleLists(s, c); }
          CancelEnds(s, k, order, now, id);
        }
      case CTick(ids, now) => if Tick(s, ids, now).Ok? { TickKeeps(s, ids, now, id); }
      case CComplete(k, worker, token, result, next, uuid, now) =>
        CompleteEnds(s, k, worker, token, result, next, uuid, now, id);
      case CEnqueue(uuid, kind, p, key, notBefore, maxAttempts, now) =>
        if Enqueue(s, uuid, kind, p, key, notBefore, maxAttempts, now).Ok? {
          EnqueueKeeps(s, uuid, kind, p, key, notBefore, maxAttempts, now, id);
        }
      case CPutSchedule(k, schedule, now) => ScheduleKeeps(s, k, schedule, now);
      case _ =>
    }
  }

  lemma AdmissibleLists(s: Store, c: Cmd)
    requires Admissible(s, c)
    ensures c.CClaim? ==> ListsExpired(s, c.order, c.now)
    ensures c.CCancel? && c.id in s.jobs ==> ListsRun(s, c.order, CancelTarget(c.id, s.jobs[c.id].payload))
  {
  }

  lemma ScheduleKeeps(s: Store, k: Id, schedule: Schedule, now: real)
    ensures PutSchedule(s, k, schedule, now).jobs == s.jobs
  {
  }

  lemma CompleteEnds(
    s: Store, k: Id, worker: Id, token: nat, result: nat, next: Option<Next>, uuid: Id, now: real, id: Id)
    requires id in s.jobs && s.jobs[id].status.Running?
    ensures var c := CComplete(k, worker, token, result, next, uuid, now);
      id in Apply(s, c).jobs && (SameAttempt(s.jobs[id], Apply(s, c).jobs[id]) <==> !Ends(s, c, id, s.jobs[id].token))
  {
    hide EnqueueRow;
    if Holds(s, k, worker, token, now) && next.Some? {
      var s1 := Put(s, k, SucceededRow(s.jobs[k], result, now), JobSucceeded(worker, token), now);
      if EnqueueRow(s1, uuid, next.value.kind, next.value.payload, next.value.key, None, 3, now).Ok? {
        EnqueueKeeps(s1, uuid, next.value.kind, next.value.payload, next.value.key, None, 3, now, id);
      }
    }
  }

  /** Not running, and not due before the given time. */
  ghost predicate Waiting(s: Store, id: Id, due: real, attempts: nat) {
    && id in s.jobs && !s.jobs[id].status.Running? && s.jobs[id].attempts == attempts
    && (s.jobs[id].status.Queued? ==> s.jobs[id].notBefore == due)
  }

  /** The command neither requeues the job nor claims at or after the given time. */
  predicate Early(c: Cmd, id: Id, due: real) {
    !(c.CRequeue? && c.id == id) && (c.CClaim? ==> c.now < due)
  }

  lemma ClaimWaits(
    s: Store, worker: Id, lease: real, kinds: Option<set<Kind>>, order: seq<Id>, now: real, id: Id, due: real, attempts: nat)
    requires Waiting(s, id, due, attempts) && now < due
    ensures Waiting(Claim(s, worker, lease, kinds, order, now), id, due, attempts)
  {
    ExpireExactly(s, order, now, id);
    FirstOfFinds(Expire(s, order, now), now, kinds);
    hide Expire;
  }

  lemma CancelWaits(s: Store, k: Id, order: seq<Id>, now: real, id: Id, due: real, attempts: nat)
    requires Waiting(s, id, due, attempts) && k in s.jobs
    ensures Waiting(Cancel(s, k, order, now).value, id, due, attempts)
  {
    var run := CancelTarget(k, s.jobs[k].payload);
    CancelledWaits(s.(cancelled := s.cancelled + {run}), order, run, now, id, due, attempts);
  }

  lemma {:induction false} CancelledWaits(
    s: Store, ids: seq<Id>, run: Id, now: real, id: Id, due: real, attempts: nat)
    requires Waiting(s, id, due, attempts)
    ensures Waiting(CancelRows(s, ids, run, now), id, due, attempts)
  {
    if ids != [] {
      CancelledWaits(s, ids[..|ids| - 1], run, now, id, due, attempts);
    }
  }

  lemma StepWaits(s: Store, c: Cmd, id: Id, due: real, attempts: nat)
    requires Inv(s) && Admissible(s, c) && Waiting(s, id, due, attempts) && Early(c, id, due)
    ensures Waiting(Apply(s, c), id, due, attempts)
  {
    hide Inv, Claim, EnqueueRow, CancelRows, Tick, Admissible, PutSchedule;
    match c {
      case CClaim(worker, lease, kinds, order, now) => ClaimWaits(s, worker, lease, kinds, order, now, id, due, attempts);
      case CCancel(k, order, now) => if k in s.jobs { CancelWaits(s, k, order, now, id, due, attempts); }
      case CTick(ids, now) => if Tick(s, ids, now).Ok? { TickKeeps(s, ids, now, id); }
      case CComplete(k, worker, token, result, next, uuid, now) =>
        CompleteWaits(s, k, worker, token, result, next, uuid, now, id);
      case CEnqueue(uuid, kind, p, key, notBefore, maxAttempts, now) =>
        if Enqueue(s, uuid, kind, p, key, notBefore, maxAttempts, now).Ok? {
          EnqueueKeeps(s, uuid, kind, p, key, notBefore, maxAttempts, now, id);
        }
      case CPutSchedule(k, schedule, now) => ScheduleKeeps(s, k, schedule, now);
      case _ =>
    }
  }

  lemma CompleteWaits(
    s: Store, k: Id, worker: Id, token: nat, result: nat, next: Option<Next>, uuid: Id, now: real, id: Id)
    requires id in s.jobs && !s.jobs[id].status.Running?
    ensures var c := CComplete(k, worker, token, result, next, uuid, now);
      id in Apply(s, c).jobs && Apply(s, c).jobs[id] == s.jobs[id]
  {
    hide EnqueueRow;
    if Holds(s, k, worker, token, now) && next.Some? {
      var s1 := Put(s, k, SucceededRow(s.jobs[k], result, now), JobSucceeded(worker, token), now);
      if EnqueueRow(s1, uuid, next.value.kind, next.value.payload, next.value.key, None, 3, now).Ok? {
        EnqueueKeeps(s1, uuid, next.value.kind, next.value.payload, next.value.key, None, 3, now, id);
      }
    }
  }

  lemma EndedWaits(s: Store, c: Cmd, id: Id)
    requires (c.CFail? || c.CDefer?) && c.id == id && Ends(s, c, id, c.token)
    ensures id in Apply(s, c).jobs && Waiting(Apply(s, c), id, c.now + c.delay, Apply(s, c).jobs[id].attempts)
  {
  }

  /** A retry waits: after a failure or a defer no attempt of the job starts before its delay is over, whatever
      commands come in between other than an operator's requeue of it. */
  lemma {:induction false} RetryWaits(cmds: seq<Cmd>, m: nat, n: nat, id: Id)
    requires Possible(cmds) && m < n <= |cmds| && (cmds[m].CFail? || cmds[m].CDefer?) && cmds[m].id == id
    requires Ends(After(cmds, m), cmds[m], id, cmds[m].token)
    requires forall k :: m < k < n ==> Early(cmds[k], id, cmds[m].now + cmds[m].delay)
    ensures id in After(cmds, m + 1).jobs
    ensures Waiting(After(cmds, n), id, cmds[m].now + cmds[m].delay, After(cmds, m + 1).jobs[id].attempts)
    decreases n
  {
    hide Inv, Admissible, Early, Apply, After, Waiting, Possible, Ends;
    Reachable(cmds, m);
    EndedWaits(After(cmds, m), cmds[m], id);
    if n > m + 1 {
      RetryWaits(cmds, m, n - 1, id);
      Reachable(cmds, n - 1);
      StepWaits(After(cmds, n - 1), cmds[n - 1], id, cmds[m].now + cmds[m].delay, After(cmds, m + 1).jobs[id].attempts);
    }
  }

  // No job is stranded

  ghost predicate Chosen(s: Store, id: Id, now: real, kinds: Option<set<Kind>>, among: set<Id>) {
    && id in among && id in s.jobs && Claimable(s.jobs[id], now, kinds)
    && (forall o :: o in among && o in s.jobs && Claimable(s.jobs[o], now, kinds) ==> ClaimBefore(s.jobs[id], s.jobs[o]))
  }

  lemma {:induction false} FirstExists(s: Store, now: real, kinds: Option<set<Kind>>, among: set<Id>, some: Id)
    returns (id: Id)
    requires some in among && some in s.jobs && Claimable(s.jobs[some], now, kinds)
    ensures Chosen(s, id, now, kinds, among)
  {
    var rest := among - {some};
    if o :| o in rest && o in s.jobs && Claimable(s.jobs[o], now, kinds) {
      id := FirstExists(s, now, kinds, rest, o);
      if ClaimBefore(s.jobs[some], s.jobs[id]) {
        id := some;
      }
    } else {
      id := some;
    }
  }

  /** A claim takes a row exactly when one qualifies. */
  lemma FirstOfFinds(s: Store, now: real, kinds: Option<set<Kind>>)
    ensures FirstOf(s, now, kinds).Some? <==> exists id :: id in s.jobs && Claimable(s.jobs[id], now, kinds)
    ensures FirstOf(s, now, kinds).Some? ==> IsFirst(s, FirstOf(s, now, kinds).value, now, kinds)
  {
    if some :| some in s.jobs && Claimable(s.jobs[some], now, kinds) {
      var id := FirstExists(s, now, kinds, s.jobs.Keys, some);
      assert IsFirst(s, id, now, kinds);
    }
  }

  /** The row number settles every tie, so the row a claim takes is determined. */
  lemma FirstUnique(s: Store, a: Id, b: Id, now: real, kinds: Option<set<Kind>>)
    requires RowsOk(s.jobs) && IsFirst(s, a, now, kinds) && IsFirst(s, b, now, kinds)
    ensures a == b
  {
  }

  lemma {:induction false} ExpireKeepsQueued(s: Store, ids: seq<Id>, now: real, id: Id)
    requires id in s.jobs && s.jobs[id].status.Queued?
    ensures id in Expire(s, ids, now).jobs && Expire(s, ids, now).jobs[id] == s.jobs[id]
  {
    if ids != [] {
      ExpireKeepsQueued(s, ids[..|ids| - 1], now, id);
    }
  }

  ghost predicate Started(s: Store, s1: Store, k: Id, worker: Id, due: real) {
    && k in s1.jobs && s1.jobs[k].status.Running? && s1.jobs[k].worker == Some(worker)
    && (k in s.jobs ==> s1.jobs[k].token == s.jobs[k].token + 1)
    && s1.jobs[k].notBefore <= due
  }

  /** No queued job is stranded: while one is due, a claim of any kind starts an attempt of some job, and
      that job was due no later. */
  lemma NoStrandedJob(s: Store, worker: Id, lease: real, order: seq<Id>, now: real, id: Id)
    requires Inv(s) && id in s.jobs && s.jobs[id].status.Queued? && s.jobs[id].notBefore <= now
    ensures exists k :: Started(s, Claim(s, worker, lease, None, order, now), k, worker, s.jobs[id].notBefore)
  {
    var s0 := Expire(s, order, now);
    assert JobOk(s.jobs[id]);
    hide Inv;
    ExpireKeepsQueued(s, order, now, id);
    FirstOfFinds(s0, now, None);
    assert Claimable(s0.jobs[id], now, None);
    var k := FirstOf(s0, now, None).value;
    ExpireKeepsTokens(s, order, now, k);
    assert ClaimBefore(s0.jobs[k], s0.jobs[id]);
    hide Expire, IsFirst;
    var s1 := Claim(s, worker, lease, None, order, now);
    assert s1 == ClaimRow(s0, k, worker, lease, now);
    hide Claim, FirstOf;
    assert Started(s, s1, k, worker, s.jobs[id].notBefore);
  }

  lemma {:induction false} ExpireKeepsTokens(s: Store, ids: seq<Id>, now: real, id: Id)
    ensures id in Expire(s, ids, now).jobs <==> id in s.jobs
    ensures id in s.jobs ==> Expire(s, ids, now).jobs[id].token == s.jobs[id].token
  {
    if ids != [] {
      ExpireKeepsTokens(s, ids[..|ids| - 1], now, id);
    }
  }

  // Cancellation

  /** Once a run is cancelled, none of its jobs is ever queued or running again, whatever comes later. */
  lemma CancellationIsPermanent(cmds: seq<Cmd>, m: nat, n: nat, run: Id, id: Id)
    requires Possible(cmds) && m <= n <= |cmds| && run in After(cmds, m).cancelled
    requires id in After(cmds, n).jobs && RunOf(id, After(cmds, n).jobs[id].payload) == Some(run)
    ensures !Active(After(cmds, n).jobs[id])
  {
    Later(cmds, m, n);
    Reachable(cmds, n);
  }

  /** Cancelling through a job stops that job, except when its run id is JSON null: the run recorded as
      cancelled is then the text of a missing value, which is no job's run. */
  lemma CancelStopsExactly(s: Store, id: Id, order: seq<Id>, now: real)
    requires Inv(s) && id in s.jobs && Active(s.jobs[id])
    requires ListsRun(s, order, CancelTarget(id, s.jobs[id].payload))
    ensures var s1 := Cancel(s, id, order, now).value;
      id in s1.jobs && (!Active(s1.jobs[id]) <==> !s.jobs[id].payload.pipeline.Null? || id == NONE_TEXT)
  {
    var run := CancelTarget(id, s.jobs[id].payload);
    hide Base, CancelRows, Grows;
    CancelRowsInv(s.(cancelled := s.cancelled + {run}), order, run, now);
  }

  /** A pipeline root that carries a null run id survives its own cancellation. */
  lemma NullRunSurvives(s: Store, id: Id, now: real)
    requires Inv(s) && id !in s.jobs && id != NONE_TEXT && !KeyUsed(s, Caller(id))
    ensures var c := CEnqueue(id, Pipeline, Payload(Null, None, false, 0), Caller(id), None, 3, now);
      var s1 := Apply(s, c);
      && id in s1.jobs
      && (forall order: seq<Id> | ListsRun(s1, order, NONE_TEXT) ::
            var s2 := Cancel(s1, id, order, now).value; id in s2.jobs && Active(s2.jobs[id]))
  {
    var c := CEnqueue(id, Pipeline, Payload(Null, None, false, 0), Caller(id), None, 3, now);
    var s1 := Apply(s, c);
    StepInv(s, c);
    hide Inv, KeyUsed, CancelRows, ListsRun;
    forall order: seq<Id> | ListsRun(s1, order, NONE_TEXT)
      ensures var s2 := Cancel(s1, id, order, now).value; id in s2.jobs && Active(s2.jobs[id])
    {
      CancelStopsExactly(s1, id, order, now);
    }
  }
}
