/** How long a lease protects an attempt: what a claim and a heartbeat grant, and what they keep others from. */
module Leases {
  import opened Core
  import opened Jobs
  import opened JobHistory
  import opened Fencing

  /** The token is accepted from this worker at every time before `until`. */
  ghost predicate HeldUntil(s: Store, id: Id, worker: Id, token: nat, until: real) {
    forall t: real :: t < until ==> Holds(s, id, worker, token, t)
  }

  // What is granted

  /** An accepted heartbeat extends the lease to `now + lease` and never shortens it; nothing else changes. */
  lemma BeatGrantsExactly(s: Store, id: Id, worker: Id, token: nat, lease: real, now: real, t: real)
    requires Holds(s, id, worker, token, now)
    ensures var s1 := Apply(s, CHeartbeat(id, worker, token, lease, now));
      && (Holds(s1, id, worker, token, t) <==> Holds(s, id, worker, token, t) || t < now + lease)
      && s1.jobs.Keys == s.jobs.Keys && (forall o :: o in s.jobs && o != id ==> s1.jobs[o] == s.jobs[o])
      && s1.events == s.events && s1.cancelled == s.cancelled && s1.schedules == s.schedules
  {
  }

  lemma RefusedBeatGrantsNothing(s: Store, id: Id, worker: Id, token: nat, lease: real, now: real)
    requires !Holds(s, id, worker, token, now)
    ensures Apply(s, CHeartbeat(id, worker, token, lease, now)) == s
  {
  }

  /** The claim started an attempt of the job: its token is a new one. */
  ghost predicate StartedBy(s: Store, c: Cmd, id: Id) {
    && c.CClaim? && id in Apply(s, c).jobs && Apply(s, c).jobs[id].status.Running?
    && (id in s.jobs ==> s.jobs[id].token < Apply(s, c).jobs[id].token)
  }

  /** A claim that starts an attempt grants its new token to the claiming worker before `now + lease`, and no longer. */
  lemma ClaimGrantsExactly(s: Store, c: Cmd, id: Id, t: real)
    requires StartedBy(s, c, id)
    ensures Holds(Apply(s, c), id, c.worker, Apply(s, c).jobs[id].token, t) <==> t < c.now + c.lease
  {
    var s0 := Expire(s, c.order, c.now);
    ExpireKeepsTokens(s, c.order, c.now, id);
    FirstOfFinds(s0, c.now, c.kinds);
    hide Expire, IsFirst;
  }

  // What a lease keeps others from

  /** The command ends the attempt with its own token, or cancels its run. */
  ghost predicate Releases(s: Store, c: Cmd, id: Id, token: nat) {
    || Ends(s, c, id, token)
    || (c.CCancel? && c.id in s.jobs && id in s.jobs
        && InCancelledRun(id, s.jobs[id], CancelTarget(c.id, s.jobs[c.id].payload)))
  }

  lemma HeldIs(s: Store, id: Id, worker: Id, token: nat, until: real)
    ensures HeldUntil(s, id, worker, token, until) <==>
      && id in s.jobs && s.jobs[id].worker == Some(worker) && s.jobs[id].token == token && s.jobs[id].status.Running?
      && s.jobs[id].leaseUntil.Some? && s.jobs[id].leaseUntil.value >= until
  {
    if HeldUntil(s, id, worker, token, until) {
      assert Holds(s, id, worker, token, until - 1.0);
      var end := s.jobs[id].leaseUntil.value;
      assert end < until ==> Holds(s, id, worker, token, end);
    }
  }

  /** While an attempt goes on, its lease is not shortened. */
  lemma LeaseNotShortened(s: Store, c: Cmd, id: Id)
    requires Inv(s) && Admissible(s, c) && id in s.jobs && s.jobs[id].status.Running? && id in Apply(s, c).jobs
    requires SameAttempt(s.jobs[id], Apply(s, c).jobs[id]) && s.jobs[id].leaseUntil.Some?
    ensures Apply(s, c).jobs[id].leaseUntil.Some?
    ensures Apply(s, c).jobs[id].leaseUntil.value >= s.jobs[id].leaseUntil.value
  {
    hide Inv, Claim, EnqueueRow, CancelRows, Tick, Admissible, PutSchedule, Complete;
    match c {
      case CClaim(worker, lease, kinds, order, now) => ClaimKeepsLease(s, worker, lease, kinds, order, now, id);
      case CCancel(k, order, now) => if k in s.jobs { CancelKeepsLease(s, k, order, now, id); }
      case CTick(ids, now) => if Tick(s, ids, now).Ok? { TickKeeps(s, ids, now, id); }
      case CComplete(k, worker, token, result, next, uuid, now) =>
        CompleteKeepsLease(s, k, worker, token, result, next, uuid, now, id);
      case CEnqueue(uuid, kind, p, key, notBefore, maxAttempts, now) =>
        if Enqueue(s, uuid, kind, p, key, notBefore, maxAttempts, now).Ok? {
          EnqueueKeeps(s, uuid, kind, p, key, notBefore, maxAttempts, now, id);
        }
      case CPutSchedule(k, schedule, now) => ScheduleKeeps(s, k, schedule, now);
      case _ =>
    }
  }

  lemma ClaimKeepsLease(
    s: Store, worker: Id, lease: real, kinds: Option<set<Kind>>, order: seq<Id>, now: real, id: Id)
    requires id in s.jobs && s.jobs[id].status.Running?
    ensures var s1 := Claim(s, worker, lease, kinds, order, now);
      id in s1.jobs && (SameAttempt(s.jobs[id], s1.jobs[id]) ==> s1.jobs[id] == s.jobs[id])
  {
    ExpireExactly(s, order, now, id);
    FirstOfFinds(Expire(s, order, now), now, kinds);
    hide Expire;
  }

  lemma CancelKeepsLease(s: Store, c: Id, order: seq<Id>, now: real, id: Id)
    requires Inv(s) && id in s.jobs && c in s.jobs
    ensures var s1 := Cancel(s, c, order, now).value;
      id in s1.jobs && (SameAttempt(s.jobs[id], s1.jobs[id]) ==> s1.jobs[id] == s.jobs[id])
  {
    var run := CancelTarget(c, s.jobs[c].payload);
    hide Base, CancelRows, Grows;
    CancelRowsInv(s.(cancelled := s.cancelled + {run}), order, run, now);
  }

  lemma CompleteKeepsLease(
    s: Store, k: Id, worker: Id, token: nat, result: nat, next: Option<Next>, uuid: Id, now: real, id: Id)
    requires id in s.jobs && s.jobs[id].status.Running?
    ensures var c := CComplete(k, worker, token, result, next, uuid, now);
      id in Apply(s, c).jobs && (SameAttempt(s.jobs[id], Apply(s, c).jobs[id]) ==> Apply(s, c).jobs[id] == s.jobs[id])
  {
    hide EnqueueRow;
    if Holds(s, k, worker, token, now) && next.Some? {
      var s1 := Put(s, k, SucceededRow(s.jobs[k], result, now), JobSucceeded(worker, token), now);
      if EnqueueRow(s1, uuid, next.value.kind, next.value.payload, next.value.key, None, 3, now).Ok? {
        EnqueueKeeps(s1, uuid, next.value.kind, next.value.payload, next.value.key, None, 3, now, id);
      }
    }
  }

  lemma StepHolds(s: Store, c: Cmd, id: Id, worker: Id, token: nat, until: real)
    requires Inv(s) && Admissible(s, c) && HeldUntil(s, id, worker, token, until)
    requires c.CClaim? ==> c.now < until
    requires !Releases(s, c, id, token)
    ensures HeldUntil(Apply(s, c), id, worker, token, until)
  {
    HeldIs(s, id, worker, token, until);
    HeldIs(Apply(s, c), id, worker, token, until);
    AttemptEndsExactly(s, c, id);
    StepInv(s, c);
    hide Inv, Apply, Admissible, HeldUntil, Ends, InCancelledRun;
    LeaseNotShortened(s, c, id);
    assert Evolves(s.jobs[id], Apply(s, c).jobs[id]);
  }

  /** A lease lasts: as long as claims come before its end, only the token itself or a cancellation ends the attempt. */
  lemma {:induction false} LeaseLasts(cmds: seq<Cmd>, m: nat, n: nat, id: Id, worker: Id, token: nat, until: real)
    requires Possible(cmds) && m <= n <= |cmds| && HeldUntil(After(cmds, m), id, worker, token, until)
    requires forall k :: m <= k < n && cmds[k].CClaim? ==> cmds[k].now < until
    ensures || HeldUntil(After(cmds, n), id, worker, token, until)
            || exists k :: m <= k < n && Releases(After(cmds, k), cmds[k], id, token)
    decreases n
  {
    hide Inv, Admissible, Apply, After, Possible, Releases, HeldUntil;
    if m < n {
      LeaseLasts(cmds, m, n - 1, id, worker, token, until);
      Reachable(cmds, n - 1);
      if HeldUntil(After(cmds, n - 1), id, worker, token, until) && !Releases(After(cmds, n - 1), cmds[n - 1], id, token) {
        StepHolds(After(cmds, n - 1), cmds[n - 1], id, worker, token, until);
      }
    }
  }

  /** An accepted heartbeat of the token, or the claim that issued it. */
  ghost predicate Grants(s: Store, c: Cmd, id: Id, token: nat) {
    || (c.CHeartbeat? && c.id == id && c.token == token && Holds(s, id, c.worker, token, c.now))
    || (StartedBy(s, c, id) && token == Apply(s, c).jobs[id].token)
  }

  lemma GrantHolds(s: Store, c: Cmd, id: Id, token: nat)
    requires Grants(s, c, id, token)
    ensures HeldUntil(Apply(s, c), id, c.worker, token, c.now + c.lease)
  {
    hide Apply, Holds;
    var s1, worker, until := Apply(s, c), c.worker, c.now + c.lease;
    forall t: real | t < until
      ensures Holds(s1, id, worker, token, t)
    {
      if c.CHeartbeat? {
        BeatGrantsExactly(s, id, worker, token, c.lease, c.now, t);
      } else {
        ClaimGrantsExactly(s, c, id, t);
      }
    }
  }

  /** After an accepted heartbeat, or a claim that started the attempt, only the token itself or a cancellation ends the
      attempt before `now + lease`. */
  lemma GrantLasts(cmds: seq<Cmd>, m: nat, n: nat, id: Id, token: nat)
    requires Possible(cmds) && m < n <= |cmds| && Grants(After(cmds, m), cmds[m], id, token)
    requires forall k :: m < k < n && cmds[k].CClaim? ==> cmds[k].now < cmds[m].now + cmds[m].lease
    ensures || HeldUntil(After(cmds, n), id, cmds[m].worker, token, cmds[m].now + cmds[m].lease)
            || exists k :: m < k < n && Releases(After(cmds, k), cmds[k], id, token)
  {
    Reachable(cmds, m);
    hide Inv, Admissible, After, Possible, Releases, Apply, HeldUntil;
    GrantHolds(After(cmds, m), cmds[m], id, token);
    LeaseLasts(cmds, m + 1, n, id, cmds[m].worker, token, cmds[m].now + cmds[m].lease);
  }
}
