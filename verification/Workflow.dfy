/** The FLOW chain that completed steps build on the job store. */
module Workflow {
  import opened Core
  import opened Jobs
  import opened JobHistory
  import opened Fencing
  import opened Schedules

  // The next step of `handle`

  /** FLOW, with the pipeline itself in front. */
  function Stage(kind: Kind): nat {
    match kind
    case Pipeline => 0
    case Discover => 1
    case Research => 2
    case Analysis => 3
    case Backtest => 4
    case Forecast => 5
    case RiskReview => 6
    case ExecuteOrder => 7
    case LogReview => 8
    case Other(_) => 9
  }

  /** The kind after this one; `execute` is skipped unless both switches are on. */
  function FlowNext(kind: Kind, autoExecute: bool): Option<Kind> {
    match kind
    case Pipeline => Some(Discover)
    case Discover => Some(Research)
    case Research => Some(Analysis)
    case Analysis => Some(Backtest)
    case Backtest => Some(Forecast)
    case Forecast => Some(RiskReview)
    case RiskReview => Some(if autoExecute then ExecuteOrder else LogReview)
    case ExecuteOrder => Some(LogReview)
    case LogReview => None
    case Other(_) => None
  }

  /** The next job that `handle` and `run_once` pass to the store; `auto` is the configured switch. */
  function NextStep(id: Id, kind: Kind, p: Payload, auto: bool): Option<Next> {
    if !kind.Pipeline? && !p.pipeline.Text? then None
    else
      match FlowNext(kind, auto && p.autoExecute)
      case None => None
      case Some(k) =>
        var run := if kind.Pipeline? then Text(id) else p.pipeline;
        Some(Next(k, p.(pipeline := run, parent := Some(id)), FollowUp(id, k)))
  }

  /** A request from outside a workflow. */
  predicate External(p: Payload) {
    p.pipeline.Absent? && p.parent.None?
  }

  /** Clients and schedules start runs at their root, and workers complete a job with the step `handle`
      chose for it under the configured switch. */
  ghost predicate LawfulWith(s: Store, c: Cmd, auto: bool) {
    && Admissible(s, c)
    && match c
       case CEnqueue(_, _, p, _, _, _, _) => External(p)
       case CPutSchedule(_, schedule, _) => External(schedule.payload)
       case CComplete(id, worker, token, _, next, _, now) =>
         Holds(s, id, worker, token, now) ==> next == NextStep(id, s.jobs[id].kind, s.jobs[id].payload, auto)
       case _ => true
  }

  /** Lawful under some setting of the switch. */
  ghost predicate Lawful(s: Store, c: Cmd) {
    exists auto :: LawfulWith(s, c, auto)
  }

  // The shape of every pipeline

  /** A job that another job's completion created. */
  predicate ChildOf(q: Id, parent: Job, j: Job) {
    && j.payload.parent == Some(q) && j.key == FollowUp(q, j.kind) && j.maxAttempts == 3
    && (parent.kind.Pipeline? || parent.payload.pipeline.Text?)
    && j.payload.pipeline == (if parent.kind.Pipeline? then Text(q) else parent.payload.pipeline)
    && j.payload.autoExecute == parent.payload.autoExecute && j.payload.body == parent.payload.body
    && (FlowNext(parent.kind, false) == Some(j.kind)
        || (j.payload.autoExecute && FlowNext(parent.kind, true) == Some(j.kind)))
    && parent.row < j.row
  }

  predicate Linked(jobs: map<Id, Job>) {
    && (forall id :: id in jobs ==> External(jobs[id].payload) || jobs[id].payload.parent.Some?)
    && (forall id :: id in jobs && jobs[id].payload.parent.Some? ==>
          var q := jobs[id].payload.parent.value;
          q in jobs && jobs[q].status.Succeeded? && ChildOf(q, jobs[q], jobs[id]))
  }

  /** A completed step has at most one successor. */
  predicate OneChild(jobs: map<Id, Job>) {
    forall i, j ::
      (i in jobs && j in jobs && jobs[i].payload.parent.Some? && jobs[i].payload.parent == jobs[j].payload.parent)
      ==> i == j
  }

  ghost predicate FlowInv(s: Store) {
    && Linked(s.jobs) && OneChild(s.jobs)
    && forall id :: id in s.schedules ==> External(s.schedules[id].payload)
  }

  // Every step keeps it

  /** The new rows of a step: roots, or the one successor of the job that this step completed. */
  ghost predicate NewRows(s: Store, s1: Store, done: Option<Id>) {
    && (forall id :: id in s1.jobs && id !in s.jobs ==>
          var j := s1.jobs[id];
          if j.payload.parent.None? then External(j.payload)
          else
            && Some(j.payload.parent.value) == done && done.value in s.jobs && s.jobs[done.value].status.Running?
            && done.value in s1.jobs && s1.jobs[done.value].status.Succeeded? && ChildOf(done.value, s.jobs[done.value], j))
    && (forall i, j ::
          (i in s1.jobs && i !in s.jobs && j in s1.jobs && j !in s.jobs
           && s1.jobs[i].payload.parent.Some? && s1.jobs[j].payload.parent.Some?)
          ==> i == j)
    && (forall id :: id in s1.schedules ==> External(s1.schedules[id].payload))
  }

  lemma NewRowsKeepFlow(s: Store, s1: Store, done: Option<Id>)
    requires FlowInv(s) && JobsGrow(s.jobs, s1.jobs) && NewRows(s, s1, done)
    ensures FlowInv(s1)
  {
    hide Evolves, ChildOf;
    forall id | id in s1.jobs && s1.jobs[id].payload.parent.Some?
      ensures var q := s1.jobs[id].payload.parent.value;
        q in s1.jobs && s1.jobs[q].status.Succeeded? && ChildOf(q, s1.jobs[q], s1.jobs[id])
    {
      LinkKept(s, s1, done, id);
    }
    OneChildKept(s, s1, done);
    RootsKept(s, s1, done);
  }

  lemma LinkKept(s: Store, s1: Store, done: Option<Id>, id: Id)
    requires FlowInv(s) && JobsGrow(s.jobs, s1.jobs) && NewRows(s, s1, done)
    requires id in s1.jobs && s1.jobs[id].payload.parent.Some?
    ensures var q := s1.jobs[id].payload.parent.value;
      q in s1.jobs && s1.jobs[q].status.Succeeded? && ChildOf(q, s1.jobs[q], s1.jobs[id])
  {
  }

  lemma OneChildKept(s: Store, s1: Store, done: Option<Id>)
    requires FlowInv(s) && JobsGrow(s.jobs, s1.jobs) && NewRows(s, s1, done)
    ensures OneChild(s1.jobs)
  {
  }

  lemma RootsKept(s: Store, s1: Store, done: Option<Id>)
    requires FlowInv(s) && JobsGrow(s.jobs, s1.jobs) && NewRows(s, s1, done)
    ensures forall id :: id in s1.jobs ==> External(s1.jobs[id].payload) || s1.jobs[id].payload.parent.Some?
  {
  }

  /** What a lawful step adds. */
  lemma StepRows(s: Store, c: Cmd)
    requires Inv(s) && FlowInv(s) && Lawful(s, c)
    ensures NewRows(s, Apply(s, c), if c.CComplete? then Some(c.id) else None)
  {
    hide Inv, Expire, Tick, CancelRows, OnlyBuckets, Judge, ChildOf, NextStep, Linked, OneChild;
    match c {
      case CTick(ids, now) => TickRows(s, ids, now);
      case CClaim(worker, lease, kinds, order, now) =>
        forall id ensures id in Expire(s, order, now).jobs <==> id in s.jobs {
          ExpireKeepsTokens(s, order, now, id);
        }
        ExpireKeepsSchedules(s, order, now);
      case CCancel(id, order, now) =>
        if id in s.jobs {
          CancelRowsKeys(s, id, order, now);
          CancelKeepsSchedules(s, id, order, now);
        }
      case CComplete(id, worker, token, result, next, uuid, now) =>
        if Holds(s, id, worker, token, now) && Complete(s, id, worker, token, result, next, uuid, now).Ok? {
          CompleteRows(s, id, worker, token, result, next, uuid, now);
        }
      case _ =>
    }
  }

  lemma TickRows(s: Store, ids: seq<(Id, Id)>, now: real)
    requires Inv(s) && FlowInv(s)
    ensures NewRows(s, Apply(s, CTick(ids, now)), None)
  {
    hide Inv, Tick, ChildOf, Linked, OneChild, BucketOf;
    if Tick(s, ids, now).Ok? {
      TickBuckets(s, ids, now);
    }
  }

  lemma {:induction false} ExpireKeepsSchedules(s: Store, ids: seq<Id>, now: real)
    ensures Expire(s, ids, now).schedules == s.schedules
  {
    if ids != [] {
      ExpireKeepsSchedules(s, ids[..|ids| - 1], now);
    }
  }

  lemma CancelKeepsSchedules(s: Store, id: Id, order: seq<Id>, now: real)
    requires Inv(s) && id in s.jobs
    ensures Cancel(s, id, order, now).value.schedules == s.schedules
  {
    var run := CancelTarget(id, s.jobs[id].payload);
    hide CancelRows;
    CancelRowsInv(s.(cancelled := s.cancelled + {run}), order, run, now);
  }

  /** The successor that a completion creates: never a row that was there before, since the completed job had
      none. */
  lemma CompleteRows(
    s: Store, id: Id, worker: Id, token: nat, result: nat, next: Option<Next>, uuid: Id, now: real)
    requires Inv(s) && FlowInv(s) && Holds(s, id, worker, token, now)
    requires exists auto :: next == NextStep(id, s.jobs[id].kind, s.jobs[id].payload, auto)
    requires Complete(s, id, worker, token, result, next, uuid, now).Ok?
    ensures NewRows(s, Complete(s, id, worker, token, result, next, uuid, now).value.0, Some(id))
  {
    hide Inv, NextStep, Cancelled;
    RowsBelow(s, id);
    if next.Some? {
      NextIsChild(s, id, next.value);
      hide Linked, OneChild, ChildOf;
      var s1 := Put(s, id, SucceededRow(s.jobs[id], result, now), JobSucceeded(worker, token), now);
      assert s1.jobs.Keys == s.jobs.Keys;
      assert |s1.jobs| == |s1.jobs.Keys| == |s.jobs.Keys| == |s.jobs|;
    }
  }

  /** The row that would hold the next step is a child of the completed job, and no row holds that request yet. */
  lemma NextIsChild(s: Store, id: Id, next: Next)
    requires Inv(s) && FlowInv(s) && id in s.jobs && s.jobs[id].status.Running?
    requires exists auto :: Some(next) == NextStep(id, s.jobs[id].kind, s.jobs[id].payload, auto)
    ensures next.payload.parent == Some(id)
    ensures forall k :: k in s.jobs ==> s.jobs[k].payload != next.payload
    ensures forall now :: ChildOf(id, s.jobs[id], NewJob(|s.jobs|, next.kind, next.payload, next.key, None, 3, now))
  {
  }

  lemma RowsBelow(s: Store, id: Id)
    requires Inv(s) && id in s.jobs
    ensures s.jobs[id].row < |s.jobs|
  {
  }

  lemma StepFlow(s: Store, c: Cmd)
    requires Inv(s) && FlowInv(s) && Lawful(s, c)
    ensures Inv(Apply(s, c)) && Grows(s, Apply(s, c)) && FlowInv(Apply(s, c))
  {
    StepInv(s, c);
    StepRows(s, c);
    hide Inv, Apply, FlowInv, NewRows;
    NewRowsKeepFlow(s, Apply(s, c), if c.CComplete? then Some(c.id) else None);
  }
}
