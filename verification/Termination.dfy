/** Every pipeline stops: how many claims it can take, and a measure that every step of a worker decreases. */
module Termination {
  import opened Core
  import opened Sums
  import opened Jobs
  import opened JobHistory
  import opened Fencing
  import opened Workflow
  import opened PipelineShape

  // The number of claims

  /** No attempt of the job was given back by a defer or by an operator. */
  predicate NoExtraAttempts(h: seq<EventBody>) {
    forall n :: 0 <= n < |h| ==> !h[n].JobDeferred? && !h[n].JobRequeued?
  }

  lemma {:induction false} ClaimsAreAttempts(h: seq<EventBody>)
    requires NoExtraAttempts(h)
    ensures NetClaims(h) == Claims(h)
  {
    if h != [] {
      ClaimsAreAttempts(h[..|h| - 1]);
    }
  }

  ghost function ClaimsOf(events: seq<Event>): (Id, Job) -> real {
    (id: Id, j: Job) => Claims(HistoryOf(events, id)) as real
  }

  function PipelineJobs(jobs: map<Id, Job>, run: Id): set<Id> {
    set id | id in jobs && InPipeline(jobs, id, run)
  }

  /** How often the jobs of a pipeline have been claimed. */
  ghost function TotalClaims(s: Store, run: Id): real {
    Sum(Rest(s.jobs, PipelineJobs(s.jobs, run)), ClaimsOf(s.events))
  }

  /** Adding up depth by depth: at most one job at each depth, each with its own budget. */
  lemma {:induction false} SumByDepth(s: Store, run: Id, ids: set<Id>, d: nat)
    requires Inv(s) && FlowInv(s) && InPipeline(s.jobs, run, run) && External(s.jobs[run].payload)
    requires forall id :: id in ids ==> InPipeline(s.jobs, id, run) && |Chain(s.jobs, id)| <= d + 1
    requires forall id :: id in ids ==> NoExtraAttempts(HistoryOf(s.events, id))
    ensures ids <= s.jobs.Keys
    ensures Sum(Rest(s.jobs, ids), ClaimsOf(s.events)) <= s.jobs[run].maxAttempts as real + 3.0 * d as real
    decreases d, |ids|
  {
    var f := ClaimsOf(s.events);
    if id :| id in ids && |Chain(s.jobs, id)| == d + 1 {
      OneBudget(s, run, id);
      hide Inv, Sum, InPipeline;
      SumVisit(s.jobs, f, ids, id);
      forall o | o in ids - {id}
        ensures |Chain(s.jobs, o)| <= d
      {
        if |Chain(s.jobs, o)| == d + 1 {
          ChainRoot(s.jobs, id, run);
          ChainRoot(s.jobs, o, run);
          SameDepth(s.jobs, id, o);
        }
      }
      if d == 0 {
        assert ids - {id} == {};
        assert Rest(s.jobs, {}) == map[];
        SumZero(Rest(s.jobs, ids - {id}), f);
      } else {
        SumByDepth(s, run, ids - {id}, d - 1);
      }
    } else if d == 0 {
      assert ids == {};
      SumZero(Rest(s.jobs, ids), f);
    } else {
      SumByDepth(s, run, ids, d - 1);
    }
  }

  lemma OneBudget(s: Store, run: Id, id: Id)
    requires Inv(s) && FlowInv(s) && InPipeline(s.jobs, run, run) && External(s.jobs[run].payload)
    requires InPipeline(s.jobs, id, run) && NoExtraAttempts(HistoryOf(s.events, id))
    ensures Claims(HistoryOf(s.events, id)) <= s.jobs[id].maxAttempts
    ensures if |Chain(s.jobs, id)| == 1 then id == run else s.jobs[id].maxAttempts == 3
  {
    ClaimsAreAttempts(HistoryOf(s.events, id));
    assert JobOk(s.jobs[id]) && Journaled(s.jobs[id], HistoryOf(s.events, id));
    ChainRoot(s.jobs, id, run);
    ChainShape(s.jobs, id);
  }

  /** Without defers and requeues a pipeline is claimed at most as often as its root may be tried, plus three
      times for each of the eight stages: 27 times when the root has the default budget of three. */
  lemma PipelineClaimsBounded(cmds: seq<Cmd>, run: Id)
    requires LawfulRun(cmds)
    requires var s := Run(EmptyStore(), cmds);
      && InPipeline(s.jobs, run, run) && External(s.jobs[run].payload)
      && forall id :: InPipeline(s.jobs, id, run) ==> NoExtraAttempts(HistoryOf(s.events, id))
    ensures var s := Run(EmptyStore(), cmds);
      TotalClaims(s, run) <= s.jobs[run].maxAttempts as real + 24.0
  {
    LawfulRunFlow(cmds);
    hide Inv, Run, LawfulRun, Possible, Sum;
    var s := Run(EmptyStore(), cmds);
    forall id | InPipeline(s.jobs, id, run) ensures |Chain(s.jobs, id)| <= 9 {
      ChainShape(s.jobs, id);
    }
    SumByDepth(s, run, PipelineJobs(s.jobs, run), 8);
  }

  // The measure

  /** What an active job may still cost: two steps for each attempt left, one for the attempt under way, and
      seven for each stage that may follow. */
  function Weight(id: Id, j: Job): real {
    if !Active(j) then 0.0
    else
      2.0 * (j.maxAttempts as real - j.attempts as real) + (if j.status.Running? then 1.0 else 0.0)
      + (if Stage(j.kind) <= 8 then 7.0 * (8 - Stage(j.kind)) as real else 0.0)
  }

  ghost function Measure(s: Store): real {
    Sum(s.jobs, Weight)
  }

  lemma MeasureNonNegative(s: Store)
    requires Inv(s)
    ensures Measure(s) >= 0.0
  {
    hide HistoryOf, Journaled;
    forall id | id in s.jobs ensures Weight(id, s.jobs[id]) >= 0.0 {
      assert JobOk(s.jobs[id]);
    }
    hide Inv;
    SumNonNegative(s.jobs, Weight);
  }

  /** Work on existing jobs, without giving attempts back. */
  predicate WorkStep(c: Cmd) {
    c.CClaim? || c.CHeartbeat? || c.CComplete? || c.CFail? || c.CCancel? || c.CEvent? || c.CPutSchedule?
  }

  /** The step changed some job other than by extending its lease. */
  ghost predicate Progress(s: Store, c: Cmd) {
    !c.CHeartbeat? && Apply(s, c).jobs != s.jobs
  }

  ghost predicate Shrinks(s: Store, s1: Store) {
    s1.jobs == s.jobs || Measure(s1) <= Measure(s) - 1.0
  }

  lemma PutShrinks(s: Store, s1: Store, id: Id, j1: Job)
    requires id in s.jobs && s1.jobs == s.jobs[id := j1] && Weight(id, j1) <= Weight(id, s.jobs[id]) - 1.0
    ensures Shrinks(s, s1)
  {
    SumPut(s.jobs, Weight, id, j1);
    hide Sum;
  }

  lemma ShrinksTransitive(a: Store, b: Store, c: Store)
    requires Shrinks(a, b) && Shrinks(b, c)
    ensures Shrinks(a, c)
  {
  }

  lemma {:induction false} ExpireShrinks(s: Store, ids: seq<Id>, now: real)
    requires Inv(s)
    ensures Shrinks(s, Expire(s, ids, now))
  {
    hide Inv, Measure;
    if ids != [] {
      var front, id := ids[..|ids| - 1], ids[|ids| - 1];
      var s1 := Expire(s, front, now);
      ExpireShrinks(s, front, now);
      ExpireInv(s, front, now);
      if id in s1.jobs && Expired(s1.jobs[id], now) {
        AttemptsBounded(s1, id);
        var s2 := ExpireOne(s1, id, now);
        PutShrinks(s1, s2, id, s2.jobs[id]);
        ShrinksTransitive(s, s1, s2);
      }
    }
  }

  lemma AttemptsBounded(s: Store, id: Id)
    requires Inv(s) && id in s.jobs
    ensures s.jobs[id].attempts <= s.jobs[id].maxAttempts
  {
  }

  lemma ClaimShrinks(s: Store, worker: Id, lease: real, kinds: Option<set<Kind>>, order: seq<Id>, now: real)
    requires Inv(s)
    ensures Shrinks(s, Claim(s, worker, lease, kinds, order, now))
  {
    hide Inv, Measure, Expire, Shrinks;
    ExpireShrinks(s, order, now);
    var s1 := Expire(s, order, now);
    FirstOfFinds(s1, now, kinds);
    if FirstOf(s1, now, kinds).Some? {
      var id := FirstOf(s1, now, kinds).value;
      hide FirstOf;
      PutShrinks(s1, ClaimRow(s1, id, worker, lease, now), id, Claimed(s1.jobs[id], worker, lease, now));
      ShrinksTransitive(s, s1, ClaimRow(s1, id, worker, lease, now));
    }
  }

  lemma {:induction false} CancelShrinks(s: Store, ids: seq<Id>, run: Id, now: real)
    requires Base(s)
    ensures Shrinks(s, CancelRows(s, ids, run, now))
  {
    hide Base, Measure;
    if ids != [] {
      var front, id := ids[..|ids| - 1], ids[|ids| - 1];
      var s1 := CancelRows(s, front, run, now);
      CancelShrinks(s, front, run, now);
      CancelRowsInv(s, front, run, now);
      if id in s1.jobs && InCancelledRun(id, s1.jobs[id], run) {
        ActiveCosts(s1, id);
        var s2 := CancelOne(s1, id, run, now);
        PutShrinks(s1, s2, id, s2.jobs[id]);
        ShrinksTransitive(s, s1, s2);
      }
    }
  }

  lemma ActiveCosts(s: Store, id: Id)
    requires Base(s) && id in s.jobs && Active(s.jobs[id])
    ensures Weight(id, s.jobs[id]) >= 1.0
  {
  }

  /** The successor costs less than the step that it replaces. */
  lemma CompleteShrinks(
    s: Store, id: Id, worker: Id, token: nat, result: nat, next: Option<Next>, uuid: Id, now: real)
    requires Inv(s) && FlowInv(s) && Holds(s, id, worker, token, now)
    requires exists auto :: next == NextStep(id, s.jobs[id].kind, s.jobs[id].payload, auto)
    requires Complete(s, id, worker, token, result, next, uuid, now).Ok?
    ensures Shrinks(s, Complete(s, id, worker, token, result, next, uuid, now).value.0)
  {
    hide FlowInv, Measure, Shrinks, Stage, FlowNext, Weight;
    RunningCosts(s, id, result, now);
    AttemptsBounded(s, id);
    CompleteJobs(s, id, worker, token, result, next, uuid, now);
    hide Inv, Complete;
    var j1 := SucceededRow(s.jobs[id], result, now);
    var s1 := Complete(s, id, worker, token, result, next, uuid, now).value.0;
    if next.Some? && s1.jobs != s.jobs[id := j1] {
      NextIsLater(id, s.jobs[id], next.value);
      hide NextStep;
      var child := NewJob(|s.jobs|, next.value.kind, next.value.payload, next.value.key, None, 3, now);
      TradeDown(s, s1, id, j1, uuid, child);
    } else {
      PutShrinks(s, s1, id, j1);
    }
  }

  lemma RunningCosts(s: Store, id: Id, result: nat, now: real)
    requires Inv(s) && id in s.jobs && s.jobs[id].status.Running?
    ensures Weight(id, SucceededRow(s.jobs[id], result, now)) <= Weight(id, s.jobs[id]) - 1.0
  {
  }

  lemma NextIsLater(id: Id, j: Job, next: Next)
    requires exists auto :: Some(next) == NextStep(id, j.kind, j.payload, auto)
    ensures Stage(j.kind) < Stage(next.kind) <= 8
  {
  }

  lemma CompleteJobs(
    s: Store, id: Id, worker: Id, token: nat, result: nat, next: Option<Next>, uuid: Id, now: real)
    requires Holds(s, id, worker, token, now)
    requires Complete(s, id, worker, token, result, next, uuid, now).Ok?
    ensures var done := s.jobs[id := SucceededRow(s.jobs[id], result, now)];
      var jobs1 := Complete(s, id, worker, token, result, next, uuid, now).value.0.jobs;
      || jobs1 == done
      || (next.Some? && uuid !in s.jobs
          && jobs1 == done[uuid := NewJob(|s.jobs|, next.value.kind, next.value.payload, next.value.key, None, 3, now)])
  {
  }

  lemma TradeDown(s: Store, s2: Store, id: Id, j1: Job, uuid: Id, child: Job)
    requires id in s.jobs && uuid !in s.jobs && s2.jobs == s.jobs[id := j1][uuid := child]
    requires s.jobs[id].status.Running? && s.jobs[id].attempts <= s.jobs[id].maxAttempts && j1.status.Succeeded?
    requires child.status.Queued? && child.attempts == 0 && child.maxAttempts == 3
    requires Stage(s.jobs[id].kind) < Stage(child.kind) <= 8
    ensures Shrinks(s, s2)
  {
    SumPut(s.jobs, Weight, id, j1);
    SumPut(s.jobs[id := j1], Weight, uuid, child);
    hide Sum;
    assert Weight(uuid, child) <= 7.0 * (8 - Stage(s.jobs[id].kind)) as real - 1.0;
  }

  lemma FailShrinks(s: Store, id: Id, worker: Id, token: nat, error: nat, delay: real, now: real)
    requires Inv(s)
    ensures Shrinks(s, Fail(s, id, worker, token, error, delay, now).0)
  {
    hide Measure;
    if Holds(s, id, worker, token, now) {
      AttemptsBounded(s, id);
      hide Inv, Shrinks;
      var s1 := Fail(s, id, worker, token, error, delay, now).0;
      PutShrinks(s, s1, id, s1.jobs[id]);
    }
  }

  lemma HeartbeatKeepsMeasure(s: Store, id: Id, worker: Id, token: nat, lease: real, now: real)
    ensures Measure(HeartbeatRow(s, id, worker, token, lease, now)) == Measure(s)
  {
    if Holds(s, id, worker, token, now) {
      SumPut(s.jobs, Weight, id, HeartbeatRow(s, id, worker, token, lease, now).jobs[id]);
      hide Sum;
    }
  }

  /** Every work step that changes a job lowers the measure by at least one, and no work step raises it. */
  lemma WorkLowersMeasure(s: Store, c: Cmd)
    requires Inv(s) && FlowInv(s) && Lawful(s, c) && WorkStep(c)
    ensures Measure(Apply(s, c)) <= Measure(s) - if Progress(s, c) then 1.0 else 0.0
  {
    hide Inv, FlowInv, Measure, Claim, CancelRows, Complete, Fail, HeartbeatRow, NextStep;
    match c {
      case CClaim(worker, lease, kinds, order, now) => ClaimShrinks(s, worker, lease, kinds, order, now);
      case CHeartbeat(id, worker, token, lease, now) => HeartbeatKeepsMeasure(s, id, worker, token, lease, now);
      case CComplete(id, worker, token, result, next, uuid, now) =>
        if Holds(s, id, worker, token, now) {
          if Complete(s, id, worker, token, result, next, uuid, now).Ok? {
            CompleteShrinks(s, id, worker, token, result, next, uuid, now);
          }
        } else {
          CompleteFenced(s, id, worker, token, result, next, uuid, now);
        }
      case CFail(id, worker, token, error, delay, now) => FailShrinks(s, id, worker, token, error, delay, now);
      case CCancel(id, order, now) =>
        if id in s.jobs {
          var run := CancelTarget(id, s.jobs[id].payload);
          CancelledRunShrinks(s, order, run, now);
        }
      case _ =>
    }
    SameJobsSameMeasure(s, Apply(s, c));
  }

  lemma CompleteFenced(s: Store, id: Id, worker: Id, token: nat, result: nat, next: Option<Next>, uuid: Id, now: real)
    requires !Holds(s, id, worker, token, now)
    ensures Complete(s, id, worker, token, result, next, uuid, now).Ok? ==>
      Complete(s, id, worker, token, result, next, uuid, now).value.0 == s
  {
  }

  lemma CancelledRunShrinks(s: Store, order: seq<Id>, run: Id, now: real)
    requires Inv(s)
    ensures Shrinks(s, CancelRows(s.(cancelled := s.cancelled + {run}), order, run, now))
  {
    var s0 := s.(cancelled := s.cancelled + {run});
    assert Base(s0);
    hide Base;
    CancelShrinks(s0, order, run, now);
  }

  lemma SameJobsSameMeasure(s: Store, s1: Store)
    ensures s1.jobs == s.jobs ==> Measure(s1) == Measure(s)
  {
  }

  /** How many steps of the run changed a job. */
  ghost function ProgressSteps(s: Store, cmds: seq<Cmd>): nat {
    if cmds == [] then 0
    else ProgressSteps(s, cmds[..|cmds| - 1]) + if Progress(Run(s, cmds[..|cmds| - 1]), cmds[|cmds| - 1]) then 1 else 0
  }

  ghost predicate LawfulFrom(s: Store, cmds: seq<Cmd>) {
    forall n :: 0 <= n < |cmds| ==> Lawful(Run(s, cmds[..n]), cmds[n]) && WorkStep(cmds[n])
  }

  /** Termination: from any reachable store, workers and cancellations can change jobs only so many times. */
  lemma {:induction false} WorkEnds(s: Store, cmds: seq<Cmd>)
    requires Inv(s) && FlowInv(s) && LawfulFrom(s, cmds)
    ensures Inv(Run(s, cmds)) && FlowInv(Run(s, cmds))
    ensures ProgressSteps(s, cmds) as real <= Measure(s) - Measure(Run(s, cmds)) <= Measure(s)
  {
    hide Inv, FlowInv, Lawful, Apply, Measure, Progress, WorkStep;
    if cmds != [] {
      var front := cmds[..|cmds| - 1];
      assert forall n :: 0 <= n < |front| ==> front[..n] == cmds[..n];
      WorkEnds(s, front);
      assert Lawful(Run(s, cmds[..|front|]), cmds[|front|]);
      WorkLowersMeasure(Run(s, front), cmds[|front|]);
      StepFlow(Run(s, front), cmds[|front|]);
    }
    MeasureNonNegative(Run(s, cmds));
  }
}
