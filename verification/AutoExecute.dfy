/** When a pipeline gets its execute step: the operator's switch, the request, and the order of FLOW. */
module AutoExecute {
  import opened Core
  import opened Jobs
  import opened JobHistory
  import opened Fencing
  import opened Workflow
  import opened PipelineShape

  /** A run whose n-th command was issued while the operator's switch stood at `on[n]`. */
  ghost predicate SwitchedRun(cmds: seq<Cmd>, on: seq<bool>) {
    |on| == |cmds| && forall n :: 0 <= n < |cmds| ==> LawfulWith(After(cmds, n), cmds[n], on[n])
  }

  lemma SwitchedIsLawful(cmds: seq<Cmd>, on: seq<bool>)
    requires SwitchedRun(cmds, on)
    ensures LawfulRun(cmds)
  {
    hide LawfulWith;
    forall n | 0 <= n < |cmds| ensures Lawful(Run(EmptyStore(), cmds[..n]), cmds[n]) {
      assert LawfulWith(After(cmds, n), cmds[n], on[n]);
    }
  }

  lemma SwitchedReach(cmds: seq<Cmd>, on: seq<bool>, n: nat)
    requires SwitchedRun(cmds, on) && n <= |cmds|
    ensures Possible(cmds) && Inv(After(cmds, n)) && FlowInv(After(cmds, n))
    ensures n < |cmds| ==> LawfulWith(After(cmds, n), cmds[n], on[n]) && After(cmds, n + 1) == Apply(After(cmds, n), cmds[n])
  {
    hide LawfulWith, Inv, FlowInv, Apply;
    SwitchedIsLawful(cmds, on);
    LawfulRunFlow(cmds);
    var front := cmds[..n];
    forall k | 0 <= k < n ensures Lawful(Run(EmptyStore(), front[..k]), front[k]) {
      assert front[..k] == cmds[..k];
      assert Lawful(Run(EmptyStore(), cmds[..k]), cmds[k]);
    }
    LawfulRunFlow(front);
    if n < |cmds| {
      assert cmds[..n + 1][..n] == cmds[..n];
    }
  }

  /** The steps of FLOW one after the other; `execute` says whether a reviewed order goes out. */
  predicate Follows(done: Kind, next: Kind, execute: bool) {
    || (done.Pipeline? && next.Discover?)
    || (done.Discover? && next.Research?)
    || (done.Research? && next.Analysis?)
    || (done.Analysis? && next.Backtest?)
    || (done.Backtest? && next.Forecast?)
    || (done.Forecast? && next.RiskReview?)
    || (done.RiskReview? && execute && next.ExecuteOrder?)
    || (done.RiskReview? && !execute && next.LogReview?)
    || (done.ExecuteOrder? && next.LogReview?)
  }

  /** The job is a pipeline's root or one of its steps, and not the last. */
  predicate Continues(j: Job) {
    (j.kind.Pipeline? || j.payload.pipeline.Text?) && !j.kind.LogReview? && !j.kind.Other?
  }

  /** The completion of `id` succeeded it and added one queued job: the next step, with the request of the pipeline. */
  predicate Continued(s: Store, s1: Store, id: Id, k: Id, execute: bool)
    requires id in s.jobs
  {
    var j := s.jobs[id];
    && k !in s.jobs && s1.jobs.Keys == s.jobs.Keys + {k} && s1.jobs[id].status.Succeeded?
    && Follows(j.kind, s1.jobs[k].kind, execute)
    && s1.jobs[k].status.Queued? && s1.jobs[k].attempts == 0 && s1.jobs[k].maxAttempts == 3
    && Some(s1.jobs[k].notBefore) == s1.jobs[id].finishedAt
    && s1.jobs[k].payload.parent == Some(id)
    && s1.jobs[k].payload.pipeline == (if j.kind.Pipeline? then Text(id) else j.payload.pipeline)
    && s1.jobs[k].payload.autoExecute == j.payload.autoExecute && s1.jobs[k].payload.body == j.payload.body
  }

  /** The step `handle` names comes after the one it answered. */
  lemma NextFollows(id: Id, j: Job, auto: bool)
    ensures var next := NextStep(id, j.kind, j.payload, auto);
      && (next.Some? <==> Continues(j))
      && (next.Some? ==>
            && Follows(j.kind, next.value.kind, auto && j.payload.autoExecute)
            && next.value.payload.parent == Some(id)
            && next.value.payload.pipeline == (if j.kind.Pipeline? then Text(id) else j.payload.pipeline)
            && next.value.payload.autoExecute == j.payload.autoExecute && next.value.payload.body == j.payload.body)
  {
  }

  /** The row of the next step is a new one: no row carries its request. */
  lemma FollowUpIsNew(s: Store, c: Cmd, next: Next)
    requires c.CComplete? && c.next == Some(next) && Ends(s, c, c.id, c.token)
    requires forall k :: k in s.jobs ==> s.jobs[k].payload != next.payload
    ensures c.id in s.jobs && c.uuid !in s.jobs
    ensures Apply(s, c).jobs
         == s.jobs[c.id := SucceededRow(s.jobs[c.id], c.result, c.now)]
                  [c.uuid := NewJob(|s.jobs|, next.kind, next.payload, next.key, None, 3, c.now)]
  {
    hide Cancelled;
    var done := s.jobs[c.id := SucceededRow(s.jobs[c.id], c.result, c.now)];
    assert done.Keys == s.jobs.Keys;
    assert |done| == |done.Keys| == |s.jobs|;
  }

  lemma NothingFollows(s: Store, c: Cmd)
    requires c.CComplete? && c.next.None? && Ends(s, c, c.id, c.token)
    ensures c.id in s.jobs && Apply(s, c).jobs == s.jobs[c.id := SucceededRow(s.jobs[c.id], c.result, c.now)]
  {
  }

  lemma StepChosen(s: Store, c: Cmd, auto: bool)
    requires LawfulWith(s, c, auto) && c.CComplete? && Ends(s, c, c.id, c.token)
    ensures c.id in s.jobs && s.jobs[c.id].status.Running?
    ensures c.next == NextStep(c.id, s.jobs[c.id].kind, s.jobs[c.id].payload, auto)
  {
    hide Complete, NextStep;
    UsesNeedsLease(s, c, c.id, c.token);
    EndsHolds(s, c);
  }

  lemma EndsHolds(s: Store, c: Cmd)
    requires c.CComplete? && Ends(s, c, c.id, c.token)
    ensures Holds(s, c.id, c.worker, c.token, c.now)
  {
    hide EnqueueRow, Holds;
  }

  /** What an accepted completion leaves behind. */
  lemma CompletionContinues(s: Store, c: Cmd, auto: bool)
    requires Inv(s) && FlowInv(s) && LawfulWith(s, c, auto) && c.CComplete? && Ends(s, c, c.id, c.token)
    ensures c.id in s.jobs
    ensures if Continues(s.jobs[c.id]) then
        Continued(s, Apply(s, c), c.id, c.uuid, auto && s.jobs[c.id].payload.autoExecute)
      else Apply(s, c).jobs.Keys == s.jobs.Keys
  {
    hide Inv, FlowInv, LawfulWith, Ends, NextStep, Apply, ChildOf, Follows;
    StepChosen(s, c, auto);
    NextFollows(c.id, s.jobs[c.id], auto);
    if c.next.Some? {
      NextIsChild(s, c.id, c.next.value);
      FollowUpIsNew(s, c, c.next.value);
      assert Apply(s, c).jobs.Keys == s.jobs.Keys + {c.uuid};
    } else {
      NothingFollows(s, c);
    }
  }

  /** In every run an accepted completion of a step leaves exactly one child, of the next kind: after the risk review
      that is `execute` exactly when the switch was on and the payload asks for it, and the log review otherwise. It
      stays the only child at every later point. */
  lemma AcceptedStepContinues(cmds: seq<Cmd>, on: seq<bool>, n: nat)
    requires SwitchedRun(cmds, on) && n < |cmds| && cmds[n].CComplete?
    requires Ends(After(cmds, n), cmds[n], cmds[n].id, cmds[n].token)
    requires cmds[n].id in After(cmds, n).jobs && Continues(After(cmds, n).jobs[cmds[n].id])
    ensures var s, id, k := After(cmds, n), cmds[n].id, cmds[n].uuid;
      && Continued(s, After(cmds, n + 1), id, k, on[n] && s.jobs[id].payload.autoExecute)
      && OnlyChild(cmds, n, id, k)
  {
    hide LawfulWith, Inv, FlowInv, Apply, After, Ends;
    SwitchedReach(cmds, on, n);
    var s, id, k := After(cmds, n), cmds[n].id, cmds[n].uuid;
    CompletionContinues(s, cmds[n], on[n]);
    forall m, o | n < m <= |cmds| && o in After(cmds, m).jobs && After(cmds, m).jobs[o].payload.parent == Some(id)
      ensures o == k
    {
      SwitchedReach(cmds, on, m);
      Later(cmds, n + 1, m);
      SameParent(After(cmds, m), o, k);
    }
  }

  ghost predicate OnlyChild(cmds: seq<Cmd>, n: nat, id: Id, k: Id)
    requires n <= |cmds|
  {
    forall m, o ::
      n < m <= |cmds| && o in After(cmds, m).jobs && After(cmds, m).jobs[o].payload.parent == Some(id) ==> o == k
  }

  lemma SameParent(s: Store, i: Id, j: Id)
    requires FlowInv(s) && i in s.jobs && j in s.jobs
    requires s.jobs[i].payload.parent.Some? && s.jobs[i].payload.parent == s.jobs[j].payload.parent
    ensures i == j
  {
  }

  /** An execute job of a pipeline. */
  predicate ExecutesPipeline(jobs: map<Id, Job>, k: Id) {
    k in jobs && jobs[k].kind.ExecuteOrder? && jobs[k].payload.pipeline.Text?
  }

  /** The command completed a risk review whose payload asks for execution, and that created job `k`. */
  ghost predicate ReviewReleased(s: Store, s1: Store, c: Cmd, k: Id) {
    && c.CComplete? && c.id in s.jobs && s.jobs[c.id].kind.RiskReview? && s.jobs[c.id].payload.autoExecute
    && Ends(s, c, c.id, c.token) && k !in s.jobs && k in s1.jobs && s1.jobs[k].payload.parent == Some(c.id)
  }

  /** A step that creates an execute job of a pipeline. */
  lemma ExecuteCreated(s: Store, c: Cmd, auto: bool, k: Id)
    requires Inv(s) && FlowInv(s) && LawfulWith(s, c, auto)
    requires k !in s.jobs && ExecutesPipeline(Apply(s, c).jobs, k)
    ensures auto && ReviewReleased(s, Apply(s, c), c, k)
  {
    hide LawfulWith, Lawful, Inv, FlowInv, Apply, Ends;
    LawfulUnder(s, c, auto);
    StepRows(s, c);
    var s1 := Apply(s, c);
    assert s1.jobs[k].payload.parent.Some?;
    assert c.CComplete?;
    AcceptedIfChanged(s, c);
    CompletionContinues(s, c, auto);
  }

  lemma LawfulUnder(s: Store, c: Cmd, auto: bool)
    requires LawfulWith(s, c, auto)
    ensures Lawful(s, c)
  {
    hide LawfulWith;
  }

  lemma AcceptedIfChanged(s: Store, c: Cmd)
    requires c.CComplete? && Apply(s, c) != s
    ensures Ends(s, c, c.id, c.token)
  {
    hide EnqueueRow;
  }

  /** Every execute job of a pipeline was released by a review that was answered while the switch was on. */
  lemma {:induction false} ExecuteNeedsTheSwitch(cmds: seq<Cmd>, on: seq<bool>, k: Id)
    requires SwitchedRun(cmds, on) && ExecutesPipeline(After(cmds, |cmds|).jobs, k)
    ensures exists n :: 0 <= n < |cmds| && on[n] && ReviewReleased(After(cmds, n), After(cmds, n + 1), cmds[n], k)
    decreases |cmds|
  {
    hide LawfulWith, Inv, FlowInv, Apply, ReviewReleased;
    if cmds != [] {
      var m := |cmds| - 1;
      SwitchedReach(cmds, on, m);
      Later(cmds, m, |cmds|);
      var front := cmds[..m];
      assert forall n :: 0 <= n <= m ==> front[..n] == cmds[..n];
      if k in After(cmds, m).jobs {
        assert SwitchedRun(front, on[..m]) by {
          forall n | 0 <= n < m ensures LawfulWith(After(front, n), front[n], on[..m][n]) {
            assert LawfulWith(After(cmds, n), cmds[n], on[n]);
          }
        }
        assert cmds[..m][..m] == cmds[..m];
        ExecuteNeedsTheSwitch(front, on[..m], k);
        var n :| 0 <= n < m && on[n] && ReviewReleased(After(front, n), After(front, n + 1), front[n], k);
        assert ReviewReleased(After(cmds, n), After(cmds, n + 1), cmds[n], k);
      } else {
        ExecuteCreated(After(cmds, m), cmds[m], on[m], k);
      }
    }
  }

  /** While the switch is off, as it is by default, no pipeline ever gets an execute job. */
  lemma SwitchOffExecutesNothing(cmds: seq<Cmd>, on: seq<bool>, k: Id)
    requires SwitchedRun(cmds, on) && forall n :: 0 <= n < |on| ==> !on[n]
    ensures !ExecutesPipeline(After(cmds, |cmds|).jobs, k)
  {
    if ExecutesPipeline(After(cmds, |cmds|).jobs, k) {
      ExecuteNeedsTheSwitch(cmds, on, k);
    }
  }
}
