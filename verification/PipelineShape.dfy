/** Every pipeline is one chain of jobs in FLOW order, and it stops. */
module PipelineShape {
  import opened Core
  import opened Jobs
  import opened JobHistory
  import opened Fencing
  import opened Workflow

  // Runs of lawful steps

  ghost predicate LawfulRun(cmds: seq<Cmd>) {
    forall n :: 0 <= n < |cmds| ==> Lawful(Run(EmptyStore(), cmds[..n]), cmds[n])
  }

  lemma {:induction false} LawfulRunFlow(cmds: seq<Cmd>)
    requires LawfulRun(cmds)
    ensures Possible(cmds) && Inv(Run(EmptyStore(), cmds)) && FlowInv(Run(EmptyStore(), cmds))
  {
    hide Inv, Lawful, Apply;
    if cmds == [] {
      EmptyInv();
    } else {
      var front := cmds[..|cmds| - 1];
      assert forall n :: 0 <= n < |front| ==> front[..n] == cmds[..n];
      LawfulRunFlow(front);
      assert Lawful(Run(EmptyStore(), cmds[..|front|]), cmds[|front|]);
      StepFlow(Run(EmptyStore(), front), cmds[|front|]);
      LawfulIsAdmissible(cmds);
    }
  }

  lemma LawfulIsAdmissible(cmds: seq<Cmd>)
    requires LawfulRun(cmds)
    ensures Possible(cmds)
  {
  }

  // Chains

  /** From the root of a job's pipeline down to the job. */
  ghost function Chain(jobs: map<Id, Job>, id: Id): (c: seq<Id>)
    requires Linked(jobs) && id in jobs
    ensures |c| > 0 && c[|c| - 1] == id
    decreases jobs[id].row
  {
    if jobs[id].payload.parent.None? then [id] else Chain(jobs, jobs[id].payload.parent.value) + [id]
  }

  /** The kind at depth n of a chain; without `execute`, the log review moves up. */
  predicate OnFlow(kind: Kind, n: nat) {
    Stage(kind) == n || (n == 7 && kind.LogReview?)
  }

  /** A chain: it starts at a root, every step but the last has succeeded and is followed by its one successor,
      the kinds are those of FLOW in order, and every later step names the root as its run and carries its
      request. */
  ghost predicate InFlowOrder(jobs: map<Id, Job>, c: seq<Id>) {
    && |c| > 0 && (forall n :: 0 <= n < |c| ==> c[n] in jobs)
    && External(jobs[c[0]].payload)
    && (forall n :: 0 <= n < |c| - 1 ==>
          && jobs[c[n]].status.Succeeded? && Stage(jobs[c[n]].kind) == n
          && jobs[c[n + 1]].payload.parent == Some(c[n]))
    && (|c| > 1 ==> OnFlow(jobs[c[|c| - 1]].kind, |c| - 1))
    && (forall n :: 1 <= n < |c| ==>
          && jobs[c[n]].payload.pipeline == Text(c[0]) && jobs[c[n]].payload.body == jobs[c[0]].payload.body
          && jobs[c[n]].maxAttempts == 3)
  }

  lemma ExtendChain(jobs: map<Id, Job>, c: seq<Id>, q: Id, id: Id)
    requires InFlowOrder(jobs, c) && c[|c| - 1] == q && |c| <= 9
    requires id in jobs && jobs[q].status.Succeeded? && ChildOf(q, jobs[q], jobs[id])
    ensures InFlowOrder(jobs, c + [id]) && |c + [id]| <= 9
  {
  }

  lemma {:induction false} ChainShape(jobs: map<Id, Job>, id: Id)
    requires Linked(jobs) && id in jobs
    ensures InFlowOrder(jobs, Chain(jobs, id)) && |Chain(jobs, id)| <= 9
    decreases jobs[id].row
  {
    if jobs[id].payload.parent.Some? {
      var q := jobs[id].payload.parent.value;
      assert ChildOf(q, jobs[q], jobs[id]);
      ChainShape(jobs, q);
      hide ChildOf, InFlowOrder;
      ExtendChain(jobs, Chain(jobs, q), q, id);
    }
  }

  lemma {:induction false} PrefixChain(jobs: map<Id, Job>, id: Id, n: nat)
    requires Linked(jobs) && id in jobs && n < |Chain(jobs, id)|
    ensures Chain(jobs, id)[n] in jobs && Chain(jobs, Chain(jobs, id)[n]) == Chain(jobs, id)[..n + 1]
    decreases jobs[id].row
  {
    var c := Chain(jobs, id);
    ChainShape(jobs, id);
    if n == |c| - 1 {
      assert c[..n + 1] == c;
    } else {
      PrefixChain(jobs, jobs[id].payload.parent.value, n);
    }
  }

  /** Two jobs at the same depth of the same pipeline are the same job. */
  lemma {:induction false} SameDepth(jobs: map<Id, Job>, a: Id, b: Id)
    requires Linked(jobs) && OneChild(jobs) && a in jobs && b in jobs
    requires |Chain(jobs, a)| == |Chain(jobs, b)| && Chain(jobs, a)[0] == Chain(jobs, b)[0]
    ensures a == b
    decreases jobs[a].row
  {
    ChainShape(jobs, a);
    ChainShape(jobs, b);
    if |Chain(jobs, a)| > 1 {
      SameDepth(jobs, jobs[a].payload.parent.value, jobs[b].payload.parent.value);
    }
  }

  /** The run a job belongs to: the text of its pipeline field, or itself. */
  predicate InPipeline(jobs: map<Id, Job>, id: Id, run: Id) {
    id in jobs && (id == run || jobs[id].payload.pipeline == Text(run))
  }

  lemma {:induction false} ChainRoot(jobs: map<Id, Job>, id: Id, run: Id)
    requires Linked(jobs) && InPipeline(jobs, id, run) && InPipeline(jobs, run, run)
    requires External(jobs[run].payload)
    ensures Chain(jobs, id)[0] == run
    ensures |Chain(jobs, id)| == 1 <==> id == run
    ensures id != run ==> jobs[run].kind.Pipeline? && jobs[run].status.Succeeded?
  {
    hide ChildOf;
    ChainShape(jobs, id);
    ChainShape(jobs, run);
    assert External(jobs[id].payload) || jobs[id].payload.parent.Some?;
    if id != run {
      assert |Chain(jobs, id)| > 1;
    }
  }

  /** The jobs of one pipeline form one chain: of two, the shallower is on the way to the deeper. */
  lemma OneChain(jobs: map<Id, Job>, run: Id, a: Id, b: Id)
    requires Linked(jobs) && OneChild(jobs) && InPipeline(jobs, run, run) && External(jobs[run].payload)
    requires InPipeline(jobs, a, run) && InPipeline(jobs, b, run)
    ensures Chain(jobs, a) <= Chain(jobs, b) || Chain(jobs, b) <= Chain(jobs, a)
  {
    ChainRoot(jobs, a, run);
    ChainRoot(jobs, b, run);
    var ca, cb := Chain(jobs, a), Chain(jobs, b);
    if |ca| <= |cb| {
      PrefixChain(jobs, b, |ca| - 1);
      SameDepth(jobs, a, cb[|ca| - 1]);
    } else {
      PrefixChain(jobs, a, |cb| - 1);
      SameDepth(jobs, b, ca[|cb| - 1]);
    }
  }

  /** A pipeline has at most one job of each kind. */
  lemma OneJobPerKind(jobs: map<Id, Job>, run: Id, a: Id, b: Id)
    requires Linked(jobs) && OneChild(jobs) && InPipeline(jobs, run, run) && External(jobs[run].payload)
    requires InPipeline(jobs, a, run) && InPipeline(jobs, b, run) && jobs[a].kind == jobs[b].kind
    ensures a == b
  {
    hide Linked, OneChild, External;
    OneChain(jobs, run, a, b);
    ChainShape(jobs, a);
    ChainShape(jobs, b);
    ChainRoot(jobs, a, run);
    ChainRoot(jobs, b, run);
    var ca, cb := Chain(jobs, a), Chain(jobs, b);
    hide Chain;
    if ca <= cb && |ca| < |cb| {
      assert cb[|ca| - 1] == a;
    }
  }

  lemma ExecuteIsAuto(jobs: map<Id, Job>, id: Id)
    requires Linked(jobs) && id in jobs && jobs[id].kind.ExecuteOrder? && jobs[id].payload.parent.Some?
    ensures jobs[id].payload.autoExecute
  {
    var q := jobs[id].payload.parent.value;
    assert ChildOf(q, jobs[q], jobs[id]);
  }

  lemma StageOnChain(jobs: map<Id, Job>, id: Id, run: Id, kind: Kind)
    requires Linked(jobs) && id in jobs && jobs[id].kind.ExecuteOrder? && jobs[id].payload.pipeline == Text(run)
    requires Stage(kind) <= 6
    ensures jobs[id].payload.autoExecute
    ensures exists k :: InPipeline(jobs, k, run) && jobs[k].kind == kind && jobs[k].status.Succeeded?
  {
    hide Linked, ChildOf;
    ChainShape(jobs, id);
    var c := Chain(jobs, id);
    ExecuteIsAuto(jobs, id);
    assert |c| == 8;
    var k := c[Stage(kind)];
    assert Stage(jobs[k].kind) == Stage(kind);
    assert InPipeline(jobs, k, run) && jobs[k].kind == kind;
  }

  /** An `execute` job of a pipeline exists only if the pipeline and every stage from discover to risk review
      have succeeded in it. */
  lemma ExecuteNeedsEveryStage(cmds: seq<Cmd>, id: Id, run: Id, kind: Kind)
    requires LawfulRun(cmds)
    requires var jobs := Run(EmptyStore(), cmds).jobs;
      id in jobs && jobs[id].kind.ExecuteOrder? && jobs[id].payload.pipeline == Text(run)
    requires Stage(kind) <= 6
    ensures var jobs := Run(EmptyStore(), cmds).jobs;
      jobs[id].payload.autoExecute
      && exists k :: InPipeline(jobs, k, run) && jobs[k].kind == kind && jobs[k].status.Succeeded?
  {
    LawfulRunFlow(cmds);
    hide Inv, Run, LawfulRun, Possible;
    var jobs := Run(EmptyStore(), cmds).jobs;
    assert Linked(jobs);
    hide FlowInv;
    StageOnChain(jobs, id, run, kind);
  }

  /** The shape of every pipeline in every run. */
  lemma EveryPipelineIsAChain(cmds: seq<Cmd>, run: Id, a: Id, b: Id)
    requires LawfulRun(cmds)
    requires var jobs := Run(EmptyStore(), cmds).jobs;
      InPipeline(jobs, run, run) && External(jobs[run].payload)
      && InPipeline(jobs, a, run) && InPipeline(jobs, b, run)
    ensures var s := Run(EmptyStore(), cmds);
      && Linked(s.jobs) && InFlowOrder(s.jobs, Chain(s.jobs, a))
      && (Chain(s.jobs, a) <= Chain(s.jobs, b) || Chain(s.jobs, b) <= Chain(s.jobs, a))
      && (s.jobs[a].kind == s.jobs[b].kind ==> a == b)
  {
    LawfulRunFlow(cmds);
    hide Inv, Run, LawfulRun, Possible;
    var jobs := Run(EmptyStore(), cmds).jobs;
    assert Linked(jobs) && OneChild(jobs);
    hide FlowInv;
    ChainShape(jobs, a);
    OneChain(jobs, run, a, b);
    if jobs[a].kind == jobs[b].kind {
      OneJobPerKind(jobs, run, a, b);
    }
  }
}
