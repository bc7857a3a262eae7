/** `HubRuntime`: one worker turn over the job store, and the results of the earlier steps of a pipeline. */
module Runtime {
  import opened Core
  import opened Jobs
  import opened JobHistory
  import opened Fencing
  import opened Workflow
  import opened PipelineShape
  import opened Hub

  type Results = map<Kind, Option<nat>>

  datatype Lineage = Found(results: Results) | ParentUnavailable

  /** The walk of `_ancestors`; the nearest step of a kind wins. */
  function AncestorsFrom(jobs: map<Id, Job>, parent: Option<Id>, steps: nat, found: Results): Lineage
    decreases steps
  {
    if steps == 0 || parent.None? then Found(found)
    else if parent.value !in jobs || !jobs[parent.value].status.Succeeded? then ParentUnavailable
    else
      var j := jobs[parent.value];
      AncestorsFrom(jobs, j.payload.parent, steps - 1, if j.kind in found then found else found[j.kind := j.result])
  }

  /** The kind and result of every step of a chain before its n-th. */
  ghost predicate Collected(jobs: map<Id, Job>, c: seq<Id>, n: nat, found: Results, all: Results)
    requires n <= |c| && forall m :: 0 <= m < |c| ==> c[m] in jobs
  {
    && (forall k :: k in all <==> k in found || exists m :: 0 <= m < n && jobs[c[m]].kind == k)
    && (forall k :: k in found ==> k in all && all[k] == found[k])
    && (forall m :: 0 <= m < n ==> jobs[c[m]].kind in all && all[jobs[c[m]].kind] == jobs[c[m]].result)
  }

  lemma {:induction false} WalkUp(jobs: map<Id, Job>, id: Id, n: nat, steps: nat, found: Results)
    requires Linked(jobs) && id in jobs && n < |Chain(jobs, id)| && n <= steps
    requires InFlowOrder(jobs, Chain(jobs, id))
    requires forall k :: k in found ==> Stage(k) >= n
    ensures var c := Chain(jobs, id);
      var start := if n == 0 then None else Some(c[n - 1]);
      var all := AncestorsFrom(jobs, start, steps, found);
      all.Found? && Collected(jobs, c, n, found, all.results)
    decreases n
  {
    hide Linked, Chain, Collected, OnFlow;
    var c := Chain(jobs, id);
    if n == 0 {
      NothingCollected(jobs, c, found);
    } else {
      StepUp(jobs, c, n);
      hide InFlowOrder;
      var j := jobs[c[n - 1]];
      WalkUp(jobs, id, n - 1, steps - 1, found[j.kind := j.result]);
      var start := if n == 1 then None else Some(c[n - 2]);
      CollectOne(jobs, c, n, found, AncestorsFrom(jobs, start, steps - 1, found[j.kind := j.result]).results);
    }
  }

  lemma StepUp(jobs: map<Id, Job>, c: seq<Id>, n: nat)
    requires InFlowOrder(jobs, c) && 1 <= n < |c|
    ensures jobs[c[n - 1]].status.Succeeded? && Stage(jobs[c[n - 1]].kind) == n - 1
    ensures jobs[c[n - 1]].payload.parent == if n == 1 then None else Some(c[n - 2])
  {
  }

  lemma NothingCollected(jobs: map<Id, Job>, c: seq<Id>, found: Results)
    requires forall m :: 0 <= m < |c| ==> c[m] in jobs
    ensures Collected(jobs, c, 0, found, found)
  {
  }

  lemma CollectOne(jobs: map<Id, Job>, c: seq<Id>, n: nat, found: Results, all: Results)
    requires 1 <= n <= |c| && (forall m :: 0 <= m < |c| ==> c[m] in jobs)
    requires jobs[c[n - 1]].kind !in found
    requires Collected(jobs, c, n - 1, found[jobs[c[n - 1]].kind := jobs[c[n - 1]].result], all)
    ensures Collected(jobs, c, n, found, all)
  {
  }

  /** `_ancestors` of any job finds every earlier step of its pipeline and its result: the bound of twelve never
      cuts the walk short, and no parent is missing or unfinished. */
  lemma AncestorsComplete(s: Store, id: Id)
    requires FlowInv(s) && id in s.jobs
    ensures var c := Chain(s.jobs, id);
      var all := AncestorsFrom(s.jobs, s.jobs[id].payload.parent, 12, map[]);
      && InFlowOrder(s.jobs, c) && all.Found?
      && (forall n :: 0 <= n < |c| - 1 ==>
            s.jobs[c[n]].kind in all.results && all.results[s.jobs[c[n]].kind] == s.jobs[c[n]].result)
      && (forall k :: k in all.results ==> exists n :: 0 <= n < |c| - 1 && s.jobs[c[n]].kind == k)
  {
    ChainShape(s.jobs, id);
    hide Linked, OneChild;
    var c := Chain(s.jobs, id);
    WalkUp(s.jobs, id, |c| - 1, 12, map[]);
    assert s.jobs[id].payload.parent == if |c| == 1 then None else Some(c[|c| - 2]);
  }

  /** What the handler of a claimed job came to. */
  datatype Outcome =
    | Answered(result: nat, uuid: Id)
    | ExecutorBusy(delay: real)
    | Raised(error: nat)
    | Crashed

  const STEP_FINISHED := 1
  const RETRY_DELAY := 30.0

  /** The n-th job on the way up from `parent`. */
  function Ancestor(jobs: map<Id, Job>, parent: Option<Id>, n: nat): Option<Id>
    decreases n
  {
    if parent.None? || n == 0 then parent
    else if parent.value in jobs then Ancestor(jobs, jobs[parent.value].payload.parent, n - 1)
    else None
  }

  /** Of several earlier steps of one kind, whatever the links between jobs, the result is that of the nearest. */
  lemma {:induction false} NearestWins(jobs: map<Id, Job>, parent: Option<Id>, steps: nat, found: Results, n: nat)
    requires AncestorsFrom(jobs, parent, steps, found).Found? && n < steps
    ensures forall k :: k in found ==>
      var all := AncestorsFrom(jobs, parent, steps, found).results; k in all && all[k] == found[k]
    ensures Ancestor(jobs, parent, n).Some? ==>
      var all := AncestorsFrom(jobs, parent, steps, found).results;
      && Ancestor(jobs, parent, n).value in jobs
      && var j := jobs[Ancestor(jobs, parent, n).value];
      && j.status.Succeeded? && j.kind in all
      && ((j.kind !in found && forall m :: 0 <= m < n ==> !IsKind(jobs, Ancestor(jobs, parent, m), j.kind)) ==> all[j.kind] == j.result)
    decreases steps
  {
    if parent.Some? {
      var j := jobs[parent.value];
      var found1 := if j.kind in found then found else found[j.kind := j.result];
      if steps > 1 {
        NearestWins(jobs, j.payload.parent, steps - 1, found1, if n == 0 then 0 else n - 1);
      }
      if n > 0 {
        assert Ancestor(jobs, parent, n) == Ancestor(jobs, j.payload.parent, n - 1);
        assert Ancestor(jobs, parent, 0) == parent;
        forall m | 0 <= m < n - 1
          ensures Ancestor(jobs, parent, m + 1) == Ancestor(jobs, j.payload.parent, m)
        {
        }
      }
    }
  }

  predicate IsKind(jobs: map<Id, Job>, id: Option<Id>, kind: Kind) {
    id.Some? && id.value in jobs && jobs[id.value].kind == kind
  }

  lemma RunSnoc(s: Store, cmds: seq<Cmd>, c: Cmd)
    ensures Run(s, cmds + [c]) == Apply(Run(s, cmds), c)
  {
  }

  /** Every command of the list is lawful where it is issued, under the configured switch. */
  ghost predicate LawfulSteps(s: Store, cmds: seq<Cmd>, auto: bool) {
    forall n :: 0 <= n < |cmds| ==> LawfulWith(Run(s, cmds[..n]), cmds[n], auto)
  }

  lemma LawfulSnoc(s: Store, cmds: seq<Cmd>, c: Cmd, auto: bool)
    requires LawfulSteps(s, cmds, auto) && LawfulWith(Run(s, cmds), c, auto)
    ensures LawfulSteps(s, cmds + [c], auto)
  {
    hide LawfulWith, Run;
    assert forall n :: 0 <= n < |cmds| ==> (cmds + [c])[..n] == cmds[..n];
    assert (cmds + [c])[..|cmds|] == cmds;
  }

  class HubRuntime {
    const store: HubStore
    const autoExecute: bool

    constructor (store: HubStore, autoExecute: bool)
      ensures this.store == store && this.autoExecute == autoExecute
    {
      this.store, this.autoExecute := store, autoExecute;
    }

    /** `_ancestors`. */
    method Ancestors(p: Payload) returns (lineage: Lineage)
      ensures lineage == AncestorsFrom(store.jobs, p.parent, 12, map[])
    {
      var found: Results := map[];
      var parent := p.parent;
      for n := 0 to 12
        invariant AncestorsFrom(store.jobs, parent, 12 - n, found) == AncestorsFrom(store.jobs, p.parent, 12, map[])
      {
        if parent.None? {
          break;
        }
        if parent.value !in store.jobs || !store.jobs[parent.value].status.Succeeded? {
          return ParentUnavailable;
        }
        var job := store.jobs[parent.value];
        if job.kind !in found {
          found := found[job.kind := job.result];
        }
        parent := job.payload.parent;
      }
      return Found(found);
    }

    /** The renewals of the lease while the handler works; they stop at the first refusal. */
    method KeepLease(id: Id, worker: Id, token: nat, lease: real, beats: seq<real>)
      returns (lost: bool, ghost cmds: seq<Cmd>)
      requires store.Valid()
      modifies store`jobs
      ensures store.Valid() && LawfulSteps(old(store.View()), cmds, autoExecute) && store.View() == Run(old(store.View()), cmds)
      ensures |cmds| <= |beats| && cmds == Renewals(id, worker, token, lease, beats[..|cmds|])
      ensures lost ==> |cmds| > 0 && store.View() == Run(old(store.View()), cmds[..|cmds| - 1])
      ensures !lost ==> |cmds| == |beats|
    {
      hide Inv, HeartbeatRow, Holds, LawfulWith, LawfulSteps, Run;
      ghost var s0 := store.View();
      lost, cmds := false, [];
      NoSteps(s0, autoExecute);
      for n := 0 to |beats|
        invariant store.Valid() && LawfulSteps(s0, cmds, autoExecute) && store.View() == Run(s0, cmds)
        invariant !lost && cmds == Renewals(id, worker, token, lease, beats[..n])
        invariant store.events == s0.events && store.cancelled == s0.cancelled && store.schedules == s0.schedules
      {
        ghost var was := store.View();
        ghost var c := CHeartbeat(id, worker, token, lease, beats[n]);
        var alive := store.Heartbeat(id, worker, token, lease, beats[n]);
        FreeStep(s0, cmds, c, autoExecute);
        assert beats[..n + 1] == beats[..n] + [beats[n]];
        RenewalsSnoc(id, worker, token, lease, beats[..n], beats[n]);
        if !alive {
          RefusedBeat(was, id, worker, token, lease, beats[n]);
          assert (cmds + [c])[..|cmds|] == cmds;
          cmds := cmds + [c];
          return true, cmds;
        }
        cmds := cmds + [c];
      }
      assert beats[..|beats|] == beats;
    }

    /** What the worker reports at the end of its turn, whatever others did to the store since its claim: it has only
        its own copy `j` of the job. An answer that the store refuses with an error counts as a failure. */
    method Report(worker: Id, id: Id, j: Job, outcome: Outcome, done: real) returns (ghost cmds: seq<Cmd>)
      requires store.Valid() && id in store.jobs && store.jobs[id].kind == j.kind && store.jobs[id].payload == j.payload
      modifies store`jobs, store`events
      ensures store.Valid() && LawfulSteps(old(store.View()), cmds, autoExecute) && store.View() == Run(old(store.View()), cmds)
      ensures Reported(worker, id, j, outcome, autoExecute, done, cmds)
    {
      hide Inv, Jobs.Complete, Jobs.Fail, Jobs.Defer, Holds, NextStep, LawfulWith, LawfulSteps, Run;
      ghost var s0 := store.View();
      cmds := [];
      NoSteps(s0, autoExecute);
      match outcome {
        case Answered(result, uuid) =>
          var next := NextStep(id, j.kind, j.payload, autoExecute);
          CompletionLawful(store.View(), id, worker, j.token, result, autoExecute, uuid, done);
          RunSnoc(s0, cmds, CComplete(id, worker, j.token, result, next, uuid, done));
          LawfulSnoc(s0, cmds, CComplete(id, worker, j.token, result, next, uuid, done), autoExecute);
          var accepted := store.Complete(id, worker, j.token, result, next, uuid, done);
          cmds := cmds + [CComplete(id, worker, j.token, result, next, uuid, done)];
          if accepted.Err? {
            var code := ErrorCode(accepted.error);
            var failed := store.Fail(id, worker, j.token, code, RETRY_DELAY, done);
            FreeStep(s0, cmds, CFail(id, worker, j.token, code, RETRY_DELAY, done), autoExecute);
            cmds := cmds + [CFail(id, worker, j.token, code, RETRY_DELAY, done)];
          } else {
            var refused := store.AddEvent(Some(id), STEP_FINISHED, done);
            FreeStep(s0, cmds, CEvent(Some(id), STEP_FINISHED, done), autoExecute);
            cmds := cmds + [CEvent(Some(id), STEP_FINISHED, done)];
          }
        case ExecutorBusy(delay) =>
          var deferred := store.Defer(id, worker, j.token, delay, done);
          FreeStep(s0, cmds, CDefer(id, worker, j.token, delay, done), autoExecute);
          cmds := cmds + [CDefer(id, worker, j.token, delay, done)];
        case Raised(error) =>
          var failed := store.Fail(id, worker, j.token, error, RETRY_DELAY, done);
          FreeStep(s0, cmds, CFail(id, worker, j.token, error, RETRY_DELAY, done), autoExecute);
          cmds := cmds + [CFail(id, worker, j.token, error, RETRY_DELAY, done)];
        case Crashed =>
      }
    }

    /** `run_once` when no other worker comes between: claim, renew the lease while handling, and report. */
    method RunOnce(
      worker: Id, kinds: Option<set<Kind>>, lease: real, beats: seq<real>, outcome: Outcome, claimed: real, done: real)
      returns (taken: Option<(Id, Job)>, ghost cmds: seq<Cmd>)
      requires store.Valid()
      modifies store`jobs, store`events
      ensures store.Valid()
      ensures LawfulSteps(old(store.View()), cmds, autoExecute) && store.View() == Run(old(store.View()), cmds)
      ensures |cmds| > 0 && cmds[0].CClaim? && (taken.None? ==> |cmds| == 1)
      ensures taken.Some? ==>
        var (id, j) := taken.value;
        exists n: nat ::
          && n <= |beats| && n < |cmds| && cmds[1..n + 1] == Renewals(id, worker, j.token, lease, beats[..n])
          && Reported(worker, id, j, outcome, autoExecute, done, cmds[n + 1..])
    {
      hide Inv, Jobs.Claim, Jobs.Expire, FirstOf, Holds, ListsExpired, NextStep, LawfulWith, LawfulSteps, Run, Reported;
      ghost var s0 := store.View();
      ghost var order;
      taken, order := store.Claim(worker, lease, kinds, claimed);
      ghost var first := [CClaim(worker, lease, kinds, order, claimed)];
      FirstStep(s0, worker, lease, kinds, order, claimed, autoExecute);
      if taken.None? {
        return taken, first;
      }
      var (id, j) := taken.value;
      ghost var s1 := store.View();
      ghost var renewals;
      var lost;
      lost, renewals := KeepLease(id, worker, j.token, lease, beats);
      RenewalsKeepJob(s1, id, worker, j.token, lease, beats[..|renewals|]);
      ghost var report := Report(worker, id, j, outcome, done);
      ThenSteps(s1, renewals, report, autoExecute);
      ThenSteps(s0, first, renewals + report, autoExecute);
      cmds := first + (renewals + report);
      ghost var n := |renewals|;
      assert cmds[1..n + 1] == renewals && cmds[n + 1..] == report;
    }
  }

  /** The heartbeats at the given times. */
  function Renewals(id: Id, worker: Id, token: nat, lease: real, beats: seq<real>): (cmds: seq<Cmd>)
    ensures |cmds| == |beats|
  {
    seq(|beats|, n requires 0 <= n < |beats| => CHeartbeat(id, worker, token, lease, beats[n]))
  }

  lemma RenewalsSnoc(id: Id, worker: Id, token: nat, lease: real, beats: seq<real>, t: real)
    ensures Renewals(id, worker, token, lease, beats + [t])
         == Renewals(id, worker, token, lease, beats) + [CHeartbeat(id, worker, token, lease, t)]
  {
  }

  lemma RefusedBeat(s: Store, id: Id, worker: Id, token: nat, lease: real, t: real)
    requires !Holds(s, id, worker, token, t)
    ensures HeartbeatRow(s, id, worker, token, lease, t) == s
  {
  }

  /** Renewing a lease keeps what the worker was asked to do. */
  lemma {:induction false} RenewalsKeepJob(s: Store, id: Id, worker: Id, token: nat, lease: real, beats: seq<real>)
    requires id in s.jobs
    ensures var s1 := Run(s, Renewals(id, worker, token, lease, beats));
      id in s1.jobs && s1.jobs[id].kind == s.jobs[id].kind && s1.jobs[id].payload == s.jobs[id].payload
  {
    if beats != [] {
      var front, t := beats[..|beats| - 1], beats[|beats| - 1];
      RenewalsKeepJob(s, id, worker, token, lease, front);
      RenewalsSnoc(id, worker, token, lease, front, t);
      assert front + [t] == beats;
      RunSnoc(s, Renewals(id, worker, token, lease, front), CHeartbeat(id, worker, token, lease, t));
    }
  }

  /** The commands that report an outcome. */
  predicate Reported(worker: Id, id: Id, j: Job, outcome: Outcome, auto: bool, done: real, cmds: seq<Cmd>) {
    match outcome
    case Answered(result, uuid) =>
      && |cmds| == 2
      && cmds[0] == CComplete(id, worker, j.token, result, NextStep(id, j.kind, j.payload, auto), uuid, done)
      && (cmds[1] == CEvent(Some(id), STEP_FINISHED, done)
          || (cmds[1].CFail? && cmds[1] == CFail(id, worker, j.token, cmds[1].error, 30.0, done)))
    case ExecutorBusy(delay) => cmds == [CDefer(id, worker, j.token, delay, done)]
    case Raised(error) => cmds == [CFail(id, worker, j.token, error, 30.0, done)]
    case Crashed => cmds == []
  }

  lemma NoSteps(s: Store, auto: bool)
    ensures LawfulSteps(s, [], auto) && Run(s, []) == s
  {
  }

  lemma {:induction false} ThenSteps(s: Store, a: seq<Cmd>, b: seq<Cmd>, auto: bool)
    requires LawfulSteps(s, a, auto) && LawfulSteps(Run(s, a), b, auto)
    ensures LawfulSteps(s, a + b, auto) && Run(s, a + b) == Run(Run(s, a), b)
    decreases |b|
  {
    hide LawfulWith, Apply;
    if b == [] {
      assert a + b == a;
    } else {
      var front, last := b[..|b| - 1], b[|b| - 1];
      assert forall n :: 0 <= n < |front| ==> front[..n] == b[..n];
      ThenSteps(s, a, front, auto);
      assert b[..|front|] == front && LawfulWith(Run(Run(s, a), front), last, auto);
      assert a + b == (a + front) + [last];
      LawfulSnoc(s, a + front, last, auto);
      RunSnoc(s, a + front, last);
    }
  }

  function ErrorCode(e: StoreError): nat {
    match e
    case Reserved => 1
    case KeyConflict => 2
    case RunCancelled => 3
    case NotFound => 4
    case NotDeadletter => 5
    case SelfFollowUp => 6
    case Collision => 7
  }

  lemma FirstStep(s: Store, worker: Id, lease: real, kinds: Option<set<Kind>>, order: seq<Id>, now: real,
    auto: bool)
    requires ListsExpired(s, order, now)
    ensures var c := CClaim(worker, lease, kinds, order, now);
      LawfulSteps(s, [c], auto) && Run(s, [c]) == Jobs.Claim(s, worker, lease, kinds, order, now)
  {
  }

  lemma FreeStep(s: Store, cmds: seq<Cmd>, c: Cmd, auto: bool)
    requires LawfulSteps(s, cmds, auto) && (c.CFail? || c.CDefer? || c.CEvent? || c.CHeartbeat?)
    ensures LawfulSteps(s, cmds + [c], auto) && Run(s, cmds + [c]) == Apply(Run(s, cmds), c)
  {
    assert LawfulWith(Run(s, cmds), c, auto);
    RunSnoc(s, cmds, c);
    LawfulSnoc(s, cmds, c, auto);
  }

  lemma CompletionLawful(
    s: Store, id: Id, worker: Id, token: nat, result: nat, auto: bool, uuid: Id, now: real)
    requires id in s.jobs
    ensures var next := NextStep(id, s.jobs[id].kind, s.jobs[id].payload, auto);
      LawfulWith(s, CComplete(id, worker, token, result, next, uuid, now), auto)
  {
  }
}
