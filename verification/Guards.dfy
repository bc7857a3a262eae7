/** What a lease, the gates and an unclear answer decide in a run of the protocol. */
module Guards {
  import opened Core
  import opened Ledger
  import opened LedgerLaws
  import opened Execution
  import opened AtMostOnce
  import opened RiskModes
  import opened Admission
  import opened Outcomes

  // The gates of a workflow

  /** A worker with the lease began to execute the workflow of this key. */
  ghost predicate Begun(steps: seq<Step>, k: OrderKey) {
    exists n :: 0 <= n < |steps| && steps[n].Execute? && steps[n].guard && PipelineKey(steps[n].run) == k
  }

  /** The gates of this key were passed with this intent. */
  ghost predicate Passed(steps: seq<Step>, k: OrderKey, i: Intent) {
    i.key == k && exists n :: 0 <= n < |steps| && steps[n].ReadIntent? && steps[n].gate && steps[n].candidate == i
  }

  ghost predicate Gated(steps: seq<Step>, s: Sys) {
    && (forall k :: k in s.intents ==> Begun(steps, k) && Passed(steps, k, s.intents[k]))
    && (forall a :: a in s.actors && s.actors[a].Checked? ==> Begun(steps, s.actors[a].key))
    && (forall a :: a in s.actors && s.actors[a].Fresh? ==>
          Begun(steps, s.actors[a].key) && Passed(steps, s.actors[a].key, s.actors[a].candidate))
  }

  lemma LongerRun(steps: seq<Step>, step: Step)
    ensures forall k :: Begun(steps, k) ==> Begun(steps + [step], k)
    ensures forall k, i :: Passed(steps, k, i) ==> Passed(steps + [step], k, i)
  {
    var more := steps + [step];
    forall k | Begun(steps, k)
      ensures Begun(more, k)
    {
      var n :| 0 <= n < |steps| && steps[n].Execute? && steps[n].guard && PipelineKey(steps[n].run) == k;
      assert more[n] == steps[n];
    }
    forall k, i | Passed(steps, k, i)
      ensures Passed(more, k, i)
    {
      var n :| 0 <= n < |steps| && steps[n].ReadIntent? && steps[n].gate && steps[n].candidate == i;
      assert more[n] == steps[n];
    }
  }

  lemma LastStep(steps: seq<Step>, step: Step)
    ensures step.Execute? && step.guard ==> Begun(steps + [step], PipelineKey(step.run))
    ensures step.ReadIntent? && step.gate ==> Passed(steps + [step], step.candidate.key, step.candidate)
  {
    var more := steps + [step];
    assert more[|steps|] == step;
  }

  /** Steps that store no intent and let nobody pass a gate. */
  lemma QuietGated(steps: seq<Step>, s: Sys, limits: Limits, step: Step)
    requires Gated(steps, s) && !step.Execute? && !step.ReadIntent? && !step.Persist?
    ensures Gated(steps, Next(s, limits, step))
  {
    hide Reserve, PaperSubmit, Mark, SettleStep, Begun, Passed, BindExecution, ValidIntent;
    if step.Settle? && step.a in s.actors {
      SettleGated(steps, s, step.a);
    }
  }

  lemma SettleGated(steps: seq<Step>, s: Sys, a: nat)
    requires Gated(steps, s) && a in s.actors
    ensures Gated(steps, SettleStep(s, a))
  {
    hide Finish, SettleBlocked, SettleUnknown, ReconcileOrder, Begun, Passed;
  }

  lemma StepGated(steps: seq<Step>, s: Sys, limits: Limits, step: Step)
    requires Gated(steps, s)
    ensures Gated(steps + [step], Next(s, limits, step))
  {
    LongerRun(steps, step);
    LastStep(steps, step);
    hide Begun, Passed;
    if step.Execute? || step.ReadIntent? || step.Persist? {
      hide ValidIntent;
    } else {
      assert Gated(steps + [step], s);
      QuietGated(steps + [step], s, limits, step);
    }
  }

  lemma {:induction false} RunGated(limits: Limits, steps: seq<Step>)
    ensures Gated(steps, Run(limits, steps))
  {
    hide Next;
    if steps == [] {
      hide Begun, Passed;
    } else {
      var front, step := steps[..|steps| - 1], steps[|steps| - 1];
      RunGated(limits, front);
      assert front + [step] == steps;
      StepGated(front, Run(limits, front), limits, step);
    }
  }

  /** Whatever a workflow ordered was built by a worker that began with the lease and passed the gates with exactly that
      order: over every run, with any crashes and retries. */
  lemma WorkflowOrderPassedTheGates(limits: Limits, steps: seq<Step>, k: OrderKey)
    requires Uncalled(steps, k) && k in Run(limits, steps).book.orders
    ensures Begun(steps, k) && Passed(steps, k, Run(limits, steps).book.orders[k].fingerprint)
  {
    assert steps[..|steps|] == steps;
    RunGated(limits, steps);
    ExecutedAtMostOnce(limits, steps, |steps|, k);
    hide Run, Begun, Passed;
  }

  // The lease

  /** A step whose guard finds the lease gone adds no order, stores no intent and sends nothing. */
  lemma LeaselessGainsNothing(s: Sys, limits: Limits, step: Step)
    requires (step.Execute? || step.DoReserve? || step.Send?) && !step.guard
    ensures var s1 := Next(s, limits, step);
      s1.book == s.book && s1.intents == s.intents && s1.sends == s.sends
  {
    hide Risk, AdmissibleQuote, ValidIntent, Finish, RiskModeError;
  }

  // An unclear answer

  /** The row is as before when it was settled, and of unknown outcome otherwise; no money and no inventory moved. */
  predicate LeftUnknown(b: Book, b1: Book, k: OrderKey) {
    && k in b.orders && k in b1.orders && b1.accounts == b.accounts && b1.positions == b.positions
    && b1.orders == b.orders[k := b1.orders[k]]
    && if Terminal(b.orders[k].status) then b1.orders[k] == b.orders[k] else b1.orders[k].status == Unknown
  }

  lemma FailedLeavesUnknown(s: Sys, limits: Limits, a: nat, k: OrderKey)
    requires Inv(s.book) && a in s.actors && s.actors[a] == Failed(k) && k in s.book.orders
    ensures var s1 := Next(s, limits, Settle(a));
      LeftUnknown(s.book, s1.book, k) && s1.sends == s.sends && s1.intents == s.intents && s1.actors == s.actors - {a}
  {
    hide Inv, SettleUnknown, ReserveStep, MarkStep, SendStep, BindExecution, ValidIntent, Finish, SettleBlocked, ReconcileOrder;
    UnknownExactly(s.book, k);
  }

  /** A request that was not posted, or posted without an answer, leaves the order unknown. */
  lemma NoAnswerLeavesUnknown(s: Sys, limits: Limits, a: nat, mode: RiskMode, posted: bool)
    requires SysInv(s) && a in s.actors && s.actors[a].Marked?
    requires !Stops(limits, mode, s.actors[a].record.intent.side)
    ensures var k := s.actors[a].record.intent.key;
      var s1 := Next(Next(s, limits, Send(a, true, mode, posted, None)), limits, Settle(a));
      && LeftUnknown(s.book, s1.book, k) && a !in s1.actors
      && Sends(s1, k) == Sends(s, k) + if posted then 1 else 0
  {
    var k := s.actors[a].record.intent.key;
    assert ActorOk(s.book, s.intents, s.sends, s.actors[a]);
    hide Inv, OneOpen, IntentsOk, SendsOk, OneOwner;
    var s0 := Next(s, limits, Send(a, true, mode, posted, None));
    assert s0.actors[a] == Failed(k) && s0.book == s.book;
    FailedLeavesUnknown(s0, limits, a, k);
  }

  /** An answer that the ledger does not accept leaves the order unknown. */
  lemma RefusedAnswerLeavesUnknown(s: Sys, limits: Limits, a: nat)
    requires SysInv(s) && a in s.actors && s.actors[a].Answered?
    requires var r, f := s.actors[a].record, s.actors[a].fill;
      && !s.book.orders[r.intent.key].data.accounted
      && !(Acceptable(r.intent, f) && (Terminal(f.status.value) ==> Bearable(s.book, r.intent, f)))
    ensures var k := s.actors[a].record.intent.key;
      var s1 := Next(Next(s, limits, Settle(a)), limits, Settle(a));
      LeftUnknown(s.book, s1.book, k) && a !in s1.actors && s1.sends == s.sends
  {
    hide ReserveStep, MarkStep, SendStep, BindExecution, ValidIntent, Finish, SettleBlocked, ReconcileOrder, SettleUnknown;
    hide Acceptable, Bearable, OneOpen, IntentsOk, SendsOk, OneOwner, LeftUnknown;
    var r, f := s.actors[a].record, s.actors[a].fill;
    assert ActorOk(s.book, s.intents, s.sends, s.actors[a]);
    assert Pending(s.book, r) && Solvent(s.book);
    AcceptedExactly(s.book, r, f);
    hide Inv, Solvent;
    FailedLeavesUnknown(At(s, a, Failed(r.intent.key)), limits, a, r.intent.key);
  }
}
