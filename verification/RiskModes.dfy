/** What a risk mode stops, over whole runs. */
module RiskModes {
  import opened Core
  import opened Ledger
  import opened Execution
  import opened AtMostOnce

  /** What the operator's modes stop: purchases under both, and under the kill switch sales as well, unless protective
      exits are allowed. */
  predicate Stops(limits: Limits, mode: RiskMode, side: Side) {
    || (side.Buy? && (mode.ReduceOnly? || mode.Frozen?))
    || (side.Sell? && mode.Frozen? && !limits.protectiveExit)
  }

  /** Every check of this step that reads the risk mode reads one that stops the side: the reservation, the
      announcement, and the guard of the send. */
  predicate Checked(limits: Limits, step: Step, side: Side) {
    step.DoReserve? || step.DoMark? || step.Send? ==> Stops(limits, step.mode, side)
  }

  /** What a blocked side cannot gain: no order of it is added, and none is sent. */
  ghost predicate NothingNew(s: Sys, s1: Sys, side: Side) {
    && (forall k :: k in s.book.orders ==>
          k in s1.book.orders && s1.book.orders[k].fingerprint == s.book.orders[k].fingerprint)
    && (forall k :: k in s1.book.orders && k !in s.book.orders ==> s1.book.orders[k].fingerprint.side != side)
    && (forall k :: Sends(s1, k) != Sends(s, k) ==> k in s1.book.orders && s1.book.orders[k].fingerprint.side != side)
  }

  lemma BlockedReserve(s: Sys, limits: Limits, step: Step, side: Side)
    requires step.DoReserve? && step.a in s.actors && s.actors[step.a].Ready?
    requires Stops(limits, step.mode, side)
    ensures NothingNew(s, ReserveStep(s, limits, step), side)
  {
    ReserveSame(s, limits, step);
    if s.actors[step.a].intent.side == side {
      BlockedRisk(s.book, limits, step, s.actors[step.a].intent, side);
    }
    hide PaperSubmit, Reserve, Finish, Existing;
    assert ReserveStep(s, limits, step).sends == s.sends;
    hide ReserveStep;
  }

  /** A blocked intent is refused before anything is written. */
  lemma BlockedRisk(b: Book, limits: Limits, step: Step, i: Intent, side: Side)
    requires step.DoReserve? && Stops(limits, step.mode, side) && i.side == side
    ensures Reserve(b, limits, step.mode, i, step.remote, step.guard, step.now).Err?
    ensures i.key !in b.orders ==> PaperSubmit(b, limits, step.mode, i, step.quote, step.guard, step.now).Err?
  {
    hide Finish, HasOpenOrder, DailyBuys, Exposure, AdmissibleQuote, PaperFill, ValidIntent;
  }

  lemma BlockedSend(s: Sys, limits: Limits, step: Step, side: Side)
    requires Stages(s) && Checked(limits, step, side) && step.Send?
    ensures NothingNew(s, Next(s, limits, step), side)
  {
    if step.a in s.actors && s.actors[step.a].Marked? {
      assert Stage(s.book, s.intents, s.sends, s.actors[step.a]);
      hide Stages;
    }
  }

  lemma BlockedStep(s: Sys, limits: Limits, step: Step, side: Side)
    requires Stages(s) && Checked(limits, step, side)
    ensures NothingNew(s, Next(s, limits, step), side)
  {
    if step.Send? {
      BlockedSend(s, limits, step, side);
    } else if step.DoReserve? {
      hide Stages, ReserveStep;
      if step.a in s.actors && s.actors[step.a].Ready? {
        BlockedReserve(s, limits, step, side);
      }
    } else {
      hide Stages;
      StepSame(s, limits, step);
      QuietSends(s, limits, step);
      hide Next;
    }
  }

  lemma QuietSends(s: Sys, limits: Limits, step: Step)
    requires !step.Send? && !step.DoReserve?
    ensures Next(s, limits, step).sends == s.sends
  {
    hide Mark, Finish, SettleBlocked, SettleUnknown, ReconcileOrder, ValidIntent;
  }

  /** From the moment on at which every check reads a mode that blocks a side, no order of that side is added and none
      is sent: buys under reduce-only, and both sides under the kill switch, where sells may be exempt as protective
      exits. */
  lemma {:induction false} BlockedSideGainsNothing(limits: Limits, steps: seq<Step>, m: nat, side: Side)
    requires m <= |steps|
    requires forall n :: m <= n < |steps| ==> Checked(limits, steps[n], side)
    ensures NothingNew(Run(limits, steps[..m]), Run(limits, steps), side)
    decreases |steps|
  {
    hide Next, Stages, Checked, NothingNew, Run;
    if m == |steps| {
      assert steps[..m] == steps;
      NothingYet(Run(limits, steps), side);
    } else {
      var n := |steps| - 1;
      var front := steps[..n];
      assert forall k :: m <= k < n ==> front[..k] == steps[..k];
      BlockedSideGainsNothing(limits, front, m, side);
      assert front[..m] == steps[..m];
      RunStages(limits, front);
      assert Checked(limits, steps[n], side);
      BlockedStep(Run(limits, front), limits, steps[n], side);
      RunLast(limits, steps);
      StillNothing(Run(limits, steps[..m]), Run(limits, front), Run(limits, steps), side);
    }
  }

  lemma RunLast(limits: Limits, steps: seq<Step>)
    requires steps != []
    ensures Run(limits, steps) == Next(Run(limits, steps[..|steps| - 1]), limits, steps[|steps| - 1])
  {
  }

  lemma NothingYet(s: Sys, side: Side)
    ensures NothingNew(s, s, side)
  {
  }

  lemma StillNothing(s: Sys, s1: Sys, s2: Sys, side: Side)
    requires NothingNew(s, s1, side) && NothingNew(s1, s2, side)
    ensures NothingNew(s, s2, side)
  {
  }
}
