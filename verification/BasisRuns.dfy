/** Over whole runs: a holding is empty exactly when its cost is zero, as long as base fees are smaller than fills. */
module BasisRuns {
  import opened Core
  import opened Sums
  import opened Ledger
  import opened LedgerLaws
  import opened PaperLaws
  import opened Execution
  import opened AtMostOnce
  import opened ExactlyOnce
  import opened OrdersGoThrough

  /** No accounted purchase lost its whole fill to a base fee. */
  predicate SmallFee(row: Row) {
    row.data.accounted && row.data.intent.side.Buy? && row.data.filledQty != 0.0 ==> row.data.feeBase < row.data.filledQty
  }

  predicate SmallFees(b: Book) {
    forall k :: k in b.orders ==> SmallFee(b.orders[k])
  }

  lemma EarlierFees(b: Book, b1: Book)
    requires Preserves(b, b1) && SmallFees(b1)
    ensures SmallFees(b)
  {
  }

  // One transaction

  lemma FinishBasis(b: Book, r: Record, f: Fill)
    requires Inv(b) && Pending(b, r) && Finish(b, r, f).Ok? && BasisMatched(b) && SmallFees(Finish(b, r, f).value.0)
    ensures BasisMatched(Finish(b, r, f).value.0)
  {
    hide Sum, Conserved, CashMatchesHistory, QuantityMatchesHistory, Account;
    if !Open(f.status.value) {
      FinishTerminal(b, r, f);
      BasisMatchedExactly(b, r, f);
      assert SmallFee(Finish(b, r, f).value.0.orders[r.intent.key]);
      hide BasisMatched, Tables, Solvent, SmallFees;
    }
  }

  lemma SettleBasis(s: Sys, a: nat)
    requires SysInv(s) && a in s.actors && BasisMatched(s.book) && SmallFees(SettleStep(s, a).book)
    ensures BasisMatched(SettleStep(s, a).book)
  {
    hide Inv, Finish, BasisMatched, SmallFees, OneOpen, OneOwner, IntentsOk, SendsOk;
    assert ActorOk(s.book, s.intents, s.sends, s.actors[a]);
    match s.actors[a]
    case Answered(r, f) =>
      if Finish(s.book, r, f).Ok? {
        AnyFinishBasis(s.book, r, f);
      }
    case Blocked(k, why) =>
      RowsOk(s.book);
      var r := s.book.orders[k].data.(rejection := Some(why));
      if Finish(s.book, r, REJECTED_FILL).Ok? {
        AnyFinishBasis(s.book, r, REJECTED_FILL);
      }
    case Failed(k) => SavedBasis(s.book, SettleUnknown(s.book, k).0);
    case Looked(k, answer) =>
      RowsOk(s.book);
      var r := s.book.orders[k].data;
      if answer.Some? && Finish(s.book, r, answer.value).Ok? && !r.accounted {
        AnyFinishBasis(s.book, r, answer.value);
      }
      if s.book.positions == SettleStep(s, a).book.positions {
        SavedBasis(s.book, SettleStep(s, a).book);
      }
    case _ =>
  }

  lemma SavedBasis(b: Book, b1: Book)
    ensures BasisMatched(b) && b1.positions == b.positions ==> BasisMatched(b1)
  {
  }

  /** Also when the row was accounted meanwhile, in which case nothing happens. */
  lemma AnyFinishBasis(b: Book, r: Record, f: Fill)
    requires Inv(b) && r.intent.key in b.orders && b.orders[r.intent.key].fingerprint == r.intent && !r.accounted
    requires Finish(b, r, f).Ok? && BasisMatched(b) && SmallFees(Finish(b, r, f).value.0)
    ensures BasisMatched(Finish(b, r, f).value.0)
  {
    if b.orders[r.intent.key].data.accounted {
      hide Inv, BasisMatched, SmallFees;
    } else {
      hide Inv, BasisMatched, SmallFees, Finish;
      FinishBasis(b, r, f);
    }
  }

  lemma MarkBasis(s: Sys, limits: Limits, a: nat, mode: RiskMode)
    requires SysInv(s) && a in s.actors && s.actors[a].Reserved?
    requires BasisMatched(s.book) && SmallFees(MarkStep(s, limits, a, mode).book)
    ensures BasisMatched(MarkStep(s, limits, a, mode).book)
  {
    hide Inv, Finish, BasisMatched, SmallFees, OneOpen, OneOwner, IntentsOk, SendsOk;
    assert ActorOk(s.book, s.intents, s.sends, s.actors[a]);
    var r := s.actors[a].record;
    var blocked := RiskModeError(mode, limits.protectiveExit, r.intent.side);
    if blocked.Some? {
      if Finish(s.book, r.(rejection := blocked), REJECTED_FILL).Ok? {
        AnyFinishBasis(s.book, r.(rejection := blocked), REJECTED_FILL);
      }
    } else {
      SavedBasis(s.book, MarkStep(s, limits, a, mode).book);
    }
  }

  lemma ReserveBasis(s: Sys, limits: Limits, step: Step)
    requires SysInv(s) && step.DoReserve? && step.a in s.actors && s.actors[step.a].Ready?
    requires BasisMatched(s.book) && SmallFees(ReserveStep(s, limits, step).book)
    ensures BasisMatched(ReserveStep(s, limits, step).book)
  {
    hide Inv, Finish, BasisMatched, SmallFees, OneOpen, OneOwner, IntentsOk, SendsOk, Reserve, AdmissibleQuote, PaperFill,
      HasOpenOrder, ValidIntent;
    var i := s.actors[step.a].intent;
    assert ActorOk(s.book, s.intents, s.sends, s.actors[step.a]);
    if i.key !in s.book.orders {
      var remote := if limits.paper then None else step.remote;
      if Reserve(s.book, limits, step.mode, i, remote, step.guard, step.now).Ok? {
        ReserveFacts(s.book, limits, step.mode, i, remote, step.guard, step.now);
        var b0 := Reserve(s.book, limits, step.mode, i, remote, step.guard, step.now).value;
        SavedBasis(s.book, b0);
        if limits.paper && Finish(b0, NewRecord(i), PaperFill(i, step.quote)).Ok?
           && SmallFees(Finish(b0, NewRecord(i), PaperFill(i, step.quote)).value.0) {
          AnyFinishBasis(b0, NewRecord(i), PaperFill(i, step.quote));
        }
      }
    }
  }

  lemma StepBasis(s: Sys, limits: Limits, step: Step)
    requires SysInv(s) && BasisMatched(s.book) && SmallFees(Next(s, limits, step).book)
    ensures BasisMatched(Next(s, limits, step).book)
  {
    hide SysInv, SmallFees, BasisMatched, ReserveStep, MarkStep, SettleStep;
    match step
    case DoReserve(a, _, _, _, _, _) => if a in s.actors && s.actors[a].Ready? { ReserveBasis(s, limits, step); }
    case DoMark(a, mode) => if a in s.actors && s.actors[a].Reserved? { MarkBasis(s, limits, a, mode); }
    case Settle(a) => if a in s.actors { SettleBasis(s, a); }
    case _ => SavedBasis(s.book, Next(s, limits, step).book);
  }

  // Every run

  /** In every state of a run without a purchase whose base fee took its whole fill, quantity is zero exactly when
      cost is zero, in every slot and after any sequence of results. */
  lemma {:induction false} EmptyExactlyWhenCostless(limits: Limits, steps: seq<Step>)
    requires HonestRun(limits, steps) && SmallFees(Run(limits, steps).book)
    ensures BasisMatched(Run(limits, steps).book)
  {
    hide Next, SmallFees, SysInv, Honest;
    if steps == [] {
      NothingHeld();
    } else {
      var front, step := steps[..|steps| - 1], steps[|steps| - 1];
      HonestPrefix(limits, steps, |front|);
      RunInv(limits, front);
      assert Honest(Run(limits, steps[..|front|]), step);
      StepInv(Run(limits, front), limits, step);
      EarlierFees(Run(limits, front).book, Run(limits, steps).book);
      EmptyExactlyWhenCostless(limits, front);
      StepBasis(Run(limits, front), limits, step);
    }
  }

  lemma NothingHeld()
    ensures BasisMatched(EmptyBook())
  {
  }

  // From what the exchange reports

  predicate SmallFill(f: Fill) {
    f.filledQty != 0.0 ==> f.feeBase < f.filledQty
  }

  /** Every fill that the exchange reports in this step leaves something of what was bought. */
  predicate SmallStep(step: Step) {
    && (step.Send? && step.answer.Some? ==> SmallFill(step.answer.value))
    && (step.Lookup? && step.found.Some? ==> SmallFill(step.found.value))
  }

  predicate HoldsSmall(actor: Actor) {
    && (actor.Answered? ==> SmallFill(actor.fill))
    && (actor.Looked? && actor.answer.Some? ==> SmallFill(actor.answer.value))
  }

  predicate AllSmall(s: Sys) {
    SmallFees(s.book) && forall a :: a in s.actors ==> HoldsSmall(s.actors[a])
  }

  lemma FinishSmall(b: Book, r: Record, f: Fill)
    requires Finish(b, r, f).Ok? && SmallFees(b) && !r.accounted && SmallFill(f)
    ensures SmallFees(Finish(b, r, f).value.0)
  {
    hide FillError, Account;
  }

  lemma SaveSmall(b: Book, r: Record)
    requires SmallFees(b) && !r.accounted
    ensures SmallFees(Save(b, r))
  {
  }

  lemma SettleSmall(s: Sys, a: nat)
    requires SysInv(s) && a in s.actors && AllSmall(s)
    ensures SmallFees(SettleStep(s, a).book)
  {
    hide Inv, Finish, SmallFees, OneOpen, OneOwner, IntentsOk, SendsOk, SmallFill, Save;
    assert ActorOk(s.book, s.intents, s.sends, s.actors[a]) && HoldsSmall(s.actors[a]);
    assert SmallFill(REJECTED_FILL) by { RejectionIsSmall(); }
    match s.actors[a]
    case Answered(r, f) => if Finish(s.book, r, f).Ok? { FinishSmall(s.book, r, f); }
    case Blocked(k, why) =>
      var r := s.book.orders[k].data.(rejection := Some(why));
      if !r.accounted && Finish(s.book, r, REJECTED_FILL).Ok? {
        FinishSmall(s.book, r, REJECTED_FILL);
      }
    case Failed(k) =>
      var r := s.book.orders[k].data;
      if !r.accounted {
        SaveSmall(s.book, r.(status := Unknown, error := Some(OutcomeUnknown)));
      }
    case Looked(k, answer) =>
      var r := s.book.orders[k].data;
      if !r.accounted {
        SaveSmall(s.book, r.(status := Unknown, error := Some(NotConfirmed)));
        SaveSmall(s.book, r.(status := Unknown));
        if answer.Some? && Finish(s.book, r, answer.value).Ok? {
          FinishSmall(s.book, r, answer.value);
        }
      }
    case _ =>
  }

  lemma RejectionIsSmall()
    ensures SmallFill(REJECTED_FILL)
  {
  }

  lemma MarkSmall(s: Sys, limits: Limits, a: nat, mode: RiskMode)
    requires SysInv(s) && a in s.actors && s.actors[a].Reserved? && SmallFees(s.book)
    ensures SmallFees(MarkStep(s, limits, a, mode).book)
  {
    hide Inv, Finish, SmallFees, OneOpen, OneOwner, IntentsOk, SendsOk, Save;
    assert ActorOk(s.book, s.intents, s.sends, s.actors[a]);
    var r := s.actors[a].record;
    var blocked := RiskModeError(mode, limits.protectiveExit, r.intent.side);
    if blocked.Some? && Finish(s.book, r.(rejection := blocked), REJECTED_FILL).Ok? {
      RejectionIsSmall();
      FinishSmall(s.book, r.(rejection := blocked), REJECTED_FILL);
    }
    SaveSmall(s.book, r.(status := Submitting));
  }

  lemma InsertSmall(b: Book, b1: Book, i: Intent, now: real)
    requires SmallFees(b) && b1.orders == Insert(b, i, now).orders
    ensures SmallFees(b1)
  {
  }

  lemma PaperFillIsSmall(i: Intent, q: Quote)
    requires ValidIntent(i) && AdmissibleQuote(q, i)
    ensures SmallFill(PaperFill(i, q))
  {
    PaperFillIsClean(i, q);
    hide AdmissibleQuote, FillError;
  }

  lemma ReserveSmall(s: Sys, limits: Limits, step: Step)
    requires SysInv(s) && step.DoReserve? && step.a in s.actors && s.actors[step.a].Ready? && SmallFees(s.book)
    ensures SmallFees(ReserveStep(s, limits, step).book)
  {
    hide Inv, Finish, SmallFees, OneOpen, OneOwner, IntentsOk, SendsOk, Reserve, AdmissibleQuote, PaperFill, SmallFill,
      HasOpenOrder, ValidIntent, Insert;
    var i := s.actors[step.a].intent;
    assert ActorOk(s.book, s.intents, s.sends, s.actors[step.a]);
    if i.key !in s.book.orders {
      var remote := if limits.paper then None else step.remote;
      if Reserve(s.book, limits, step.mode, i, remote, step.guard, step.now).Ok? {
        var b0 := Reserve(s.book, limits, step.mode, i, remote, step.guard, step.now).value;
        ReservedOrders(s.book, limits, step.mode, i, remote, step.guard, step.now);
        InsertSmall(s.book, b0, i, step.now);
        if limits.paper && AdmissibleQuote(step.quote, i) && Finish(b0, NewRecord(i), PaperFill(i, step.quote)).Ok? {
          PaperFillIsSmall(i, step.quote);
          FinishSmall(b0, NewRecord(i), PaperFill(i, step.quote));
        }
      }
    }
  }

  lemma ReservedOrders(
    b: Book, limits: Limits, mode: RiskMode, i: Intent, remote: Option<Balances>, guard: bool, now: real)
    requires Reserve(b, limits, mode, i, remote, guard, now).Ok?
    ensures Reserve(b, limits, mode, i, remote, guard, now).value.orders == Insert(b, i, now).orders
  {
    hide HasOpenOrder, DailyBuys, Exposure, Reservation;
  }

  /** A transaction leaves the other actors alone and gives nobody a fill. */
  predicate NoNewFills(s: Sys, s1: Sys) {
    forall c :: c in s1.actors ==>
      (c in s.actors && s1.actors[c] == s.actors[c]) || (!s1.actors[c].Answered? && !s1.actors[c].Looked?)
  }

  lemma SettleGivesNone(s: Sys, a: nat)
    requires a in s.actors
    ensures NoNewFills(s, SettleStep(s, a))
  {
    hide Finish, SettleBlocked, SettleUnknown, ReconcileOrder;
  }

  lemma MarkGivesNone(s: Sys, limits: Limits, a: nat, mode: RiskMode)
    requires a in s.actors && s.actors[a].Reserved?
    ensures NoNewFills(s, MarkStep(s, limits, a, mode))
  {
    hide Mark;
  }

  lemma ReserveGivesNone(s: Sys, limits: Limits, step: Step)
    requires step.DoReserve? && step.a in s.actors && s.actors[step.a].Ready?
    ensures NoNewFills(s, ReserveStep(s, limits, step))
  {
    hide Existing, Reserve, PaperSubmit;
  }

  predicate HandsSmall(s: Sys) {
    forall a :: a in s.actors ==> HoldsSmall(s.actors[a])
  }

  lemma KeepsSmall(s: Sys, s1: Sys)
    requires HandsSmall(s) && NoNewFills(s, s1)
    ensures HandsSmall(s1)
  {
  }

  /** The steps that are no ledger transaction: a report is kept as it came. */
  lemma ReportedSmall(s: Sys, limits: Limits, step: Step)
    requires HandsSmall(s) && SmallStep(step) && !step.DoReserve? && !step.DoMark? && !step.Settle?
    ensures HandsSmall(Next(s, limits, step))
  {
    hide SmallFill, ValidIntent, BindExecution;
  }

  lemma StepSmall(s: Sys, limits: Limits, step: Step)
    requires SysInv(s) && AllSmall(s) && SmallStep(step)
    ensures AllSmall(Next(s, limits, step))
  {
    StepSmallFees(s, limits, step);
    assert HandsSmall(s);
    hide SysInv, SmallFees, ReserveStep, MarkStep, SettleStep, HoldsSmall, NoNewFills, SmallStep;
    if step.DoReserve? || step.DoMark? || step.Settle? {
      TransactionGivesNone(s, limits, step);
      KeepsSmall(s, Next(s, limits, step));
    } else {
      ReportedSmall(s, limits, step);
    }
    hide Next;
  }

  lemma TransactionGivesNone(s: Sys, limits: Limits, step: Step)
    requires step.DoReserve? || step.DoMark? || step.Settle?
    ensures NoNewFills(s, Next(s, limits, step))
  {
    hide ReserveStep, MarkStep, SettleStep;
    match step
    case DoReserve(a, _, _, _, _, _) => if a in s.actors && s.actors[a].Ready? { ReserveGivesNone(s, limits, step); }
    case DoMark(a, mode) => if a in s.actors && s.actors[a].Reserved? { MarkGivesNone(s, limits, a, mode); }
    case Settle(a) => if a in s.actors { SettleGivesNone(s, a); }
  }

  lemma StepSmallFees(s: Sys, limits: Limits, step: Step)
    requires SysInv(s) && AllSmall(s)
    ensures SmallFees(Next(s, limits, step).book)
  {
    hide SysInv, ReserveStep, MarkStep, SettleStep;
    match step
    case DoReserve(a, _, _, _, _, _) => if a in s.actors && s.actors[a].Ready? { ReserveSmall(s, limits, step); }
    case DoMark(a, mode) => if a in s.actors && s.actors[a].Reserved? { MarkSmall(s, limits, a, mode); }
    case Settle(a) => if a in s.actors { SettleSmall(s, a); }
    case _ =>
  }

  lemma {:induction false} RunSmall(limits: Limits, steps: seq<Step>)
    requires HonestRun(limits, steps) && forall n :: 0 <= n < |steps| ==> SmallStep(steps[n])
    ensures AllSmall(Run(limits, steps))
  {
    hide Next, SysInv, Honest, SmallStep;
    if steps != [] {
      var front := steps[..|steps| - 1];
      HonestPrefix(limits, steps, |front|);
      RunSmall(limits, front);
      RunInv(limits, front);
      hide AllSmall;
      StepSmall(Run(limits, front), limits, steps[|steps| - 1]);
    }
  }

  /** As long as the exchange reports base fees smaller than fills, quantity is zero exactly when cost is zero after
      any sequence of BUY, SELL, partial, expired and rejected results, however they interleave. */
  lemma SmallFeesKeepBasis(limits: Limits, steps: seq<Step>)
    requires HonestRun(limits, steps) && forall n :: 0 <= n < |steps| ==> SmallStep(steps[n])
    ensures BasisMatched(Run(limits, steps).book)
  {
    RunSmall(limits, steps);
    EmptyExactlyWhenCostless(limits, steps);
  }

  // A fee that takes the whole fill

  function FeeFill(i: Intent): Fill {
    WholeFill(i).(feeBase := i.quantity)
  }

  lemma FeeFillAccepted(limits: Limits, i: Intent, funding: real, now: real, r: Record)
    requires Affordable(limits, i, funding) && r.intent == i && !r.accounted
    ensures var b := Save(Insert(Opened(limits, i, funding), i, now), r);
      && Finish(b, r, FeeFill(i)).Ok?
      && PositionAt(Finish(b, r, FeeFill(i)).value.0, i.slot) == Position(0.0, Notional(i.quantity, i.limit), 0.0)
      && i.slot in Finish(b, r, FeeFill(i)).value.0.positions && Notional(i.quantity, i.limit) > 0.0
  {
    var f := FeeFill(i);
    assert f.quoteQty <= Reservation(i) by { MulSign(i.quantity, i.limit); FeeNonNegative(i); }
    MulSign(i.quantity, i.limit);
    assert f.quoteQty > 0.0;
    hide Notional, Reservation;
    assert FillError(i, f).None?;
  }

  /** Without that condition the property fails: for every affordable purchase there is a run in which the exchange
      reports it filled with a base fee of the whole fill, and which ends with a cost and no holding. */
  lemma WholeFeeLeavesCost(limits: Limits, i: Intent, funding: real, now: real)
    requires Affordable(limits, i, funding)
    ensures exists s :: Leads(limits, s) && !BasisMatched(s.book)
  {
    var r := NewRecord(i).(status := Submitting);
    ReachAnswered(limits, i, funding, now, FeeFill(i));
    FeeFillAccepted(limits, i, funding, now, r);
    hide Leads, Finish, FeeFill, Reservation, Save, Insert, OpenAccount, Next, Notional;
    var b := Save(Insert(Opened(limits, i, funding), i, now), r);
    var intents, sends := map[i.key := i], map[i.key := 1];
    NextSettle(b, limits, r, FeeFill(i), intents, sends);
    StepOn(limits, Sys(b, intents, sends, map[1 := Answered(r, FeeFill(i))]), Settle(1));
    var s := Sys(Finish(b, r, FeeFill(i)).value.0, intents, sends, map[]);
    assert Leads(limits, s) && !BasisMatched(s.book);
  }
}
