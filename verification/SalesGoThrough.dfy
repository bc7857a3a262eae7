/** What a risk mode still lets through: a covered sale under every mode that does not stop sales. */
module SalesGoThrough {
  import opened Core
  import opened Sums
  import opened Ledger
  import opened LedgerLaws
  import opened Execution
  import opened AtMostOnce
  import opened ExactlyOnce
  import opened OrdersGoThrough

  /** A sale that the ledger can cover, in a live mode, while no order is open. */
  ghost predicate Covered(limits: Limits, b: Book, i: Intent) {
    && !limits.paper && ValidIntent(i) && i.side.Sell? && i.key !in b.orders && !HasOpenOrder(b)
    && Reservation(i) <= limits.maxOrder && i.slot.venue in b.accounts
    && i.slot in b.positions && b.positions[i.slot].quantity >= i.quantity
  }

  /** The exchange reports the whole quantity sold at the limit. */
  function SoldWhole(i: Intent): Fill {
    Fill(Some(Filled), Some(Sell), i.quantity, i.quantity * i.limit, 0.0, 0.0, 1)
  }

  /** One caller's steps from its call to the accounted sale, every check of them reading the given mode. */
  function SaleSteps(a: nat, i: Intent, mode: RiskMode, q: Quote, now: real): seq<Step> {
    [Call(a, i), DoReserve(a, mode, None, q, true, now), DoMark(a, mode), Send(a, true, mode, true, Some(SoldWhole(i))),
     Settle(a)]
  }

  lemma SaleReserved(limits: Limits, b: Book, i: Intent, mode: RiskMode, now: real)
    requires Covered(limits, b, i)
    requires mode.Active? || mode.ReduceOnly? || (mode.Frozen? && limits.protectiveExit)
    ensures Reserve(b, limits, mode, i, None, true, now) == Ok(Insert(b, i, now))
  {
  }

  lemma SaleAccepted(limits: Limits, b: Book, i: Intent, now: real)
    requires Covered(limits, b, i) && Inv(b)
    ensures var r := NewRecord(i).(status := Submitting);
      var b1 := Save(Insert(b, i, now), r);
      var done := Finish(b1, r, SoldWhole(i));
      && done.Ok?
      && SaleBooked(b, done.value.0, i)
  {
    hide Inv, Basis, HasOpenOrder, Reservation, FillError, SoldWhole;
    var r, f := NewRecord(i).(status := Submitting), SoldWhole(i);
    var b1 := Save(Insert(b, i, now), r);
    SoldClean(i);
    CoverHolds(limits, b, i);
    assert PositionAt(b1, i.slot) == b.positions[i.slot];
    assert b1.orders[i.key].data == r;
  }

  lemma SoldClean(i: Intent)
    requires ValidIntent(i) && i.side.Sell?
    ensures FillError(i, SoldWhole(i)).None? && SoldWhole(i).quoteQty > 0.0
    ensures SoldWhole(i) == Fill(Some(Filled), Some(Sell), i.quantity, SoldWhole(i).quoteQty, 0.0, 0.0, 1)
    ensures SoldWhole(i).quoteQty == i.quantity * i.limit
  {
    MulSign(i.quantity, i.limit);
  }

  lemma CoverHolds(limits: Limits, b: Book, i: Intent)
    requires Covered(limits, b, i) && Inv(b)
    ensures b.accounts[i.slot.venue] >= 0.0
  {
    hide Reservation, HasOpenOrder;
  }

  /** The order is accounted as filled, the holding is smaller by the quantity and the cash larger by the proceeds. */
  predicate SaleBooked(b: Book, b1: Book, i: Intent) {
    && i.key in b1.orders && b1.orders[i.key].data.accounted && b1.orders[i.key].status.Filled?
    && i.slot in b.positions && i.slot in b1.positions && i.slot.venue in b.accounts && i.slot.venue in b1.accounts
    && b1.positions[i.slot].quantity == b.positions[i.slot].quantity - i.quantity
    && b1.accounts[i.slot.venue] == b.accounts[i.slot.venue] + i.quantity * i.limit
  }

  /** An honest run that ends in `s`, and one more step that leads to `s1`. */
  lemma OneMore(limits: Limits, steps: seq<Step>, step: Step, s: Sys, s1: Sys)
    requires HonestRun(limits, steps) && Run(limits, steps) == s && Next(s, limits, step) == s1 && !step.Lookup?
    ensures HonestRun(limits, steps + [step]) && Run(limits, steps + [step]) == s1
  {
    hide Next;
    var more := steps + [step];
    assert more[..|more| - 1] == steps;
    forall n | 0 <= n < |more| ensures Honest(Run(limits, more[..n]), more[n]) {
      if n < |steps| {
        assert more[..n] == steps[..n];
        assert Honest(Run(limits, steps[..n]), steps[n]);
      }
    }
  }

  // The state after each of the steps

  lemma Called(s: Sys, limits: Limits, a: nat, i: Intent)
    requires a !in s.actors && ValidIntent(i)
    ensures Next(s, limits, Call(a, i)) == At(s, a, Ready(i))
  {
  }

  lemma ReservedNext(s: Sys, limits: Limits, a: nat, i: Intent, mode: RiskMode, q: Quote, now: real, b1: Book)
    requires i.key !in s.book.orders && !limits.paper && Reserve(s.book, limits, mode, i, None, true, now) == Ok(b1)
    ensures Next(At(s, a, Ready(i)), limits, DoReserve(a, mode, None, q, true, now))
         == At(s.(book := b1), a, Reserved(NewRecord(i)))
  {
    assert s.(book := b1).actors == s.actors;
    assert At(s, a, Ready(i)).actors[a := Reserved(NewRecord(i))] == s.actors[a := Reserved(NewRecord(i))];
  }

  lemma MarkedNext(s: Sys, limits: Limits, a: nat, r: Record, mode: RiskMode)
    requires RiskModeError(mode, limits.protectiveExit, r.intent.side).None?
    ensures var r1 := r.(status := Submitting);
      Next(At(s, a, Reserved(r)), limits, DoMark(a, mode)) == At(s.(book := Save(s.book, r1)), a, Marked(r1))
  {
    var r1 := r.(status := Submitting);
    assert At(s, a, Reserved(r)).actors[a := Marked(r1)] == s.actors[a := Marked(r1)];
  }

  lemma SentNext(s: Sys, limits: Limits, a: nat, r: Record, mode: RiskMode, f: Fill)
    requires RiskModeError(mode, limits.protectiveExit, r.intent.side).None?
    ensures Next(At(s, a, Marked(r)), limits, Send(a, true, mode, true, Some(f)))
         == At(s.(sends := s.sends[r.intent.key := Sends(s, r.intent.key) + 1]), a, Answered(r, f))
  {
    assert At(s, a, Marked(r)).actors[a := Answered(r, f)] == s.actors[a := Answered(r, f)];
  }

  lemma SettledNext(s: Sys, limits: Limits, a: nat, r: Record, f: Fill)
    requires a !in s.actors && Finish(s.book, r, f).Ok?
    ensures Next(At(s, a, Answered(r, f)), limits, Settle(a)) == s.(book := Finish(s.book, r, f).value.0)
  {
    assert s.actors[a := Answered(r, f)] - {a} == s.actors;
  }

  /** From any reachable state, under any mode that does not stop sales, a covered sale goes through: a caller that is
      not at work yet gets it reserved, sent exactly once and accounted. */
  lemma CoveredSalesGoThrough(
    limits: Limits, steps: seq<Step>, a: nat, i: Intent, mode: RiskMode, q: Quote, now: real)
    requires HonestRun(limits, steps) && a !in Run(limits, steps).actors && Covered(limits, Run(limits, steps).book, i)
    requires mode.Active? || mode.ReduceOnly? || (mode.Frozen? && limits.protectiveExit)
    ensures var more := steps + SaleSteps(a, i, mode, q, now);
      && HonestRun(limits, more) && Sends(Run(limits, more), i.key) == 1
      && SaleBooked(Run(limits, steps).book, Run(limits, more).book, i)
  {
    var s := Run(limits, steps);
    RunInv(limits, steps);
    NotSentYet(s, i.key);
    SaleReserved(limits, s.book, i, mode, now);
    SaleAccepted(limits, s.book, i, now);
    CoveredFacts(limits, s.book, i);
    hide SysInv, Covered, RiskModeError, SaleBooked;
    SaleRun(limits, steps, s, a, i, mode, q, now);
  }

  lemma SaleRun(
    limits: Limits, steps: seq<Step>, s: Sys, a: nat, i: Intent, mode: RiskMode, q: Quote, now: real)
    requires HonestRun(limits, steps) && Run(limits, steps) == s && a !in s.actors && Sends(s, i.key) == 0
    requires i.key !in s.book.orders && ValidIntent(i) && !limits.paper
    requires RiskModeError(mode, limits.protectiveExit, i.side).None?
    requires Reserve(s.book, limits, mode, i, None, true, now) == Ok(Insert(s.book, i, now))
    requires Finish(Save(Insert(s.book, i, now), NewRecord(i).(status := Submitting)),
                    NewRecord(i).(status := Submitting), SoldWhole(i)).Ok?
    ensures var more := steps + SaleSteps(a, i, mode, q, now);
      var r := NewRecord(i).(status := Submitting);
      && HonestRun(limits, more) && Sends(Run(limits, more), i.key) == 1
      && Run(limits, more).book == Finish(Save(Insert(s.book, i, now), r), r, SoldWhole(i)).value.0
  {
    hide Next, Run, HonestRun, Reserve, Finish, Insert, Save, SoldWhole, RiskModeError, ValidIntent, At;
    var r0, f := NewRecord(i), SoldWhole(i);
    var r1 := r0.(status := Submitting);
    var b1 := Insert(s.book, i, now);
    var b2 := Save(b1, r1);
    var s1, s2, t := s.(book := b1), s.(book := b2), s.(book := b2, sends := s.sends[i.key := 1]);
    Called(s, limits, a, i);
    OneMore(limits, steps, Call(a, i), s, At(s, a, Ready(i)));
    var p1 := steps + [Call(a, i)];
    ReservedNext(s, limits, a, i, mode, q, now, b1);
    OneMore(limits, p1, DoReserve(a, mode, None, q, true, now), At(s, a, Ready(i)), At(s1, a, Reserved(r0)));
    var p2 := p1 + [DoReserve(a, mode, None, q, true, now)];
    MarkedNext(s1, limits, a, r0, mode);
    OneMore(limits, p2, DoMark(a, mode), At(s1, a, Reserved(r0)), At(s2, a, Marked(r1)));
    var p3 := p2 + [DoMark(a, mode)];
    SentNext(s2, limits, a, r1, mode, f);
    OneMore(limits, p3, Send(a, true, mode, true, Some(f)), At(s2, a, Marked(r1)), At(t, a, Answered(r1, f)));
    var p4 := p3 + [Send(a, true, mode, true, Some(f))];
    SettledNext(t, limits, a, r1, f);
    OneMore(limits, p4, Settle(a), At(t, a, Answered(r1, f)), t.(book := Finish(b2, r1, f).value.0));
    assert p4 + [Settle(a)] == steps + SaleSteps(a, i, mode, q, now);
  }

  lemma CoveredFacts(limits: Limits, b: Book, i: Intent)
    requires Covered(limits, b, i)
    ensures i.key !in b.orders && ValidIntent(i) && !limits.paper && i.side.Sell?
  {
  }

  /** Covered sales exist: whatever an affordable purchase of a workflow bought can be sold again, in part or whole,
      under any mode that does not stop sales. */
  lemma BoughtCanBeSold(
    limits: Limits, i: Intent, funding: real, now: real, a: nat, sale: Intent, mode: RiskMode, q: Quote, later: real)
    requires Affordable(limits, i, funding)
    requires ValidIntent(sale) && sale.side.Sell? && sale.slot == i.slot && sale.key != i.key
    requires sale.quantity <= i.quantity && Reservation(sale) <= limits.maxOrder
    requires mode.Active? || mode.ReduceOnly? || (mode.Frozen? && limits.protectiveExit)
    ensures exists steps ::
      && HonestRun(limits, steps) && Held(Run(limits, steps).book, i, Min(funding, limits.maxDaily))
      && var more := steps + SaleSteps(a, sale, mode, q, later);
         HonestRun(limits, more) && Sends(Run(limits, more), sale.key) == 1
         && SaleBooked(Run(limits, steps).book, Run(limits, more).book, sale)
  {
    hide Run, HonestRun, Reservation, SaleBooked, SaleSteps;
    AffordableOrdersGoThrough(limits, i, funding, now);
    var s :| Leads(limits, s) && Sends(s, i.key) == 1 && Held(s.book, i, Min(funding, limits.maxDaily)) && s.actors == map[];
    var steps :| HonestRun(limits, steps) && Run(limits, steps) == s;
    assert !HasOpenOrder(s.book);
    CoveredSalesGoThrough(limits, steps, a, sale, mode, q, later);
  }

  lemma NotSentYet(s: Sys, k: OrderKey)
    requires SysInv(s) && k !in s.book.orders
    ensures Sends(s, k) == 0
  {
  }
}
