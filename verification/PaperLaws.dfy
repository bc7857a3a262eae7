/** Paper mode: what was reserved always covers what is then accounted. */
module PaperLaws {
  import opened Core
  import opened Sums
  import opened Ledger
  import opened LedgerLaws

  // Price plus fee

  function UnitCost(v: Venue, price: real): real {
    match v
    case Binance => price + price * 0.001
    case Polymarket => price + 0.07 * price * (1.0 - price)
  }

  lemma CostPerUnit(v: Venue, quantity: real, price: real)
    ensures quantity * price + Fee(v, quantity, price) == quantity * UnitCost(v, price)
  {
  }

  /** Price plus fee per share increases in price, for both fee schedules. */
  lemma UnitCostIncreases(v: Venue, low: real, high: real)
    requires 0.0 < low < high && (v.Polymarket? ==> high <= 1.0)
    ensures 0.0 < UnitCost(v, low) < UnitCost(v, high)
  {
    if v.Polymarket? {
      var slope := 1.0 + 0.07 * (1.0 - (low + high));
      assert UnitCost(v, high) - UnitCost(v, low) == (high - low) * slope;
      MulSign(high - low, slope);
      MulSign(low, 1.0 - low);
    }
  }

  lemma MulLe(a: real, b: real, x: real, y: real)
    requires 0.0 <= a <= b && 0.0 <= x <= y
    ensures 0.0 <= a * x <= b * y
  {
    assert a * x <= b * x <= b * y;
  }

  /** A better price and a smaller quantity never cost more than the reservation. */
  lemma FillWithinReservation(i: Intent, filled: real, price: real)
    requires ValidIntent(i) && 0.0 <= filled <= i.quantity && 0.0 < price <= i.limit
    ensures 0.0 <= filled * price + Fee(i.slot.venue, filled, price) <= Reservation(i)
  {
    if price < i.limit {
      UnitCostIncreases(i.slot.venue, price, i.limit);
    } else if i.slot.venue.Polymarket? {
      UnitCostIncreases(i.slot.venue, i.limit, 1.0);
    }
    CostPerUnit(i.slot.venue, filled, price);
    CostPerUnit(i.slot.venue, i.quantity, i.limit);
    MulLe(filled, i.quantity, UnitCost(i.slot.venue, price), UnitCost(i.slot.venue, i.limit));
  }

  /** The fee never exceeds the proceeds, so a sale never lowers cash. */
  lemma FeeWithinProceeds(v: Venue, filled: real, price: real)
    requires filled >= 0.0 && 0.0 < price && (v.Polymarket? ==> price <= 1.0)
    ensures 0.0 <= Fee(v, filled, price) <= filled * price
  {
    match v
    case Binance =>
      MulLe(0.0, filled, 0.0, price);
    case Polymarket =>
      MulLe(0.0, filled, 0.0, price);
      MulLe(0.0, filled * price, 0.07 * (1.0 - price), 1.0);
      assert filled * 0.07 * price * (1.0 - price) == (filled * price) * (0.07 * (1.0 - price));
      assert (filled * price) * (0.07 * (1.0 - price)) <= (filled * price) * 1.0;
  }

  lemma QuotePrices(i: Intent, q: Quote)
    requires AdmissibleQuote(q, i)
    ensures 0.0 < q.bid <= q.ask && q.bidSize >= 0.0 && q.askSize >= 0.0
    ensures i.slot.venue.Polymarket? ==> q.ask <= 1.0
  {
  }

  lemma NotionalMonotone(quantity: real, low: real, high: real)
    requires quantity >= 0.0
    ensures low <= high ==> Notional(quantity, low) <= Notional(quantity, high)
  {
    if low <= high {
      assert quantity * (high - low) >= 0.0;
    }
  }

  /** The amounts of a fill of `filled` at `price`, on the right side of the limit. */
  lemma FillAmounts(i: Intent, filled: real, price: real)
    requires ValidIntent(i) && 0.0 <= filled <= i.quantity && 0.0 < price
    requires i.slot.venue.Polymarket? ==> price <= 1.0
    requires filled != 0.0 ==> if i.side.Buy? then price <= i.limit else price >= i.limit
    ensures 0.0 <= Fee(i.slot.venue, filled, price) <= Notional(filled, price)
    ensures filled == 0.0 <==> Notional(filled, price) == 0.0
    ensures filled != 0.0 ==> if i.side.Buy? then Notional(filled, price) <= Notional(filled, i.limit) else Notional(filled, price) >= Notional(filled, i.limit)
    ensures i.side.Buy? ==> Notional(filled, price) + Fee(i.slot.venue, filled, price) <= Reservation(i)
  {
    FeeWithinProceeds(i.slot.venue, filled, price);
    MulSign(filled, price);
    NotionalMonotone(filled, price, i.limit);
    NotionalMonotone(filled, i.limit, price);
    if filled != 0.0 && i.side.Buy? {
      FillWithinReservation(i, filled, price);
    } else if filled == 0.0 {
      FillWithinReservation(i, 0.0, i.limit);
    }
  }

  predicate LimitKept(i: Intent, f: Fill) {
    f.filledQty != 0.0 ==>
      if i.side.Buy? then f.quoteQty <= Notional(f.filledQty, i.limit) else f.quoteQty >= Notional(f.filledQty, i.limit)
  }

  lemma Passes(i: Intent, f: Fill)
    requires CleanFill(f) && LimitKept(i, f) && f.filledQty <= i.quantity && f.side.None? && f.status.Some?
    requires f.status.value.Filled? ==> f.filledQty != 0.0
    requires !f.status.value.Rejected?
    ensures FillError(i, f).None?
  {
  }

  lemma PaperFillAmounts(i: Intent, q: Quote)
    requires ValidIntent(i) && AdmissibleQuote(q, i)
    ensures var f := PaperFill(i, q);
      && CleanFill(f) && LimitKept(i, f) && f.filledQty <= i.quantity
      && (f.filledQty == 0.0 ==> f.status == Some(Expired))
      && (i.side.Buy? ==> f.quoteQty + f.feeQuote <= Reservation(i))
      && (i.side.Sell? ==> f.feeQuote <= f.quoteQty)
  {
    QuotePrices(i, q);
    hide AdmissibleQuote;
    hide Fee;
    hide Notional;
    hide Reservation;
    FillAmounts(i, PaperFill(i, q).filledQty, if i.side.Buy? then q.ask else q.bid);
  }

  /** The derived fill passes every validation of `_finish`. */
  lemma PaperFillIsClean(i: Intent, q: Quote)
    requires ValidIntent(i) && AdmissibleQuote(q, i)
    ensures FillError(i, PaperFill(i, q)).None? && CleanFill(PaperFill(i, q))
    ensures !Open(PaperFill(i, q).status.value) && PaperFill(i, q).feeBase == 0.0
    ensures i.side.Buy? ==> PaperFill(i, q).quoteQty + PaperFill(i, q).feeQuote <= Reservation(i)
    ensures i.side.Sell? ==> PaperFill(i, q).feeQuote <= PaperFill(i, q).quoteQty
  {
    PaperFillAmounts(i, q);
    hide CleanFill;
    hide LimitKept;
    hide FillError;
    hide Notional;
    hide Reservation;
    Passes(i, PaperFill(i, q));
  }

  // The two budgets

  ghost function CostOf(): (Slot, Position) -> real {
    (s: Slot, p: Position) => p.cost
  }

  ghost function TotalCost(b: Book): real {
    Sum(b.positions, CostOf())
  }

  ghost predicate WithinBudgets(b: Book, limits: Limits) {
    && TotalCost(b) <= limits.maxPosition
    && (forall d :: DailyBuys(b, d) <= limits.maxDaily)
  }

  ghost predicate PaperInv(b: Book, limits: Limits) {
    && Inv(b) && BasisMatched(b) && WithinBudgets(b, limits)
    && (forall k :: k in b.orders ==> b.orders[k].data.accounted)
    && (forall v :: v in b.accounts ==> b.funding[v] == PAPER_CASH)
  }

  lemma ExposureCoversCost(b: Book, slot: Slot, limit: real)
    ensures TotalCost(b) <= Exposure(b, slot, limit)
  {
    forall s | s in b.positions
      ensures CostOf()(s, b.positions[s]) <= ExposureAt(slot, limit)(s, b.positions[s])
    {
    }
    SumLe(b.positions, CostOf(), ExposureAt(slot, limit));
  }

  /** What the risk check established before the row was inserted, in the form the accounting needs. */
  ghost predicate ReservedAs(b: Book, limits: Limits, i: Intent, now: real, b1: Book) {
    && Inv(b1) && Preserves(b, b1) && Pending(b1, NewRecord(i)) && !HasOpenOrder(b)
    && b1.positions == b.positions && i.slot.venue in b1.accounts
    && b1.orders == b.orders[i.key := Row(i, Preparing, now, DayOf(now), Reservation(i), NewRecord(i))]
    && (limits.paper ==> b1.funding == OpenAccount(b, i.slot.venue, PAPER_CASH).funding)
    && (!limits.paper ==> b1.funding == b.funding)
    && (i.side.Buy? ==> && b1.accounts[i.slot.venue] >= Reservation(i)
                        && DailyBuys(b, DayOf(now)) + Reservation(i) <= limits.maxDaily
                        && Exposure(b, i.slot, i.limit) + Reservation(i) <= limits.maxPosition)
    && (i.side.Sell? ==> PositionAt(b, i.slot).quantity >= i.quantity)
  }

  lemma ReserveFacts(b: Book, limits: Limits, mode: RiskMode, i: Intent, remote: Option<Balances>, guard: bool, now: real)
    requires Inv(b) && ValidIntent(i) && i.key !in b.orders
    requires Reserve(b, limits, mode, i, remote, guard, now).Ok?
    ensures ReservedAs(b, limits, i, now, Reserve(b, limits, mode, i, remote, guard, now).value)
  {
    hide Sum;
    hide Inv;
    hide Reservation;
    var b0 := if limits.paper then OpenAccount(b, i.slot.venue, PAPER_CASH) else b;
    assert Preserves(b, b);
    OpenAccountInv(b, i.slot.venue, PAPER_CASH);
    assert Exposure(b0, i.slot, i.limit) == Exposure(b, i.slot, i.limit);
    InsertInv(b0, i, now);
    PreservesTransitive(b, b0, Insert(b0, i, now));
  }

  /** A reserved paper order is covered by its account, or by its holding. */
  lemma AccountAccepts(b: Book, limits: Limits, i: Intent, q: Quote, now: real, b1: Book)
    requires limits.paper && ValidIntent(i) && AdmissibleQuote(q, i)
    requires ReservedAs(b, limits, i, now, b1)
    ensures Finish(b1, NewRecord(i), PaperFill(i, q)).Ok?
  {
    hide Sum;
    PaperFillIsClean(i, q);
    assert PositionAt(b1, i.slot) == PositionAt(b, i.slot);
    assert Solvent(b1);
    hide Inv;
    hide PaperFill;
    hide FillError;
    hide AdmissibleQuote;
    hide Basis;
    assert Account(b1.accounts[i.slot.venue], PositionAt(b1, i.slot), i, PaperFill(i, q)).Ok?;
  }

  /** `_finish` never refuses a paper order that `_risk` accepted. */
  lemma PaperNeverRefused(b: Book, limits: Limits, mode: RiskMode, i: Intent, q: Quote, guard: bool, now: real)
    requires Inv(b) && limits.paper && ValidIntent(i) && AdmissibleQuote(q, i) && i.key !in b.orders
    requires Reserve(b, limits, mode, i, None, guard, now).Ok?
    ensures Finish(Reserve(b, limits, mode, i, None, guard, now).value, NewRecord(i), PaperFill(i, q)).Ok?
  {
    hide *;
    ReserveFacts(b, limits, mode, i, None, guard, now);
    AccountAccepts(b, limits, i, q, now, Reserve(b, limits, mode, i, None, guard, now).value);
  }

  lemma DailyBuysPut(b: Book, k: OrderKey, row: Row, d: int)
    requires k !in b.orders
    ensures Sum(b.orders[k := row], BuyOn(d))
         == DailyBuys(b, d) + (if row.day == d && row.data.intent.side.Buy? then row.reserved else 0.0)
  {
    SumPut(b.orders, BuyOn(d), k, row);
  }

  /** The one position and the one row that the accounting of a reserved order writes. */
  lemma PaperOutcome(b: Book, limits: Limits, i: Intent, q: Quote, now: real, b1: Book)
    requires limits.paper && ValidIntent(i) && AdmissibleQuote(q, i)
    requires ReservedAs(b, limits, i, now, b1) && Finish(b1, NewRecord(i), PaperFill(i, q)).Ok?
    ensures var f, b2 := PaperFill(i, q), Finish(b1, NewRecord(i), PaperFill(i, q)).value.0;
      && i.slot in b2.positions && b2.positions == b.positions[i.slot := b2.positions[i.slot]]
      && i.key in b2.orders && b2.orders == b.orders[i.key := b2.orders[i.key]]
      && b2.orders[i.key].day == DayOf(now) && b2.orders[i.key].data.intent == i
      && (i.side.Buy? ==> f.quoteQty + f.feeQuote <= Reservation(i) && b2.orders[i.key].reserved <= Reservation(i))
      && (i.side.Sell? ==> b2.positions[i.slot].cost <= PositionAt(b, i.slot).cost)
      && Account(b1.accounts[i.slot.venue], PositionAt(b, i.slot), i, f).Ok?
      && Account(b1.accounts[i.slot.venue], PositionAt(b, i.slot), i, f).value.1 == b2.positions[i.slot]
  {
    hide Sum, Exposure, DailyBuys, PaperFill, FillError, Finish, AdmissibleQuote, Conserved, CashMatchesHistory,
      QuantityMatchesHistory;
    var f, r := PaperFill(i, q), NewRecord(i);
    PaperFillIsClean(i, q);
    FinishTerminal(b1, r, f);
    var p := PositionAt(b1, i.slot);
    assert p == PositionAt(b, i.slot) && p.quantity >= 0.0 && p.cost >= 0.0;
    hide Inv;
    AccountLaws(b1.accounts[i.slot.venue], p, i, f);
  }

  /** Both budgets survive the accounting of a reserved order. */
  lemma BudgetsKept(b: Book, limits: Limits, i: Intent, q: Quote, now: real, b1: Book)
    requires WithinBudgets(b, limits) && limits.paper && ValidIntent(i) && AdmissibleQuote(q, i) && i.key !in b.orders
    requires ReservedAs(b, limits, i, now, b1) && Finish(b1, NewRecord(i), PaperFill(i, q)).Ok?
    ensures WithinBudgets(Finish(b1, NewRecord(i), PaperFill(i, q)).value.0, limits)
  {
    hide Sum, Inv, PaperFill, AdmissibleQuote, Finish, Account, Pending, Reservation;
    PaperOutcome(b, limits, i, q, now, b1);
    var b2 := Finish(b1, NewRecord(i), PaperFill(i, q)).value.0;
    CostAfter(b, limits, i, PaperFill(i, q), b1.accounts[i.slot.venue], b2.positions[i.slot]);
    DailyKept(b, limits, i, b2.orders[i.key], b2);
  }

  lemma DailyKept(b: Book, limits: Limits, i: Intent, row: Row, b2: Book)
    requires forall d :: DailyBuys(b, d) <= limits.maxDaily
    requires i.key !in b.orders && b2.orders == b.orders[i.key := row]
    requires row.data.intent.side.Buy? ==> DailyBuys(b, row.day) + row.reserved <= limits.maxDaily
    ensures forall d :: DailyBuys(b2, d) <= limits.maxDaily
  {
    hide Sum;
    forall d ensures DailyBuys(b2, d) <= limits.maxDaily {
      DailyBuysPut(b, i.key, row, d);
    }
  }

  lemma CostAfter(b: Book, limits: Limits, i: Intent, f: Fill, cash: real, p1: Position)
    requires TotalCost(b) <= limits.maxPosition
    requires Account(cash, PositionAt(b, i.slot), i, f).Ok? && p1 == Account(cash, PositionAt(b, i.slot), i, f).value.1
    requires i.side.Buy? ==> && f.quoteQty + f.feeQuote <= Reservation(i)
                             && Exposure(b, i.slot, i.limit) + Reservation(i) <= limits.maxPosition
    requires i.side.Sell? ==> p1.cost <= PositionAt(b, i.slot).cost
    ensures Sum(b.positions[i.slot := p1], CostOf()) <= limits.maxPosition
  {
    SumPut(b.positions, CostOf(), i.slot, p1);
    ExposureCoversCost(b, i.slot, i.limit);
  }

  /** Assembling the invariant from what each lemma says of the new book. */
  lemma PaperInvAfter(b: Book, limits: Limits, i: Intent, b1: Book, b2: Book)
    requires PaperInv(b, limits) && Inv(b2) && BasisMatched(b2) && WithinBudgets(b2, limits)
    requires b1.funding == OpenAccount(b, i.slot.venue, PAPER_CASH).funding && b2.funding == b1.funding
    requires i.key in b2.orders && b2.orders == b.orders[i.key := b2.orders[i.key]]
    requires b2.orders[i.key].data.accounted
    ensures PaperInv(b2, limits)
  {
    hide Sum;
    hide WithinBudgets;
    assert b2.accounts.Keys == b2.funding.Keys && b.accounts.Keys == b.funding.Keys;
  }

  lemma AccountedInv(b: Book, limits: Limits, i: Intent, f: Fill, now: real, b1: Book, b2: Book, r: Record)
    requires PaperInv(b, limits) && limits.paper && ReservedAs(b, limits, i, now, b1)
    requires Finish(b1, NewRecord(i), f) == Ok((b2, r)) && f.status.Some? && !Open(f.status.value) && f.feeBase == 0.0
    requires WithinBudgets(b2, limits)
    ensures PaperInv(b2, limits) && Preserves(b, b2) && r.accounted
  {
    hide Sum;
    hide Finish;
    hide WithinBudgets;
    hide Inv;
    FinishInv(b1, NewRecord(i), f);
    assert BasisMatched(b1) && !FeeTakesWholeFill(b1, i, f);
    BasisMatchedExactly(b1, NewRecord(i), f);
    PreservesTransitive(b, b1, b2);
    hide BasisMatched;
    hide Preserves;
    PaperInvAfter(b, limits, i, b1, b2);
  }

  /** A reserved paper order is accounted at once, and every law is kept. */
  lemma AdmittedInv(b: Book, limits: Limits, i: Intent, q: Quote, now: real, b1: Book)
    requires PaperInv(b, limits) && limits.paper
    requires ValidIntent(i) && AdmissibleQuote(q, i) && i.key !in b.orders
    requires ReservedAs(b, limits, i, now, b1)
    ensures var result := Finish(b1, NewRecord(i), PaperFill(i, q));
      result.Ok? && PaperInv(result.value.0, limits) && Preserves(b, result.value.0) && result.value.1.accounted
  {
    AccountAccepts(b, limits, i, q, now, b1);
    PaperFillIsClean(i, q);
    hide Finish;
    hide ReservedAs;
    hide AdmissibleQuote;
    hide Preserves;
    BudgetsKept(b, limits, i, q, now, b1);
    var (b2, r) := Finish(b1, NewRecord(i), PaperFill(i, q)).value;
    AccountedInv(b, limits, i, PaperFill(i, q), now, b1, b2, r);
  }

  /** Main paper theorem, for one call: whatever the arguments, every law is kept, and an admitted
      order is accounted in the same call. */
  lemma PaperSubmitInv(b: Book, limits: Limits, mode: RiskMode, i: Intent, q: Quote, guard: bool, now: real)
    requires PaperInv(b, limits) && limits.paper
    ensures PaperSubmit(b, limits, mode, i, q, guard, now).Ok? ==>
      var (b1, r) := PaperSubmit(b, limits, mode, i, q, guard, now).value;
      PaperInv(b1, limits) && Preserves(b, b1) && r.accounted
  {
    hide Sum;
    hide Reserve;
    hide PaperFill;
    hide Finish;
    hide AdmissibleQuote;
    var result := PaperSubmit(b, limits, mode, i, q, guard, now);
    if result.Ok? && i.key !in b.orders {
      ReserveFacts(b, limits, mode, i, None, guard, now);
      AdmittedInv(b, limits, i, q, now, Reserve(b, limits, mode, i, None, guard, now).value);
    }
  }

  // Runs

  datatype PaperCall = PaperCall(mode: RiskMode, intent: Intent, quote: Quote, guard: bool, now: real)

  ghost function PaperRun(limits: Limits, calls: seq<PaperCall>): Book {
    if calls == [] then EmptyBook()
    else
      var b, c := PaperRun(limits, calls[..|calls| - 1]), calls[|calls| - 1];
      match PaperSubmit(b, limits, c.mode, c.intent, c.quote, c.guard, c.now)
      case Ok((b1, _)) => b1
      case Err(_) => b
  }

  /** Every run of paper submissions, at any times and under any risk modes, keeps total cost within
      `max_position_quote` and each day's BUY spending within `max_daily_quote`. */
  lemma {:induction false} PaperRunWithinBudgets(limits: Limits, calls: seq<PaperCall>)
    requires limits.paper && limits.maxPosition >= 0.0 && limits.maxDaily >= 0.0
    ensures PaperInv(PaperRun(limits, calls), limits)
  {
    if calls == [] {
      EmptyInv();
    } else {
      var b, c := PaperRun(limits, calls[..|calls| - 1]), calls[|calls| - 1];
      PaperRunWithinBudgets(limits, calls[..|calls| - 1]);
      PaperSubmitInv(b, limits, c.mode, c.intent, c.quote, c.guard, c.now);
    }
  }
}
