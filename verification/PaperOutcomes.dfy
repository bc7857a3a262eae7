/** What a paper order comes to, told by its quote alone, and what a day's purchases come to, told by the clock. */
module PaperOutcomes {
  import opened Core
  import opened Sums
  import opened Ledger
  import opened LedgerLaws
  import opened PaperLaws

  /** The displayed quantity on the order's side fills it, up to the ordered quantity, if the displayed price is within
      the limit; the venue's fee is on that price. */
  predicate FilledAtTop(i: Intent, q: Quote, r: Record) {
    var price := if i.side.Buy? then q.ask else q.bid;
    && (i.side.Buy? ==>
          r.filledQty == if q.ask > i.limit then 0.0 else if q.askSize < i.quantity then q.askSize else i.quantity)
    && (i.side.Sell? ==>
          r.filledQty == if q.bid < i.limit then 0.0 else if q.bidSize < i.quantity then q.bidSize else i.quantity)
    && r.quoteQty == r.filledQty * price
    && (i.slot.venue.Binance? ==> r.feeQuote == r.filledQty * price * 0.001)
    && (i.slot.venue.Polymarket? ==> r.feeQuote == r.filledQty * 0.07 * price * (1.0 - price))
    && r.feeBase == 0.0 && r.accounted && r.intent == i
    && (r.status.Filled? <==> r.filledQty == i.quantity) && (r.status.Expired? <==> r.filledQty != i.quantity)
  }

  /** The money and the inventory that the order moved, and its row. */
  predicate Booked(b: Book, b1: Book, i: Intent, r: Record, now: real) {
    && i.slot.venue in b1.accounts && i.slot in b1.positions
    && var cash := if i.slot.venue in b.accounts then b.accounts[i.slot.venue] else 1000.0;
    && var held := if i.slot in b.positions then b.positions[i.slot].quantity else 0.0;
    && (i.side.Buy? ==>
          && b1.accounts[i.slot.venue] == cash - r.quoteQty - r.feeQuote
          && b1.positions[i.slot].quantity == held + r.filledQty)
    && (i.side.Sell? ==>
          && b1.accounts[i.slot.venue] == cash + r.quoteQty - r.feeQuote
          && b1.positions[i.slot].quantity == held - r.filledQty)
    && i.key in b1.orders && b1.orders[i.key].data == r && b1.orders[i.key].status == r.status
    && b1.orders[i.key].created == now && b1.orders[i.key].reserved == r.quoteQty + r.feeQuote
    && b1.orders == b.orders[i.key := b1.orders[i.key]]
    && b1.positions == b.positions[i.slot := b1.positions[i.slot]]
    && b1.accounts == b.accounts[i.slot.venue := b1.accounts[i.slot.venue]]
  }

  lemma FillAtTop(i: Intent, q: Quote)
    ensures PaperFill(i, q).status.Some? && !Open(PaperFill(i, q).status.value)
    ensures FilledAtTop(i, q, Accounted(NewRecord(i), PaperFill(i, q)))
  {
  }

  lemma AccountedBooked(b: Book, i: Intent, f: Fill, now: real)
    requires i.slot.venue in b.accounts && f.status.Some? && !Open(f.status.value) && f.feeBase == 0.0
    requires Finish(Insert(b, i, now), NewRecord(i), f).Ok?
    ensures var (b1, r) := Finish(Insert(b, i, now), NewRecord(i), f).value;
      r == Accounted(NewRecord(i), f) && Booked(b, b1, i, r, now)
  {
    hide FillError, Basis, Reservation, DayOf;
    assert Notional(0.0, i.limit) == 0.0;
    hide Notional;
  }

  lemma ReservedInto(b: Book, limits: Limits, mode: RiskMode, i: Intent, guard: bool, now: real)
    requires limits.paper && Reserve(b, limits, mode, i, None, guard, now).Ok?
    ensures Reserve(b, limits, mode, i, None, guard, now).value == Insert(OpenAccount(b, i.slot.venue, 1000.0), i, now)
  {
    hide Exposure, DailyBuys, HasOpenOrder, Reservation;
  }

  /** A new paper order fills exactly what the quote displays within its limit, and moves exactly that. */
  lemma PaperFillsExactly(b: Book, limits: Limits, mode: RiskMode, i: Intent, q: Quote, guard: bool, now: real)
    requires limits.paper && i.key !in b.orders && PaperSubmit(b, limits, mode, i, q, guard, now).Ok?
    ensures var (b1, r) := PaperSubmit(b, limits, mode, i, q, guard, now).value;
      FilledAtTop(i, q, r) && Booked(b, b1, i, r, now)
  {
    hide AdmissibleQuote, ValidIntent, Finish, Reserve, PaperFill, Insert, Booked, FilledAtTop, Accounted;
    ReservedInto(b, limits, mode, i, guard, now);
    FillAtTop(i, q);
    assert PaperFill(i, q).feeBase == 0.0 by { FeeFree(i, q); }
    var b0 := OpenAccount(b, i.slot.venue, 1000.0);
    AccountedBooked(b0, i, PaperFill(i, q), now);
    OpenedBooked(b, i, PaperSubmit(b, limits, mode, i, q, guard, now).value.0,
                 PaperSubmit(b, limits, mode, i, q, guard, now).value.1, now);
  }

  lemma FeeFree(i: Intent, q: Quote)
    ensures PaperFill(i, q).feeBase == 0.0
  {
  }

  lemma OpenedBooked(b: Book, i: Intent, b1: Book, r: Record, now: real)
    requires Booked(OpenAccount(b, i.slot.venue, 1000.0), b1, i, r, now)
    ensures Booked(b, b1, i, r, now)
  {
  }

  // The day's purchases

  /** What a purchase cost, if it was made between the midnights that bound the day. */
  ghost function SpentOn(day: int): (OrderKey, Row) -> real {
    (k: OrderKey, row: Row) =>
      if row.data.intent.side.Buy? && day as real * 86400.0 <= row.created < (day + 1) as real * 86400.0
      then row.data.quoteQty + row.data.feeQuote
      else 0.0
  }

  /** The row carries the day it was created on, and reserves what it cost. */
  predicate Dated(row: Row) {
    row.day == DayOf(row.created) && row.reserved == row.data.quoteQty + row.data.feeQuote
  }

  lemma DayBounds(day: int, t: real)
    ensures DayOf(t) == day <==> day as real * 86400.0 <= t < (day + 1) as real * 86400.0
  {
  }

  lemma PaperRowDated(b: Book, limits: Limits, mode: RiskMode, i: Intent, q: Quote, guard: bool, now: real)
    requires limits.paper && forall k :: k in b.orders ==> Dated(b.orders[k])
    requires PaperSubmit(b, limits, mode, i, q, guard, now).Ok?
    ensures var b1 := PaperSubmit(b, limits, mode, i, q, guard, now).value.0;
      forall k :: k in b1.orders ==> Dated(b1.orders[k])
  {
    if i.key !in b.orders {
      PaperFillsExactly(b, limits, mode, i, q, guard, now);
      DayKept(b, limits, mode, i, q, guard, now);
      hide PaperSubmit, FilledAtTop, DayOf;
    }
  }

  lemma DayKept(b: Book, limits: Limits, mode: RiskMode, i: Intent, q: Quote, guard: bool, now: real)
    requires limits.paper && i.key !in b.orders && PaperSubmit(b, limits, mode, i, q, guard, now).Ok?
    ensures var b1 := PaperSubmit(b, limits, mode, i, q, guard, now).value.0;
      i.key in b1.orders && b1.orders[i.key].day == DayOf(now)
  {
    hide AdmissibleQuote, ValidIntent, Reserve, PaperFill, FillError, Account, DayOf, Reservation;
    ReservedInto(b, limits, mode, i, guard, now);
  }

  lemma {:induction false} PaperRunDated(limits: Limits, calls: seq<PaperCall>)
    requires limits.paper
    ensures forall k :: k in PaperRun(limits, calls).orders ==> Dated(PaperRun(limits, calls).orders[k])
  {
    hide PaperSubmit, Dated;
    if calls != [] {
      var b, c := PaperRun(limits, calls[..|calls| - 1]), calls[|calls| - 1];
      PaperRunDated(limits, calls[..|calls| - 1]);
      if PaperSubmit(b, limits, c.mode, c.intent, c.quote, c.guard, c.now).Ok? {
        PaperRowDated(b, limits, c.mode, c.intent, c.quote, c.guard, c.now);
      }
    }
  }

  /** Over every run of paper submissions, whatever was bought between two midnights cost at most the daily limit, fees
      included. */
  lemma EachDayWithinLimit(limits: Limits, calls: seq<PaperCall>, day: int)
    requires limits.paper && limits.maxPosition >= 0.0 && limits.maxDaily >= 0.0
    ensures Sum(PaperRun(limits, calls).orders, SpentOn(day)) <= limits.maxDaily
  {
    PaperRunWithinBudgets(limits, calls);
    PaperRunDated(limits, calls);
    hide PaperRun, Sum, Inv;
    var b := PaperRun(limits, calls);
    forall k | k in b.orders
      ensures SpentOn(day)(k, b.orders[k]) <= BuyOn(day)(k, b.orders[k])
    {
      assert Dated(b.orders[k]);
      DayBounds(day, b.orders[k].created);
    }
    SumLe(b.orders, SpentOn(day), BuyOn(day));
    assert DailyBuys(b, day) <= limits.maxDaily;
  }
}
