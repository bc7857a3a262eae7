/** Which orders and which exchange results the ledger lets in, told by the limits and the amounts themselves. */
module Admission {
  import opened Core
  import opened Sums
  import opened Ledger
  import opened LedgerLaws
  import opened PaperLaws
  import opened Execution
  import opened AtMostOnce
  import opened RiskModes

  // Orders

  /** Quantity times limit and the venue's fee on it: 0.1% at Binance, 7% of p(1 - p) at Polymarket. */
  function CostOf(i: Intent): real {
    match i.slot.venue
    case Binance => i.quantity * i.limit + i.quantity * i.limit * 0.001
    case Polymarket => i.quantity * i.limit + i.quantity * 0.07 * i.limit * (1.0 - i.limit)
  }

  ghost function BoughtOn(day: int): (OrderKey, Row) -> real {
    (k: OrderKey, row: Row) => if row.data.intent.side.Buy? && row.day == day then row.reserved else 0.0
  }

  /** Cost of a position; in the order's own slot its value at the limit, when that is higher. */
  ghost function WorthAt(slot: Slot, limit: real): (Slot, Position) -> real {
    (s: Slot, p: Position) => if s == slot && p.quantity * limit > p.cost then p.quantity * limit else p.cost
  }

  predicate Terminal(s: Status) {
    s.Filled? || s.Expired? || s.Canceled? || s.Rejected?
  }

  /** What a purchase must find: budget left for the day, cash here and at the exchange, and room in the position. */
  ghost predicate CanBuy(b: Book, limits: Limits, i: Intent, remote: Option<Balances>, now: real) {
    && Sum(b.orders, BoughtOn((now / 86400.0).Floor)) + CostOf(i) <= limits.maxDaily
    && (if i.slot.venue in b.accounts then b.accounts[i.slot.venue] else PAPER_CASH) >= CostOf(i)
    && (remote.Some? ==> remote.value.cash >= CostOf(i))
    && Sum(b.positions, WorthAt(i.slot, i.limit)) + CostOf(i) <= limits.maxPosition
  }

  /** What a sale must find: the quantity, here and at the exchange. */
  predicate CanSell(b: Book, i: Intent, remote: Option<Balances>) {
    && i.slot in b.positions && b.positions[i.slot].quantity >= i.quantity
    && (remote.Some? ==> remote.value.quantity >= i.quantity)
  }

  ghost predicate Allowed(
    b: Book, limits: Limits, mode: RiskMode, i: Intent, remote: Option<Balances>, guard: bool, now: real)
  {
    && guard && !Stops(limits, mode, i.side)
    && (forall k :: k in b.orders ==> Terminal(b.orders[k].status))
    && CostOf(i) <= limits.maxOrder
    && (i.slot.venue in b.accounts || limits.paper)
    && (if i.side.Buy? then CanBuy(b, limits, i, remote, now) else CanSell(b, i, remote))
  }

  lemma CostIs(i: Intent)
    ensures Reservation(i) == CostOf(i)
  {
  }

  lemma BoughtIs(b: Book, day: int)
    ensures Sum(b.orders, BoughtOn(day)) == DailyBuys(b, day)
  {
    SumLe(b.orders, BoughtOn(day), BuyOn(day));
    SumLe(b.orders, BuyOn(day), BoughtOn(day));
  }

  lemma WorthIs(b: Book, slot: Slot, limit: real)
    ensures Sum(b.positions, WorthAt(slot, limit)) == Exposure(b, slot, limit)
  {
    forall s | s in b.positions
      ensures WorthAt(slot, limit)(s, b.positions[s]) == ExposureAt(slot, limit)(s, b.positions[s])
    {
      var p := b.positions[s];
      assert Notional(p.quantity, limit) == p.quantity * limit;
    }
    SumLe(b.positions, WorthAt(slot, limit), ExposureAt(slot, limit));
    SumLe(b.positions, ExposureAt(slot, limit), WorthAt(slot, limit));
  }

  lemma StopsIs(limits: Limits, mode: RiskMode, side: Side)
    ensures RiskModeError(mode, limits.protectiveExit, side).Some? <==> Stops(limits, mode, side)
  {
  }

  lemma TerminalIs(b: Book)
    ensures !HasOpenOrder(b) <==> forall k :: k in b.orders ==> Terminal(b.orders[k].status)
  {
  }

  /** An order is reserved exactly when the lease is held, the risk mode lets its side pass, no order is open, its cost is
      within the order limit, and its side can be covered; what is reserved is that cost, on the day of the clock. */
  lemma ReservedExactly(
    b: Book, limits: Limits, mode: RiskMode, i: Intent, remote: Option<Balances>, guard: bool, now: real)
    ensures Reserve(b, limits, mode, i, remote, guard, now).Ok? <==> Allowed(b, limits, mode, i, remote, guard, now)
    ensures Reserve(b, limits, mode, i, remote, guard, now).Ok? ==>
      var b1 := Reserve(b, limits, mode, i, remote, guard, now).value;
      && b1.positions == b.positions
      && b1.accounts == (if i.slot.venue in b.accounts then b.accounts else b.accounts[i.slot.venue := PAPER_CASH])
      && b1.orders
         == b.orders[i.key := Row(i, Preparing, now, (now / 86400.0).Floor, CostOf(i),
                                  Record(i, Preparing, 0.0, 0.0, 0.0, 0.0, 0, false, None, None))]
  {
    RiskExactly(b, limits, mode, i, remote, now);
    CostIs(i);
    hide CostOf, Reservation, Risk, Stops, Terminal, CanBuy, CanSell;
    if Reserve(b, limits, mode, i, remote, guard, now).Ok? {
      RiskOpens(b, limits, mode, i, remote, now);
    }
  }

  lemma RiskExactly(b: Book, limits: Limits, mode: RiskMode, i: Intent, remote: Option<Balances>, now: real)
    ensures Risk(b, limits, mode, i, remote, now).Ok? <==> Allowed(b, limits, mode, i, remote, true, now)
  {
    CostIs(i);
    BoughtIs(b, DayOf(now));
    WorthIs(b, i.slot, i.limit);
    StopsIs(limits, mode, i.side);
    TerminalIs(b);
    var b1 := OpenAccount(b, i.slot.venue, PAPER_CASH);
    assert Exposure(b1, i.slot, i.limit) == Exposure(b, i.slot, i.limit);
    assert DayOf(now) == (now / 86400.0).Floor;
    hide CostOf, Reservation, BoughtOn, WorthAt, Exposure, DailyBuys, Stops, RiskModeError, HasOpenOrder, Terminal, Sum, DayOf;
  }

  lemma RiskOpens(b: Book, limits: Limits, mode: RiskMode, i: Intent, remote: Option<Balances>, now: real)
    requires Risk(b, limits, mode, i, remote, now).Ok?
    ensures var b1 := Risk(b, limits, mode, i, remote, now).value;
      && b1.orders == b.orders && b1.positions == b.positions
      && b1.accounts == (if i.slot.venue in b.accounts then b.accounts else b.accounts[i.slot.venue := PAPER_CASH])
  {
    hide Reservation, Exposure, DailyBuys, RiskModeError, HasOpenOrder, DayOf;
  }

  // Paper orders

  /** The displayed prices are two-sided and close together, and the limit is close to the one on the order's side. */
  predicate QuoteFits(q: Quote, i: Intent) {
    && 0.0 < q.bid <= q.ask && q.bidSize >= 0.0 && q.askSize >= 0.0 && (i.slot.venue.Polymarket? ==> q.ask <= 1.0)
    && q.ask - q.bid <= 0.15 * ((q.bid + q.ask) / 2.0)
    && (i.side.Buy? ==> 0.97 * q.ask <= i.limit <= 1.03 * q.ask)
    && (i.side.Sell? ==> 0.97 * q.bid <= i.limit <= 1.03 * q.bid)
  }

  lemma DivideLe(x: real, y: real, bound: real)
    requires y > 0.0
    ensures x / y <= bound <==> x <= bound * y
    ensures bound <= x / y <==> bound * y <= x
  {
  }

  lemma QuoteFitsIs(q: Quote, i: Intent)
    ensures AdmissibleQuote(q, i) <==> QuoteFits(q, i)
  {
    if 0.0 < q.bid <= q.ask {
      var execution := if i.side.Buy? then q.ask else q.bid;
      DivideLe(q.ask - q.bid, (q.ask + q.bid) / 2.0, 0.15);
      DivideLe(i.limit - execution, execution, 0.03);
      DivideLe(i.limit - execution, execution, -0.03);
    }
  }

  /** A new paper order is accepted exactly when the intent is valid, the quote fits it, and it may be reserved. */
  lemma PaperAcceptedExactly(b: Book, limits: Limits, mode: RiskMode, i: Intent, q: Quote, guard: bool, now: real)
    requires PaperInv(b, limits) && limits.paper && i.key !in b.orders
    ensures PaperSubmit(b, limits, mode, i, q, guard, now).Ok?
      <==> ValidIntent(i) && QuoteFits(q, i) && Allowed(b, limits, mode, i, None, guard, now)
  {
    hide Inv, BasisMatched, WithinBudgets, Allowed, AdmissibleQuote, QuoteFits, ValidIntent, Reserve, Finish, PaperFill;
    QuoteFitsIs(q, i);
    ReservedExactly(b, limits, mode, i, None, guard, now);
    if ValidIntent(i) && AdmissibleQuote(q, i) && Reserve(b, limits, mode, i, None, guard, now).Ok? {
      PaperNeverRefused(b, limits, mode, i, q, guard, now);
    }
  }

  // Results

  /** What the exchange may report of an order: the order's side, a known status, no more than was ordered, something for
      something, fees only on a fill, and nothing beyond the limit. */
  predicate Acceptable(i: Intent, f: Fill) {
    && (f.side.Some? ==> f.side.value == i.side) && f.status.Some?
    && f.filledQty >= 0.0 && f.quoteQty >= 0.0 && f.feeBase >= 0.0 && f.feeQuote >= 0.0
    && f.filledQty <= i.quantity && (f.filledQty > 0.0 <==> f.quoteQty > 0.0)
    && (f.status.value.Filled? ==> f.filledQty > 0.0) && (f.status.value.Rejected? ==> f.filledQty == 0.0)
    && (f.filledQty == 0.0 ==> f.feeBase == 0.0 && f.feeQuote == 0.0)
    && (i.side.Buy? ==> f.quoteQty <= f.filledQty * i.limit)
    && (i.side.Sell? ==> f.quoteQty >= f.filledQty * i.limit)
  }

  /** The ledger can carry a terminal result: no more base fee than fill, no more cash or inventory than is there. */
  predicate Bearable(b: Book, i: Intent, f: Fill) {
    && i.slot.venue in b.accounts && f.feeBase <= f.filledQty
    && var held := if i.slot in b.positions then b.positions[i.slot].quantity else 0.0;
    && (i.side.Buy? ==> f.quoteQty + f.feeQuote <= b.accounts[i.slot.venue])
    && (i.side.Sell? ==> f.filledQty + f.feeBase <= held && f.feeQuote <= b.accounts[i.slot.venue] + f.quoteQty)
  }

  lemma AcceptableIs(i: Intent, f: Fill)
    ensures FillError(i, f).None? <==> Acceptable(i, f)
  {
    NothingCosts(i);
    if f.filledQty == 0.0 {
      assert f.filledQty * i.limit == 0.0;
    }
  }

  lemma NothingCosts(i: Intent)
    ensures Notional(0.0, i.limit) == 0.0
  {
  }

  /** A result of a pending order is accepted exactly when it is acceptable and, if terminal, bearable. */
  lemma AcceptedExactly(b: Book, r: Record, f: Fill)
    requires Pending(b, r) && Solvent(b)
    ensures Finish(b, r, f).Ok? <==>
      Acceptable(r.intent, f) && (!Terminal(f.status.value) || Bearable(b, r.intent, f))
  {
    AcceptableIs(r.intent, f);
    hide FillError, Basis, Notional;
    assert PositionAt(b, r.intent.slot).quantity >= 0.0;
  }

  /** The record of an accounted order is that of an acceptable result, for the order that was made. */
  predicate Clean(r: Record) {
    r.accounted ==>
      && Terminal(r.status) && 0.0 <= r.filledQty <= r.intent.quantity && (r.filledQty > 0.0 <==> r.quoteQty > 0.0)
      && 0.0 <= r.feeBase <= r.filledQty && r.feeQuote >= 0.0
      && (r.status.Filled? ==> r.filledQty > 0.0) && (r.status.Rejected? ==> r.filledQty == 0.0)
      && (r.filledQty == 0.0 ==> r.feeQuote == 0.0)
      && (r.intent.side.Buy? ==> r.quoteQty <= r.filledQty * r.intent.limit)
      && (r.intent.side.Sell? ==> r.quoteQty >= r.filledQty * r.intent.limit)
  }

  // Over whole runs

  /** Every row holds an order within the order limit, and what was accounted under it is clean. */
  predicate RowsAdmitted(b: Book, limits: Limits) {
    forall k :: k in b.orders ==>
      && b.orders[k].data.intent == b.orders[k].fingerprint && CostOf(b.orders[k].fingerprint) <= limits.maxOrder
      && Clean(b.orders[k].data)
  }

  /** A record in memory that may be written: not accounted, of the order of its row. */
  predicate Writable(b: Book, r: Record) {
    Carries(b, r) && !r.accounted
  }

  predicate HandsOpen(b: Book, actors: map<nat, Actor>) {
    forall a :: a in actors && (actors[a].Reserved? || actors[a].Marked? || actors[a].Answered?) ==>
      Writable(b, actors[a].record)
  }

  lemma SaveAdmitted(b: Book, limits: Limits, r: Record)
    requires RowsAdmitted(b, limits) && Writable(b, r)
    ensures RowsAdmitted(Save(b, r), limits)
  {
    hide CostOf;
  }

  lemma CleanIs(i: Intent, r: Record, f: Fill)
    requires r.intent == i && Acceptable(i, f) && f.feeBase <= f.filledQty && Terminal(f.status.value)
    ensures Clean(Accounted(r, f))
  {
  }

  lemma FinishAdmitted(b: Book, limits: Limits, r: Record, f: Fill)
    requires RowsAdmitted(b, limits) && Writable(b, r) && Finish(b, r, f).Ok?
    ensures RowsAdmitted(Finish(b, r, f).value.0, limits)
  {
    AcceptableIs(r.intent, f);
    hide FillError, CostOf, Basis, Clean;
    if !b.orders[r.intent.key].data.accounted {
      if Terminal(f.status.value) {
        CleanIs(r.intent, r, f);
        hide RowsAdmitted;
        FinishTerminal(b, r, f);
        AccountedAdmitted(b, limits, r, f);
      } else {
        assert Clean(r.(status := f.status.value, exchangeId := f.exchangeId)) by { OpenIsClean(r.(status := f.status.value, exchangeId := f.exchangeId)); }
        SaveAdmitted(b, limits, r.(status := f.status.value, exchangeId := f.exchangeId));
      }
    }
  }

  lemma OpenIsClean(r: Record)
    requires !r.accounted
    ensures Clean(r)
  {
  }

  lemma AccountedAdmitted(b: Book, limits: Limits, r: Record, f: Fill)
    requires RowsAdmitted(b, limits) && Writable(b, r) && f.status.Some? && Clean(Accounted(r, f))
    ensures forall b1: Book ::
      b1.orders == b.orders[r.intent.key := AccountedRow(b.orders[r.intent.key], r, f)] ==> RowsAdmitted(b1, limits)
  {
    hide CostOf, Clean;
  }

  ghost predicate AllAdmitted(s: Sys, limits: Limits) {
    RowsAdmitted(s.book, limits) && HandsOpen(s.book, s.actors)
  }

  predicate KeepsIntents(b: Book, b1: Book) {
    forall k :: k in b.orders ==> k in b1.orders && b1.orders[k].fingerprint == b.orders[k].fingerprint
  }

  lemma HandsKept(b: Book, b1: Book, actors: map<nat, Actor>)
    requires HandsOpen(b, actors) && KeepsIntents(b, b1)
    ensures HandsOpen(b1, actors)
  {
  }

  lemma HandsAt(b: Book, actors: map<nat, Actor>, a: nat, actor: Actor)
    requires HandsOpen(b, actors)
    requires actor.Reserved? || actor.Marked? || actor.Answered? ==> Writable(b, actor.record)
    ensures HandsOpen(b, actors[a := actor]) && HandsOpen(b, actors - {a})
  {
  }

  lemma InsertAdmitted(b: Book, b1: Book, limits: Limits, i: Intent, row: Row)
    requires RowsAdmitted(b, limits) && b1.orders == b.orders[i.key := row]
    requires row.fingerprint == i && row.data == NewRecord(i) && CostOf(i) <= limits.maxOrder
    ensures RowsAdmitted(b1, limits) && Writable(b1, NewRecord(i)) && (i.key !in b.orders ==> KeepsIntents(b, b1))
  {
    hide CostOf;
  }

  lemma ReserveAdmitted(s: Sys, limits: Limits, step: Step)
    requires AllAdmitted(s, limits) && step.DoReserve? && step.a in s.actors && s.actors[step.a].Ready?
    ensures AllAdmitted(ReserveStep(s, limits, step), limits)
  {
    hide Reserve, Finish, AdmissibleQuote, PaperFill, ValidIntent, RowsAdmitted, HandsOpen, Allowed, KeepsIntents, CostOf,
      NewRecord;
    var i, a := s.actors[step.a].intent, step.a;
    HandsAt(s.book, s.actors, a, Ready(i));
    if i.key !in s.book.orders {
      var remote := if limits.paper then None else step.remote;
      if Reserve(s.book, limits, step.mode, i, remote, step.guard, step.now).Ok? {
        var b1 := Reserve(s.book, limits, step.mode, i, remote, step.guard, step.now).value;
        ReserveWrites(s.book, limits, step, i, remote);
        InsertAdmitted(s.book, b1, limits, i, b1.orders[i.key]);
        HandsKept(s.book, b1, s.actors);
        HandsAt(b1, s.actors, a, Reserved(NewRecord(i)));
        if limits.paper && Finish(b1, NewRecord(i), PaperFill(i, step.quote)).Ok? {
          var b2 := Finish(b1, NewRecord(i), PaperFill(i, step.quote)).value.0;
          FinishAdmitted(b1, limits, NewRecord(i), PaperFill(i, step.quote));
          FinishSame(b1, NewRecord(i), PaperFill(i, step.quote));
          SameKeeps(b1, b2);
          HandsKept(b1, b2, s.actors);
          HandsAt(b2, s.actors, a, Ready(i));
        }
      }
    }
  }

  lemma ReserveWrites(b: Book, limits: Limits, step: Step, i: Intent, remote: Option<Balances>)
    requires step.DoReserve? && Reserve(b, limits, step.mode, i, remote, step.guard, step.now).Ok?
    ensures var b1 := Reserve(b, limits, step.mode, i, remote, step.guard, step.now).value;
      && i.key in b1.orders && b1.orders == b.orders[i.key := b1.orders[i.key]]
      && b1.orders[i.key].fingerprint == i && b1.orders[i.key].data == NewRecord(i) && CostOf(i) <= limits.maxOrder
  {
    ReservedExactly(b, limits, step.mode, i, remote, step.guard, step.now);
    hide Reserve, CanBuy, CanSell, Stops, Terminal, CostOf;
  }

  lemma SameKeeps(b: Book, b1: Book)
    requires Same(b, b1)
    ensures KeepsIntents(b, b1)
  {
  }

  lemma MarkAdmitted(s: Sys, limits: Limits, a: nat, mode: RiskMode)
    requires AllAdmitted(s, limits) && a in s.actors && s.actors[a].Reserved?
    ensures AllAdmitted(MarkStep(s, limits, a, mode), limits)
  {
    var r := s.actors[a].record;
    assert Writable(s.book, r);
    hide Finish, RowsAdmitted, HandsOpen, KeepsIntents, Save;
    var blocked := RiskModeError(mode, limits.protectiveExit, r.intent.side);
    HandsAt(s.book, s.actors, a, Checked(r.intent.key));
    if Mark(s.book, limits, mode, r).Ok? {
      MarkSame(s.book, limits, mode, r);
      var b1 := Mark(s.book, limits, mode, r).value.0;
      SameKeeps(s.book, b1);
      HandsKept(s.book, b1, s.actors);
      if blocked.Some? {
        FinishAdmitted(s.book, limits, r.(rejection := blocked), REJECTED_FILL);
        HandsAt(b1, s.actors, a, Checked(r.intent.key));
      } else {
        SaveAdmitted(s.book, limits, r.(status := Submitting));
        HandsAt(b1, s.actors, a, Marked(r.(status := Submitting)));
      }
    }
  }

  lemma RowWritable(b: Book, limits: Limits, k: OrderKey)
    requires RowsAdmitted(b, limits) && k in b.orders && b.orders[k].fingerprint.key == k && !b.orders[k].data.accounted
    ensures Writable(b, b.orders[k].data)
  {
  }

  /** Rows are filed under the keys of their orders. */
  predicate Filed(b: Book) {
    forall k :: k in b.orders ==> b.orders[k].fingerprint.key == k
  }

  lemma SettleRows(s: Sys, limits: Limits, a: nat)
    requires AllAdmitted(s, limits) && Filed(s.book) && a in s.actors
    ensures RowsAdmitted(SettleStep(s, a).book, limits)
  {
    assert s.actors[a].Answered? ==> Writable(s.book, s.actors[a].record);
    hide Finish, RowsAdmitted, HandsOpen, Save, Writable;
    match s.actors[a]
    case Answered(r, f) => if Finish(s.book, r, f).Ok? { FinishAdmitted(s.book, limits, r, f); }
    case Blocked(k, why) =>
      if k in s.book.orders && !s.book.orders[k].data.accounted {
        var r := s.book.orders[k].data.(rejection := Some(why));
        CopyWritable(s.book, limits, k, r);
        if Finish(s.book, r, REJECTED_FILL).Ok? {
          FinishAdmitted(s.book, limits, r, REJECTED_FILL);
        }
      }
    case Failed(k) =>
      if k in s.book.orders && !s.book.orders[k].data.accounted {
        var r := s.book.orders[k].data.(status := Unknown, error := Some(OutcomeUnknown));
        CopyWritable(s.book, limits, k, r);
        SaveAdmitted(s.book, limits, r);
      }
    case Looked(k, answer) =>
      if k in s.book.orders && !s.book.orders[k].data.accounted {
        LookedRows(s.book, limits, k, answer);
      }
    case _ =>
  }

  /** A copy of the row's record with another status or reason may be written back. */
  lemma CopyWritable(b: Book, limits: Limits, k: OrderKey, r: Record)
    requires RowsAdmitted(b, limits) && Filed(b) && k in b.orders && !b.orders[k].data.accounted
    requires r.intent == b.orders[k].data.intent && !r.accounted
    ensures Writable(b, r)
  {
  }

  lemma LookedRows(b: Book, limits: Limits, k: OrderKey, answer: Option<Fill>)
    requires RowsAdmitted(b, limits) && Filed(b) && k in b.orders && !b.orders[k].data.accounted
    ensures RowsAdmitted(ReconcileOrder(b, k, answer), limits)
  {
    hide Finish, RowsAdmitted, Save, Writable;
    var r := b.orders[k].data;
    CopyWritable(b, limits, k, r);
    CopyWritable(b, limits, k, r.(status := Unknown));
    CopyWritable(b, limits, k, r.(status := Unknown, error := Some(NotConfirmed)));
    SaveAdmitted(b, limits, r.(status := Unknown));
    SaveAdmitted(b, limits, r.(status := Unknown, error := Some(NotConfirmed)));
    if answer.Some? && Finish(b, r, answer.value).Ok? {
      FinishAdmitted(b, limits, r, answer.value);
    }
  }

  lemma SettleAdmitted(s: Sys, limits: Limits, a: nat)
    requires AllAdmitted(s, limits) && Filed(s.book) && a in s.actors
    ensures AllAdmitted(SettleStep(s, a), limits)
  {
    SettleRows(s, limits, a);
    SettleSame(s, a);
    hide Finish, SettleBlocked, SettleUnknown, ReconcileOrder, RowsAdmitted, HandsOpen, Same, KeepsIntents;
    var b1 := SettleStep(s, a).book;
    SameKeeps(s.book, b1);
    HandsKept(s.book, b1, s.actors);
    HandsAt(b1, s.actors, a, Checked(OtherKey(0)));
    if s.actors[a].Answered? {
      HandsAt(b1, s.actors, a, Failed(s.actors[a].record.intent.key));
    }
  }

  lemma SendAdmitted(s: Sys, limits: Limits, step: Step)
    requires AllAdmitted(s, limits) && step.Send? && step.a in s.actors && s.actors[step.a].Marked?
    ensures AllAdmitted(Next(s, limits, step), limits)
  {
    var r := s.actors[step.a].record;
    assert Writable(s.book, r);
    hide RowsAdmitted, HandsOpen;
    HandsAt(s.book, s.actors, step.a, Next(s, limits, step).actors[step.a]);
  }

  lemma QuietAdmitted(s: Sys, limits: Limits, step: Step)
    requires AllAdmitted(s, limits)
    requires step.Bind? || step.Execute? || step.ReadIntent? || step.Persist? || step.Call? || step.Lookup? || step.Crash?
    ensures AllAdmitted(Next(s, limits, step), limits)
  {
    hide CostOf, Clean, ValidIntent;
  }

  lemma StepAdmitted(s: Sys, limits: Limits, step: Step)
    requires AllAdmitted(s, limits) && Filed(s.book)
    ensures AllAdmitted(Next(s, limits, step), limits) && Filed(Next(s, limits, step).book)
  {
    StepFiled(s, limits, step);
    hide AllAdmitted, Filed, ReserveStep, MarkStep, SettleStep, SendStep;
    match step
    case DoReserve(a, _, _, _, _, _) => if a in s.actors && s.actors[a].Ready? { ReserveAdmitted(s, limits, step); }
    case DoMark(a, mode) => if a in s.actors && s.actors[a].Reserved? { MarkAdmitted(s, limits, a, mode); }
    case Send(a, _, _, _, _) => if a in s.actors && s.actors[a].Marked? { SendAdmitted(s, limits, step); }
    case Settle(a) => if a in s.actors { SettleAdmitted(s, limits, a); }
    case _ => QuietAdmitted(s, limits, step);
  }

  lemma StepFiled(s: Sys, limits: Limits, step: Step)
    requires Filed(s.book)
    ensures Filed(Next(s, limits, step).book)
  {
    if step.DoReserve? {
      hide ReserveStep;
      if step.a in s.actors && s.actors[step.a].Ready? {
        ReserveSame(s, limits, step);
      }
    } else {
      StepSame(s, limits, step);
      hide Next;
    }
  }

  /** In every reachable state, whatever the exchange reports: each order cost at most the order limit, its record is of
      the order that was made, and what was accounted under it is clean. */
  lemma {:induction false} EveryOrderWithinLimits(limits: Limits, steps: seq<Step>)
    ensures AllAdmitted(Run(limits, steps), limits) && Filed(Run(limits, steps).book)
  {
    hide Next;
    if steps != [] {
      EveryOrderWithinLimits(limits, steps[..|steps| - 1]);
      StepAdmitted(Run(limits, steps[..|steps| - 1]), limits, steps[|steps| - 1]);
    }
  }
}
