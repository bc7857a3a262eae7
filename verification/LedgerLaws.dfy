/** What every ledger transaction keeps: solvency, conservation, and agreement with the orders. */
module LedgerLaws {
  import opened Core
  import opened Sums
  import opened Ledger

  // The ledger described by its history

  /** Cash an accounted order moved at a venue. */
  function CashTerm(row: Row, v: Venue): real {
    if !row.data.accounted || row.data.intent.slot.venue != v then 0.0
    else if row.data.intent.side.Buy? then -(row.data.quoteQty + row.data.feeQuote)
    else row.data.quoteQty - row.data.feeQuote
  }

  /** Inventory an accounted order moved in a slot. */
  function QuantityTerm(row: Row, slot: Slot): real {
    if !row.data.accounted || row.data.intent.slot != slot then 0.0
    else if row.data.intent.side.Buy? then row.data.filledQty - row.data.feeBase
    else -(row.data.filledQty + row.data.feeBase)
  }

  /** Cost not yet returned by sales, less profit already booked. */
  function CarriedTerm(s: Slot, p: Position, v: Venue): real {
    if s.venue == v then p.cost - p.realized else 0.0
  }

  ghost function CashFlow(v: Venue): (OrderKey, Row) -> real {
    (k: OrderKey, row: Row) => CashTerm(row, v)
  }

  ghost function QuantityFlow(slot: Slot): (OrderKey, Row) -> real {
    (k: OrderKey, row: Row) => QuantityTerm(row, slot)
  }

  ghost function Carried(v: Venue): (Slot, Position) -> real {
    (s: Slot, p: Position) => CarriedTerm(s, p, v)
  }

  ghost predicate Conserved(b: Book) {
    forall v :: v in b.accounts && v in b.funding ==>
      b.accounts[v] + Sum(b.positions, Carried(v)) == b.funding[v]
  }

  ghost predicate CashMatchesHistory(b: Book) {
    forall v :: v in b.accounts && v in b.funding ==>
      b.accounts[v] == b.funding[v] + Sum(b.orders, CashFlow(v))
  }

  ghost predicate QuantityMatchesHistory(b: Book) {
    forall s :: PositionAt(b, s).quantity == Sum(b.orders, QuantityFlow(s))
  }

  predicate Solvent(b: Book) {
    && (forall v :: v in b.accounts ==> b.accounts[v] >= 0.0)
    && (forall s :: s in b.positions ==> b.positions[s].quantity >= 0.0 && b.positions[s].cost >= 0.0)
  }

  /** A row's status column mirrors its record, and terminal means accounted. */
  predicate RowOk(k: OrderKey, row: Row) {
    && row.fingerprint == row.data.intent && row.fingerprint.key == k && ValidIntent(row.fingerprint)
    && row.status == row.data.status
    && (row.data.accounted <==> !Open(row.data.status))
  }

  ghost predicate Tables(b: Book) {
    && b.accounts.Keys == b.funding.Keys
    && (forall s :: s in b.positions ==> s.venue in b.accounts)
    && (forall k :: k in b.orders ==> RowOk(k, b.orders[k]) && b.orders[k].fingerprint.slot.venue in b.accounts)
  }

  ghost predicate Inv(b: Book) {
    Tables(b) && Solvent(b) && Conserved(b) && CashMatchesHistory(b) && QuantityMatchesHistory(b)
  }

  lemma RowsOk(b: Book)
    requires Inv(b)
    ensures forall k :: k in b.orders ==> RowOk(k, b.orders[k]) && b.orders[k].fingerprint.slot.venue in b.accounts
  {
  }

  lemma EmptyInv()
    ensures Inv(EmptyBook())
  {
  }

  // Which rows a transaction may touch

  /** Accounted orders are frozen; no order disappears or changes its intent, creation time or day. */
  predicate Preserves(b: Book, b1: Book) {
    && (forall k :: k in b.orders ==> k in b1.orders && SameOrder(b.orders[k], b1.orders[k]))
    && (forall v :: v in b.funding ==> v in b1.funding && b1.funding[v] == b.funding[v])
  }

  predicate SameOrder(r: Row, r1: Row) {
    && r1.fingerprint == r.fingerprint && r1.created == r.created && r1.day == r.day
    && (r.data.accounted ==> r1 == r)
  }

  lemma PreservesTransitive(a: Book, b: Book, c: Book)
    requires Preserves(a, b) && Preserves(b, c)
    ensures Preserves(a, c)
  {
  }

  /** The record held in memory describes a row that is still waiting for its outcome. */
  ghost predicate Pending(b: Book, r: Record) {
    && r.intent.key in b.orders
    && b.orders[r.intent.key].fingerprint == r.intent
    && !b.orders[r.intent.key].data.accounted
    && !r.accounted
  }

  // Small steps

  lemma CashPut(orders: map<OrderKey, Row>, v: Venue, k: OrderKey, row: Row)
    requires k in orders ==> !orders[k].data.accounted
    ensures Sum(orders[k := row], CashFlow(v)) == Sum(orders, CashFlow(v)) + CashTerm(row, v)
  {
    SumPut(orders, CashFlow(v), k, row);
  }

  lemma QuantityPut(orders: map<OrderKey, Row>, s: Slot, k: OrderKey, row: Row)
    requires k in orders ==> !orders[k].data.accounted
    ensures Sum(orders[k := row], QuantityFlow(s)) == Sum(orders, QuantityFlow(s)) + QuantityTerm(row, s)
  {
    SumPut(orders, QuantityFlow(s), k, row);
  }

  lemma CarriedPut(b: Book, v: Venue, s: Slot, p: Position)
    ensures Sum(b.positions[s := p], Carried(v))
         == Sum(b.positions, Carried(v)) - CarriedTerm(s, PositionAt(b, s), v) + CarriedTerm(s, p, v)
  {
    SumPut(b.positions, Carried(v), s, p);
  }

  /** Writing a row for a pending key shifts each history sum by that row's own term. */
  lemma CashAfterPut(b: Book, k: OrderKey, row: Row, accounts: map<Venue, real>)
    requires CashMatchesHistory(b) && b.accounts.Keys == accounts.Keys
    requires k in b.orders ==> !b.orders[k].data.accounted
    requires forall v :: v in b.accounts && v in b.funding ==> accounts[v] == b.accounts[v] + CashTerm(row, v)
    ensures CashMatchesHistory(Book(accounts, b.funding, b.positions, b.orders[k := row]))
  {
    hide Sum;
    forall v | v in accounts && v in b.funding
      ensures accounts[v] == b.funding[v] + Sum(b.orders[k := row], CashFlow(v))
    {
      CashPut(b.orders, v, k, row);
    }
  }

  lemma QuantityAfterPut(b: Book, k: OrderKey, row: Row, b1: Book)
    requires QuantityMatchesHistory(b) && b1.orders == b.orders[k := row]
    requires k in b.orders ==> !b.orders[k].data.accounted
    requires forall s :: PositionAt(b1, s).quantity == PositionAt(b, s).quantity + QuantityTerm(row, s)
    ensures QuantityMatchesHistory(b1)
  {
    hide Sum;
    forall s ensures PositionAt(b1, s).quantity == Sum(b1.orders, QuantityFlow(s)) {
      QuantityPut(b.orders, s, k, row);
    }
  }

  /** Replacing an unaccounted row by another unaccounted row moves no cash and no inventory. */
  lemma RowSwapInv(b: Book, k: OrderKey, row: Row)
    requires Inv(b) && RowOk(k, row) && !row.data.accounted && row.fingerprint.slot.venue in b.accounts
    requires k in b.orders ==> !b.orders[k].data.accounted && SameOrder(b.orders[k], row)
    ensures Inv(b.(orders := b.orders[k := row]))
    ensures Preserves(b, b.(orders := b.orders[k := row]))
  {
    hide Sum;
    var b1 := b.(orders := b.orders[k := row]);
    assert CashMatchesHistory(b1) by {
      CashAfterPut(b, k, row, b.accounts);
    }
    assert QuantityMatchesHistory(b1) by {
      QuantityAfterPut(b, k, row, b1);
    }
  }

  lemma SaveInv(b: Book, r: Record)
    requires Inv(b) && Pending(b, r) && Open(r.status)
    ensures Inv(Save(b, r)) && Preserves(b, Save(b, r))
  {
    RowSwapInv(b, r.intent.key, b.orders[r.intent.key].(status := r.status, data := r));
  }

  /** No order and no position of a venue exists before its account does. */
  lemma NoAccountNoFlow(b: Book, v: Venue)
    requires Tables(b) && v !in b.accounts
    ensures Sum(b.positions, Carried(v)) == 0.0 && Sum(b.orders, CashFlow(v)) == 0.0
  {
    SumZero(b.positions, Carried(v));
    SumZero(b.orders, CashFlow(v));
  }

  lemma OpenAccountInv(b: Book, v: Venue, cash: real)
    requires Inv(b) && cash >= 0.0
    ensures Inv(OpenAccount(b, v, cash)) && Preserves(b, OpenAccount(b, v, cash))
  {
    hide Sum;
    if v !in b.accounts {
      NoAccountNoFlow(b, v);
      var b1 := OpenAccount(b, v, cash);
      assert forall s :: PositionAt(b1, s) == PositionAt(b, s);
    }
  }

  lemma InsertInv(b: Book, i: Intent, now: real)
    requires Inv(b) && ValidIntent(i) && i.key !in b.orders && i.slot.venue in b.accounts
    ensures Inv(Insert(b, i, now)) && Preserves(b, Insert(b, i, now)) && Pending(Insert(b, i, now), NewRecord(i))
  {
    RowSwapInv(b, i.key, Row(i, Preparing, now, DayOf(now), Reservation(i), NewRecord(i)));
  }

  lemma MulSign(a: real, b: real)
    requires b > 0.0
    ensures a * b > 0.0 <==> a > 0.0
    ensures a * b < 0.0 <==> a < 0.0
  {
  }

  /** `basis` is the part of `cost` that `removed` is of `held`. */
  lemma ProrateBounds(cost: real, removed: real, held: real, basis: real)
    requires 0.0 <= removed <= held && held > 0.0 && cost >= 0.0 && basis * held == cost * removed
    ensures 0.0 <= basis <= cost
    ensures cost > 0.0 ==> (basis == cost <==> removed == held)
  {
    assert (basis - cost) * held == cost * removed - cost * held == -(cost * (held - removed));
    MulSign(basis, held);
    MulSign(basis - cost, held);
    if cost > 0.0 {
      MulSign(held - removed, cost);
    }
  }

  /** Removing part of a holding removes the same part of its cost. */
  lemma Prorate(cost: real, removed: real, held: real)
    requires 0.0 <= removed <= held && cost >= 0.0
    ensures 0.0 <= Basis(cost, removed, held) <= cost
    ensures cost > 0.0 && held > 0.0 ==> (Basis(cost, removed, held) == cost <==> removed == held)
    ensures (cost - Basis(cost, removed, held)) * held == cost * (held - removed)
  {
    if held > 0.0 {
      ProrateBounds(cost, removed, held, cost * removed / held);
    }
  }

  /** The part of the fill's validation that does not involve the limit price. */
  predicate CleanFill(f: Fill) {
    && f.filledQty >= 0.0 && f.quoteQty >= 0.0 && f.feeBase >= 0.0 && f.feeQuote >= 0.0
    && (f.filledQty == 0.0 <==> f.quoteQty == 0.0)
    && (f.filledQty == 0.0 ==> f.feeBase == 0.0 && f.feeQuote == 0.0)
  }

  /** Account keeps cash, quantity and cost non-negative and moves each by exactly the fill. */
  lemma AccountLaws(cash: real, p: Position, i: Intent, f: Fill)
    requires p.quantity >= 0.0 && p.cost >= 0.0 && CleanFill(f)
    requires Account(cash, p, i, f).Ok?
    ensures var (cash1, p1) := Account(cash, p, i, f).value;
      && cash1 >= 0.0 && p1.quantity >= 0.0 && p1.cost >= 0.0
      && cash1 + (p1.cost - p1.realized) == cash + (p.cost - p.realized)
      && (i.side.Buy? ==> cash1 == cash - (f.quoteQty + f.feeQuote)
                          && p1.quantity == p.quantity + (f.filledQty - f.feeBase)
                          && p1.realized == p.realized)
      && (i.side.Sell? ==> cash1 == cash + (f.quoteQty - f.feeQuote)
                           && p1.quantity == p.quantity - (f.filledQty + f.feeBase)
                           && p1.cost * p.quantity == p.cost * p1.quantity
                           && p1.cost <= p.cost)
  {
    hide Basis;
    if i.side.Sell? {
      Prorate(p.cost, f.filledQty + f.feeBase, p.quantity);
    }
  }

  // _finish

  function AccountedRow(row: Row, r: Record, f: Fill): Row
    requires f.status.Some?
  {
    row.(status := f.status.value, data := Accounted(r, f),
         reserved := f.quoteQty + f.feeQuote + Notional(f.feeBase, r.intent.limit))
  }

  /** The book after a terminal fill, written as one update of each table. */
  lemma FinishTerminal(b: Book, r: Record, f: Fill)
    requires Pending(b, r) && Finish(b, r, f).Ok? && !Open(f.status.value)
    ensures r.intent.slot.venue in b.accounts
    ensures Account(b.accounts[r.intent.slot.venue], PositionAt(b, r.intent.slot), r.intent, f).Ok?
    ensures Finish(b, r, f).value.1 == Accounted(r, f)
    ensures var (cash, p) := Account(b.accounts[r.intent.slot.venue], PositionAt(b, r.intent.slot), r.intent, f).value;
      Finish(b, r, f).value.0 == Book(
          b.accounts[r.intent.slot.venue := cash], b.funding, b.positions[r.intent.slot := p],
          b.orders[r.intent.key := AccountedRow(b.orders[r.intent.key], r, f)])
  {
    var k := r.intent.key;
    var row := b.orders[k];
    var saved := row.(status := f.status.value, data := Accounted(r, f));
    assert b.orders[k := saved][k := AccountedRow(row, r, f)] == b.orders[k := AccountedRow(row, r, f)];
  }

  lemma ConservedAfter(b: Book, s: Slot, cash: real, p: Position, orders: map<OrderKey, Row>)
    requires Conserved(b) && s.venue in b.accounts
    requires cash + (p.cost - p.realized) == b.accounts[s.venue] + (PositionAt(b, s).cost - PositionAt(b, s).realized)
    ensures Conserved(Book(b.accounts[s.venue := cash], b.funding, b.positions[s := p], orders))
  {
    hide Sum;
    var b1 := Book(b.accounts[s.venue := cash], b.funding, b.positions[s := p], orders);
    forall v | v in b1.accounts && v in b1.funding
      ensures b1.accounts[v] + Sum(b1.positions, Carried(v)) == b1.funding[v]
    {
      CarriedPut(b, v, s, p);
    }
  }

  /** The laws for a book given by its four updates. */
  lemma TerminalLaws(b: Book, r: Record, f: Fill, cash: real, p: Position, b1: Book)
    requires Inv(b) && Pending(b, r) && CleanFill(f) && f.status.Some?
    requires r.intent.slot.venue in b.accounts
    requires Account(b.accounts[r.intent.slot.venue], PositionAt(b, r.intent.slot), r.intent, f) == Ok((cash, p))
    requires b1 == Book(b.accounts[r.intent.slot.venue := cash], b.funding, b.positions[r.intent.slot := p],
                        b.orders[r.intent.key := AccountedRow(b.orders[r.intent.key], r, f)])
    ensures Solvent(b1) && Conserved(b1) && CashMatchesHistory(b1) && QuantityMatchesHistory(b1)
  {
    hide Sum, Account, QuantityMatchesHistory, Conserved;
    var i, row := r.intent, AccountedRow(b.orders[r.intent.key], r, f);
    AccountLaws(b.accounts[i.slot.venue], PositionAt(b, i.slot), i, f);
    ConservedAfter(b, i.slot, cash, p, b1.orders);
    CashAfterPut(b, i.key, row, b1.accounts);
    QuantityAfterFill(b, i, f, row, p, b1);
  }

  lemma QuantityAfterFill(b: Book, i: Intent, f: Fill, row: Row, p: Position, b1: Book)
    requires QuantityMatchesHistory(b) && b1.orders == b.orders[i.key := row] && b1.positions == b.positions[i.slot := p]
    requires i.key in b.orders ==> !b.orders[i.key].data.accounted
    requires p.quantity == PositionAt(b, i.slot).quantity + QuantityTerm(row, i.slot)
    requires forall s :: s != i.slot ==> QuantityTerm(row, s) == 0.0
    ensures QuantityMatchesHistory(b1)
  {
    hide Sum, QuantityMatchesHistory, QuantityTerm;
    assert forall s :: PositionAt(b1, s).quantity == PositionAt(b, s).quantity + QuantityTerm(row, s);
    QuantityAfterPut(b, i.key, row, b1);
  }

  /** Main ledger theorem: a pending order is applied once, and everything else is kept. */
  lemma FinishInv(b: Book, r: Record, f: Fill)
    requires Inv(b) && Pending(b, r) && Finish(b, r, f).Ok?
    ensures Inv(Finish(b, r, f).value.0) && Preserves(b, Finish(b, r, f).value.0)
    ensures Finish(b, r, f).value.0.orders
         == b.orders[r.intent.key := Finish(b, r, f).value.0.orders[r.intent.key]]
    ensures Finish(b, r, f).value.0.orders[r.intent.key].data == Finish(b, r, f).value.1
    ensures Finish(b, r, f).value.1.accounted <==> !Open(f.status.value)
    ensures Finish(b, r, f).value.0.funding == b.funding
  {
    hide Sum, Conserved, CashMatchesHistory, QuantityMatchesHistory;
    if Open(f.status.value) {
      SaveInv(b, r.(status := f.status.value, exchangeId := f.exchangeId));
    } else {
      FinishTerminal(b, r, f);
      var (cash, p) := Account(b.accounts[r.intent.slot.venue], PositionAt(b, r.intent.slot), r.intent, f).value;
      TerminalLaws(b, r, f, cash, p, Finish(b, r, f).value.0);
    }
  }

  /** A rejection is always accepted, and moves nothing. */
  lemma RejectionAccepted(b: Book, r: Record)
    requires Inv(b) && Pending(b, r) && ValidIntent(r.intent)
    ensures Finish(b, r, REJECTED_FILL).Ok?
    ensures Finish(b, r, REJECTED_FILL).value.1.status.Rejected? && Finish(b, r, REJECTED_FILL).value.1.accounted
    ensures Finish(b, r, REJECTED_FILL).value.0.accounts == b.accounts
    ensures forall s :: PositionAt(Finish(b, r, REJECTED_FILL).value.0, s) == PositionAt(b, s)
  {
    hide Sum;
    var i, p := r.intent, PositionAt(b, r.intent.slot);
    assert p.quantity >= 0.0;
    assert i.slot.venue in b.accounts && b.accounts[i.slot.venue] >= 0.0;
    assert Account(b.accounts[i.slot.venue], p, i, REJECTED_FILL) == Ok((b.accounts[i.slot.venue], p)) by {
      assert Basis(p.cost, 0.0, p.quantity) == 0.0;
    }
    FinishTerminal(b, r, REJECTED_FILL);
  }

  // When a holding is empty exactly when its cost is

  ghost predicate BasisMatched(b: Book) {
    forall s :: s in b.positions ==> (b.positions[s].quantity == 0.0 <==> b.positions[s].cost == 0.0)
  }

  /** The one family of accepted fills that leaves cost without inventory: a BUY from flat
      whose base fee takes the whole fill. */
  predicate FeeTakesWholeFill(b: Book, i: Intent, f: Fill) {
    i.side.Buy? && f.filledQty != 0.0 && f.feeBase == f.filledQty && PositionAt(b, i.slot).quantity == 0.0
  }

  lemma AccountBasis(cash: real, p: Position, i: Intent, f: Fill)
    requires p.quantity >= 0.0 && p.cost >= 0.0 && CleanFill(f)
    requires p.quantity == 0.0 <==> p.cost == 0.0
    requires Account(cash, p, i, f).Ok?
    ensures var p1 := Account(cash, p, i, f).value.1;
      (p1.quantity == 0.0 <==> p1.cost == 0.0)
      <==> !(i.side.Buy? && f.filledQty != 0.0 && f.feeBase == f.filledQty && p.quantity == 0.0)
  {
    hide Basis;
    if i.side.Sell? {
      Prorate(p.cost, f.filledQty + f.feeBase, p.quantity);
    }
  }

  lemma BasisMatchedExactly(b: Book, r: Record, f: Fill)
    requires Inv(b) && Pending(b, r) && Finish(b, r, f).Ok? && !Open(f.status.value) && BasisMatched(b)
    ensures BasisMatched(Finish(b, r, f).value.0) <==> !FeeTakesWholeFill(b, r.intent, f)
  {
    hide Sum;
    FinishTerminal(b, r, f);
    var i, b1 := r.intent, Finish(b, r, f).value.0;
    AccountBasis(b.accounts[i.slot.venue], PositionAt(b, i.slot), i, f);
    assert i.slot in b1.positions;
    assert forall s :: s in b.positions && s != i.slot ==> s in b1.positions && b1.positions[s] == b.positions[s];
  }
}
