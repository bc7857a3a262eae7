/**
 The trading ledger of one tenant in one mode, as values, together with the
 function that each of its transactions computes. Amounts are exact reals.
 */
module Ledger {
  import opened Core
  import opened Sums

  datatype Venue = Binance | Polymarket
  datatype Side = Buy | Sell
  datatype RiskMode = Active | ReduceOnly | Frozen

  /** Keys of workflow executions (`pipeline:<run>`) and of every other caller. */
  datatype OrderKey = PipelineKey(run: nat) | OtherKey(name: nat)

  datatype Slot = Slot(venue: Venue, instrument: nat)

  datatype Intent = Intent(key: OrderKey, slot: Slot, side: Side, quantity: real, limit: real, quoteTime: real)

  predicate ValidIntent(i: Intent) {
    && i.quantity > 0.0 && i.limit > 0.0 && i.quoteTime > 0.0
    && (i.slot.venue.Polymarket? ==> i.limit < 1.0)
  }

  datatype Status =
    | Preparing | Submitting | Unknown | New | PartiallyFilled | SettlementPending
    | Filled | Expired | Canceled | Rejected

  predicate Open(s: Status) {
    s.Preparing? || s.Submitting? || s.Unknown? || s.New? || s.PartiallyFilled? || s.SettlementPending?
  }

  datatype TradingError =
    | InvalidIntent | QuoteRefused | KeyConflict | KillSwitch | ReduceOnlyBlocked | UnresolvedOrder | MaxOrder | MaxDaily
    | NoBudget | InsufficientCash | MaxPosition | NoShortSelling | LeaseLost
    | SideMismatch | UnknownStatus | InvalidNumber | InvalidQuantities | InvalidFeeOrRejection
    | LimitViolated | PositionDrift | BudgetOrFeeDrift | MissingAccount | OutcomeUnknown | NotConfirmed | NotConfigured | AccountChanged | AccountTaken

  /** The JSON copy of an order: what `submit` holds in memory between transactions. */
  datatype Record = Record(
    intent: Intent, status: Status, filledQty: real, quoteQty: real, feeBase: real, feeQuote: real,
    exchangeId: nat, accounted: bool, error: Option<TradingError>, rejection: Option<TradingError>)

  /** A row of `hub_trade_orders`; the fingerprint is injective, so it is the intent itself. */
  datatype Row = Row(
    fingerprint: Intent, status: Status, created: real, day: int, reserved: real, data: Record)

  datatype Position = Position(quantity: real, cost: real, realized: real)

  /** `funding` remembers the amount each account row was created with. */
  datatype Book = Book(
    accounts: map<Venue, real>, funding: map<Venue, real>,
    positions: map<Slot, Position>, orders: map<OrderKey, Row>)

  datatype Limits = Limits(
    paper: bool, maxOrder: real, maxPosition: real, maxDaily: real, protectiveExit: bool)

  datatype Balances = Balances(cash: real, quantity: real)

  /** What an adapter reports about an order. `status` is None when it is not recognised. */
  datatype Fill = Fill(
    status: Option<Status>, side: Option<Side>, filledQty: real, quoteQty: real,
    feeBase: real, feeQuote: real, exchangeId: nat)

  const PAPER_CASH := 1000.0

  const REJECTED_FILL := Fill(Some(Rejected), None, 0.0, 0.0, 0.0, 0.0, 0)

  function EmptyBook(): Book {
    Book(map[], map[], map[], map[])
  }

  function Notional(quantity: real, price: real): real {
    quantity * price
  }

  /** The estimated fee of a fill; only Polymarket's rate depends on the price. */
  function Fee(venue: Venue, quantity: real, price: real): real {
    match venue
    case Binance => quantity * price * 0.001
    case Polymarket => quantity * 0.07 * price * (1.0 - price)
  }

  function Reservation(i: Intent): real {
    Notional(i.quantity, i.limit) + Fee(i.slot.venue, i.quantity, i.limit)
  }

  /** The UTC calendar day that contains a moment. */
  function DayOf(now: real): int {
    (now / 86400.0).Floor
  }

  function RiskModeError(mode: RiskMode, protectiveExit: bool, side: Side): Option<TradingError> {
    match mode
    case Active => None
    case ReduceOnly => if side.Sell? then None else Some(ReduceOnlyBlocked)
    case Frozen => if protectiveExit && side.Sell? then None else Some(KillSwitch)
  }

  function NewRecord(i: Intent): Record {
    Record(i, Preparing, 0.0, 0.0, 0.0, 0.0, 0, false, None, None)
  }

  // Aggregates the risk check reads

  ghost predicate HasOpenOrder(b: Book) {
    exists k :: k in b.orders && Open(b.orders[k].status)
  }

  ghost function BuyOn(day: int): (OrderKey, Row) -> real {
    (k: OrderKey, row: Row) => if row.day == day && row.data.intent.side.Buy? then row.reserved else 0.0
  }

  ghost function DailyBuys(b: Book, day: int): real {
    Sum(b.orders, BuyOn(day))
  }

  ghost function ExposureAt(slot: Slot, limit: real): (Slot, Position) -> real {
    (s: Slot, p: Position) => if s == slot then Max(p.cost, Notional(p.quantity, limit)) else p.cost
  }

  ghost function Exposure(b: Book, slot: Slot, limit: real): real {
    Sum(b.positions, ExposureAt(slot, limit))
  }

  /** `_risk`: Ok carries the book with the paper account created if it was missing. */
  ghost function Risk(
    b: Book, limits: Limits, mode: RiskMode, i: Intent, remote: Option<Balances>, now: real)
    : Result<Book, TradingError>
  {
    var reserved := Reservation(i);
    var venue := i.slot.venue;
    var blocked := RiskModeError(mode, limits.protectiveExit, i.side);
    if blocked.Some? then Err(blocked.value)
    else if HasOpenOrder(b) then Err(UnresolvedOrder)
    else if reserved > limits.maxOrder then Err(MaxOrder)
    else if i.side.Buy? && DailyBuys(b, DayOf(now)) + reserved > limits.maxDaily then Err(MaxDaily)
    else
      var b1 := if limits.paper then OpenAccount(b, venue, PAPER_CASH) else b;
      if venue !in b1.accounts then Err(NoBudget)
      else if i.side.Buy? then
        if b1.accounts[venue] < reserved || (remote.Some? && remote.value.cash < reserved) then Err(InsufficientCash)
        else if Exposure(b1, i.slot, i.limit) + reserved > limits.maxPosition then Err(MaxPosition)
        else Ok(b1)
      else
        if i.slot !in b1.positions || b1.positions[i.slot].quantity < i.quantity
           || (remote.Some? && remote.value.quantity < i.quantity) then Err(NoShortSelling)
        else Ok(b1)
  }

  /** INSERT OR IGNORE of an account row. */
  function OpenAccount(b: Book, venue: Venue, cash: real): Book {
    if venue in b.accounts then b
    else b.(accounts := b.accounts[venue := cash], funding := b.funding[venue := cash])
  }

  /** `bind_execution`: at startup the operator allots a venue's budget, at most a day's. */
  function BindExecution(b: Book, limits: Limits, venue: Venue, funding: real): Result<Book, TradingError> {
    if limits.paper || funding <= 0.0 || limits.maxDaily <= 0.0 then Err(NotConfigured)
    else Ok(OpenAccount(b, venue, Min(funding, limits.maxDaily)))
  }

  /** `_existing`: the stored order, nothing, or a conflict of intents. */
  function Existing(b: Book, i: Intent): Result<Option<Record>, TradingError> {
    if i.key !in b.orders then Ok(None)
    else if b.orders[i.key].fingerprint != i then Err(KeyConflict)
    else Ok(Some(b.orders[i.key].data))
  }

  function Insert(b: Book, i: Intent, now: real): Book {
    b.(orders := b.orders[i.key := Row(i, Preparing, now, DayOf(now), Reservation(i), NewRecord(i))])
  }

  /** The first transaction of `submit`, up to and including the INSERT. */
  ghost function Reserve(
    b: Book, limits: Limits, mode: RiskMode, i: Intent, remote: Option<Balances>, guard: bool, now: real)
    : Result<Book, TradingError>
  {
    match Risk(b, limits, mode, i, remote, now)
    case Err(e) => Err(e)
    case Ok(b1) => if !guard then Err(LeaseLost) else Ok(Insert(b1, i, now))
  }

  /** `_save`: UPDATE by key; it overwrites whatever copy the row held. */
  function Save(b: Book, r: Record): Book {
    if r.intent.key !in b.orders then b
    else b.(orders := b.orders[r.intent.key := b.orders[r.intent.key].(status := r.status, data := r)])
  }

  /** The validations `_finish` makes before it looks at the ledger. */
  function FillError(i: Intent, f: Fill): Option<TradingError> {
    if f.side.Some? && f.side.value != i.side then Some(SideMismatch)
    else if f.status.None? then Some(UnknownStatus)
    else if f.filledQty < 0.0 || f.quoteQty < 0.0 || f.feeBase < 0.0 || f.feeQuote < 0.0 then Some(InvalidNumber)
    else if f.filledQty > i.quantity || ((f.filledQty == 0.0) != (f.quoteQty == 0.0))
            || (f.status.value.Filled? && f.filledQty == 0.0) then Some(InvalidQuantities)
    else if (f.status.value.Rejected? && f.filledQty != 0.0)
            || (f.filledQty == 0.0 && (f.feeBase != 0.0 || f.feeQuote != 0.0)) then Some(InvalidFeeOrRejection)
    else if f.filledQty != 0.0
            && ((i.side.Buy? && f.quoteQty > Notional(f.filledQty, i.limit))
                || (i.side.Sell? && f.quoteQty < Notional(f.filledQty, i.limit))) then Some(LimitViolated)
    else None
  }

  function PositionAt(b: Book, slot: Slot): Position {
    if slot in b.positions then b.positions[slot] else Position(0.0, 0.0, 0.0)
  }

  /** The cost that leaves with `removed` out of `held`. */
  function Basis(cost: real, removed: real, held: real): real {
    if held != 0.0 then cost * removed / held else 0.0
  }

  /** The cash and position that a terminal fill leads to. */
  function Account(cash: real, p: Position, i: Intent, f: Fill): Result<(real, Position), TradingError> {
    if i.side.Buy? then
      var cash1 := cash - (f.quoteQty + f.feeQuote);
      var p1 := Position(p.quantity + (f.filledQty - f.feeBase), p.cost + (f.quoteQty + f.feeQuote), p.realized);
      if cash1 < 0.0 || p1.quantity < 0.0 || f.feeBase > f.filledQty then Err(BudgetOrFeeDrift) else Ok((cash1, p1))
    else
      var removed := f.filledQty + f.feeBase;
      if removed > p.quantity then Err(PositionDrift)
      else
        var basis := Basis(p.cost, removed, p.quantity);
        var cash1 := cash + (f.quoteQty - f.feeQuote);
        var p1 := Position(p.quantity - removed, p.cost - basis, p.realized + (f.quoteQty - f.feeQuote - basis));
        if cash1 < 0.0 || p1.quantity < 0.0 || f.feeBase > f.filledQty then Err(BudgetOrFeeDrift) else Ok((cash1, p1))
  }

  function Accounted(r: Record, f: Fill): Record
    requires f.status.Some?
  {
    r.(status := f.status.value, filledQty := f.filledQty, quoteQty := f.quoteQty, feeBase := f.feeBase,
       feeQuote := f.feeQuote, exchangeId := f.exchangeId, accounted := true, error := None)
  }

  /** `_finish`: an error rolls the enclosing transaction back. */
  function Finish(b: Book, r: Record, f: Fill): Result<(Book, Record), TradingError> {
    var i := r.intent;
    var bad := FillError(i, f);
    if bad.Some? then Err(bad.value)
    else if i.key in b.orders && b.orders[i.key].data.accounted then Ok((b, b.orders[i.key].data))
    else if Open(f.status.value) then
      var r1 := r.(status := f.status.value, exchangeId := f.exchangeId);
      Ok((Save(b, r1), r1))
    else if i.slot.venue !in b.accounts then Err(MissingAccount)
    else
      match Account(b.accounts[i.slot.venue], PositionAt(b, i.slot), i, f)
      case Err(e) => Err(e)
      case Ok((cash, p)) =>
        var r1 := Accounted(r, f);
        var b1 := b.(accounts := b.accounts[i.slot.venue := cash], positions := b.positions[i.slot := p]);
        Ok((SetReserved(Save(b1, r1), i.key, f.quoteQty + f.feeQuote + Notional(f.feeBase, i.limit)), r1))
  }

  function SetReserved(b: Book, k: OrderKey, reserved: real): Book {
    if k !in b.orders then b
    else b.(orders := b.orders[k := b.orders[k].(reserved := reserved)])
  }

  /** The second transaction of `submit`: refuse under a changed risk mode, or announce the send. */
  function Mark(b: Book, limits: Limits, mode: RiskMode, r: Record): Result<(Book, Record), TradingError> {
    var blocked := RiskModeError(mode, limits.protectiveExit, r.intent.side);
    if blocked.Some? then Finish(b, r.(rejection := blocked), REJECTED_FILL)
    else
      var r1 := r.(status := Submitting);
      Ok((Save(b, r1), r1))
  }

  /** The handler for a guard that failed before the request was posted. */
  function SettleBlocked(b: Book, k: OrderKey, why: TradingError): Result<(Book, Record), TradingError>
    requires k in b.orders
  {
    var r := b.orders[k].data;
    if r.accounted || !Open(r.status) then Ok((b, r))
    else Finish(b, r.(rejection := Some(why)), REJECTED_FILL)
  }

  /** The handler for every other exception: the outcome stays unknown. */
  function SettleUnknown(b: Book, k: OrderKey): (Book, Record)
    requires k in b.orders
  {
    var r := b.orders[k].data;
    if r.accounted || !Open(r.status) then (b, r)
    else
      var r1 := r.(status := Unknown, error := Some(OutcomeUnknown));
      (Save(b, r1), r1)
  }

  /** One order of `reconcile`, after its lookup returned `answer`. */
  function ReconcileOrder(b: Book, k: OrderKey, answer: Option<Fill>): Book
    requires k in b.orders
  {
    var r := b.orders[k].data;
    if r.accounted then b
    else if answer.None? then Save(b, r.(status := Unknown, error := Some(NotConfirmed)))
    else
      match Finish(b, r, answer.value)
      case Ok((b1, _)) => b1
      case Err(_) => Save(b, r.(status := Unknown))
  }

  // Paper trading

  datatype Quote = Quote(bid: real, ask: real, bidSize: real, askSize: real)

  /** `_check_quote`; the venue's book parser admits prediction prices up to and including one. */
  predicate AdmissibleQuote(q: Quote, i: Intent) {
    var execution := if i.side.Buy? then q.ask else q.bid;
    && 0.0 < q.bid <= q.ask
    && (q.ask - q.bid) / ((q.ask + q.bid) / 2.0) <= 0.15
    && -0.03 <= (i.limit - execution) / execution <= 0.03
    && (i.slot.venue.Polymarket? ==> q.ask <= 1.0)
    && q.bidSize >= 0.0 && q.askSize >= 0.0
  }

  /** The fill that paper mode derives from the displayed top of the book. */
  function PaperFill(i: Intent, q: Quote): Fill {
    var execution := if i.side.Buy? then q.ask else q.bid;
    var crossed := if i.side.Buy? then execution <= i.limit else execution >= i.limit;
    var available := if i.side.Buy? then q.askSize else q.bidSize;
    var filled := if crossed then Min(i.quantity, available) else 0.0;
    Fill(Some(if filled == i.quantity then Filled else Expired), None, filled, Notional(filled, execution),
         0.0, Fee(i.slot.venue, filled, execution), 1)
  }

  /** A paper `submit`: one transaction that reserves and accounts the order. */
  ghost function PaperSubmit(
    b: Book, limits: Limits, mode: RiskMode, i: Intent, q: Quote, guard: bool, now: real)
    : Result<(Book, Record), TradingError>
  {
    if !ValidIntent(i) then Err(InvalidIntent)
    else
      match Existing(b, i)
      case Err(e) => Err(e)
      case Ok(Some(stored)) => Ok((b, stored))
      case Ok(None) =>
        if !AdmissibleQuote(q, i) then Err(QuoteRefused)
        else
          match Reserve(b, limits, mode, i, None, guard, now)
          case Err(e) => Err(e)
          case Ok(b1) => Finish(b1, NewRecord(i), PaperFill(i, q))
  }
}
