/** `TradingService` for one tenant and mode: the tables are fields and each transaction is a method. */
module Trading {
  import opened Core
  import opened Sums
  import opened Ledger
  import opened LedgerLaws
  import opened PaperLaws
  import opened PaperOutcomes

  class TradingService {
    const limits: Limits
    var riskMode: RiskMode
    var accounts: map<Venue, real>
    var positions: map<Slot, Position>
    var orders: map<OrderKey, Row>
    var intents: map<OrderKey, Intent>
    var bindings: map<Venue, nat>
    ghost var funding: map<Venue, real>

    ghost function View(): Book
      reads this
    {
      Book(accounts, funding, positions, orders)
    }

    constructor (limits: Limits)
      ensures this.limits == limits && View() == EmptyBook() && intents == map[] && bindings == map[] && riskMode.Active?
    {
      this.limits := limits;
      riskMode := Active;
      accounts, positions, orders, intents, bindings, funding := map[], map[], map[], map[], map[], map[];
    }

    /** `bind_execution`: a venue's ledger belongs to one external account for good, no other tenant may hold that
        account, and a second binding leaves the budget as it is. `matching` is the operator's acknowledgement and the
        adapter's agreement with venue and mode. */
    method BindExecution(venue: Venue, account: nat, amount: real, matching: bool, heldByOther: bool)
      returns (refused: Option<TradingError>)
      modifies this`accounts, this`funding, this`bindings
      ensures refused.None? <==>
        && matching && Ledger.BindExecution(old(View()), limits, venue, amount).Ok?
        && (venue in old(bindings) ==> old(bindings)[venue] == account) && !heldByOther
      ensures refused.None? ==>
        && View() == Ledger.BindExecution(old(View()), limits, venue, amount).value
        && venue in bindings && bindings[venue] == account
        && (forall v :: v in old(bindings) ==> v in bindings && bindings[v] == old(bindings)[v])
      ensures refused.Some? ==> View() == old(View()) && bindings == old(bindings)
    {
      if !matching || limits.paper || amount <= 0.0 || limits.maxDaily <= 0.0 {
        return Some(NotConfigured);
      }
      if venue in bindings && bindings[venue] != account {
        return Some(AccountChanged);
      }
      if heldByOther {
        return Some(AccountTaken);
      }
      bindings := bindings[venue := account];
      if venue !in accounts {
        accounts := accounts[venue := Min(amount, limits.maxDaily)];
        funding := funding[venue := Min(amount, limits.maxDaily)];
      }
      return None;
    }

    method SetRiskMode(mode: RiskMode)
      modifies this`riskMode
      ensures riskMode == mode
    {
      riskMode := mode;
    }

    method CheckRiskMode(side: Side) returns (blocked: Option<TradingError>)
      ensures blocked == RiskModeError(riskMode, limits.protectiveExit, side)
    {
      if riskMode.Frozen? {
        if limits.protectiveExit && side.Sell? {
          return None;
        }
        return Some(KillSwitch);
      }
      if riskMode.ReduceOnly? && !side.Sell? {
        return Some(ReduceOnlyBlocked);
      }
      return None;
    }

    /** The day's BUY reservations, added row by row. */
    method UsedToday(day: int) returns (used: real)
      ensures used == DailyBuys(View(), day)
    {
      hide Sum;
      used := 0.0;
      var todo := orders.Keys;
      RestAll(orders);
      while todo != {}
        invariant todo <= orders.Keys
        invariant used + Sum(Rest(orders, todo), BuyOn(day)) == DailyBuys(View(), day)
        decreases |todo|
      {
        var k :| k in todo;
        SumVisit(orders, BuyOn(day), todo, k);
        if orders[k].day == day && orders[k].data.intent.side.Buy? {
          used := used + orders[k].reserved;
        }
        todo := todo - {k};
      }
      assert Rest(orders, todo) == map[];
      SumZero(Rest(orders, todo), BuyOn(day));
    }

    method ExposureWith(slot: Slot, limit: real) returns (exposure: real)
      ensures exposure == Exposure(View(), slot, limit)
    {
      hide Sum;
      exposure := 0.0;
      var todo := positions.Keys;
      RestAll(positions);
      while todo != {}
        invariant todo <= positions.Keys
        invariant exposure + Sum(Rest(positions, todo), ExposureAt(slot, limit)) == Exposure(View(), slot, limit)
        decreases |todo|
      {
        var s :| s in todo;
        SumVisit(positions, ExposureAt(slot, limit), todo, s);
        var p := positions[s];
        exposure := exposure + (if s == slot then Max(p.cost, Notional(p.quantity, limit)) else p.cost);
        todo := todo - {s};
      }
      assert Rest(positions, todo) == map[];
      SumZero(Rest(positions, todo), ExposureAt(slot, limit));
    }

    /** `_risk`. A refusal raises, and the caller's transaction undoes the paper account row. */
    method Risk(i: Intent, remote: Option<Balances>, now: real) returns (refused: Option<TradingError>)
      modifies this`accounts, this`funding
      ensures var allowed := Ledger.Risk(old(View()), limits, riskMode, i, remote, now);
        match allowed
        case Ok(b1) => refused.None? && View() == b1
        case Err(e) => refused == Some(e)
    {
      hide Sum;
      var blocked := CheckRiskMode(i.side);
      if blocked.Some? {
        return blocked;
      }
      if exists k :: k in orders && Open(orders[k].status) {
        return Some(UnresolvedOrder);
      }
      var reserved := Reservation(i);
      if reserved > limits.maxOrder {
        return Some(MaxOrder);
      }
      var used := UsedToday(DayOf(now));
      if i.side.Buy? && used + reserved > limits.maxDaily {
        return Some(MaxDaily);
      }
      var venue := i.slot.venue;
      if limits.paper && venue !in accounts {
        accounts := accounts[venue := PAPER_CASH];
        funding := funding[venue := PAPER_CASH];
      }
      if venue !in accounts {
        return Some(NoBudget);
      }
      if i.side.Buy? {
        if accounts[venue] < reserved || (remote.Some? && remote.value.cash < reserved) {
          return Some(InsufficientCash);
        }
        var exposure := ExposureWith(i.slot, i.limit);
        if exposure + reserved > limits.maxPosition {
          return Some(MaxPosition);
        }
      } else if i.slot !in positions || positions[i.slot].quantity < i.quantity
                || (remote.Some? && remote.value.quantity < i.quantity) {
        return Some(NoShortSelling);
      }
      return None;
    }

    /** The reservation transaction: existing order, risk check, lease check, INSERT. */
    method ReserveOrder(i: Intent, remote: Option<Balances>, guard: bool, now: real)
      returns (result: Result<Option<Record>, TradingError>)
      modifies this`accounts, this`funding, this`orders
      ensures match Existing(old(View()), i)
        case Err(e) => result == Err(e) && View() == old(View())
        case Ok(Some(stored)) => result == Ok(Some(stored)) && View() == old(View())
        case Ok(None) =>
          match Reserve(old(View()), limits, riskMode, i, remote, guard, now)
          case Err(e) => result == Err(e) && View() == old(View())
          case Ok(b1) => result == Ok(None) && View() == b1
    {
      if i.key in orders {
        if orders[i.key].fingerprint != i {
          return Err(KeyConflict);
        }
        return Ok(Some(orders[i.key].data));
      }
      var accounts0 := accounts;
      ghost var funding0 := funding;
      var refused := Risk(i, remote, now);
      if refused.None? && !guard {
        refused := Some(LeaseLost);
      }
      if refused.Some? {
        accounts, funding := accounts0, funding0;
        return Err(refused.value);
      }
      orders := orders[i.key := Row(i, Preparing, now, DayOf(now), Reservation(i), NewRecord(i))];
      return Ok(None);
    }

    method Save(r: Record)
      modifies this`orders
      ensures View() == Ledger.Save(old(View()), r)
    {
      if r.intent.key in orders {
        orders := orders[r.intent.key := orders[r.intent.key].(status := r.status, data := r)];
      }
    }

    /** The cash and the position after a terminal fill. */
    method AccountFill(cash0: real, held0: Position, i: Intent, f: Fill)
      returns (r: Result<(real, Position), TradingError>)
      ensures r == Account(cash0, held0, i, f)
    {
      var cash, held, cost, realized := cash0, held0.quantity, held0.cost, held0.realized;
      if i.side.Buy? {
        cash := cash - (f.quoteQty + f.feeQuote);
        held := held + (f.filledQty - f.feeBase);
        cost := cost + (f.quoteQty + f.feeQuote);
      } else {
        var removed := f.filledQty + f.feeBase;
        if removed > held {
          return Err(PositionDrift);
        }
        var basis := Basis(cost, removed, held);
        cash := cash + (f.quoteQty - f.feeQuote);
        held := held - removed;
        cost := cost - basis;
        realized := realized + (f.quoteQty - f.feeQuote - basis);
      }
      if cash < 0.0 || held < 0.0 || f.feeBase > f.filledQty {
        return Err(BudgetOrFeeDrift);
      }
      return Ok((cash, Position(held, cost, realized)));
    }

    /** `_finish`: validate, stop if already accounted, else move cash and inventory once. */
    method Finish(record: Record, f: Fill) returns (result: Result<Record, TradingError>)
      modifies this`accounts, this`positions, this`orders
      ensures match Ledger.Finish(old(View()), record, f)
        case Ok((b1, r1)) => View() == b1 && result == Ok(r1)
        case Err(e) => View() == old(View()) && result == Err(e)
    {
      hide Notional, Account, Accounted;
      var i := record.intent;
      var bad := FillError(i, f);
      if bad.Some? {
        return Err(bad.value);
      }
      if i.key in orders && orders[i.key].data.accounted {
        return Ok(orders[i.key].data);
      }
      if Open(f.status.value) {
        var waiting := record.(status := f.status.value, exchangeId := f.exchangeId);
        Save(waiting);
        return Ok(waiting);
      }
      var venue := i.slot.venue;
      if venue !in accounts {
        return Err(MissingAccount);
      }
      var held := if i.slot in positions then positions[i.slot] else Position(0.0, 0.0, 0.0);
      var booked := AccountFill(accounts[venue], held, i, f);
      if booked.Err? {
        return Err(booked.error);
      }
      accounts := accounts[venue := booked.value.0];
      positions := positions[i.slot := booked.value.1];
      var done := Accounted(record, f);
      Save(done);
      if i.key in orders {
        orders := orders[i.key := orders[i.key].(reserved := f.quoteQty + f.feeQuote + Notional(f.feeBase, i.limit))];
      }
      return Ok(done);
    }

    /** The transaction that announces the send, or rejects under a changed risk mode. */
    method Mark(record: Record) returns (result: Result<Record, TradingError>)
      modifies this`accounts, this`positions, this`orders
      ensures match Ledger.Mark(old(View()), limits, riskMode, record)
        case Ok((b1, r1)) => View() == b1 && result == Ok(r1)
        case Err(e) => View() == old(View()) && result == Err(e)
    {
      var blocked := CheckRiskMode(record.intent.side);
      if blocked.Some? {
        result := Finish(record.(rejection := blocked), REJECTED_FILL);
      } else {
        var r1 := record.(status := Submitting);
        Save(r1);
        result := Ok(r1);
      }
    }

    method SettleBlocked(k: OrderKey, why: TradingError) returns (result: Result<Record, TradingError>)
      requires k in orders
      modifies this`accounts, this`positions, this`orders
      ensures match Ledger.SettleBlocked(old(View()), k, why)
        case Ok((b1, r1)) => View() == b1 && result == Ok(r1)
        case Err(e) => View() == old(View()) && result == Err(e)
    {
      var r := orders[k].data;
      if r.accounted || !Open(r.status) {
        return Ok(r);
      }
      result := Finish(r.(rejection := Some(why)), REJECTED_FILL);
    }

    method SettleUnknown(k: OrderKey) returns (r: Record)
      requires k in orders
      modifies this`orders
      ensures (View(), r) == Ledger.SettleUnknown(old(View()), k)
    {
      r := orders[k].data;
      if r.accounted || !Open(r.status) {
        return;
      }
      r := r.(status := Unknown, error := Some(OutcomeUnknown));
      Save(r);
    }

    method ReconcileOrder(k: OrderKey, answer: Option<Fill>)
      requires k in orders
      modifies this`accounts, this`positions, this`orders
      ensures View() == Ledger.ReconcileOrder(old(View()), k, answer)
    {
      var r := orders[k].data;
      if r.accounted {
        return;
      }
      if answer.Some? {
        var result := Finish(r, answer.value);
        if result.Err? {
          Save(r.(status := Unknown));
        }
      } else {
        Save(r.(status := Unknown, error := Some(NotConfirmed)));
      }
    }

    /** A paper `submit`: reservation and accounting in one transaction. */
    method SubmitPaper(i: Intent, q: Quote, guard: bool, now: real) returns (result: Result<Record, TradingError>)
      modifies this
      ensures riskMode == old(riskMode) && intents == old(intents) && bindings == old(bindings)
      ensures match PaperSubmit(old(View()), limits, riskMode, i, q, guard, now)
        case Ok((b1, r1)) => View() == b1 && result == Ok(r1)
        case Err(e) => View() == old(View()) && result == Err(e)
      ensures limits.paper && old(PaperInv(View(), limits)) ==> PaperInv(View(), limits)
      ensures limits.paper && i.key !in old(orders) && result.Ok? ==>
        FilledAtTop(i, q, result.value) && Booked(old(View()), View(), i, result.value, now)
    {
      if limits.paper && i.key !in orders && PaperSubmit(View(), limits, riskMode, i, q, guard, now).Ok? {
        PaperFillsExactly(View(), limits, riskMode, i, q, guard, now);
      }
      hide FilledAtTop, Booked;
      if limits.paper && PaperInv(View(), limits) {
        PaperSubmitInv(View(), limits, riskMode, i, q, guard, now);
      }
      hide PaperInv;
      hide Sum;
      hide Reserve;
      hide AdmissibleQuote;
      hide PaperFill;
      hide Ledger.Finish;
      if !ValidIntent(i) {
        return Err(InvalidIntent);
      }
      if i.key !in orders && !AdmissibleQuote(q, i) {
        return Err(QuoteRefused);
      }
      var accounts0, orders0, positions0 := accounts, orders, positions;
      ghost var funding0 := funding;
      var reserved := ReserveOrder(i, None, guard, now);
      match reserved
      case Err(e) => result := Err(e);
      case Ok(Some(stored)) => result := Ok(stored);
      case Ok(None) =>
        result := Finish(NewRecord(i), PaperFill(i, q));
        if result.Err? {
          accounts, orders, positions, funding := accounts0, orders0, positions0, funding0;
        }
    }

    /** First write wins: a retry gets the intent that was stored first, whatever it asks for; a new intent is
        stored only if it is valid. */
    method PersistIntent(k: OrderKey, candidate: Intent) returns (stored: Result<Intent, TradingError>)
      modifies this`intents
      ensures k in old(intents) ==> stored == Ok(old(intents)[k]) && intents == old(intents)
      ensures k !in old(intents) && !ValidIntent(candidate) ==> stored == Err(InvalidIntent) && intents == old(intents)
      ensures k !in old(intents) && ValidIntent(candidate) ==>
        stored == Ok(candidate) && intents == old(intents)[k := candidate]
      ensures stored.Ok? ==> k in intents && intents[k] == stored.value
    {
      if k in intents {
        return Ok(intents[k]);
      }
      if !ValidIntent(candidate) {
        return Err(InvalidIntent);
      }
      intents := intents[k := candidate];
      return Ok(candidate);
    }

    method LookupOrder(k: OrderKey) returns (found: Option<Record>)
      ensures found == if k in orders then Some(orders[k].data) else None
    {
      if k in orders {
        found := Some(orders[k].data);
      } else {
        found := None;
      }
    }
  }
}
