/** What becomes of an order that is there: a repeated submission, an answer of the exchange, and a lookup. */
module Outcomes {
  import opened Core
  import opened Ledger
  import opened LedgerLaws
  import opened PaperLaws
  import opened Execution
  import opened Admission

  // A repeated submission

  /** A submission under a key in use is answered by the stored order exactly when it makes the same order again, and
      refused otherwise; the ledger stays as it is. */
  lemma RepeatedExactly(b: Book, limits: Limits, mode: RiskMode, i: Intent, q: Quote, guard: bool, now: real)
    requires ValidIntent(i) && i.key in b.orders
    ensures PaperSubmit(b, limits, mode, i, q, guard, now)
      == if b.orders[i.key].fingerprint == i then Ok((b, b.orders[i.key].data)) else Err(KeyConflict)
    ensures Existing(b, i) == if b.orders[i.key].fingerprint == i then Ok(Some(b.orders[i.key].data)) else Err(KeyConflict)
  {
  }

  // An answer of the exchange

  /** The record after an answer: the status and the exchange's number as answered, and, once the order has come to its
      end, the amounts as answered and nothing left to explain. */
  predicate Says(r: Record, f: Fill, r1: Record) {
    && f.status.Some? && r1.status == f.status.value && r1.exchangeId == f.exchangeId
    && r1.intent == r.intent && r1.rejection == r.rejection
    && (if Terminal(r1.status) then
          && r1.accounted && r1.error == None
          && r1.filledQty == f.filledQty && r1.quoteQty == f.quoteQty && r1.feeBase == f.feeBase && r1.feeQuote == f.feeQuote
        else
          && r1.accounted == r.accounted && r1.error == r.error
          && r1.filledQty == r.filledQty && r1.quoteQty == r.quoteQty && r1.feeBase == r.feeBase && r1.feeQuote == r.feeQuote)
  }

  /** Only the row of `k` changed: it holds the record, and what the order still counts for. */
  predicate RowHolds(b: Book, b1: Book, k: OrderKey, r1: Record, reserved: real)
    requires k in b.orders
  {
    var row := b.orders[k];
    && b1.funding == b.funding && b1.accounts.Keys == b.accounts.Keys
    && b1.orders == b.orders[k := Row(row.fingerprint, r1.status, row.created, row.day, reserved, r1)]
  }

  /** What an accepted answer does to the order's row: an order at its end counts for what it spent, and for the base fee at
      the limit. */
  lemma AnswerWritten(b: Book, r: Record, f: Fill)
    requires Pending(b, r) && Finish(b, r, f).Ok?
    ensures var (b1, r1) := Finish(b, r, f).value;
      && Says(r, f, r1)
      && RowHolds(b, b1, r.intent.key, r1,
                  if Terminal(r1.status) then f.quoteQty + f.feeQuote + f.feeBase * r.intent.limit
                  else b.orders[r.intent.key].reserved)
      && (!Terminal(r1.status) ==> b1.accounts == b.accounts && b1.positions == b.positions)
  {
    hide FillError, Account;
    AcceptableIs(r.intent, f);
    assert f.status.Some?;
    hide Acceptable;
  }

  // A lookup

  /** An order that was accounted stays as it is. Of any other, an answer that can be accepted is written; without one the
      outcome is unknown, and no cash and no holding moves. */
  lemma LookedUpExactly(b: Book, k: OrderKey, answer: Option<Fill>)
    requires Inv(b) && k in b.orders
    ensures var b1, r := ReconcileOrder(b, k, answer), b.orders[k].data;
      var accepted := answer.Some? && Acceptable(r.intent, answer.value)
                      && (Terminal(answer.value.status.value) ==> Bearable(b, r.intent, answer.value));
      && (r.accounted ==> b1 == b)
      && (!r.accounted ==>
            && k in b1.orders && b1.orders == b.orders[k := b1.orders[k]]
            && (accepted ==> Says(r, answer.value, b1.orders[k].data))
            && (!accepted ==>
                  && b1.accounts == b.accounts && b1.positions == b.positions && b1.funding == b.funding
                  && b1.orders[k].status == Unknown && b1.orders[k].data.status == Unknown
                  && b1.orders[k].data.error == (if answer.None? then Some(NotConfirmed) else r.error)
                  && !b1.orders[k].data.accounted && b1.orders[k].reserved == b.orders[k].reserved))
  {
    RowsOk(b);
    assert Solvent(b);
    hide Inv, Finish, Acceptable, Bearable;
    var r := b.orders[k].data;
    if !r.accounted && answer.Some? {
      assert Pending(b, r);
      AcceptedExactly(b, r, answer.value);
      if Finish(b, r, answer.value).Ok? {
        AnswerWritten(b, r, answer.value);
      }
    }
  }

  // After an exception

  /** After an exception that is not a refused guard, an order that was not settled is of unknown outcome. */
  lemma UnknownExactly(b: Book, k: OrderKey)
    requires Inv(b) && k in b.orders
    ensures var (b1, r1) := SettleUnknown(b, k);
      if Terminal(b.orders[k].status) then b1 == b && r1 == b.orders[k].data
      else
        && b1.accounts == b.accounts && b1.positions == b.positions
        && RowHolds(b, b1, k, r1, b.orders[k].reserved) && r1.status == Unknown && r1.error == Some(OutcomeUnknown)
        && !r1.accounted && r1.intent == b.orders[k].data.intent
  {
    RowsOk(b);
    hide Inv;
  }

  lemma IntentValid(b: Book, k: OrderKey)
    requires Inv(b) && k in b.orders
    ensures ValidIntent(b.orders[k].data.intent)
  {
    RowsOk(b);
    hide Inv;
  }

  /** After a refused guard, an order that was not settled is rejected with the reason, at no cost. */
  lemma BlockedExactly(b: Book, k: OrderKey, why: TradingError)
    requires Inv(b) && k in b.orders
    ensures SettleBlocked(b, k, why).Ok?
    ensures var (b1, r1) := SettleBlocked(b, k, why).value;
      if Terminal(b.orders[k].status) then b1 == b && r1 == b.orders[k].data
      else
        && b1.accounts == b.accounts && RowHolds(b, b1, k, r1, 0.0)
        && r1.status == Rejected && r1.accounted && r1.rejection == Some(why) && r1.intent == b.orders[k].data.intent
        && r1.filledQty == 0.0 && r1.quoteQty == 0.0 && r1.feeBase == 0.0 && r1.feeQuote == 0.0
  {
    hide Inv, Finish, ValidIntent;
    RowsOk(b);
    var r := b.orders[k].data;
    if !r.accounted {
      assert ValidIntent(r.intent) by { IntentValid(b, k); }
      var r0 := r.(rejection := Some(why));
      RejectionAccepted(b, r0);
      AnswerWritten(b, r0, REJECTED_FILL);
    }
  }
}
