/** `HubRuntime.execute` over a paper ledger: recovery from a stored order or a stored intent, the gates, and the
    points at which the process may stop. */
module Executor {
  import opened Core
  import opened Ledger
  import opened LedgerLaws
  import opened PaperLaws
  import opened Execution
  import opened AtMostOnce
  import opened Admission
  import opened Trading

  datatype CrashPoint = Never | QuoteReady | IntentPersisted | OrderSubmitted

  datatype Outcome =
    | LeaseGone | Held | AwaitingApproval | Refused(why: TradingError) | Crashed | Order(record: Record)

  /** Stored intents are valid and filed under their keys, and every workflow order carries the one of its key. */
  ghost predicate StoredIntents(b: Book, intents: map<OrderKey, Intent>) {
    && (forall k :: k in intents ==> intents[k].key == k && ValidIntent(intents[k]))
    && (forall k :: k in b.orders && k.PipelineKey? ==> k in intents && b.orders[k].fingerprint == intents[k])
  }

  class HubExecutor {
    const trading: TradingService
    var crashAfter: CrashPoint

    /** Every ledger law, and every workflow order carries the intent stored under its key. */
    ghost predicate Valid()
      reads this, trading
    {
      && trading.limits.paper && PaperInv(trading.View(), trading.limits)
      && StoredIntents(trading.View(), trading.intents)
    }

    constructor (limits: Limits)
      requires limits.paper && limits.maxPosition >= 0.0 && limits.maxDaily >= 0.0
      ensures Valid() && fresh(trading) && trading.View() == EmptyBook() && trading.intents == map[]
    {
      trading := new TradingService(limits);
      crashAfter := Never;
      new;
      PaperRunWithinBudgets(limits, []);
    }

    /** `_submit_persisted_intent`. */
    method SubmitPersisted(i: Intent, approvalNeeded: bool, q: Quote, guard: bool, now: real) returns (outcome: Outcome)
      requires Valid() && i.key.PipelineKey? && i.key in trading.intents && trading.intents[i.key] == i
      modifies trading
      ensures Valid() && trading.intents == old(trading.intents)
      ensures match Submission(old(trading.View()), trading.limits, old(trading.riskMode), i, approvalNeeded, q, guard, now, crashAfter)
        case (b1, o) => trading.View() == b1 && outcome == o
    {
      hide PaperInv, StoredIntents, PaperSubmit;
      if crashAfter.IntentPersisted? {
        return Crashed;
      }
      if approvalNeeded {
        return AwaitingApproval;
      }
      SubmissionKeepsIntents(trading.View(), trading.limits, trading.riskMode, i, q, guard, now, trading.intents);
      var submitted := trading.SubmitPaper(i, q, guard, now);
      if submitted.Err? {
        return Refused(submitted.error);
      }
      if crashAfter.OrderSubmitted? {
        return Crashed;
      }
      return Order(submitted.value);
    }

    /** `execute`. `gate` is the outcome of the evidence, release and proposal checks, and `candidate` the intent
        they lead to. */
    method Execute(
      run: nat, lease: bool, gate: bool, candidate: Intent, approvalNeeded: bool, q: Quote, guard: bool, now: real)
      returns (outcome: Outcome)
      requires Valid() && candidate.key == PipelineKey(run)
      modifies trading
      ensures Valid()
      ensures (trading.View(), trading.intents, outcome)
           == Executed(old(trading.View()), old(trading.intents), trading.limits, old(trading.riskMode), run, lease, gate,
                       candidate, approvalNeeded, q, guard, now, crashAfter)
    {
      hide PaperInv, PaperSubmit;
      if !lease {
        return LeaseGone;
      }
      var key := PipelineKey(run);
      var existing := trading.LookupOrder(key);
      if existing.Some? {
        return Order(existing.value);
      }
      if key in trading.intents {
        assert trading.intents[key := trading.intents[key]] == trading.intents;
        outcome := SubmitPersisted(trading.intents[key], approvalNeeded, q, guard, now);
        return;
      }
      if !gate {
        return Held;
      }
      if crashAfter.QuoteReady? {
        return Crashed;
      }
      var stored := trading.PersistIntent(key, candidate);
      if stored.Err? {
        return Refused(stored.error);
      }
      outcome := SubmitPersisted(stored.value, approvalNeeded, q, guard, now);
    }
  }

  /** What submitting a stored intent does to the ledger. */
  ghost function Submission(
    b: Book, limits: Limits, mode: RiskMode, i: Intent, approvalNeeded: bool, q: Quote, guard: bool, now: real,
    crash: CrashPoint): (Book, Outcome)
  {
    if crash.IntentPersisted? then (b, Crashed)
    else if approvalNeeded then (b, AwaitingApproval)
    else
      match PaperSubmit(b, limits, mode, i, q, guard, now)
      case Err(e) => (b, Refused(e))
      case Ok((b1, r)) => (b1, if crash.OrderSubmitted? then Crashed else Order(r))
  }

  ghost function Executed(
    b: Book, intents: map<OrderKey, Intent>, limits: Limits, mode: RiskMode, run: nat, lease: bool, gate: bool,
    candidate: Intent, approvalNeeded: bool, q: Quote, guard: bool, now: real, crash: CrashPoint)
    : (Book, map<OrderKey, Intent>, Outcome)
  {
    var key := PipelineKey(run);
    if !lease then (b, intents, LeaseGone)
    else if key in b.orders then (b, intents, Order(b.orders[key].data))
    else if key !in intents && !gate then (b, intents, Held)
    else if key !in intents && crash.QuoteReady? then (b, intents, Crashed)
    else if key !in intents && !ValidIntent(candidate) then (b, intents, Refused(InvalidIntent))
    else
      var i := if key in intents then intents[key] else candidate;
      var (b1, outcome) := Submission(b, limits, mode, i, approvalNeeded, q, guard, now, crash);
      (b1, intents[key := i], outcome)
  }

  /** A paper submission adds at most the order of its own intent. */
  lemma SubmissionKeepsIntents(
    b: Book, limits: Limits, mode: RiskMode, i: Intent, q: Quote, guard: bool, now: real, intents: map<OrderKey, Intent>)
    requires limits.paper && PaperInv(b, limits) && StoredIntents(b, intents) && i.key in intents && intents[i.key] == i
    ensures PaperSubmit(b, limits, mode, i, q, guard, now).Ok? ==>
      var (b1, r) := PaperSubmit(b, limits, mode, i, q, guard, now).value;
      && StoredIntents(b1, intents) && i.key in b1.orders && b1.orders[i.key].data == r
  {
    hide WithinBudgets, Inv, BasisMatched, ValidIntent, Reserve, AdmissibleQuote, Finish, PaperFill;
    assert ValidIntent(i);
    if PaperSubmit(b, limits, mode, i, q, guard, now).Ok? && i.key !in b.orders {
      PaperBookInv(b, limits, DoReserve(0, mode, None, q, guard, now), i);
      SubmittedRecord(b, limits, mode, i, q, guard, now);
      hide PaperInv, PaperSubmit;
    }
  }

  lemma SubmittedRecord(b: Book, limits: Limits, mode: RiskMode, i: Intent, q: Quote, guard: bool, now: real)
    requires limits.paper && PaperInv(b, limits) && ValidIntent(i) && i.key !in b.orders
    requires PaperSubmit(b, limits, mode, i, q, guard, now).Ok?
    ensures var (b1, r) := PaperSubmit(b, limits, mode, i, q, guard, now).value;
      i.key in b1.orders && b1.orders[i.key].data == r
  {
    hide Reserve, PaperFill, AdmissibleQuote, Finish, Inv;
    ReserveFacts(b, limits, mode, i, None, guard, now);
    var b0 := Reserve(b, limits, mode, i, None, guard, now).value;
    FinishInv(b0, NewRecord(i), PaperFill(i, q));
  }

  // Retries

  /** What other actors may do to the ledger and the intents between two attempts. */
  ghost predicate Later(b: Book, intents: map<OrderKey, Intent>, limits: Limits, b1: Book, intents1: map<OrderKey, Intent>) {
    && Preserves(b, b1) && PaperInv(b1, limits) && StoredIntents(b1, intents1)
    && forall k :: k in intents ==> k in intents1 && intents1[k] == intents[k]
  }

  /** Crash recovery: whatever a first attempt came to, and whatever others did in between, a later attempt with
      the lease never places a second order. If the first left an order, the retry returns it and changes nothing;
      if it left only an intent, the retry returns an order with that intent or submits that intent, and not its own
      candidate. */
  lemma RetryIsSafe(
    b: Book, intents: map<OrderKey, Intent>, limits: Limits, mode: RiskMode, run: nat, gate: bool, candidate: Intent,
    approvalNeeded: bool, q: Quote, guard: bool, now: real, crash: CrashPoint, later: Book, stored: map<OrderKey, Intent>,
    mode1: RiskMode, gate1: bool, candidate1: Intent, q1: Quote, guard1: bool, now1: real)
    requires limits.paper && PaperInv(b, limits) && StoredIntents(b, intents)
    requires candidate.key == PipelineKey(run) && candidate1.key == PipelineKey(run)
    requires var (b1, intents1, first) :=
        Executed(b, intents, limits, mode, run, true, gate, candidate, approvalNeeded, q, guard, now, crash);
      Later(b1, intents1, limits, later, stored)
    ensures var (b1, intents1, first) :=
        Executed(b, intents, limits, mode, run, true, gate, candidate, approvalNeeded, q, guard, now, crash);
      var (b2, intents2, second) :=
        Executed(later, stored, limits, mode1, run, true, gate1, candidate1, false, q1, guard1, now1, Never);
      var key := PipelineKey(run);
      && (key in b1.orders ==>
            && b2 == later && intents2 == stored && key in later.orders && later.orders[key] == b1.orders[key]
            && second == Order(b1.orders[key].data) && (first.Order? ==> second == first))
      && (key in intents1 ==>
            && intents2 == stored
            && (key in later.orders ==> b2 == later && later.orders[key].fingerprint == intents1[key])
            && (key !in later.orders ==>
                  (b2, second) == Submission(later, limits, mode1, intents1[key], false, q1, guard1, now1, Never)))
      && (key in b2.orders ==> key in intents2 && b2.orders[key].fingerprint == intents2[key])
  {
    hide Inv, BasisMatched, WithinBudgets, PaperSubmit;
    var key := PipelineKey(run);
    ExecutedInv(b, intents, limits, mode, run, gate, candidate, approvalNeeded, q, guard, now, crash);
    var (b1, intents1, first) :=
      Executed(b, intents, limits, mode, run, true, gate, candidate, approvalNeeded, q, guard, now, crash);
    ExecutedInv(later, stored, limits, mode1, run, gate1, candidate1, false, q1, guard1, now1, Never);
    assert key in stored ==> stored[key := stored[key]] == stored;
    hide Submission;
  }

  lemma ExecutedInv(
    b: Book, intents: map<OrderKey, Intent>, limits: Limits, mode: RiskMode, run: nat, gate: bool, candidate: Intent,
    approvalNeeded: bool, q: Quote, guard: bool, now: real, crash: CrashPoint)
    requires limits.paper && PaperInv(b, limits) && StoredIntents(b, intents) && candidate.key == PipelineKey(run)
    ensures var (b1, intents1, outcome) :=
        Executed(b, intents, limits, mode, run, true, gate, candidate, approvalNeeded, q, guard, now, crash);
      && PaperInv(b1, limits) && StoredIntents(b1, intents1)
      && (PipelineKey(run) in b1.orders ==>
            PipelineKey(run) in intents1 && b1.orders[PipelineKey(run)].fingerprint == intents1[PipelineKey(run)])
      && (outcome.Order? ==> PipelineKey(run) in b1.orders && b1.orders[PipelineKey(run)].data == outcome.record)
  {
    hide PaperInv, PaperSubmit;
    var key := PipelineKey(run);
    if key !in b.orders && (key in intents || ValidIntent(candidate)) {
      var i := if key in intents then intents[key] else candidate;
      assert StoredIntents(b, intents[key := i]);
      PaperSubmitInv(b, limits, mode, i, q, guard, now);
      SubmissionKeepsIntents(b, limits, mode, i, q, guard, now, intents[key := i]);
    }
  }

  // What an order needs

  /** The attempt gets as far as its intent: the lease is held, the order is not there yet, and its intent is stored, or
      the gates are passed, the process lives and the candidate is valid. */
  predicate Reaches(
    b: Book, intents: map<OrderKey, Intent>, run: nat, lease: bool, gate: bool, candidate: Intent, crash: CrashPoint)
  {
    var key := PipelineKey(run);
    && lease && key !in b.orders
    && (key in intents || (gate && !crash.QuoteReady? && ValidIntent(candidate)))
  }

  /** An attempt adds an order exactly when it gets as far as its intent, no approval is outstanding, the process lives on,
      and the ledger accepts that intent at the quote; it stores an intent exactly when it gets as far and none was
      stored. Nothing else changes in either table. */
  lemma OrderedExactly(
    b: Book, intents: map<OrderKey, Intent>, limits: Limits, mode: RiskMode, run: nat, lease: bool, gate: bool,
    candidate: Intent, approvalNeeded: bool, q: Quote, guard: bool, now: real, crash: CrashPoint)
    requires limits.paper && PaperInv(b, limits) && StoredIntents(b, intents) && candidate.key == PipelineKey(run)
    ensures var (b1, intents1, outcome) :=
        Executed(b, intents, limits, mode, run, lease, gate, candidate, approvalNeeded, q, guard, now, crash);
      var key := PipelineKey(run);
      var i := if key in intents then intents[key] else candidate;
      var reached := Reaches(b, intents, run, lease, gate, candidate, crash);
      && (key !in b.orders ==>
            (key in b1.orders <==>
               && reached && !approvalNeeded && !crash.IntentPersisted?
               && QuoteFits(q, i) && Allowed(b, limits, mode, i, None, guard, now)))
      && (key !in b.orders && key in b1.orders ==> b1.orders[key].fingerprint == i && b1.orders.Keys == b.orders.Keys + {key})
      && (key in b.orders || key !in b1.orders ==> b1 == b)
      && intents1 == (if reached then intents[key := i] else intents)
      && (outcome.AwaitingApproval? <==> reached && approvalNeeded && !crash.IntentPersisted?)
      && (outcome.LeaseGone? <==> !lease)
      && (outcome.Held? <==> lease && key !in b.orders && key !in intents && !gate)
  {
    var key := PipelineKey(run);
    if Reaches(b, intents, run, lease, gate, candidate, crash) {
      var i := if key in intents then intents[key] else candidate;
      assert ValidIntent(i) && i.key == key;
      hide PaperInv, PaperSubmit, ValidIntent, StoredIntents, QuoteFits, Allowed;
      PaperAcceptedExactly(b, limits, mode, i, q, guard, now);
      if PaperSubmit(b, limits, mode, i, q, guard, now).Ok? {
        SubmittedOrder(b, limits, mode, i, q, guard, now);
      }
    } else {
      assert key in intents ==> intents[key := intents[key]] == intents;
      hide PaperInv, PaperSubmit, StoredIntents, QuoteFits, Allowed;
    }
  }

  /** An attempt answers with an order exactly when it holds the lease and the order is there at the end, unless the process
      stopped after adding it; it answers with that order. */
  lemma AnsweredExactly(
    b: Book, intents: map<OrderKey, Intent>, limits: Limits, mode: RiskMode, run: nat, lease: bool, gate: bool,
    candidate: Intent, approvalNeeded: bool, q: Quote, guard: bool, now: real, crash: CrashPoint)
    requires limits.paper && PaperInv(b, limits) && StoredIntents(b, intents) && candidate.key == PipelineKey(run)
    ensures var (b1, intents1, outcome) :=
        Executed(b, intents, limits, mode, run, lease, gate, candidate, approvalNeeded, q, guard, now, crash);
      var key := PipelineKey(run);
      && (outcome.Order? <==> lease && key in b1.orders && (key in b.orders || crash != OrderSubmitted))
      && (outcome.Order? ==> outcome.record == b1.orders[key].data)
  {
    hide PaperInv, StoredIntents, PaperSubmit, ValidIntent;
    var key := PipelineKey(run);
    if lease {
      ExecutedInv(b, intents, limits, mode, run, gate, candidate, approvalNeeded, q, guard, now, crash);
      var i := if key in intents then intents[key] else candidate;
      assert i.key == key by { IntentFiled(b, intents, key); }
      if key !in b.orders && PaperSubmit(b, limits, mode, i, q, guard, now).Ok? {
        SubmittedOrder(b, limits, mode, i, q, guard, now);
      }
    }
  }

  lemma IntentFiled(b: Book, intents: map<OrderKey, Intent>, key: OrderKey)
    requires StoredIntents(b, intents)
    ensures key in intents ==> intents[key].key == key
  {
  }

  lemma SubmittedOrder(b: Book, limits: Limits, mode: RiskMode, i: Intent, q: Quote, guard: bool, now: real)
    requires limits.paper && i.key !in b.orders && PaperSubmit(b, limits, mode, i, q, guard, now).Ok?
    ensures var b1 := PaperSubmit(b, limits, mode, i, q, guard, now).value.0;
      i.key in b1.orders && b1.orders[i.key].fingerprint == i && b1.orders.Keys == b.orders.Keys + {i.key}
  {
    hide Reserve, PaperFill, AdmissibleQuote, Finish, ValidIntent;
    var b0 := Reserve(b, limits, mode, i, None, guard, now).value;
    ReserveWrites(b, limits, DoReserve(0, mode, None, q, guard, now), i, None);
    FinishSame(b0, NewRecord(i), PaperFill(i, q));
  }
}
