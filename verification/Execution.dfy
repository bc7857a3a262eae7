/**
 Many workers, submitters and reconcilers over one shared ledger. Each step is one transaction, or one
 exchange call between two transactions; an actor may stop between any two steps. Lease guards, risk
 modes, clocks and exchange answers are arbitrary inputs of the step, so a worker whose lease has gone
 is an actor like any other.
 */
module Execution {
  import opened Core
  import opened Sums
  import opened Ledger
  import opened LedgerLaws
  import opened PaperLaws

  /** Where an actor stands, with the data it holds in memory. */
  datatype Actor =
    | Checked(key: OrderKey)                        // `execute` found no order
    | Fresh(key: OrderKey, candidate: Intent)       // no stored intent; gates passed; a new intent was built
    | Ready(intent: Intent)                         // `submit` is about to reserve
    | Reserved(record: Record)
    | Marked(record: Record)
    | Answered(record: Record, fill: Fill)
    | Blocked(key: OrderKey, why: TradingError)     // the guard failed before the request was posted
    | Failed(key: OrderKey)                         // any other exception
    | Looked(key: OrderKey, answer: Option<Fill>)   // `reconcile`, after its lookup

  datatype Sys = Sys(
    book: Book, intents: map<OrderKey, Intent>, sends: map<OrderKey, nat>, actors: map<nat, Actor>)

  datatype Step =
    | Bind(venue: Venue, funding: real)
    | Execute(a: nat, run: nat, guard: bool)
    | ReadIntent(a: nat, gate: bool, candidate: Intent)
    | Persist(a: nat)
    | Call(a: nat, intent: Intent)
    | DoReserve(a: nat, mode: RiskMode, remote: Option<Balances>, quote: Quote, guard: bool, now: real)
    | DoMark(a: nat, mode: RiskMode)
    | Send(a: nat, guard: bool, mode: RiskMode, posted: bool, answer: Option<Fill>)
    | Settle(a: nat)
    | Lookup(a: nat, key: OrderKey, found: Option<Fill>)
    | Crash(a: nat)

  function Init(): Sys {
    Sys(EmptyBook(), map[], map[], map[])
  }

  function Count(sends: map<OrderKey, nat>, k: OrderKey): nat {
    if k in sends then sends[k] else 0
  }

  function Sends(s: Sys, k: OrderKey): nat {
    Count(s.sends, k)
  }

  function At(s: Sys, a: nat, actor: Actor): Sys {
    s.(actors := s.actors[a := actor])
  }

  function Gone(s: Sys, a: nat): Sys {
    s.(actors := s.actors - {a})
  }

  /** The first transaction of `submit`; in paper mode it is also the last. */
  ghost function ReserveStep(s: Sys, limits: Limits, step: Step): Sys
    requires step.DoReserve? && step.a in s.actors && s.actors[step.a].Ready?
  {
    var i := s.actors[step.a].intent;
    match Existing(s.book, i)
    case Err(_) => Gone(s, step.a)
    case Ok(Some(_)) => Gone(s, step.a)
    case Ok(None) =>
      if limits.paper then
        match PaperSubmit(s.book, limits, step.mode, i, step.quote, step.guard, step.now)
        case Err(_) => Gone(s, step.a)
        case Ok((b1, _)) => Gone(s.(book := b1), step.a)
      else
        match Reserve(s.book, limits, step.mode, i, step.remote, step.guard, step.now)
        case Err(_) => Gone(s, step.a)
        case Ok(b1) => At(s.(book := b1), step.a, Reserved(NewRecord(i)))
  }

  /** The second transaction: the order is announced, or rejected under a changed risk mode. */
  function MarkStep(s: Sys, limits: Limits, a: nat, mode: RiskMode): Sys
    requires a in s.actors && s.actors[a].Reserved?
  {
    match Mark(s.book, limits, mode, s.actors[a].record)
    case Err(_) => Gone(s, a)
    case Ok((b1, r1)) =>
      if RiskModeError(mode, limits.protectiveExit, s.actors[a].record.intent.side).Some? then Gone(s.(book := b1), a)
      else At(s.(book := b1), a, Marked(r1))
  }

  /** Why the guard of the send refuses: the lease is gone, or the risk mode it reads blocks the side. */
  function SendRefusal(limits: Limits, guard: bool, mode: RiskMode, side: Side): Option<TradingError> {
    if !guard then Some(LeaseLost) else RiskModeError(mode, limits.protectiveExit, side)
  }

  /** The exchange call: a guard refusal, a posted request with or without an answer, or neither. */
  function SendStep(
    s: Sys, limits: Limits, a: nat, guard: bool, mode: RiskMode, posted: bool, answer: Option<Fill>): Sys
    requires a in s.actors && s.actors[a].Marked?
  {
    var r := s.actors[a].record;
    var refused := SendRefusal(limits, guard, mode, r.intent.side);
    if refused.Some? then At(s, a, Blocked(r.intent.key, refused.value))
    else if !posted then At(s, a, Failed(r.intent.key))
    else
      var s1 := s.(sends := s.sends[r.intent.key := Sends(s, r.intent.key) + 1]);
      At(s1, a, if answer.Some? then Answered(r, answer.value) else Failed(r.intent.key))
  }

  /** The transaction that follows the send, in `submit` or in `reconcile`. */
  function SettleStep(s: Sys, a: nat): Sys
    requires a in s.actors
  {
    match s.actors[a]
    case Answered(r, f) =>
      (match Finish(s.book, r, f)
       case Ok((b1, _)) => Gone(s.(book := b1), a)
       case Err(_) => At(s, a, Failed(r.intent.key)))
    case Blocked(k, why) =>
      if k !in s.book.orders then s
      else
        (match SettleBlocked(s.book, k, why)
         case Ok((b1, _)) => Gone(s.(book := b1), a)
         case Err(_) => Gone(s, a))
    case Failed(k) =>
      if k !in s.book.orders then s else Gone(s.(book := SettleUnknown(s.book, k).0), a)
    case Looked(k, answer) =>
      if k !in s.book.orders then s else Gone(s.(book := ReconcileOrder(s.book, k, answer)), a)
    case _ => s
  }

  ghost function Next(s: Sys, limits: Limits, step: Step): Sys {
    match step
    case Bind(venue, funding) =>
      (match BindExecution(s.book, limits, venue, funding)
       case Ok(b1) => s.(book := b1)
       case Err(_) => s)
    case Execute(a, run, guard) =>
      if a in s.actors || !guard || PipelineKey(run) in s.book.orders then s
      else At(s, a, Checked(PipelineKey(run)))
    case ReadIntent(a, gate, candidate) =>
      if a !in s.actors || !s.actors[a].Checked? then s
      else
        var k := s.actors[a].key;
        if k in s.intents then At(s, a, Ready(s.intents[k]))
        else if !gate || candidate.key != k then Gone(s, a)
        else At(s, a, Fresh(k, candidate))
    case Persist(a) =>
      if a !in s.actors || !s.actors[a].Fresh? then s
      else
        var k := s.actors[a].key;
        if k in s.intents then At(s, a, Ready(s.intents[k]))
        else if !ValidIntent(s.actors[a].candidate) then Gone(s, a)
        else At(s.(intents := s.intents[k := s.actors[a].candidate]), a, Ready(s.actors[a].candidate))
    case Call(a, intent) =>
      if a in s.actors || !ValidIntent(intent) then s
      else At(s, a, Ready(intent))
    case DoReserve(a, _, _, _, _, _) =>
      if a !in s.actors || !s.actors[a].Ready? then s else ReserveStep(s, limits, step)
    case DoMark(a, mode) =>
      if a !in s.actors || !s.actors[a].Reserved? then s else MarkStep(s, limits, a, mode)
    case Send(a, guard, mode, posted, answer) =>
      if a !in s.actors || !s.actors[a].Marked? then s else SendStep(s, limits, a, guard, mode, posted, answer)
    case Settle(a) =>
      if a !in s.actors then s else SettleStep(s, a)
    case Lookup(a, key, found) =>
      if a in s.actors || key !in s.book.orders then s else At(s, a, Looked(key, found))
    case Crash(a) =>
      Gone(s, a)
  }

  /** The one assumption about the exchange: looking up an order that was never sent finds nothing. */
  predicate Honest(s: Sys, step: Step) {
    step.Lookup? && Sends(s, step.key) == 0 ==> step.found.None?
  }

  // The invariant

  ghost predicate Matches(b: Book, r: Record) {
    r.intent.key in b.orders && b.orders[r.intent.key].fingerprint == r.intent && !r.accounted && ValidIntent(r.intent)
  }

  ghost predicate ActorOk(b: Book, intents: map<OrderKey, Intent>, sends: map<OrderKey, nat>, actor: Actor) {
    match actor
    case Checked(k) => k.PipelineKey?
    case Fresh(k, c) => k.PipelineKey? && c.key == k
    case Ready(i) => ValidIntent(i)
    case Reserved(r) => Matches(b, r) && Pending(b, r) && Open(r.status) && Count(sends, r.intent.key) == 0
    case Marked(r) => Matches(b, r) && Pending(b, r) && Open(r.status) && Count(sends, r.intent.key) == 0
    case Answered(r, f) => Matches(b, r)
    case Blocked(k, _) => k in b.orders && !b.orders[k].data.accounted && Count(sends, k) == 0
    case Failed(k) => k in b.orders
    case Looked(k, answer) => k in b.orders && (answer.Some? ==> Count(sends, k) >= 1)
  }

  /** The order this actor inserted and alone may send. */
  function Owned(actor: Actor): Option<OrderKey> {
    match actor
    case Reserved(r) => Some(r.intent.key)
    case Marked(r) => Some(r.intent.key)
    case Answered(r, _) => Some(r.intent.key)
    case Blocked(k, _) => Some(k)
    case Failed(k) => Some(k)
    case _ => None
  }

  ghost predicate OneOwner(actors: map<nat, Actor>) {
    forall a, c :: a in actors && c in actors && a != c && Owned(actors[a]).Some? ==>
      Owned(actors[a]) != Owned(actors[c])
  }

  ghost predicate OneOpen(b: Book) {
    forall j, k :: j in b.orders && k in b.orders && Open(b.orders[j].status) && Open(b.orders[k].status) ==> j == k
  }

  ghost predicate IntentsOk(intents: map<OrderKey, Intent>) {
    forall k :: k in intents ==> intents[k].key == k && ValidIntent(intents[k])
  }

  ghost predicate SendsOk(b: Book, sends: map<OrderKey, nat>) {
    forall k :: k in sends ==> sends[k] <= 1 && k in b.orders
  }

  /** The invariant, leaving out the condition of actor `a`. */
  ghost predicate InvBut(s: Sys, a: nat) {
    && Inv(s.book) && OneOpen(s.book) && IntentsOk(s.intents) && SendsOk(s.book, s.sends)
    && OneOwner(s.actors)
    && (forall c :: c in s.actors && c != a ==> ActorOk(s.book, s.intents, s.sends, s.actors[c]))
  }

  ghost predicate SysInv(s: Sys) {
    && Inv(s.book) && OneOpen(s.book) && IntentsOk(s.intents) && SendsOk(s.book, s.sends)
    && OneOwner(s.actors)
    && (forall c :: c in s.actors ==> ActorOk(s.book, s.intents, s.sends, s.actors[c]))
  }

  /** What only grows: orders, stored intents, sends. */
  ghost predicate Grows(s: Sys, s1: Sys) {
    && Preserves(s.book, s1.book)
    && (forall k :: k in s.intents ==> k in s1.intents && s1.intents[k] == s.intents[k])
    && (forall k :: Sends(s, k) <= Sends(s1, k))
  }

  // Shared proof steps

  /** Changing rows without adding any cannot open a second order. */
  lemma OneOpenKept(b: Book, b1: Book)
    requires Inv(b) && Inv(b1) && Preserves(b, b1) && OneOpen(b) && b1.orders.Keys == b.orders.Keys
    ensures OneOpen(b1)
  {
    RowsOk(b);
    RowsOk(b1);
    hide Inv;
    hide ValidIntent;
  }

  /** A transaction of actor `a` wrote row `k`, and was entitled to the way it wrote it. */
  ghost predicate Wrote(s: Sys, a: nat, k: OrderKey, b1: Book) {
    && a in s.actors && k in s.book.orders && b1.orders.Keys == s.book.orders.Keys
    && (forall j :: j in s.book.orders && j != k ==> b1.orders[j] == s.book.orders[j])
    && (s.book.orders[k].data.accounted || Owned(s.actors[a]) == Some(k) || Sends(s, k) >= 1
        || !b1.orders[k].data.accounted)
  }

  lemma GoneInv(s: Sys, a: nat)
    requires InvBut(s, a)
    ensures SysInv(Gone(s, a))
  {
  }

  /** An actor moves on; it may keep the order it owns but not take another's. */
  lemma AtInv(s: Sys, a: nat, actor: Actor)
    requires InvBut(s, a) && ActorOk(s.book, s.intents, s.sends, actor)
    requires Owned(actor).None? || (a in s.actors && Owned(actor) == Owned(s.actors[a]))
             || (forall c :: c in s.actors && c != a ==> Owned(s.actors[c]) != Owned(actor))
    ensures SysInv(At(s, a, actor))
  {
    hide Inv;
    hide OneOpen;
    hide IntentsOk;
    hide SendsOk;
    hide ActorOk;
  }

  /** Every other actor keeps its condition. */
  lemma OthersKept(s: Sys, a: nat, k: OrderKey, b1: Book)
    requires SysInv(s) && Wrote(s, a, k, b1) && Preserves(s.book, b1)
    ensures forall c :: c in s.actors && c != a ==> ActorOk(b1, s.intents, s.sends, s.actors[c])
  {
    hide Inv;
    hide OneOpen;
    hide IntentsOk;
    hide SendsOk;
    hide ValidIntent;
    forall c | c in s.actors && c != a ensures ActorOk(b1, s.intents, s.sends, s.actors[c]) {
      assert ActorOk(s.book, s.intents, s.sends, s.actors[c]);
    }
  }

  /** Writing row `k` keeps everything but, perhaps, the writer's own condition. */
  lemma WroteInv(s: Sys, a: nat, k: OrderKey, b1: Book)
    requires SysInv(s) && Wrote(s, a, k, b1) && Inv(b1) && Preserves(s.book, b1)
    ensures InvBut(s.(book := b1), a)
  {
    OneOpenKept(s.book, b1);
    OthersKept(s, a, k, b1);
    assert SendsOk(b1, s.sends);
    hide Inv, OneOpen, IntentsOk, SendsOk, Preserves, ActorOk;
  }

  /** After writing row `k`, actor `a` leaves. */
  lemma LeaveInv(s: Sys, a: nat, k: OrderKey, b1: Book)
    requires SysInv(s) && Wrote(s, a, k, b1) && Inv(b1) && Preserves(s.book, b1)
    ensures SysInv(Gone(s.(book := b1), a)) && Grows(s, Gone(s.(book := b1), a))
  {
    hide Inv, SysInv, InvBut, Preserves, Wrote;
    WroteInv(s, a, k, b1);
    GoneInv(s.(book := b1), a);
  }

  // One step of each kind

  lemma ReadOnlyInv(s: Sys, limits: Limits, step: Step)
    requires SysInv(s) && Honest(s, step)
    requires step.Execute? || step.ReadIntent? || step.Call? || step.Lookup? || step.Crash?
    ensures SysInv(Next(s, limits, step)) && Grows(s, Next(s, limits, step))
  {
    hide Inv;
    hide OneOpen;
    hide SendsOk;
    hide OneOwner;
    hide ValidIntent;
    assert InvBut(s, step.a);
    match step
    case Execute(a, run, _) => AtInv(s, a, Checked(PipelineKey(run)));
    case ReadIntent(a, gate, candidate) =>
      if a in s.actors && s.actors[a].Checked? {
        assert ActorOk(s.book, s.intents, s.sends, s.actors[a]);
        var k := s.actors[a].key;
        if k in s.intents {
          AtInv(s, a, Ready(s.intents[k]));
        } else if gate && candidate.key == k {
          AtInv(s, a, Fresh(k, candidate));
        } else {
          GoneInv(s, a);
        }
      }
    case Call(a, intent) =>
      if a !in s.actors && ValidIntent(intent) {
        AtInv(s, a, Ready(intent));
      }
    case Lookup(a, key, found) =>
      if a !in s.actors && key in s.book.orders {
        AtInv(s, a, Looked(key, found));
      }
    case Crash(a) => GoneInv(s, a);
  }

  lemma PersistInv(s: Sys, limits: Limits, a: nat)
    requires SysInv(s)
    ensures SysInv(Next(s, limits, Persist(a))) && Grows(s, Next(s, limits, Persist(a)))
  {
    hide Inv;
    hide OneOpen;
    hide SendsOk;
    hide OneOwner;
    hide ValidIntent;
    assert InvBut(s, a);
    if a in s.actors && s.actors[a].Fresh? {
      assert ActorOk(s.book, s.intents, s.sends, s.actors[a]);
      var k, candidate := s.actors[a].key, s.actors[a].candidate;
      if k in s.intents {
        AtInv(s, a, Ready(s.intents[k]));
      } else if !ValidIntent(candidate) {
        GoneInv(s, a);
      } else {
        var s1 := s.(intents := s.intents[k := candidate]);
        forall c | c in s1.actors && c != a ensures ActorOk(s1.book, s1.intents, s1.sends, s1.actors[c]) {
          assert ActorOk(s.book, s.intents, s.sends, s.actors[c]);
        }
        AtInv(s1, a, Ready(candidate));
      }
    }
  }

  /** Rejecting a pending order, seen from the book alone. */
  lemma RejectInv(b: Book, r: Record)
    requires Inv(b) && Pending(b, r) && ValidIntent(r.intent)
    ensures Finish(b, r, REJECTED_FILL).Ok?
    ensures var (b1, r1) := Finish(b, r, REJECTED_FILL).value;
      && Inv(b1) && Preserves(b, b1) && r1.status.Rejected?
      && b1.orders == b.orders[r.intent.key := b1.orders[r.intent.key]]
  {
    hide Inv;
    RejectionAccepted(b, r);
    FinishInv(b, r, REJECTED_FILL);
  }

  /** What the second transaction writes, seen from the book alone. */
  lemma MarkBookInv(b: Book, limits: Limits, mode: RiskMode, r: Record)
    requires Inv(b) && Matches(b, r) && Pending(b, r)
    ensures Mark(b, limits, mode, r).Ok?
    ensures var (b1, r1) := Mark(b, limits, mode, r).value;
      && Inv(b1) && Preserves(b, b1)
      && b1.orders == b.orders[r.intent.key := b1.orders[r.intent.key]]
      && (RiskModeError(mode, limits.protectiveExit, r.intent.side).None? ==>
            r1.intent == r.intent && r1.status.Submitting? && Matches(b1, r1) && Pending(b1, r1))
      && (RiskModeError(mode, limits.protectiveExit, r.intent.side).Some? ==> r1.status.Rejected?)
  {
    hide Inv;
    var blocked := RiskModeError(mode, limits.protectiveExit, r.intent.side);
    if blocked.Some? {
      RejectInv(b, r.(rejection := blocked));
      hide Finish;
    } else {
      SaveInv(b, r.(status := Submitting));
    }
  }

  lemma MarkInv(s: Sys, limits: Limits, a: nat, mode: RiskMode)
    requires SysInv(s) && a in s.actors && s.actors[a].Reserved?
    ensures SysInv(MarkStep(s, limits, a, mode)) && Grows(s, MarkStep(s, limits, a, mode))
  {
    hide Inv, Mark, OneOpen, OneOwner, IntentsOk, SendsOk, Preserves;
    var r := s.actors[a].record;
    assert ActorOk(s.book, s.intents, s.sends, s.actors[a]);
    MarkBookInv(s.book, limits, mode, r);
    var (b1, r1) := Mark(s.book, limits, mode, r).value;
    assert Wrote(s, a, r.intent.key, b1);
    if RiskModeError(mode, limits.protectiveExit, r.intent.side).None? {
      assert ActorOk(b1, s.intents, s.sends, Marked(r1));
      hide ActorOk, SysInv, Wrote, Matches, Pending;
      WroteInv(s, a, r.intent.key, b1);
      AtInv(s.(book := b1), a, Marked(r1));
    } else {
      hide ActorOk, SysInv, Wrote, Matches, Pending;
      LeaveInv(s, a, r.intent.key, b1);
    }
  }

  /** The first and only send of the order that actor `a` announced. */
  lemma SentInv(s: Sys, a: nat, r: Record)
    requires SysInv(s) && a in s.actors && s.actors[a] == Marked(r)
    ensures InvBut(s.(sends := s.sends[r.intent.key := 1]), a)
  {
    hide Inv, OneOpen, ValidIntent, IntentsOk;
    assert ActorOk(s.book, s.intents, s.sends, s.actors[a]);
    var sends := s.sends[r.intent.key := 1];
    forall c | c in s.actors && c != a ensures ActorOk(s.book, s.intents, sends, s.actors[c]) {
      assert ActorOk(s.book, s.intents, s.sends, s.actors[c]);
    }
  }

  lemma SendInv(s: Sys, limits: Limits, step: Step)
    requires SysInv(s) && step.Send?
    ensures SysInv(Next(s, limits, step)) && Grows(s, Next(s, limits, step))
  {
    hide Inv, OneOpen, ValidIntent, OneOwner, IntentsOk, SendsOk;
    var a := step.a;
    if a in s.actors && s.actors[a].Marked? {
      var r := s.actors[a].record;
      var k := r.intent.key;
      assert ActorOk(s.book, s.intents, s.sends, s.actors[a]);
      var refused := SendRefusal(limits, step.guard, step.mode, r.intent.side);
      if refused.Some? {
        AtInv(s, a, Blocked(k, refused.value));
      } else if !step.posted {
        AtInv(s, a, Failed(k));
      } else {
        var s1 := s.(sends := s.sends[k := 1]);
        SentInv(s, a, r);
        AtInv(s1, a, if step.answer.Some? then Answered(r, step.answer.value) else Failed(k));
      }
    }
  }

  lemma SettleInv(s: Sys, limits: Limits, a: nat)
    requires SysInv(s)
    ensures SysInv(Next(s, limits, Settle(a))) && Grows(s, Next(s, limits, Settle(a)))
  {
    if a in s.actors {
      var actor := s.actors[a];
      assert ActorOk(s.book, s.intents, s.sends, actor);
      match actor
      case Answered(r, f) => AnsweredInv(s, a, r, f);
      case Blocked(k, why) => BlockedInv(s, a, k, why);
      case Failed(k) => UnknownInv(s, a, k);
      case Looked(k, answer) => ReconcileInv(s, a, k, answer);
      case _ =>
    }
  }

  lemma AnsweredInv(s: Sys, a: nat, r: Record, f: Fill)
    requires SysInv(s) && a in s.actors && s.actors[a] == Answered(r, f)
    ensures SysInv(SettleStep(s, a)) && Grows(s, SettleStep(s, a))
  {
    hide Inv;
    assert ActorOk(s.book, s.intents, s.sends, s.actors[a]);
    var k := r.intent.key;
    if Finish(s.book, r, f).Err? {
      hide *;
      AtInv(s, a, Failed(k));
    } else if s.book.orders[k].data.accounted {
      LeaveInv(s, a, k, s.book);
    } else {
      FinishInv(s.book, r, f);
      hide Finish;
      LeaveInv(s, a, k, Finish(s.book, r, f).value.0);
    }
  }

  /** What the two exception handlers write, seen from the book alone. */
  lemma HandlersInv(b: Book, k: OrderKey, why: TradingError)
    requires Inv(b) && k in b.orders
    ensures SettleBlocked(b, k, why).Ok?
    ensures Inv(SettleBlocked(b, k, why).value.0) && Preserves(b, SettleBlocked(b, k, why).value.0)
    ensures var b1 := SettleBlocked(b, k, why).value.0; b1.orders == b.orders[k := b1.orders[k]]
    ensures Inv(SettleUnknown(b, k).0) && Preserves(b, SettleUnknown(b, k).0)
    ensures var b1 := SettleUnknown(b, k).0;
      b1.orders == b.orders[k := b1.orders[k]] && b1.orders[k].data.accounted == b.orders[k].data.accounted
  {
    RowsOk(b);
    hide Inv, Finish;
    var r := b.orders[k].data;
    if !r.accounted {
      RejectInv(b, r.(rejection := Some(why)));
      SaveInv(b, r.(status := Unknown, error := Some(OutcomeUnknown)));
    }
  }

  lemma BlockedInv(s: Sys, a: nat, k: OrderKey, why: TradingError)
    requires SysInv(s) && a in s.actors && s.actors[a] == Blocked(k, why)
    ensures SysInv(SettleStep(s, a)) && Grows(s, SettleStep(s, a))
  {
    hide Inv, SettleBlocked;
    assert ActorOk(s.book, s.intents, s.sends, s.actors[a]);
    HandlersInv(s.book, k, why);
    LeaveInv(s, a, k, SettleBlocked(s.book, k, why).value.0);
  }

  lemma UnknownInv(s: Sys, a: nat, k: OrderKey)
    requires SysInv(s) && a in s.actors && s.actors[a] == Failed(k)
    ensures SysInv(SettleStep(s, a)) && Grows(s, SettleStep(s, a))
  {
    hide Inv, SettleUnknown;
    assert ActorOk(s.book, s.intents, s.sends, s.actors[a]);
    HandlersInv(s.book, k, OutcomeUnknown);
    LeaveInv(s, a, k, SettleUnknown(s.book, k).0);
  }

  /** What `reconcile` writes for one order, whatever the lookup answered. */
  lemma ReconcileOrderInv(b: Book, k: OrderKey, answer: Option<Fill>)
    requires Inv(b) && k in b.orders
    ensures Inv(ReconcileOrder(b, k, answer)) && Preserves(b, ReconcileOrder(b, k, answer))
    ensures ReconcileOrder(b, k, answer).orders == b.orders[k := ReconcileOrder(b, k, answer).orders[k]]
    ensures answer.None? ==> ReconcileOrder(b, k, answer).orders[k].data.accounted == b.orders[k].data.accounted
  {
    RowsOk(b);
    hide Inv;
    var r := b.orders[k].data;
    if !r.accounted {
      if answer.None? {
        SaveInv(b, r.(status := Unknown, error := Some(NotConfirmed)));
      } else if Finish(b, r, answer.value).Err? {
        SaveInv(b, r.(status := Unknown));
      } else {
        FinishInv(b, r, answer.value);
      }
    }
  }

  lemma ReconcileInv(s: Sys, a: nat, k: OrderKey, answer: Option<Fill>)
    requires SysInv(s) && a in s.actors && s.actors[a] == Looked(k, answer)
    ensures SysInv(SettleStep(s, a)) && Grows(s, SettleStep(s, a))
  {
    hide Inv, ReconcileOrder;
    assert ActorOk(s.book, s.intents, s.sends, s.actors[a]);
    ReconcileOrderInv(s.book, k, answer);
    var b1 := ReconcileOrder(s.book, k, answer);
    LeaveInv(s, a, k, b1);
  }

  /** A row was inserted while nothing was open. */
  ghost predicate Inserted(s: Sys, i: Intent, b1: Book) {
    && !HasOpenOrder(s.book) && i.key !in s.book.orders && Preserves(s.book, b1)
    && i.key in b1.orders && b1.orders == s.book.orders[i.key := b1.orders[i.key]]
    && b1.orders[i.key].fingerprint == i
  }

  lemma InsertedOneOpen(s: Sys, i: Intent, b1: Book)
    requires Inserted(s, i, b1)
    ensures OneOpen(b1)
  {
  }

  lemma InsertedOthers(s: Sys, i: Intent, b1: Book)
    requires SysInv(s) && Inserted(s, i, b1)
    ensures forall c :: c in s.actors ==>
      ActorOk(b1, s.intents, s.sends, s.actors[c]) && Owned(s.actors[c]) != Some(i.key)
  {
    hide Inv, ValidIntent, OneOpen, IntentsOk, SendsOk, OneOwner, HasOpenOrder;
    forall c | c in s.actors
      ensures ActorOk(b1, s.intents, s.sends, s.actors[c]) && Owned(s.actors[c]) != Some(i.key)
    {
      assert ActorOk(s.book, s.intents, s.sends, s.actors[c]);
    }
  }

  lemma InsertedSends(s: Sys, i: Intent, b1: Book)
    requires SendsOk(s.book, s.sends) && Inserted(s, i, b1)
    ensures SendsOk(b1, s.sends) && Sends(s, i.key) == 0
  {
  }

  /** The new row is the only open one, nobody owns it yet, and it was never sent. */
  lemma InsertedInv(s: Sys, a: nat, i: Intent, b1: Book)
    requires SysInv(s) && a in s.actors && s.actors[a] == Ready(i) && Inserted(s, i, b1) && Inv(b1)
    ensures InvBut(s.(book := b1), a)
    ensures forall c :: c in s.actors ==> Owned(s.actors[c]) != Some(i.key)
    ensures Sends(s, i.key) == 0
  {
    InsertedOneOpen(s, i, b1);
    InsertedOthers(s, i, b1);
    assert ActorOk(s.book, s.intents, s.sends, s.actors[a]);
    InsertedSends(s, i, b1);
    hide Inv, ActorOk, OneOpen, OneOwner, IntentsOk, SendsOk, Inserted;
  }

  /** A paper submission of a new order, seen from the book alone. */
  lemma PaperBookInv(b: Book, limits: Limits, step: Step, i: Intent)
    requires step.DoReserve? && Inv(b) && ValidIntent(i) && i.key !in b.orders && limits.paper
    requires PaperSubmit(b, limits, step.mode, i, step.quote, step.guard, step.now).Ok?
    ensures var b1 := PaperSubmit(b, limits, step.mode, i, step.quote, step.guard, step.now).value.0;
      && Inv(b1) && Preserves(b, b1) && !HasOpenOrder(b)
      && i.key in b1.orders && b1.orders == b.orders[i.key := b1.orders[i.key]]
      && b1.orders[i.key].fingerprint == i && b1.orders[i.key].created == step.now
  {
    hide Reserve, PaperFill, AdmissibleQuote, Finish, Inv, Sum, HasOpenOrder;
    ReserveFacts(b, limits, step.mode, i, None, step.guard, step.now);
    var b0 := Reserve(b, limits, step.mode, i, None, step.guard, step.now).value;
    var b1 := Finish(b0, NewRecord(i), PaperFill(i, step.quote)).value.0;
    FinishInv(b0, NewRecord(i), PaperFill(i, step.quote));
    PreservesTransitive(b, b0, b1);
    hide DailyBuys, Exposure;
  }

  lemma ReserveInv(s: Sys, limits: Limits, step: Step)
    requires SysInv(s) && step.DoReserve?
    ensures SysInv(Next(s, limits, step)) && Grows(s, Next(s, limits, step))
  {
    hide Reserve, PaperSubmit, Inv, OneOpen, IntentsOk, SendsOk, OneOwner, HasOpenOrder, ValidIntent;
    var a := step.a;
    if a in s.actors && s.actors[a].Ready? {
      var i := s.actors[a].intent;
      assert ActorOk(s.book, s.intents, s.sends, s.actors[a]);
      if i.key in s.book.orders {
        GoneInv(s, a);
      } else if limits.paper {
        if PaperSubmit(s.book, limits, step.mode, i, step.quote, step.guard, step.now).Ok? {
          PaperBookInv(s.book, limits, step, i);
          var b1 := PaperSubmit(s.book, limits, step.mode, i, step.quote, step.guard, step.now).value.0;
          InsertedInv(s, a, i, b1);
          GoneInv(s.(book := b1), a);
        } else {
          GoneInv(s, a);
        }
      } else if Reserve(s.book, limits, step.mode, i, step.remote, step.guard, step.now).Ok? {
        ReserveFacts(s.book, limits, step.mode, i, step.remote, step.guard, step.now);
        var b1 := Reserve(s.book, limits, step.mode, i, step.remote, step.guard, step.now).value;
        InsertedInv(s, a, i, b1);
        AtInv(s.(book := b1), a, Reserved(NewRecord(i)));
      } else {
        GoneInv(s, a);
      }
    }
  }

  lemma BindInv(s: Sys, limits: Limits, venue: Venue, funding: real)
    requires SysInv(s)
    ensures SysInv(Next(s, limits, Bind(venue, funding))) && Grows(s, Next(s, limits, Bind(venue, funding)))
  {
    hide Conserved, CashMatchesHistory, QuantityMatchesHistory, OneOwner, IntentsOk, SendsOk;
    if BindExecution(s.book, limits, venue, funding).Ok? {
      var b1 := BindExecution(s.book, limits, venue, funding).value;
      OpenAccountInv(s.book, venue, Min(funding, limits.maxDaily));
      assert b1.orders == s.book.orders;
      SameOrders(s.book, b1);
      forall c | c in s.actors ensures ActorOk(b1, s.intents, s.sends, s.actors[c]) {
        assert ActorOk(s.book, s.intents, s.sends, s.actors[c]);
        AccountAdded(s.book, b1, s.intents, s.sends, s.actors[c]);
      }
    }
  }

  lemma SameOrders(b: Book, b1: Book)
    requires b1.orders == b.orders
    ensures OneOpen(b) ==> OneOpen(b1)
    ensures forall sends :: SendsOk(b, sends) ==> SendsOk(b1, sends)
  {
  }

  lemma AccountAdded(
    b: Book, b1: Book, intents: map<OrderKey, Intent>, sends: map<OrderKey, nat>, actor: Actor)
    requires b1.orders == b.orders && ActorOk(b, intents, sends, actor)
    ensures ActorOk(b1, intents, sends, actor)
  {
  }

  lemma StepInv(s: Sys, limits: Limits, step: Step)
    requires SysInv(s) && Honest(s, step)
    ensures SysInv(Next(s, limits, step)) && Grows(s, Next(s, limits, step))
  {
    match step
    case Bind(venue, funding) => BindInv(s, limits, venue, funding);
    case Persist(a) => PersistInv(s, limits, a);
    case DoReserve(_, _, _, _, _, _) => ReserveInv(s, limits, step);
    case DoMark(a, mode) => if a in s.actors && s.actors[a].Reserved? { MarkInv(s, limits, a, mode); }
    case Send(_, _, _, _, _) => SendInv(s, limits, step);
    case Settle(a) => SettleInv(s, limits, a);
    case _ => ReadOnlyInv(s, limits, step);
  }
}
