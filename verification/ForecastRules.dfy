/** Which forecasts and resolutions are recorded, and which are scored, told by their fields. */
module ForecastRules {
  import opened Core
  import opened Forecasts
  import opened ForecastLaws

  // What is scored

  predicate EitherSame(a: Option<Id>, b: Option<Id>, a1: Option<Id>, b1: Option<Id>) {
    (if a.Some? then a else b) == (if a1.Some? then a1 else b1)
  }

  /** The same event, or market where no event is named; the same round; the same outcome, or token; the same horizon. */
  predicate SameCohort(f: Forecast, g: Forecast) {
    && EitherSame(f.eventId, Some(f.market), g.eventId, Some(g.market)) && f.roundStart == g.roundStart
    && EitherSame(f.outcomeId, f.token, g.outcomeId, g.token) && f.horizon == g.horizon
  }

  /** A forecast is selected exactly when it has a model probability and every other forecast of its tenant and cohort that
      has one was decided later, or at the same time under a larger id. */
  lemma SelectedExactly(l: Ledger, tenant: Id, id: Id)
    ensures id in Selected(l, tenant) <==>
      && id in l.forecasts && l.forecasts[id].tenant == tenant && l.forecasts[id].pModel.Some?
      && forall o ::
           (o in l.forecasts && o != id && l.forecasts[o].tenant == tenant && l.forecasts[o].pModel.Some?
            && SameCohort(l.forecasts[o], l.forecasts[id])) ==>
           || l.forecasts[id].decision < l.forecasts[o].decision
           || (l.forecasts[id].decision == l.forecasts[o].decision && id < o)
  {
    forall o | o in l.forecasts && id in l.forecasts
      ensures SameCohort(l.forecasts[o], l.forecasts[id]) <==> CohortOf(l.forecasts[o]) == CohortOf(l.forecasts[id])
    {
    }
    hide SameCohort, CohortOf;
  }

  /** Row n of the table is the last word on the forecast. */
  ghost predicate LastWord(events: seq<Event>, id: Id, n: int) {
    && 0 <= n < |events| && events[n].body.forecast == id
    && forall m :: n < m < |events| ==> events[m].body.forecast != id
  }

  ghost predicate Unmentioned(events: seq<Event>, id: Id) {
    forall n :: 0 <= n < |events| ==> events[n].body.forecast != id
  }

  lemma {:induction false} FindLast(events: seq<Event>, id: Id) returns (n: int)
    ensures
      || (Unmentioned(events, id) && Latest(events, id) == None)
      || (LastWord(events, id, n) && Latest(events, id) == Some(events[n]))
  {
    if events == [] {
      return 0;
    }
    var last := |events| - 1;
    if events[last].body.forecast == id {
      return last;
    }
    n := FindLast(events[..last], id);
    hide EventsOf;
  }

  lemma LatestIsLastWord(events: seq<Event>, id: Id)
    ensures Latest(events, id).None? <==> Unmentioned(events, id)
    ensures forall n :: LastWord(events, id, n) ==> Latest(events, id) == Some(events[n])
    ensures Latest(events, id).Some? ==> exists n :: LastWord(events, id, n)
  {
    hide Latest;
    var n := FindLast(events, id);
  }

  /** A settled question with a binary answer: not disputed, an outcome of zero or one, and a payout that agrees. */
  predicate Answered(b: Body) {
    && b.outcome.Some? && (b.outcome.value == 0 || b.outcome.value == 1)
    && (b.payout.Some? ==> b.payout.value == b.outcome.value as real)
  }

  /** The last word on the forecast is one of these. */
  ghost predicate Said(events: seq<Event>, id: Id, these: Body -> bool) {
    exists n :: LastWord(events, id, n) && these(events[n].body)
  }

  /** How a forecast is counted is decided by the last word on it; only answered questions are scored. */
  lemma CountedExactly(events: seq<Event>, id: Id)
    ensures var counted := ClassOf(Latest(events, id));
      && (counted.Unresolved? <==>
            Unmentioned(events, id) || Said(events, id, (b: Body) => b.status.Pending?))
      && (counted.CanceledRow? <==> Said(events, id, (b: Body) => b.status.Canceled?))
      && (counted.DisputedRow? <==>
            Said(events, id, (b: Body) => b.status.Disputed? || (b.status.Resolved? && b.dispute)))
      && (counted.NonBinary? <==> Said(events, id, (b: Body) => b.status.Resolved? && !b.dispute && !Answered(b)))
      && (counted.Binary? <==> Said(events, id, (b: Body) => b.status.Resolved? && !b.dispute && Answered(b)))
  {
    LatestIsLastWord(events, id);
    if Latest(events, id).Some? {
      var n :| LastWord(events, id, n);
      hide Latest;
    }
  }

  // What is recorded

  function Given<T>(a: Aliased<T>): Option<T> {
    if a.first.Some? then a.first else a.second
  }

  predicate Agree<T(==)>(a: Aliased<T>) {
    a.first.Some? && a.second.Some? ==> a.first.value == a.second.value
  }

  predicate Probability(p: Option<real>) {
    p.Some? ==> 0.0 <= p.value <= 1.0
  }

  /** Decided by now and after what was known; probabilities between zero and one and not crossed; a positive horizon; a
      round that has begun; and aliases that agree. */
  predicate Recordable(r: Request, decision: real, now: real) {
    && 0.0 < decision <= now && (r.knowledge.Some? ==> 0.0 < r.knowledge.value <= decision)
    && Probability(r.bid) && Probability(r.ask) && Probability(r.pMarketMid) && Probability(r.fee)
    && Probability(Given(r.pModel)) && (r.bid.Some? && r.ask.Some? ==> r.bid.value <= r.ask.value)
    && (Given(r.horizon).Some? ==> Given(r.horizon).value > 0.0)
    && (r.roundStart.Some? ==> 0.0 <= r.roundStart.value as real <= decision)
    && Agree(r.horizon) && Agree(r.market) && Agree(r.token) && Agree(r.pModel)
  }

  /** The row carries what was asked for, with the defaults for the market and the reason. */
  predicate Carries(f: Forecast, r: Request) {
    && f.run == r.run && f.roundStart == r.roundStart && f.pModel == Given(r.pModel) && f.token == Given(r.token)
    && f.market == (if Given<Id>(r.market).Some? then Given<Id>(r.market).value else DEFAULT_MARKET)
    && f.pMarketMid == r.pMarketMid && f.bid == r.bid && f.ask == r.ask && f.fee == r.fee && f.horizon == Given(r.horizon)
    && f.knowledge == r.knowledge && f.receipt == r.receipt
    && f.reason == (if r.reason.Some? then r.reason.value else DEFAULT_REASON)
    && f.eventId == r.eventId && f.eventFamily == r.eventFamily && f.outcomeId == r.outcomeId
    && f.ruleVersion == r.ruleVersion && f.modelVersion == r.modelVersion
  }

  /** A new id is recorded exactly when the request is in order, with the fields of the request and the times of the
      clock. */
  lemma RecordedExactly(l: Ledger, tenant: Id, id: Id, r: Request, now: real)
    requires id !in l.forecasts
    ensures var decision := if r.decision.Some? then r.decision.value else now;
      && (Record(l, tenant, id, r, now).Ok? <==> Recordable(r, decision, now))
      && (Record(l, tenant, id, r, now).Ok? ==>
            var (l1, f) := Record(l, tenant, id, r, now).value;
            l1 == Ledger(l.forecasts[id := f], l.events) && Carries(f, r)
            && f.tenant == tenant && f.decision == decision && f.createdAt == now)
  {
  }

  /** A known id is answered exactly when the request is in order and asks for the row that is there. */
  lemma KnownAnsweredExactly(l: Ledger, tenant: Id, id: Id, r: Request, now: real)
    requires id in l.forecasts
    ensures var f := l.forecasts[id];
      var decision := if r.decision.Some? then r.decision.value else f.decision;
      && (Record(l, tenant, id, r, now).Ok? <==>
            Recordable(r, decision, now) && f.tenant == tenant && Carries(f, r) && f.decision == decision)
      && (Record(l, tenant, id, r, now).Ok? ==> Record(l, tenant, id, r, now).value == (l, f))
  {
  }

  // What is resolved

  /** The status asked for, or what the other fields imply. */
  predicate Means(r: Resolution, status: Status) {
    if r.status.Some? then status == r.status.value
    else
      && (status.Disputed? <==> r.dispute)
      && (status.Resolved? <==> !r.dispute && (r.outcome.Some? || r.payout.Some?))
      && (status.Pending? <==> !r.dispute && r.outcome.None? && r.payout.None?)
  }

  /** The settlement time asked for, or the one that stands, or now for a status that needs one. */
  predicate Settles(r: Resolution, status: Status, earlier: Option<Event>, settle: Option<real>, now: real) {
    if r.settle.Some? then settle == r.settle
    else if status.Pending? || status.Canceled? then settle == None
    else settle == Some(if earlier.Some? && earlier.value.body.settle.Some? then earlier.value.body.settle.value else now)
  }

  /** A binary outcome that agrees with the payout, a resolved question with an answer, a settlement after the decision and
      a redemption after the settlement. */
  predicate Resolvable(f: Forecast, r: Resolution, status: Status, settle: Option<real>, now: real) {
    && (r.outcome.Some? ==> r.outcome.value == 0 || r.outcome.value == 1) && Probability(r.payout)
    && (r.dispute ==> status.Disputed?) && (status.Resolved? ==> r.outcome.Some? || r.payout.Some?)
    && (r.outcome.Some? && r.payout.Some? ==> r.payout.value == r.outcome.value as real)
    && (settle.Some? ==> 0.0 < settle.value <= now && f.decision < settle.value)
    && (r.redeemed.Some? ==> 0.0 < r.redeemed.value <= now && settle.Some? && settle.value <= r.redeemed.value)
  }

  lemma BodyIs(f: Forecast, id: Id, r: Resolution, earlier: Option<Event>, now: real, status: Status, settle: Option<real>)
    requires Means(r, status) && Settles(r, status, earlier, settle, now)
    ensures BodyOf(f, id, r, earlier, now).Ok? <==> Resolvable(f, r, status, settle, now)
    ensures BodyOf(f, id, r, earlier, now).Ok? ==>
      BodyOf(f, id, r, earlier, now).value
      == Body(id, status, r.outcome, settle, if r.source.Some? then r.source.value else UNSPECIFIED, r.payout, r.redeemed,
              status.Disputed?)
  {
  }

  /** A resolution under a new id is appended exactly when its fields are in order: as the next revision, with the status
      and the settlement it means. */
  lemma ResolvedExactly(
    l: Ledger, tenant: Id, forecast: Id, r: Resolution, uuid: Id, now: real, status: Status, settle: Option<real>)
    requires Inv(l) && forecast in l.forecasts && r.id.Some? && WithId(l.events, r.id.value).None?
    requires Means(r, status) && Settles(r, status, Latest(l.events, forecast), settle, now)
    ensures Resolve(l, tenant, forecast, r, uuid, now).Ok? <==>
      l.forecasts[forecast].tenant == tenant && Resolvable(l.forecasts[forecast], r, status, settle, now)
    ensures Resolve(l, tenant, forecast, r, uuid, now).Ok? ==>
      var (l1, e) := Resolve(l, tenant, forecast, r, uuid, now).value;
      && l1 == Ledger(l.forecasts, l.events + [e]) && e.id == r.id.value && e.recordedAt == now
      && e.revision == |EventsOf(l.events, forecast)| + 1
      && e.body == Body(forecast, status, r.outcome, settle, if r.source.Some? then r.source.value else UNSPECIFIED,
                        r.payout, r.redeemed, status.Disputed?)
  {
    BodyIs(l.forecasts[forecast], forecast, r, Latest(l.events, forecast), now, status, settle);
    assert Consecutive(EventsOf(l.events, forecast));
    hide BodyOf, EventsOf, WithId, Means, Settles, Resolvable;
  }

  /** A resolution without an id is answered by the last row of the forecast when it says the same, and is appended under
      the drawn identifier otherwise. */
  lemma UnnamedResolvedExactly(
    l: Ledger, tenant: Id, forecast: Id, r: Resolution, uuid: Id, now: real, status: Status, settle: Option<real>)
    requires Inv(l) && forecast in l.forecasts && r.id.None? && WithId(l.events, uuid).None?
    requires Means(r, status) && Settles(r, status, Latest(l.events, forecast), settle, now)
    ensures var last := Latest(l.events, forecast);
      var body := Body(forecast, status, r.outcome, settle, if r.source.Some? then r.source.value else UNSPECIFIED,
                       r.payout, r.redeemed, status.Disputed?);
      && (Resolve(l, tenant, forecast, r, uuid, now).Ok? <==>
            l.forecasts[forecast].tenant == tenant && Resolvable(l.forecasts[forecast], r, status, settle, now))
      && (Resolve(l, tenant, forecast, r, uuid, now).Ok? ==>
            Resolve(l, tenant, forecast, r, uuid, now).value
            == if last.Some? && last.value.body == body then (l, last.value)
               else
                 var e := Event(uuid, |EventsOf(l.events, forecast)| + 1, body, now);
                 (Ledger(l.forecasts, l.events + [e]), e))
  {
    BodyIs(l.forecasts[forecast], forecast, r, Latest(l.events, forecast), now, status, settle);
    assert Consecutive(EventsOf(l.events, forecast));
    hide BodyOf, EventsOf, WithId, Means, Settles, Resolvable;
  }
}
