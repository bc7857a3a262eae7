/** The forecast ledger: immutable forecasts, append-only resolutions, and the cohort selection of `score`. */
module Forecasts {
  import opened Core

  type Id = nat

  datatype LedgerError =
    | ForecastConflict | AliasConflict | OutOfRange | KnowledgeAfterDecision | CrossedQuote | InvalidRoundStart
    | ForecastNotFound | OutcomeNotBinary | DisputeConflict | NothingResolved | PayoutConflict
    | BeforeForecast | BeforeSettlement | ResolutionConflict

  datatype Forecast = Forecast(
    tenant: Id, run: Option<Id>, market: Id, token: Option<Id>, roundStart: Option<int>, pModel: Option<real>,
    pMarketMid: Option<real>, bid: Option<real>, ask: Option<real>, fee: Option<real>, horizon: Option<real>,
    decision: real, knowledge: Option<real>, receipt: Option<Id>, reason: Id, createdAt: real,
    eventId: Option<Id>, eventFamily: Option<Id>, outcomeId: Option<Id>, ruleVersion: Option<Id>,
    modelVersion: Option<Id>)

  /** A field and its alias, of which a request may give either. */
  datatype Aliased<T> = Aliased(first: Option<T>, second: Option<T>)

  datatype Request = Request(
    run: Option<Id>, market: Aliased<Id>, token: Aliased<Id>, roundStart: Option<int>, pModel: Aliased<real>,
    pMarketMid: Option<real>, bid: Option<real>, ask: Option<real>, fee: Option<real>, horizon: Aliased<real>,
    decision: Option<real>, knowledge: Option<real>, receipt: Option<Id>, reason: Option<Id>,
    eventId: Option<Id>, eventFamily: Option<Id>, outcomeId: Option<Id>, ruleVersion: Option<Id>,
    modelVersion: Option<Id>)

  datatype Status = Pending | Resolved | Canceled | Disputed

  datatype Resolution = Resolution(
    id: Option<Id>, status: Option<Status>, outcome: Option<int>, settle: Option<real>, source: Option<Id>,
    payout: Option<real>, redeemed: Option<real>, dispute: bool)

  datatype Body = Body(
    forecast: Id, status: Status, outcome: Option<int>, settle: Option<real>, source: Id, payout: Option<real>,
    redeemed: Option<real>, dispute: bool)

  datatype Event = Event(id: Id, revision: nat, body: Body, recordedAt: real)

  datatype Ledger = Ledger(forecasts: map<Id, Forecast>, events: seq<Event>)

  const DEFAULT_MARKET: Id := 0
  const DEFAULT_REASON: Id := 0
  const UNSPECIFIED: Id := 0

  // Recording a forecast

  function Alias<T(==)>(a: Aliased<T>): Result<Option<T>, LedgerError> {
    if a.first.Some? && a.second.Some? && a.first != a.second then Err(AliasConflict)
    else Ok(if a.first.Some? then a.first else a.second)
  }

  predicate Within(x: Option<real>, low: real, high: real) {
    x.Some? ==> low <= x.value <= high
  }

  predicate Positive(x: Option<real>) {
    x.Some? ==> x.value > 0.0
  }

  /** The row that a request asks for. */
  function RowOf(tenant: Id, existing: Option<Forecast>, r: Request, now: real): Result<Forecast, LedgerError> {
    var decision :=
      if r.decision.Some? then r.decision.value else if existing.Some? then existing.value.decision else now;
    if !(0.0 < decision <= now) then Err(OutOfRange)
    else if !Positive(r.knowledge) then Err(OutOfRange)
    else if r.knowledge.Some? && r.knowledge.value > decision then Err(KnowledgeAfterDecision)
    else if !Within(r.bid, 0.0, 1.0) || !Within(r.ask, 0.0, 1.0) then Err(OutOfRange)
    else if r.bid.Some? && r.ask.Some? && r.bid.value > r.ask.value then Err(CrossedQuote)
    else if Alias(r.horizon).Err? then Err(AliasConflict)
    else if !Positive(Alias(r.horizon).value) then Err(OutOfRange)
    else if r.roundStart.Some? && (r.roundStart.value < 0 || r.roundStart.value as real > decision) then
      Err(InvalidRoundStart)
    else if Alias(r.market).Err? || Alias(r.token).Err? || Alias(r.pModel).Err? then Err(AliasConflict)
    else if !Within(Alias(r.pModel).value, 0.0, 1.0) || !Within(r.pMarketMid, 0.0, 1.0) || !Within(r.fee, 0.0, 1.0) then
      Err(OutOfRange)
    else
      Ok(Forecast(
        tenant, r.run, if Alias(r.market).value.Some? then Alias(r.market).value.value else DEFAULT_MARKET,
        Alias(r.token).value, r.roundStart, Alias(r.pModel).value, r.pMarketMid, r.bid, r.ask, r.fee,
        Alias(r.horizon).value, decision, r.knowledge, r.receipt,
        if r.reason.Some? then r.reason.value else DEFAULT_REASON,
        if existing.Some? then existing.value.createdAt else now,
        r.eventId, r.eventFamily, r.outcomeId, r.ruleVersion, r.modelVersion))
  }

  function Existing(l: Ledger, id: Id): Option<Forecast> {
    if id in l.forecasts then Some(l.forecasts[id]) else None
  }

  /** `record_forecast`: a retry must ask for the row that is there. */
  function Record(l: Ledger, tenant: Id, id: Id, r: Request, now: real): Result<(Ledger, Forecast), LedgerError> {
    if id in l.forecasts && l.forecasts[id].tenant != tenant then Err(ForecastConflict)
    else
      match RowOf(tenant, Existing(l, id), r, now)
      case Err(e) => Err(e)
      case Ok(row) =>
        if id in l.forecasts then
          if row != l.forecasts[id] then Err(ForecastConflict) else Ok((l, row))
        else Ok((l.(forecasts := l.forecasts[id := row]), row))
  }

  // Resolving

  function StatusOf(r: Resolution): Status {
    if r.status.Some? then r.status.value
    else if r.dispute then Disputed
    else if r.outcome.Some? || r.payout.Some? then Resolved
    else Pending
  }

  /** The settlement time: as given; else what the earlier row says; else now. */
  function SettleOf(r: Resolution, earlier: Option<Event>, now: real): Option<real> {
    if r.settle.Some? || !(StatusOf(r).Resolved? || StatusOf(r).Disputed?) then r.settle
    else if earlier.Some? && earlier.value.body.settle.Some? then earlier.value.body.settle
    else Some(now)
  }

  function BodyOf(f: Forecast, id: Id, r: Resolution, earlier: Option<Event>, now: real): Result<Body, LedgerError> {
    var status, settle := StatusOf(r), SettleOf(r, earlier, now);
    if r.outcome.Some? && r.outcome.value != 0 && r.outcome.value != 1 then Err(OutcomeNotBinary)
    else if !Within(r.payout, 0.0, 1.0) then Err(OutOfRange)
    else if r.dispute && !status.Disputed? then Err(DisputeConflict)
    else if status.Resolved? && r.outcome.None? && r.payout.None? then Err(NothingResolved)
    else if r.outcome.Some? && r.payout.Some? && r.payout.value != r.outcome.value as real then Err(PayoutConflict)
    else if settle.Some? && !(0.0 < settle.value <= now) then Err(OutOfRange)
    else if settle.Some? && settle.value <= f.decision then Err(BeforeForecast)
    else if r.redeemed.Some? && !(0.0 < r.redeemed.value <= now) then Err(OutOfRange)
    else if r.redeemed.Some? && (settle.None? || r.redeemed.value < settle.value) then Err(BeforeSettlement)
    else
      Ok(Body(id, status, r.outcome, settle, if r.source.Some? then r.source.value else UNSPECIFIED, r.payout,
              r.redeemed, status.Disputed?))
  }

  /** The events of one forecast, oldest first. */
  function EventsOf(events: seq<Event>, forecast: Id): seq<Event> {
    if events == [] then []
    else
      EventsOf(events[..|events| - 1], forecast)
      + if events[|events| - 1].body.forecast == forecast then [events[|events| - 1]] else []
  }

  function Latest(events: seq<Event>, forecast: Id): Option<Event> {
    var own := EventsOf(events, forecast);
    if own == [] then None else Some(own[|own| - 1])
  }

  function WithId(events: seq<Event>, id: Id): Option<Event> {
    if events == [] then None
    else if events[|events| - 1].id == id then Some(events[|events| - 1])
    else WithId(events[..|events| - 1], id)
  }

  /** `resolve`; `uuid` is the identifier drawn when the request names none. */
  function Resolve(l: Ledger, tenant: Id, forecast: Id, r: Resolution, uuid: Id, now: real)
    : Result<(Ledger, Event), LedgerError>
  {
    if forecast !in l.forecasts || l.forecasts[forecast].tenant != tenant then Err(ForecastNotFound)
    else
      var previous := Latest(l.events, forecast);
      var existing := if r.id.Some? then WithId(l.events, r.id.value) else None;
      match BodyOf(l.forecasts[forecast], forecast, r, if existing.Some? then existing else previous, now)
      case Err(e) => Err(e)
      case Ok(body) =>
        if existing.Some? then
          if body != existing.value.body then Err(ResolutionConflict) else Ok((l, existing.value))
        else if r.id.None? && previous.Some? && body == previous.value.body then Ok((l, previous.value))
        else if r.id.None? && WithId(l.events, uuid).Some? then Err(ResolutionConflict)
        else
          var row := Event(
            if r.id.Some? then r.id.value else uuid, if previous.Some? then previous.value.revision + 1 else 1, body, now);
          Ok((l.(events := l.events + [row]), row))
  }

  // Selecting what is scored

  datatype Cohort = Cohort(event: Id, roundStart: Option<int>, outcome: Option<Id>, horizon: Option<real>)

  function CohortOf(f: Forecast): Cohort {
    Cohort(if f.eventId.Some? then f.eventId.value else f.market, f.roundStart,
           if f.outcomeId.Some? then f.outcomeId else f.token, f.horizon)
  }

  /** ORDER BY decision_time, forecast_id. */
  predicate Earlier(l: Ledger, a: Id, b: Id)
    requires a in l.forecasts && b in l.forecasts
  {
    l.forecasts[a].decision < l.forecasts[b].decision || (l.forecasts[a].decision == l.forecasts[b].decision && a < b)
  }

  predicate Scorable(l: Ledger, tenant: Id, id: Id) {
    id in l.forecasts && l.forecasts[id].tenant == tenant && l.forecasts[id].pModel.Some?
  }

  /** The first scorable forecast of its cohort. */
  ghost predicate First(l: Ledger, tenant: Id, id: Id) {
    && Scorable(l, tenant, id)
    && forall o :: Scorable(l, tenant, o) && o != id && CohortOf(l.forecasts[o]) == CohortOf(l.forecasts[id]) ==>
         Earlier(l, id, o)
  }

  ghost function Selected(l: Ledger, tenant: Id): set<Id> {
    set id | id in l.forecasts && First(l, tenant, id)
  }

  function Rows(l: Ledger, tenant: Id): set<Id> {
    set id | id in l.forecasts && l.forecasts[id].tenant == tenant
  }

  /** How a row counts by its latest resolution. */
  datatype Class = Unresolved | CanceledRow | DisputedRow | NonBinary | Binary

  function ClassOf(latest: Option<Event>): Class {
    if latest.None? || latest.value.body.status.Pending? then Unresolved
    else if latest.value.body.status.Canceled? then CanceledRow
    else if latest.value.body.status.Disputed? || latest.value.body.dispute then DisputedRow
    else if latest.value.body.outcome.None?
         || (latest.value.body.outcome.value != 0 && latest.value.body.outcome.value != 1)
         || (latest.value.body.payout.Some? && latest.value.body.payout.value != latest.value.body.outcome.value as real) then
      NonBinary
    else Binary
  }

  function Classified(l: Ledger, ids: set<Id>, class_: Class): set<Id> {
    set id | id in ids && ClassOf(Latest(l.events, id)) == class_
  }

  datatype Counts = Counts(
    total: nat, unresolved: nat, canceled: nat, disputed: nat, nonBinary: nat, missing: nat, duplicates: nat)

  class ForecastLedger {
    var forecasts: map<Id, Forecast>
    var events: seq<Event>

    ghost function View(): Ledger
      reads this
    {
      Ledger(forecasts, events)
    }

    constructor ()
      ensures View() == Ledger(map[], [])
    {
      forecasts, events := map[], [];
    }

    method RecordForecast(tenant: Id, id: Id, r: Request, now: real) returns (row: Result<Forecast, LedgerError>)
      modifies this`forecasts
      ensures match Record(old(View()), tenant, id, r, now)
        case Ok((l1, f)) => View() == l1 && row == Ok(f)
        case Err(e) => View() == old(View()) && row == Err(e)
    {
      hide RowOf;
      if id in forecasts && forecasts[id].tenant != tenant {
        return Err(ForecastConflict);
      }
      var existing := if id in forecasts then Some(forecasts[id]) else None;
      row := RowOf(tenant, existing, r, now);
      if row.Err? {
        return;
      }
      if existing.Some? {
        if row.value != existing.value {
          return Err(ForecastConflict);
        }
        return;
      }
      forecasts := forecasts[id := row.value];
    }

    /** ORDER BY revision DESC LIMIT 1. */
    method LatestOf(forecast: Id) returns (latest: Option<Event>)
      ensures latest == Latest(events, forecast)
    {
      latest := None;
      for n := 0 to |events|
        invariant latest == Latest(events[..n], forecast)
      {
        assert events[..n + 1][..n] == events[..n];
        if events[n].body.forecast == forecast {
          latest := Some(events[n]);
        }
      }
      assert events[..|events|] == events;
    }

    method Find(id: Id) returns (found: Option<Event>)
      ensures found == WithId(events, id)
    {
      found := None;
      for n := 0 to |events|
        invariant found == WithId(events[..n], id)
      {
        assert events[..n + 1][..n] == events[..n];
        if events[n].id == id {
          found := Some(events[n]);
        }
      }
      assert events[..|events|] == events;
    }

    method ResolveForecast(tenant: Id, forecast: Id, r: Resolution, uuid: Id, now: real)
      returns (row: Result<Event, LedgerError>)
      modifies this`events
      ensures match Resolve(old(View()), tenant, forecast, r, uuid, now)
        case Ok((l1, e)) => View() == l1 && row == Ok(e)
        case Err(e) => View() == old(View()) && row == Err(e)
    {
      hide BodyOf, Latest, WithId;
      if forecast !in forecasts || forecasts[forecast].tenant != tenant {
        return Err(ForecastNotFound);
      }
      var previous := LatestOf(forecast);
      var existing: Option<Event> := None;
      if r.id.Some? {
        existing := Find(r.id.value);
      }
      var body := BodyOf(forecasts[forecast], forecast, r, if existing.Some? then existing else previous, now);
      if body.Err? {
        return Err(body.error);
      }
      if existing.Some? {
        if body.value != existing.value.body {
          return Err(ResolutionConflict);
        }
        return Ok(existing.value);
      }
      if r.id.None? && previous.Some? && body.value == previous.value.body {
        return Ok(previous.value);
      }
      var id := if r.id.Some? then r.id.value else uuid;
      if r.id.None? {
        var taken := Find(uuid);
        if taken.Some? {
          return Err(ResolutionConflict);
        }
      }
      var event := Event(id, if previous.Some? then previous.value.revision + 1 else 1, body.value, now);
      events := events + [event];
      return Ok(event);
    }

    method NextRow(todo: set<Id>) returns (id: Id)
      requires todo != {} && todo <= forecasts.Keys
      ensures id in todo && forall o :: o in todo && o != id ==> Earlier(View(), id, o)
    {
      id :| id in todo;
      var rest := todo - {id};
      while rest != {}
        invariant rest <= todo && id in todo && id !in rest
        invariant forall o :: o in todo - rest && o != id ==> Earlier(View(), id, o)
        decreases |rest|
      {
        var o :| o in rest;
        if forecasts[o].decision < forecasts[id].decision || (forecasts[o].decision == forecasts[id].decision && o < id) {
          id := o;
        }
        assert todo - (rest - {o}) == todo - rest + {o};
        rest := rest - {o};
      }
    }

    /** One row of the counting loop. */
    method CountRow(row: Forecast, latest: Option<Event>, id: Id, counts0: Counts, cohorts0: map<Cohort, Id>)
      returns (counts: Counts, cohorts: map<Cohort, Id>)
      ensures counts == ScoreRow(row, ClassOf(latest), id, counts0, cohorts0).0
      ensures cohorts == ScoreRow(row, ClassOf(latest), id, counts0, cohorts0).1
    {
      counts, cohorts := counts0, cohorts0;
      match ClassOf(latest) {
        case Unresolved => counts := counts.(unresolved := counts.unresolved + 1);
        case CanceledRow => counts := counts.(canceled := counts.canceled + 1);
        case DisputedRow => counts := counts.(disputed := counts.disputed + 1);
        case NonBinary => counts := counts.(nonBinary := counts.nonBinary + 1);
        case Binary =>
      }
      if row.pModel.None? {
        counts := counts.(missing := counts.missing + 1);
        return;
      }
      var key := CohortOf(row);
      if key in cohorts {
        counts := counts.(duplicates := counts.duplicates + 1);
      } else {
        cohorts := cohorts[key := id];
      }
    }

    /** The counting loop of `score`, row by row in order, and the rows it selects for scoring. */
    method Score(tenant: Id) returns (counts: Counts, cohorts: map<Cohort, Id>, scored: set<Id>)
      ensures cohorts.Values == Selected(View(), tenant)
      ensures forall k :: k in cohorts ==> cohorts[k] in forecasts && CohortOf(forecasts[cohorts[k]]) == k
      ensures scored == Classified(View(), Selected(View(), tenant), Binary)
      ensures var rows := Rows(View(), tenant);
        && counts.total == |rows| && counts.total == counts.missing + counts.duplicates + |cohorts|
        && counts.unresolved == |Classified(View(), rows, Unresolved)|
        && counts.canceled == |Classified(View(), rows, CanceledRow)|
        && counts.disputed == |Classified(View(), rows, DisputedRow)|
        && counts.nonBinary == |Classified(View(), rows, NonBinary)|
        && counts.missing == |Missing(View(), rows)|
    {
      hide Scoring, ScoreRow, Ahead, ClassOf, Latest, CohortOf, Selected, Tally, Earlier, Classified, Missing;
      ghost var l := View();
      var rows := Rows(Ledger(forecasts, events), tenant);
      var todo := rows;
      counts, cohorts := Counts(|rows|, 0, 0, 0, 0, 0, 0), map[];
      ghost var done: set<Id> := {};
      NothingScored(l, tenant);
      while todo != {}
        invariant done !! todo && done + todo == rows
        invariant Scoring(l, tenant, done, counts, cohorts) && Ahead(l, done, todo)
        decreases |todo|
      {
        var id := NextRow(todo);
        var row := forecasts[id];
        var latest := LatestOf(id);
        ScoringNext(l, tenant, done, todo, counts, cohorts, id);
        counts, cohorts := CountRow(row, latest, id, counts, cohorts);
        todo, done := todo - {id}, done + {id};
      }
      assert done == rows;
      ScoringDone(l, tenant, counts, cohorts);
      scored := set k | k in cohorts && ClassOf(Latest(events, cohorts[k])) == Binary :: cohorts[k];
    }
  }

  /** The counts and the cohorts of the rows visited so far. */
  ghost predicate Scoring(l: Ledger, tenant: Id, done: set<Id>, counts: Counts, cohorts: map<Cohort, Id>) {
    && counts.total == |Rows(l, tenant)| && Tallied(l, done, counts)
    && |done| == counts.missing + counts.duplicates + |cohorts| && Chosen(l, tenant, done, cohorts)
  }

  /** What the loop does with one row. */
  function ScoreRow(f: Forecast, class_: Class, id: Id, counts: Counts, cohorts: map<Cohort, Id>)
    : (Counts, map<Cohort, Id>)
  {
    var counts1 := Tally(counts, class_, f.pModel.None?);
    if f.pModel.None? then (counts1, cohorts)
    else if CohortOf(f) in cohorts then (counts1.(duplicates := counts1.duplicates + 1), cohorts)
    else (counts1, cohorts[CohortOf(f) := id])
  }

  lemma ScoringNext(
    l: Ledger, tenant: Id, done: set<Id>, todo: set<Id>, counts: Counts, cohorts: map<Cohort, Id>, id: Id)
    requires Scoring(l, tenant, done, counts, cohorts) && Ahead(l, done, todo)
    requires id in todo && id !in done && todo <= Rows(l, tenant)
    requires forall o :: o in todo && o != id ==> Earlier(l, id, o)
    ensures Ahead(l, done + {id}, todo - {id})
    ensures var next := ScoreRow(l.forecasts[id], ClassOf(Latest(l.events, id)), id, counts, cohorts);
      Scoring(l, tenant, done + {id}, next.0, next.1)
  {
    hide Tallied, Chosen, Ahead, ClassOf, Latest, CohortOf, Tally, Earlier;
    TallyNext(l, done, id, counts);
    TallyFrame(counts, ClassOf(Latest(l.events, id)), l.forecasts[id].pModel.None?);
    TallyIgnoresDuplicates(l, done + {id}, Tally(counts, ClassOf(Latest(l.events, id)), l.forecasts[id].pModel.None?));
    ChooseNext(l, tenant, done, todo, cohorts, id);
    AheadNext(l, done, todo, id);
  }

  lemma ScoringDone(l: Ledger, tenant: Id, counts: Counts, cohorts: map<Cohort, Id>)
    requires Scoring(l, tenant, Rows(l, tenant), counts, cohorts)
    ensures cohorts.Values == Selected(l, tenant)
    ensures forall k :: k in cohorts ==> cohorts[k] in l.forecasts && CohortOf(l.forecasts[cohorts[k]]) == k
    ensures (set k | k in cohorts && ClassOf(Latest(l.events, cohorts[k])) == Binary :: cohorts[k])
         == Classified(l, Selected(l, tenant), Binary)
    ensures var rows := Rows(l, tenant);
      && counts.total == |rows| && counts.total == counts.missing + counts.duplicates + |cohorts|
      && counts.unresolved == |Classified(l, rows, Unresolved)|
      && counts.canceled == |Classified(l, rows, CanceledRow)|
      && counts.disputed == |Classified(l, rows, DisputedRow)|
      && counts.nonBinary == |Classified(l, rows, NonBinary)|
      && counts.missing == |Missing(l, rows)|
  {
  }

  /** Every visited row comes before every row still to visit. */
  ghost predicate Ahead(l: Ledger, done: set<Id>, todo: set<Id>) {
    && done <= l.forecasts.Keys && todo <= l.forecasts.Keys
    && forall d, o :: d in done && o in todo ==> Earlier(l, d, o)
  }

  lemma AheadNext(l: Ledger, done: set<Id>, todo: set<Id>, id: Id)
    requires Ahead(l, done, todo) && id in todo
    requires forall o :: o in todo && o != id ==> Earlier(l, id, o)
    ensures Ahead(l, done + {id}, todo - {id})
  {
  }

  lemma NothingScored(l: Ledger, tenant: Id)
    ensures var rows := Rows(l, tenant);
      && Ahead(l, {}, rows)
      && Scoring(l, tenant, {}, Counts(|rows|, 0, 0, 0, 0, 0, 0), map[])
  {
  }

  lemma TallyIgnoresDuplicates(l: Ledger, done: set<Id>, c: Counts)
    ensures Tallied(l, done, c) ==> Tallied(l, done, c.(duplicates := c.duplicates + 1))
  {
  }

  function Missing(l: Ledger, ids: set<Id>): set<Id> {
    set id | id in ids && id in l.forecasts && l.forecasts[id].pModel.None?
  }

  /** The counts of the rows visited so far. */
  ghost predicate Tallied(l: Ledger, done: set<Id>, c: Counts) {
    && c.unresolved == |Classified(l, done, Unresolved)| && c.canceled == |Classified(l, done, CanceledRow)|
    && c.disputed == |Classified(l, done, DisputedRow)| && c.nonBinary == |Classified(l, done, NonBinary)|
    && c.missing == |Missing(l, done)|
  }

  lemma ClassifiedNext(l: Ledger, done: set<Id>, id: Id, class_: Class)
    requires id !in done
    ensures |Classified(l, done + {id}, class_)|
         == |Classified(l, done, class_)| + if ClassOf(Latest(l.events, id)) == class_ then 1 else 0
  {
    hide ClassOf, Latest;
    assert Classified(l, done + {id}, class_)
        == Classified(l, done, class_) + if ClassOf(Latest(l.events, id)) == class_ then {id} else {};
  }

  lemma MissingNext(l: Ledger, done: set<Id>, id: Id)
    requires id !in done && id in l.forecasts
    ensures |Missing(l, done + {id})| == |Missing(l, done)| + if l.forecasts[id].pModel.None? then 1 else 0
  {
    assert Missing(l, done + {id}) == Missing(l, done) + if l.forecasts[id].pModel.None? then {id} else {};
  }

  /** One more row of the given class. */
  function Tally(c: Counts, class_: Class, missing: bool): Counts {
    var c1 := match class_
      case Unresolved => c.(unresolved := c.unresolved + 1)
      case CanceledRow => c.(canceled := c.canceled + 1)
      case DisputedRow => c.(disputed := c.disputed + 1)
      case NonBinary => c.(nonBinary := c.nonBinary + 1)
      case Binary => c;
    if missing then c1.(missing := c1.missing + 1) else c1
  }

  lemma TallyFrame(c: Counts, class_: Class, missing: bool)
    ensures var c1 := Tally(c, class_, missing);
      c1.total == c.total && c1.duplicates == c.duplicates && c1.missing == c.missing + if missing then 1 else 0
  {
  }

  lemma TallyNext(l: Ledger, done: set<Id>, id: Id, c: Counts)
    requires Tallied(l, done, c) && id !in done && id in l.forecasts
    ensures Tallied(l, done + {id}, Tally(c, ClassOf(Latest(l.events, id)), l.forecasts[id].pModel.None?))
  {
    ClassifiedNext(l, done, id, Unresolved);
    ClassifiedNext(l, done, id, CanceledRow);
    ClassifiedNext(l, done, id, DisputedRow);
    ClassifiedNext(l, done, id, NonBinary);
    MissingNext(l, done, id);
    hide Classified, Missing, ClassOf, Latest;
  }

  /** One entry for each cohort met so far: its first scorable row. */
  ghost predicate Chosen(l: Ledger, tenant: Id, done: set<Id>, cohorts: map<Cohort, Id>) {
    && done <= Rows(l, tenant)
    && (forall k :: k in cohorts ==>
          && cohorts[k] in done && Scorable(l, tenant, cohorts[k]) && CohortOf(l.forecasts[cohorts[k]]) == k)
    && (forall id :: id in done && Scorable(l, tenant, id) ==>
          && CohortOf(l.forecasts[id]) in cohorts
          && (cohorts[CohortOf(l.forecasts[id])] == id || Earlier(l, cohorts[CohortOf(l.forecasts[id])], id)))
  }

  lemma ChooseNext(l: Ledger, tenant: Id, done: set<Id>, todo: set<Id>, cohorts: map<Cohort, Id>, id: Id)
    requires Chosen(l, tenant, done, cohorts) && id in Rows(l, tenant) && id !in done && id in todo
    requires todo <= Rows(l, tenant) && Ahead(l, done, todo)
    ensures var f := l.forecasts[id];
      Chosen(l, tenant, done + {id},
             if f.pModel.None? || CohortOf(f) in cohorts then cohorts else cohorts[CohortOf(f) := id])
  {
  }

}
