/** What the forecast ledger keeps, and when a later forecast can change what is scored. */
module ForecastLaws {
  import opened Core
  import opened Forecasts

  // Revisions

  predicate Consecutive(own: seq<Event>) {
    forall k :: 0 <= k < |own| ==> own[k].revision == k + 1
  }

  /** A resolution comes after its forecast, and a redemption after its settlement. */
  predicate BodyOk(f: Forecast, b: Body) {
    && (b.settle.Some? ==> b.settle.value > f.decision)
    && (b.redeemed.Some? ==> b.settle.Some? && b.settle.value <= b.redeemed.value)
    && (b.dispute <==> b.status.Disputed?)
    && (b.status.Resolved? ==> b.settle.Some? && (b.outcome.Some? || b.payout.Some?))
  }

  ghost predicate Inv(l: Ledger) {
    && (forall n :: 0 <= n < |l.events| ==>
          l.events[n].body.forecast in l.forecasts
          && BodyOk(l.forecasts[l.events[n].body.forecast], l.events[n].body))
    && (forall m, n :: 0 <= m < n < |l.events| ==> l.events[m].id != l.events[n].id)
    && (forall id: Id :: Consecutive(EventsOf(l.events, id)))
  }

  /** Nothing that was recorded is changed or removed. */
  ghost predicate Extends(l: Ledger, l1: Ledger) {
    && (forall id :: id in l.forecasts ==> id in l1.forecasts && l1.forecasts[id] == l.forecasts[id])
    && l.events <= l1.events
  }

  lemma {:induction false} OwnEvents(events: seq<Event>, id: Id)
    ensures forall k :: 0 <= k < |EventsOf(events, id)| ==>
      EventsOf(events, id)[k] in events && EventsOf(events, id)[k].body.forecast == id
  {
    if events != [] {
      OwnEvents(events[..|events| - 1], id);
    }
  }

  /** `WithId` finds the one event with that id. */
  lemma {:induction false} FoundById(events: seq<Event>, id: Id)
    ensures WithId(events, id).Some? <==> exists n :: 0 <= n < |events| && events[n].id == id
    ensures WithId(events, id).Some? ==> WithId(events, id).value in events && WithId(events, id).value.id == id
  {
    if events != [] {
      FoundById(events[..|events| - 1], id);
      if WithId(events, id).Some? && events[|events| - 1].id != id {
        var n :| 0 <= n < |events| - 1 && events[..|events| - 1][n].id == id;
        assert events[n].id == id;
      }
      if n :| 0 <= n < |events| && events[n].id == id {
        assert n < |events| - 1 ==> events[..|events| - 1][n].id == id;
      }
    }
  }

  lemma BodyAccepted(f: Forecast, id: Id, r: Resolution, earlier: Option<Event>, now: real)
    requires BodyOf(f, id, r, earlier, now).Ok?
    ensures BodyOk(f, BodyOf(f, id, r, earlier, now).value) && BodyOf(f, id, r, earlier, now).value.forecast == id
  {
  }

  /** A resolution appends at most one event, and revisions stay 1, 2, 3, ... for every forecast. */
  lemma ResolveInv(l: Ledger, tenant: Id, forecast: Id, r: Resolution, uuid: Id, now: real)
    requires Inv(l) && Resolve(l, tenant, forecast, r, uuid, now).Ok?
    ensures var (l1, row) := Resolve(l, tenant, forecast, r, uuid, now).value;
      && Inv(l1) && Extends(l, l1) && l1.forecasts == l.forecasts
      && (l1.events == l.events || l1.events == l.events + [row])
      && (r.id.Some? ==> row.id == r.id.value) && row in l1.events && row.body.forecast == forecast
  {
    var previous := Latest(l.events, forecast);
    var existing := if r.id.Some? then WithId(l.events, r.id.value) else None;
    BodyAccepted(l.forecasts[forecast], forecast, r, if existing.Some? then existing else previous, now);
    if r.id.Some? {
      FoundById(l.events, r.id.value);
    }
    FoundById(l.events, uuid);
    OwnEvents(l.events, forecast);
    var (l1, row) := Resolve(l, tenant, forecast, r, uuid, now).value;
    hide BodyOf, WithId, BodyOk, Resolve;
    if l1.events == l.events + [row] {
      AppendInv(l, row);
    }
  }

  lemma AppendInv(l: Ledger, e: Event)
    requires Inv(l) && e.body.forecast in l.forecasts && BodyOk(l.forecasts[e.body.forecast], e.body)
    requires forall n :: 0 <= n < |l.events| ==> l.events[n].id != e.id
    requires e.revision == |EventsOf(l.events, e.body.forecast)| + 1
    ensures Inv(l.(events := l.events + [e]))
  {
  }

  lemma RecordInv(l: Ledger, tenant: Id, id: Id, r: Request, now: real)
    requires Inv(l) && Record(l, tenant, id, r, now).Ok?
    ensures var (l1, row) := Record(l, tenant, id, r, now).value;
      Inv(l1) && Extends(l, l1) && l1.events == l.events && id in l1.forecasts && l1.forecasts[id] == row
  {
  }

  datatype Call = Recording(tenant: Id, id: Id, r: Request, now: real)
                    | Resolving(tenant: Id, forecast: Id, resolution: Resolution, uuid: Id, now: real)

  function Serve(l: Ledger, q: Call): Ledger {
    match q
    case Recording(tenant, id, r, now) =>
      (match Record(l, tenant, id, r, now) case Ok((l1, _)) => l1 case Err(_) => l)
    case Resolving(tenant, forecast, r, uuid, now) =>
      (match Resolve(l, tenant, forecast, r, uuid, now) case Ok((l1, _)) => l1 case Err(_) => l)
  }

  function ServeAll(l: Ledger, qs: seq<Call>): Ledger {
    if qs == [] then l else Serve(ServeAll(l, qs[..|qs| - 1]), qs[|qs| - 1])
  }

  /** Every sequence of requests, accepted or refused, keeps all revisions consecutive and every record as it
      was. */
  lemma {:induction false} EveryRunIsAppendOnly(l: Ledger, qs: seq<Call>, m: nat)
    requires Inv(l) && m <= |qs|
    ensures Inv(ServeAll(l, qs)) && Inv(ServeAll(l, qs[..m])) && Extends(ServeAll(l, qs[..m]), ServeAll(l, qs))
    decreases |qs|
  {
    hide Inv, Record, Resolve;
    if qs == [] {
      assert qs[..m] == qs;
    } else {
      var front, last := qs[..|qs| - 1], qs[|qs| - 1];
      EveryRunIsAppendOnly(l, front, if m < |qs| then m else m - 1);
      var l1 := ServeAll(l, front);
      if last.Recording? && Record(l1, last.tenant, last.id, last.r, last.now).Ok? {
        RecordInv(l1, last.tenant, last.id, last.r, last.now);
      }
      if last.Resolving? && Resolve(l1, last.tenant, last.forecast, last.resolution, last.uuid, last.now).Ok? {
        ResolveInv(l1, last.tenant, last.forecast, last.resolution, last.uuid, last.now);
      }
      if m < |qs| {
        assert front[..m] == qs[..m];
      } else {
        assert qs[..m] == qs;
      }
    }
  }

  // Retries

  lemma {:induction false} StillThere(events: seq<Event>, more: seq<Event>, row: Event)
    requires events <= more && row in events && forall m, n :: 0 <= m < n < |more| ==> more[m].id != more[n].id
    ensures WithId(more, row.id) == Some(row)
  {
    var n :| 0 <= n < |events| && events[n] == row;
    assert more[n] == row;
    FoundById(more, row.id);
    var found := WithId(more, row.id).value;
    var m :| 0 <= m < |more| && more[m] == found;
  }

  /** A retry of the same request with its resolution id returns the row of the first call and adds nothing,
      whatever was recorded in between. */
  lemma RetryReturnsTheRow(
    l: Ledger, tenant: Id, forecast: Id, r: Resolution, uuid: Id, now: real, later: Ledger, uuid1: Id, now1: real)
    requires Inv(l) && r.id.Some? && Resolve(l, tenant, forecast, r, uuid, now).Ok?
    requires Inv(later) && Extends(Resolve(l, tenant, forecast, r, uuid, now).value.0, later) && now <= now1
    ensures Resolve(later, tenant, forecast, r, uuid1, now1)
         == Ok((later, Resolve(l, tenant, forecast, r, uuid, now).value.1))
  {
    var (l1, row) := Resolve(l, tenant, forecast, r, uuid, now).value;
    ResolveInv(l, tenant, forecast, r, uuid, now);
    StillThere(l1.events, later.events, row);
    var previous := Latest(l.events, forecast);
    var existing := WithId(l.events, r.id.value);
    var earlier := if existing.Some? then existing else previous;
    assert Resolve(l, tenant, forecast, r, uuid, now).Ok? ==> BodyOf(l.forecasts[forecast], forecast, r, earlier, now).Ok?;
    SameBody(l.forecasts[forecast], forecast, r, earlier, now, row, now1);
    hide BodyOf, WithId, Latest, Inv;
    assert later.forecasts[forecast] == l.forecasts[forecast];
  }

  /** Read against the row it produced, at a later time, a request produces the same body. */
  lemma SameBody(f: Forecast, id: Id, r: Resolution, earlier: Option<Event>, now: real, row: Event, now1: real)
    requires BodyOf(f, id, r, earlier, now) == Ok(row.body) && now <= now1
    ensures BodyOf(f, id, r, Some(row), now1) == Ok(row.body)
  {
  }

  /** A known resolution id never adds a row, also when the request differs. */
  lemma KnownIdAddsNothing(l: Ledger, tenant: Id, forecast: Id, r: Resolution, uuid: Id, now: real)
    requires r.id.Some? && WithId(l.events, r.id.value).Some?
    ensures match Resolve(l, tenant, forecast, r, uuid, now)
      case Ok((l1, row)) => l1 == l && row == WithId(l.events, r.id.value).value
      case Err(_) => true
    ensures Resolve(l, tenant, forecast, r, uuid, now).Ok? ==>
      WithId(l.events, r.id.value).value.body.forecast == forecast
  {
  }

  /** A forecast recorded again with the same request is the row that is there. */
  lemma RecordRetry(l: Ledger, tenant: Id, id: Id, r: Request, now: real, later: Ledger, now1: real)
    requires Record(l, tenant, id, r, now).Ok? && now <= now1
    requires Extends(Record(l, tenant, id, r, now).value.0, later)
    ensures Record(later, tenant, id, r, now1) == Ok((later, Record(l, tenant, id, r, now).value.1))
  {
  }

  // Selection

  lemma {:induction false} FirstAmong(l: Ledger, ids: set<Id>, some: Id) returns (first: Id)
    requires some in ids && ids <= l.forecasts.Keys
    ensures first in ids && forall o :: o in ids && o != first ==> Earlier(l, first, o)
    decreases |ids|
  {
    var rest := ids - {some};
    assert forall o :: o in ids ==> o == some || o in rest;
    if o :| o in rest {
      first := FirstAmong(l, rest, o);
      if Earlier(l, some, first) {
        first := some;
      }
    } else {
      first := some;
    }
  }

  /** Every scorable forecast has exactly one selected forecast in its cohort. */
  lemma OneSelected(l: Ledger, tenant: Id, id: Id) returns (first: Id)
    requires Scorable(l, tenant, id)
    ensures first in Selected(l, tenant) && CohortOf(l.forecasts[first]) == CohortOf(l.forecasts[id])
    ensures forall o :: o in Selected(l, tenant) && CohortOf(l.forecasts[o]) == CohortOf(l.forecasts[id]) ==> o == first
    ensures first == id || Earlier(l, first, id)
  {
    hide CohortOf;
    var ids := set o | o in l.forecasts && Scorable(l, tenant, o) && CohortOf(l.forecasts[o]) == CohortOf(l.forecasts[id]);
    first := FirstAmong(l, ids, id);
    assert First(l, tenant, first);
  }

  /** The scored forecast of a cohort, if there is one. */
  ghost function InCohort(l: Ledger, tenant: Id, cohort: Cohort): set<Id> {
    set o | o in Selected(l, tenant) && CohortOf(l.forecasts[o]) == cohort
  }

  /** The cohort is already represented by an earlier forecast. */
  ghost predicate Represented(l: Ledger, tenant: Id, id: Id, f: Forecast) {
    exists o :: o in InCohort(l, tenant, CohortOf(f)) && Earlier(l.(forecasts := l.forecasts[id := f]), o, id)
  }

  /** What recording a new forecast does to the selection. */
  ghost function SelectedWith(l: Ledger, tenant: Id, id: Id, f: Forecast): set<Id>
    requires id !in l.forecasts
  {
    if f.pModel.None? || Represented(l, tenant, id, f) then Selected(l, tenant)
    else Selected(l, tenant) - InCohort(l, tenant, CohortOf(f)) + {id}
  }

  lemma SelectionAfter(l: Ledger, tenant: Id, id: Id, f: Forecast)
    requires id !in l.forecasts && f.tenant == tenant
    ensures Selected(l.(forecasts := l.forecasts[id := f]), tenant) == SelectedWith(l, tenant, id, f)
  {
    hide CohortOf;
    var l1 := l.(forecasts := l.forecasts[id := f]);
    forall k
      ensures k in Selected(l1, tenant) <==> k in SelectedWith(l, tenant, id, f)
    {
      if k == id {
        NewSelected(l, tenant, id, f);
      } else if k in l.forecasts {
        OldSelected(l, tenant, id, f, k);
      }
    }
  }

  lemma NewSelected(l: Ledger, tenant: Id, id: Id, f: Forecast)
    requires id !in l.forecasts && f.tenant == tenant
    ensures var l1 := l.(forecasts := l.forecasts[id := f]);
      First(l1, tenant, id) <==> id in SelectedWith(l, tenant, id, f)
  {
    hide CohortOf;
    var l1 := l.(forecasts := l.forecasts[id := f]);
    if f.pModel.Some? {
      if !First(l1, tenant, id) {
        var o :| Scorable(l1, tenant, o) && o != id && CohortOf(l1.forecasts[o]) == CohortOf(f) && !Earlier(l1, id, o);
        assert Scorable(l, tenant, o);
        var first := OneSelected(l, tenant, o);
        assert first in InCohort(l, tenant, CohortOf(f));
        assert Earlier(l1, first, id);
        assert Represented(l, tenant, id, f);
      }
    }
  }

  lemma OldSelected(l: Ledger, tenant: Id, id: Id, f: Forecast, k: Id)
    requires id !in l.forecasts && f.tenant == tenant && k in l.forecasts
    ensures var l1 := l.(forecasts := l.forecasts[id := f]);
      First(l1, tenant, k) <==> k in SelectedWith(l, tenant, id, f)
  {
    hide CohortOf;
    var l1 := l.(forecasts := l.forecasts[id := f]);
    assert Scorable(l1, tenant, k) <==> Scorable(l, tenant, k);
    assert forall o :: o in l.forecasts ==> Scorable(l1, tenant, o) == Scorable(l, tenant, o);
    if First(l, tenant, k) && f.pModel.Some? && CohortOf(l.forecasts[k]) == CohortOf(f) {
      var first := OneSelected(l, tenant, k);
      assert first == k;
    }
  }

  /** A forecast recorded for a cohort that is already scored leaves the scored set unchanged exactly when it
      comes after the scored one in (decision time, id): its decision time is the caller's to choose. */
  lemma OccupiedCohortIsKeptExactly(l: Ledger, tenant: Id, id: Id, r: Request, now: real, scored: Id)
    requires id !in l.forecasts && Record(l, tenant, id, r, now).Ok?
    requires var (l1, f) := Record(l, tenant, id, r, now).value;
      f.pModel.Some? && scored in Selected(l, tenant) && CohortOf(l.forecasts[scored]) == CohortOf(f)
    ensures var (l1, f) := Record(l, tenant, id, r, now).value;
      Selected(l1, tenant) == Selected(l, tenant)
      <==> l.forecasts[scored].decision < f.decision || (l.forecasts[scored].decision == f.decision && scored < id)
  {
    var (l1, f) := Record(l, tenant, id, r, now).value;
    RowTenant(l, tenant, id, r, now);
    hide RowOf;
    SelectionAfter(l, tenant, id, f);
    var first := OneSelected(l, tenant, scored);
    hide CohortOf;
    assert first == scored && scored in InCohort(l, tenant, CohortOf(f));
    assert Earlier(l1, scored, id) ==> Represented(l, tenant, id, f);
  }

  lemma RowTenant(l: Ledger, tenant: Id, id: Id, r: Request, now: real)
    requires id !in l.forecasts && Record(l, tenant, id, r, now).Ok?
    ensures var (l1, f) := Record(l, tenant, id, r, now).value;
      f.tenant == tenant && f.decision <= now && l1 == l.(forecasts := l.forecasts[id := f])
  {
  }

  /** A forecast decided at the moment it is recorded never displaces one that is scored. */
  lemma LiveForecastsCannotDisplace(l: Ledger, tenant: Id, id: Id, r: Request, now: real)
    requires id !in l.forecasts && Record(l, tenant, id, r, now).Ok? && r.decision.None?
    requires forall o :: o in l.forecasts ==> l.forecasts[o].decision < now
    ensures Selected(l, tenant) <= Selected(Record(l, tenant, id, r, now).value.0, tenant)
  {
  }

  function Plain(p: real, decision: Option<real>): Request {
    Request(None, Aliased(Some(5), None), Aliased(None, None), None, Aliased(Some(p), None), None, None, None, None,
            Aliased(None, None), decision, None, None, None, None, None, None, None, None)
  }

  /** A forecast recorded second, but with an earlier decision time, takes the place of the first. */
  lemma BackdatedForecastDisplaces()
    ensures exists l, tenant, id, r, now ::
      && Inv(l) && id !in l.forecasts && Record(l, tenant, id, r, now).Ok?
      && Selected(l, tenant) == {1} && Selected(Record(l, tenant, id, r, now).value.0, tenant) == {2}
  {
    var l0 := Ledger(map[], []);
    var l := Record(l0, 9, 1, Plain(0.5, None), 100.0).value.0;
    var (l2, f) := Record(l, 9, 2, Plain(0.9, Some(50.0)), 200.0).value;
    assert l.forecasts.Keys == {1};
    assert First(l, 9, 1);
    assert Selected(l, 9) == {1};
    SelectionAfter(l, 9, 2, f);
    assert CohortOf(l.forecasts[1]) == CohortOf(f);
    assert Selected(l2, 9) == {2};
    assert Inv(l);
    assert 2 !in l.forecasts && Record(l, 9, 2, Plain(0.9, Some(50.0)), 200.0).Ok?;
  }
}
