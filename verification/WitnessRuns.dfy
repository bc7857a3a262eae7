/** Runs at which a property of the execution protocol fails: each shows that a condition of a theorem is needed. */
module WitnessRuns {
  import opened Core
  import opened Sums
  import opened Ledger
  import opened LedgerLaws
  import opened Execution
  import opened AtMostOnce
  import opened ExactlyOnce
  import opened OrdersGoThrough

  // A lookup that finds an order which was never sent

  /** The order is reserved; a reconciler is told that it is filled, and accounts it; the submitter announces it from
      its own copy, sends it, and accounts the answer. */
  function DishonestRun(i: Intent, funding: real, now: real): seq<Step> {
    [Bind(i.slot.venue, funding), Call(1, i), DoReserve(1, Active, None, Quote(1.0, 1.0, 0.0, 0.0), true, now),
     Lookup(2, i.key, Some(WholeFill(i))), Settle(2), DoMark(1, Active), Send(1, true, Active, true, Some(WholeFill(i))), Settle(1)]
  }

  /** A ledger with one order of one purchase, as `times` fills would leave it. */
  predicate Bought(b: Book, limits: Limits, i: Intent, funding: real, times: real) {
    var paid := times * Notional(i.quantity, i.limit);
    && b.accounts == map[i.slot.venue := Min(funding, limits.maxDaily) - paid]
    && b.funding == map[i.slot.venue := Min(funding, limits.maxDaily)]
    && b.positions == map[i.slot := Position(times * i.quantity, paid, 0.0)]
    && b.orders.Keys == {i.key} && b.orders[i.key].data.accounted && b.orders[i.key].data.intent == i
    && b.orders[i.key].data.quoteQty == Notional(i.quantity, i.limit) && b.orders[i.key].data.feeQuote == 0.0
  }

  predicate TwiceAffordable(limits: Limits, i: Intent, funding: real) {
    Affordable(limits, i, funding) && 2.0 * Notional(i.quantity, i.limit) <= Min(funding, limits.maxDaily)
  }

  lemma FillChecks(i: Intent)
    requires ValidIntent(i) && i.side.Buy?
    ensures FillError(i, WholeFill(i)).None? && Notional(i.quantity, i.limit) > 0.0
  {
    MulSign(i.quantity, i.limit);
    assert Notional(i.quantity, i.limit) > 0.0;
    hide Notional;
  }

  lemma FirstFill(limits: Limits, i: Intent, funding: real, now: real)
    requires TwiceAffordable(limits, i, funding)
    ensures var b := Insert(Opened(limits, i, funding), i, now);
      Finish(b, NewRecord(i), WholeFill(i)).Ok?
      && Bought(Finish(b, NewRecord(i), WholeFill(i)).value.0, limits, i, funding, 1.0)
  {
    FillChecks(i);
    hide Notional, Reservation, FillError;
  }

  lemma SecondFill(b: Book, limits: Limits, i: Intent, funding: real)
    requires TwiceAffordable(limits, i, funding) && Bought(b, limits, i, funding, 1.0)
    ensures var r := NewRecord(i).(status := Submitting);
      var b1 := Save(b, r);
      Finish(b1, r, WholeFill(i)).Ok? && Bought(Finish(b1, r, WholeFill(i)).value.0, limits, i, funding, 2.0)
  {
    FillChecks(i);
    hide Notional, Reservation, FillError;
  }

  lemma NextCall(b: Book, limits: Limits, i: Intent)
    requires ValidIntent(i)
    ensures Next(Sys(b, map[], map[], map[]), limits, Call(1, i)) == Sys(b, map[], map[], map[1 := Ready(i)])
  {
  }

  lemma NextLookup(b: Book, limits: Limits, i: Intent, f: Fill, r: Record)
    requires i.key in b.orders
    ensures Next(Sys(b, map[], map[], map[1 := Reserved(r)]), limits, Lookup(2, i.key, Some(f)))
         == Sys(b, map[], map[], map[1 := Reserved(r), 2 := Looked(i.key, Some(f))])
  {
  }

  lemma NextReconcile(b: Book, limits: Limits, k: OrderKey, f: Fill, r: Record)
    requires k in b.orders && !b.orders[k].data.accounted && Finish(b, b.orders[k].data, f).Ok?
    ensures Next(Sys(b, map[], map[], map[1 := Reserved(r), 2 := Looked(k, Some(f))]), limits, Settle(2))
         == Sys(Finish(b, b.orders[k].data, f).value.0, map[], map[], map[1 := Reserved(r)])
  {
    hide Finish;
    assert map[1 := Reserved(r), 2 := Looked(k, Some(f))] - {2} == map[1 := Reserved(r)];
  }

  lemma RunSnoc(limits: Limits, steps: seq<Step>, step: Step, s: Sys, s1: Sys)
    requires Run(limits, steps) == s && Next(s, limits, step) == s1
    ensures Run(limits, steps + [step]) == s1
  {
    assert (steps + [step])[..|steps|] == steps;
  }

  /** Up to the reservation. */
  lemma RunToReserved(limits: Limits, i: Intent, funding: real, now: real)
    requires Affordable(limits, i, funding)
    ensures Run(limits, DishonestRun(i, funding, now)[..3])
         == Sys(Insert(Opened(limits, i, funding), i, now), map[], map[], map[1 := Reserved(NewRecord(i))])
  {
    var steps := DishonestRun(i, funding, now);
    ReserveOnFresh(limits, i, funding, now);
    NothingOrdered(limits, i, funding);
    FirstStep(limits, i, funding);
    hide Run, Next, Reserve, Affordable, Opened, WholeFill, Insert;
    var b0 := Opened(limits, i, funding);
    NextCall(b0, limits, i);
    NextReserve(b0, Insert(b0, i, now), limits, i, Quote(1.0, 1.0, 0.0, 0.0), now, map[]);
    RunSnoc(limits, [], steps[0], Init(), Sys(b0, map[], map[], map[]));
    RunSnoc(limits, [steps[0]], steps[1], Sys(b0, map[], map[], map[]), Sys(b0, map[], map[], map[1 := Ready(i)]));
    RunSnoc(limits, [steps[0], steps[1]], steps[2], Sys(b0, map[], map[], map[1 := Ready(i)]),
            Sys(Insert(b0, i, now), map[], map[], map[1 := Reserved(NewRecord(i))]));
    assert [] + [steps[0]] == [steps[0]];
    assert steps[..3] == [steps[0], steps[1]] + [steps[2]];
  }

  /** Up to the reconciler's transaction. */
  lemma RunToReconciled(limits: Limits, i: Intent, funding: real, now: real)
    requires TwiceAffordable(limits, i, funding)
    ensures var b := Insert(Opened(limits, i, funding), i, now);
      Finish(b, NewRecord(i), WholeFill(i)).Ok?
      && Run(limits, DishonestRun(i, funding, now)[..5])
         == Sys(Finish(b, NewRecord(i), WholeFill(i)).value.0, map[], map[], map[1 := Reserved(NewRecord(i))])
  {
    var steps, f, r := DishonestRun(i, funding, now), WholeFill(i), NewRecord(i);
    RunToReserved(limits, i, funding, now);
    FirstFill(limits, i, funding, now);
    hide Run, Next, Finish, Bought, Affordable, Opened, WholeFill;
    var b1 := Insert(Opened(limits, i, funding), i, now);
    assert i.key in b1.orders && b1.orders[i.key].data == r;
    hide Insert;
    NextLookup(b1, limits, i, f, r);
    NextReconcile(b1, limits, i.key, f, r);
    var s3 := Sys(b1, map[], map[], map[1 := Reserved(r)]);
    var s4 := Sys(b1, map[], map[], map[1 := Reserved(r), 2 := Looked(i.key, Some(f))]);
    RunSnoc(limits, steps[..3], steps[3], s3, s4);
    assert steps[..3] + [steps[3]] == steps[..4];
    RunSnoc(limits, steps[..4], steps[4], s4, Sys(Finish(b1, r, f).value.0, map[], map[], map[1 := Reserved(r)]));
    assert steps[..4] + [steps[4]] == steps[..5];
  }

  /** From there to the end. */
  lemma RunToPaid(limits: Limits, i: Intent, funding: real, now: real)
    requires TwiceAffordable(limits, i, funding)
    ensures Bought(Run(limits, DishonestRun(i, funding, now)).book, limits, i, funding, 2.0)
    ensures Run(limits, DishonestRun(i, funding, now)).sends == map[i.key := 1]
  {
    var steps, f, r := DishonestRun(i, funding, now), WholeFill(i), NewRecord(i);
    RunToReconciled(limits, i, funding, now);
    FirstFill(limits, i, funding, now);
    var b2 := Finish(Insert(Opened(limits, i, funding), i, now), r, f).value.0;
    SecondFill(b2, limits, i, funding);
    hide Run, Next, Finish, Bought, Affordable, Opened, WholeFill, Insert, Save;
    var r1 := r.(status := Submitting);
    var b3 := Save(b2, r1);
    var s5 := Sys(b2, map[], map[], map[1 := Reserved(r)]);
    var s6 := Sys(b3, map[], map[], map[1 := Marked(r1)]);
    var s7 := Sys(b3, map[], map[i.key := 1], map[1 := Answered(r1, f)]);
    NextMark(b2, limits, r, map[]);
    RunSnoc(limits, steps[..5], steps[5], s5, s6);
    assert steps[..5] + [steps[5]] == steps[..6];
    NextSend(b3, limits, r1, f, map[]);
    RunSnoc(limits, steps[..6], steps[6], s6, s7);
    assert steps[..6] + [steps[6]] == steps[..7];
    NextSettle(b3, limits, r1, f, map[], map[i.key := 1]);
    RunSnoc(limits, steps[..7], steps[7], s7, Sys(Finish(b3, r1, f).value.0, map[], map[i.key := 1], map[]));
    assert steps[..7] + [steps[7]] == steps;
  }

  /** One dishonest lookup is enough: the purchase is paid twice for one order of the ledger, so cash no longer agrees
      with the orders. */
  lemma DishonestLookupPaysTwice(limits: Limits, i: Intent, funding: real, now: real)
    requires TwiceAffordable(limits, i, funding)
    ensures var steps := DishonestRun(i, funding, now);
      var b := Run(limits, steps).book;
      && (forall n :: 0 <= n < |steps| ==> (Honest(Run(limits, steps[..n]), steps[n]) <==> n != 3))
      && Sends(Run(limits, steps), i.key) == 1
      && Bought(b, limits, i, funding, 2.0)
      && b.accounts[i.slot.venue] != b.funding[i.slot.venue] + Sum(b.orders, CashFlow(i.slot.venue))
  {
    RunToReserved(limits, i, funding, now);
    RunToPaid(limits, i, funding, now);
    FillChecks(i);
    var steps := DishonestRun(i, funding, now);
    hide Run, WholeFill, Insert, Opened, Notional, Reservation;
    PaidTwice(Run(limits, steps).book, limits, i, funding);
    hide Bought, Sum;
    forall n | 0 <= n < |steps|
      ensures Honest(Run(limits, steps[..n]), steps[n]) <==> n != 3
    {
      assert steps[n].Lookup? <==> n == 3;
    }
  }

  lemma FirstStep(limits: Limits, i: Intent, funding: real)
    requires Affordable(limits, i, funding)
    ensures Run(limits, []) == Init()
    ensures Next(Init(), limits, Bind(i.slot.venue, funding)) == Sys(Opened(limits, i, funding), map[], map[], map[])
    ensures ValidIntent(i) && !limits.paper
  {
    hide Reservation;
  }

  lemma PaidTwice(b: Book, limits: Limits, i: Intent, funding: real)
    requires Bought(b, limits, i, funding, 2.0) && i.side.Buy? && Notional(i.quantity, i.limit) > 0.0
    ensures b.accounts[i.slot.venue] != b.funding[i.slot.venue] + Sum(b.orders, CashFlow(i.slot.venue))
  {
    hide Notional;
    var v := i.slot.venue;
    SumRemove(b.orders, CashFlow(v), i.key);
    assert b.orders - {i.key} == map[];
    assert Sum(b.orders - {i.key}, CashFlow(v)) == 0.0;
    assert CashFlow(v)(i.key, b.orders[i.key]) == -Notional(i.quantity, i.limit);
    hide Sum;
  }

  // 1000 orders at one instant

  const LIMITS := Limits(false, 25.0, 100.0, 100.0, false)

  function Small(n: nat): Intent {
    Intent(OtherKey(n), Slot(Binance, 0), Buy, 1.0, 1.0, 1.0)
  }

  ghost function Keys(n: nat): set<OrderKey>
    ensures |Keys(n)| == n && (forall k :: k in Keys(n) <==> k.OtherKey? && k.name < n)
  {
    if n == 0 then {} else Keys(n - 1) + {OtherKey(n - 1)}
  }

  /** A run that meets the conditions of the window theorem, and where it leads. */
  ghost predicate Reaches(steps: seq<Step>, s: Sys) {
    HonestRun(LIMITS, steps) && ClockedRun(LIMITS, steps) && Run(LIMITS, steps) == s
  }

  lemma ReachNext(steps: seq<Step>, s: Sys, step: Step)
    requires Reaches(steps, s) && Honest(s, step) && ClockOk(s, step)
    ensures Reaches(steps + [step], Next(s, LIMITS, step))
  {
    var more := steps + [step];
    assert more[..|steps|] == steps;
    hide Next, Honest, ClockOk;
    forall n | 0 <= n < |more|
      ensures Honest(Run(LIMITS, more[..n]), more[n]) && ClockOk(Run(LIMITS, more[..n]), more[n])
    {
      if n < |steps| {
        assert more[..n] == steps[..n];
      }
    }
  }

  /** The first n orders were all made at time zero, and all were rejected. */
  ghost predicate Crowded(b: Book, n: nat) {
    b.accounts == map[Binance := 100.0] && b.orders.Keys == Keys(n) && Spent(b.orders) && Flat(b.positions)
  }

  predicate Spent(orders: map<OrderKey, Row>) {
    forall k :: k in orders ==> orders[k].created == 0.0 && !Open(orders[k].status) && orders[k].reserved == 0.0
  }

  predicate Flat(positions: map<Slot, Position>) {
    forall p :: p in positions ==> positions[p].quantity == 0.0 && positions[p].cost == 0.0
  }

  lemma NoExposure(b: Book, slot: Slot, limit: real)
    requires forall p :: p in b.positions ==> b.positions[p].quantity == 0.0 && b.positions[p].cost == 0.0
    ensures Exposure(b, slot, limit) == 0.0
  {
    forall p | p in b.positions
      ensures ExposureAt(slot, limit)(p, b.positions[p]) == 0.0
    {
    }
    SumZero(b.positions, ExposureAt(slot, limit));
  }

  lemma NothingUsed(b: Book, n: nat)
    requires Crowded(b, n)
    ensures DailyBuys(b, DayOf(0.0)) == 0.0 && Exposure(b, Slot(Binance, 0), 1.0) == 0.0 && !HasOpenOrder(b)
  {
    SumZero(b.orders, BuyOn(DayOf(0.0)));
    NoExposure(b, Slot(Binance, 0), 1.0);
    hide Sum;
  }

  lemma Costs(n: nat)
    ensures Reservation(Small(n)) == 1.001
  {
  }

  lemma ReserveSmall(b: Book, n: nat)
    requires Crowded(b, n)
    ensures Reserve(b, LIMITS, Active, Small(n), None, true, 0.0) == Ok(Insert(b, Small(n), 0.0))
    ensures OtherKey(n) !in b.orders
  {
    NothingUsed(b, n);
    Costs(n);
    hide Reservation, DailyBuys, Exposure, Keys;
  }

  /** Rejecting the new order under the kill switch. */
  lemma RejectSmall(b: Book, n: nat)
    requires Crowded(b, n)
    ensures var b1, i := Insert(b, Small(n), 0.0), Small(n);
      Mark(b1, LIMITS, Frozen, NewRecord(i)).Ok?
      && var b2 := Mark(b1, LIMITS, Frozen, NewRecord(i)).value.0;
      && b2.accounts == b.accounts
      && b2.positions == b.positions[i.slot := PositionAt(b, i.slot)]
      && i.key in b2.orders && b2.orders == b.orders[i.key := b2.orders[i.key]]
      && b2.orders[i.key].created == 0.0 && b2.orders[i.key].status.Rejected? && b2.orders[i.key].reserved == 0.0
  {
    var i := Small(n);
    RejectionOf(b, i);
    hide Reservation, Keys, Finish, PositionAt;
  }

  /** A fresh purchase is rejected: cash and holding stay, and its row is settled and reserves nothing. */
  lemma RejectionOf(b: Book, i: Intent)
    requires ValidIntent(i) && i.side.Buy? && i.slot.venue in b.accounts && b.accounts[i.slot.venue] >= 0.0
    requires PositionAt(b, i.slot).quantity == 0.0
    ensures var b1, r := Insert(b, i, 0.0), NewRecord(i).(rejection := Some(KillSwitch));
      Finish(b1, r, REJECTED_FILL).Ok?
      && var b2 := Finish(b1, r, REJECTED_FILL).value.0;
      && b2.accounts == b.accounts && b2.positions == b.positions[i.slot := PositionAt(b, i.slot)]
      && i.key in b2.orders && b2.orders == b.orders[i.key := b2.orders[i.key]]
      && b2.orders[i.key].created == 0.0 && b2.orders[i.key].status.Rejected? && b2.orders[i.key].reserved == 0.0
  {
    assert Notional(0.0, i.limit) == 0.0;
    assert FillError(i, REJECTED_FILL).None?;
    var cash, p := b.accounts[i.slot.venue], PositionAt(b, i.slot);
    assert Account(cash, p, i, REJECTED_FILL) == Ok((cash, p));
    hide Account, FillError, Notional, Reservation;
  }

  lemma OneMoreSpent(orders: map<OrderKey, Row>, k: OrderKey, row: Row)
    requires Spent(orders) && row.created == 0.0 && row.status.Rejected? && row.reserved == 0.0
    ensures Spent(orders[k := row])
  {
  }

  lemma OneMoreKey(orders: map<OrderKey, Row>, row: Row, n: nat)
    requires orders.Keys == Keys(n)
    ensures orders[OtherKey(n) := row].Keys == Keys(n + 1)
  {
    assert orders[OtherKey(n) := row].Keys == orders.Keys + {OtherKey(n)};
  }

  lemma StillFlat(b: Book)
    requires Flat(b.positions)
    ensures Flat(b.positions[Slot(Binance, 0) := PositionAt(b, Slot(Binance, 0))])
  {
  }

  lemma CrowdGrows(b: Book, b2: Book, n: nat)
    requires Crowded(b, n) && b2.accounts == b.accounts
    requires b2.positions == b.positions[Slot(Binance, 0) := PositionAt(b, Slot(Binance, 0))]
    requires OtherKey(n) in b2.orders && b2.orders == b.orders[OtherKey(n) := b2.orders[OtherKey(n)]]
    requires var row := b2.orders[OtherKey(n)]; row.created == 0.0 && row.status.Rejected? && row.reserved == 0.0
    ensures Crowded(b2, n + 1)
  {
    hide Keys, Spent, Flat;
    OneMoreSpent(b.orders, OtherKey(n), b2.orders[OtherKey(n)]);
    StillFlat(b);
    OneMoreKey(b.orders, b2.orders[OtherKey(n)], n);
  }

  lemma NextMarkFrozen(b: Book, r: Record)
    requires r.intent.side.Buy? && Mark(b, LIMITS, Frozen, r).Ok?
    ensures Next(Sys(b, map[], map[], map[1 := Reserved(r)]), LIMITS, DoMark(1, Frozen))
         == Sys(Mark(b, LIMITS, Frozen, r).value.0, map[], map[], map[])
  {
    hide Mark;
    assert map[1 := Reserved(r)] - {1} == map[];
  }

  /** Reserving the next order, still at time zero. */
  lemma ReserveNext(steps: seq<Step>, b: Book, n: nat) returns (more: seq<Step>)
    requires Reaches(steps, Sys(b, map[], map[], map[])) && Crowded(b, n)
    ensures Reaches(more, Sys(Insert(b, Small(n), 0.0), map[], map[], map[1 := Reserved(NewRecord(Small(n)))]))
  {
    var i, q := Small(n), Quote(1.0, 1.0, 0.0, 0.0);
    var x0, x1 := Call(1, i), DoReserve(1, Active, None, q, true, 0.0);
    ReserveSmall(b, n);
    hide Reaches, Reserve, Insert, Next;
    ReachNext(steps, Sys(b, map[], map[], map[]), x0);
    NextCall(b, LIMITS, i);
    assert ClockOk(Sys(b, map[], map[], map[1 := Ready(i)]), x1);
    ReachNext(steps + [x0], Sys(b, map[], map[], map[1 := Ready(i)]), x1);
    NextReserve(b, Insert(b, i, 0.0), LIMITS, i, q, 0.0, map[]);
    more := steps + [x0] + [x1];
  }

  lemma {:induction false} Crowd(n: nat) returns (steps: seq<Step>, b: Book)
    ensures Reaches(steps, Sys(b, map[], map[], map[])) && Crowded(b, n)
  {
    if n == 0 {
      steps := [Bind(Binance, 100.0)];
      b := OpenAccount(EmptyBook(), Binance, 100.0);
      assert Reaches([], Init());
      ReachNext([], Init(), steps[0]);
      assert [] + [steps[0]] == steps;
      assert Next(Init(), LIMITS, steps[0]) == Sys(b, map[], map[], map[]);
    } else {
      var steps0, b0 := Crowd(n - 1);
      var steps1 := ReserveNext(steps0, b0, n - 1);
      var b1, r := Insert(b0, Small(n - 1), 0.0), NewRecord(Small(n - 1));
      RejectSmall(b0, n - 1);
      CrowdGrows(b0, Mark(b1, LIMITS, Frozen, r).value.0, n - 1);
      hide Reaches, Crowded, Mark, Insert, Next;
      ReachNext(steps1, Sys(b1, map[], map[], map[1 := Reserved(r)]), DoMark(1, Frozen));
      NextMarkFrozen(b1, r);
      steps, b := steps1 + [DoMark(1, Frozen)], Mark(b1, LIMITS, Frozen, r).value.0;
    }
  }

  lemma LastOrder(b: Book, n: nat)
    requires Crowded(b, n)
    ensures var r := NewRecord(Small(n)).(status := Submitting);
      var b1 := Save(Insert(b, Small(n), 0.0), r);
      && OtherKey(n) in b1.orders && Open(b1.orders[OtherKey(n)].status) && Preceding(b1, OtherKey(n)) == Keys(n)
  {
    hide Keys, Reservation;
  }

  /** However many orders were rejected at the instant of the open one, they all come before it. */
  lemma CrowdPrecedes(n: nat) returns (steps: seq<Step>)
    ensures HonestRun(LIMITS, steps) && ClockedRun(LIMITS, steps)
    ensures var b := Run(LIMITS, steps).book;
      OtherKey(n) in b.orders && Open(b.orders[OtherKey(n)].status) && |Preceding(b, OtherKey(n))| == n
  {
    var steps0, b := Crowd(n);
    var steps1 := ReserveNext(steps0, b, n);
    LastOrder(b, n);
    hide Crowded, Next, Keys, Insert, Save, HonestRun, ClockedRun, Run, Preceding, NewRecord;
    var b1, r := Insert(b, Small(n), 0.0), NewRecord(Small(n));
    var r1 := r.(status := Submitting);
    ReachNext(steps1, Sys(b1, map[], map[], map[1 := Reserved(r)]), DoMark(1, Active));
    NextMark(b1, LIMITS, r, map[]);
    steps := steps1 + [DoMark(1, Active)];
    assert Reaches(steps, Sys(Save(b1, r1), map[], map[], map[1 := Marked(r1)]));
  }

  /** The window can miss the open order although creation times never decrease: 1000 orders rejected and one announced
      at one instant, in a run whose lookups are honest. */
  lemma TiesHideOpenOrder()
    ensures exists steps ::
      && HonestRun(LIMITS, steps) && ClockedRun(LIMITS, steps)
      && OtherKey(WINDOW) in Run(LIMITS, steps).book.orders
      && Open(Run(LIMITS, steps).book.orders[OtherKey(WINDOW)].status)
      && !InWindow(Run(LIMITS, steps).book, OtherKey(WINDOW))
  {
    hide Run, HonestRun, ClockedRun;
    var steps := CrowdPrecedes(WINDOW);
    assert !InWindow(Run(LIMITS, steps).book, OtherKey(WINDOW));
  }
}
