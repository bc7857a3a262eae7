/** A run of the execution protocol that ends with an accounted order, for every affordable purchase. */
module OrdersGoThrough {
  import opened Core
  import opened Sums
  import opened Ledger
  import opened LedgerLaws
  import opened Execution
  import opened AtMostOnce
  import opened ExactlyOnce

  /** Some run without lookups leads to this state. */
  ghost predicate Leads(limits: Limits, s: Sys) {
    exists steps :: HonestRun(limits, steps) && Run(limits, steps) == s
  }

  lemma StepOn(limits: Limits, s: Sys, step: Step)
    requires Leads(limits, s) && !step.Lookup?
    ensures Leads(limits, Next(s, limits, step))
  {
    var steps :| HonestRun(limits, steps) && Run(limits, steps) == s;
    var more := steps + [step];
    assert more[..|steps|] == steps;
    hide Next;
    forall n | 0 <= n < |more| ensures Honest(Run(limits, more[..n]), more[n]) {
      if n < |steps| {
        assert more[..n] == steps[..n];
      }
    }
    assert HonestRun(limits, more) && Run(limits, more) == Next(s, limits, step);
  }

  predicate Affordable(limits: Limits, i: Intent, funding: real) {
    && !limits.paper && ValidIntent(i) && i.side.Buy? && i.key.PipelineKey?
    && Reservation(i) <= limits.maxOrder && Reservation(i) <= limits.maxPosition
    && 0.0 < Reservation(i) <= Min(funding, limits.maxDaily)
  }

  function WholeFill(i: Intent): Fill {
    Fill(Some(Filled), None, i.quantity, Notional(i.quantity, i.limit), 0.0, 0.0, 1)
  }

  lemma ReserveOnFresh(limits: Limits, i: Intent, funding: real, now: real)
    requires Affordable(limits, i, funding)
    ensures var b := OpenAccount(EmptyBook(), i.slot.venue, Min(funding, limits.maxDaily));
      Reserve(b, limits, Active, i, None, true, now) == Ok(Insert(b, i, now))
  {
  }

  /** The one order of the ledger is accounted as filled; its quantity is held, and was paid from the budget. */
  predicate Held(b: Book, i: Intent, budget: real) {
    && b.orders.Keys == {i.key} && b.orders[i.key].data.accounted && b.orders[i.key].status.Filled?
    && i.slot in b.positions && b.positions[i.slot] == Position(i.quantity, i.quantity * i.limit, 0.0)
    && i.slot.venue in b.accounts && b.accounts[i.slot.venue] == budget - i.quantity * i.limit
  }

  lemma FillGoesThrough(limits: Limits, i: Intent, funding: real, now: real, r: Record)
    requires Affordable(limits, i, funding) && r.intent == i
    ensures var b := Save(Insert(OpenAccount(EmptyBook(), i.slot.venue, Min(funding, limits.maxDaily)), i, now), r);
      var done := Finish(b, r, WholeFill(i));
      !r.accounted ==> done.Ok? && Held(done.value.0, i, Min(funding, limits.maxDaily))
  {
    var f := WholeFill(i);
    assert f.quoteQty <= Reservation(i) by { MulSign(i.quantity, i.limit); FeeNonNegative(i); }
    MulSign(i.quantity, i.limit);
    assert f.quoteQty > 0.0;
    hide Notional, Reservation;
    assert FillError(i, f).None?;
  }

  lemma FeeNonNegative(i: Intent)
    requires ValidIntent(i)
    ensures Fee(i.slot.venue, i.quantity, i.limit) >= 0.0
  {
  }

  function Opened(limits: Limits, i: Intent, funding: real): Book {
    OpenAccount(EmptyBook(), i.slot.venue, Min(funding, limits.maxDaily))
  }

  /** From the start to the stored intent. */
  lemma ReachReady(limits: Limits, i: Intent, funding: real)
    requires Affordable(limits, i, funding)
    ensures Leads(limits, Sys(Opened(limits, i, funding), map[i.key := i], map[], map[1 := Ready(i)]))
  {
    hide Reservation, Run, HonestRun;
    assert Leads(limits, Init()) by { EmptyRun(limits); }
    hide Leads;
    var b := Opened(limits, i, funding);
    StepOn(limits, Init(), Bind(i.slot.venue, funding));
    var s1 := Sys(b, map[], map[], map[]);
    assert Next(Init(), limits, Bind(i.slot.venue, funding)) == s1;
    StepOn(limits, s1, Execute(1, i.key.run, true));
    var s2 := At(s1, 1, Checked(i.key));
    assert Next(s1, limits, Execute(1, i.key.run, true)) == s2;
    StepOn(limits, s2, ReadIntent(1, true, i));
    var s3 := At(s1, 1, Fresh(i.key, i));
    assert Next(s2, limits, ReadIntent(1, true, i)) == s3;
    StepOn(limits, s3, Persist(1));
    assert Next(s3, limits, Persist(1)) == Sys(b, map[i.key := i], map[], map[1 := Ready(i)]);
  }

  lemma EmptyRun(limits: Limits)
    ensures HonestRun(limits, []) && Run(limits, []) == Init()
  {
  }

  lemma NextReserve(b: Book, b1: Book, limits: Limits, i: Intent, q: Quote, now: real, intents: map<OrderKey, Intent>)
    requires i.key !in b.orders && !limits.paper && Reserve(b, limits, Active, i, None, true, now) == Ok(b1)
    ensures Next(Sys(b, intents, map[], map[1 := Ready(i)]), limits, DoReserve(1, Active, None, q, true, now))
         == Sys(b1, intents, map[], map[1 := Reserved(NewRecord(i))])
  {
  }

  lemma NextMark(b: Book, limits: Limits, r: Record, intents: map<OrderKey, Intent>)
    ensures var r1 := r.(status := Submitting);
      Next(Sys(b, intents, map[], map[1 := Reserved(r)]), limits, DoMark(1, Active))
      == Sys(Save(b, r1), intents, map[], map[1 := Marked(r1)])
  {
  }

  lemma NextSend(b: Book, limits: Limits, r: Record, f: Fill, intents: map<OrderKey, Intent>)
    ensures Next(Sys(b, intents, map[], map[1 := Marked(r)]), limits, Send(1, true, Active, true, Some(f)))
         == Sys(b, intents, map[r.intent.key := 1], map[1 := Answered(r, f)])
  {
  }

  lemma NextSettle(b: Book, limits: Limits, r: Record, f: Fill, intents: map<OrderKey, Intent>, sends: map<OrderKey, nat>)
    requires Finish(b, r, f).Ok?
    ensures Next(Sys(b, intents, sends, map[1 := Answered(r, f)]), limits, Settle(1))
         == Sys(Finish(b, r, f).value.0, intents, sends, map[])
  {
  }

  /** From the stored intent to the answer of the exchange. */
  lemma ReachAnswered(limits: Limits, i: Intent, funding: real, now: real, f: Fill)
    requires Affordable(limits, i, funding)
    ensures var r := NewRecord(i).(status := Submitting);
      var b := Save(Insert(Opened(limits, i, funding), i, now), r);
      Leads(limits, Sys(b, map[i.key := i], map[i.key := 1], map[1 := Answered(r, f)]))
  {
    ReachReady(limits, i, funding);
    ReserveOnFresh(limits, i, funding, now);
    NothingOrdered(limits, i, funding);
    hide Reservation, Leads, Reserve, Opened, Next, Insert, Save;
    var b, intents := Opened(limits, i, funding), map[i.key := i];
    var b1, r0 := Insert(b, i, now), NewRecord(i);
    var r := r0.(status := Submitting);
    var q := Quote(1.0, 1.0, 0.0, 0.0);
    NextReserve(b, b1, limits, i, q, now, intents);
    StepOn(limits, Sys(b, intents, map[], map[1 := Ready(i)]), DoReserve(1, Active, None, q, true, now));
    NextMark(b1, limits, r0, intents);
    StepOn(limits, Sys(b1, intents, map[], map[1 := Reserved(r0)]), DoMark(1, Active));
    NextSend(Save(b1, r), limits, r, f, intents);
    StepOn(limits, Sys(Save(b1, r), intents, map[], map[1 := Marked(r)]), Send(1, true, Active, true, Some(f)));
  }

  lemma NothingOrdered(limits: Limits, i: Intent, funding: real)
    ensures Opened(limits, i, funding).orders == map[]
  {
  }

  /** The bounds on orders and sends are not met by doing nothing: every affordable purchase of a workflow has a
      run in which it is sent, exactly once, and accounted, and nobody is left at work. */
  lemma AffordableOrdersGoThrough(limits: Limits, i: Intent, funding: real, now: real)
    requires Affordable(limits, i, funding)
    ensures exists s ::
      Leads(limits, s) && Sends(s, i.key) == 1 && Held(s.book, i, Min(funding, limits.maxDaily)) && s.actors == map[]
  {
    var r := NewRecord(i).(status := Submitting);
    ReachAnswered(limits, i, funding, now, WholeFill(i));
    FillGoesThrough(limits, i, funding, now, r);
    hide Leads, Finish, WholeFill, Reservation, Save, Insert, OpenAccount, Next;
    var b := Save(Insert(Opened(limits, i, funding), i, now), r);
    var intents, sends := map[i.key := i], map[i.key := 1];
    NextSettle(b, limits, r, WholeFill(i), intents, sends);
    StepOn(limits, Sys(b, intents, sends, map[1 := Answered(r, WholeFill(i))]), Settle(1));
    var s := Sys(Finish(b, r, WholeFill(i)).value.0, intents, sends, map[]);
    assert Leads(limits, s) && Sends(s, i.key) == 1;
  }
}
