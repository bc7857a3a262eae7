/** What holds of every run of the execution protocol. */
module ExactlyOnce {
  import opened Core
  import opened Sums
  import opened Ledger
  import opened LedgerLaws
  import opened PaperLaws
  import opened Execution
  import opened AtMostOnce

  /** At every point of the run the exchange answered lookups honestly. */
  ghost predicate HonestRun(limits: Limits, steps: seq<Step>) {
    forall n :: 0 <= n < |steps| ==> Honest(Run(limits, steps[..n]), steps[n])
  }

  lemma HonestPrefix(limits: Limits, steps: seq<Step>, n: nat)
    requires HonestRun(limits, steps) && n <= |steps|
    ensures HonestRun(limits, steps[..n])
  {
    hide Run, Honest;
    forall m | 0 <= m < n ensures Honest(Run(limits, steps[..n][..m]), steps[..n][m]) {
      assert steps[..n][..m] == steps[..m];
    }
  }

  lemma InitInv()
    ensures SysInv(Init())
  {
  }

  lemma {:induction false} RunInv(limits: Limits, steps: seq<Step>)
    requires HonestRun(limits, steps)
    ensures SysInv(Run(limits, steps))
  {
    if steps == [] {
      InitInv();
    } else {
      var n := |steps| - 1;
      HonestPrefix(limits, steps, n);
      RunInv(limits, steps[..n]);
      StepInv(Run(limits, steps[..n]), limits, steps[n]);
    }
  }

  lemma GrowsTransitive(s: Sys, s1: Sys, s2: Sys)
    requires Grows(s, s1) && Grows(s1, s2)
    ensures Grows(s, s2)
  {
  }

  lemma GrowsReflexive(s: Sys)
    ensures Grows(s, s)
  {
  }

  /** From any point of a run to any later one, orders, intents and sends only grow. */
  lemma {:induction false} RunGrows(limits: Limits, steps: seq<Step>, m: nat)
    requires HonestRun(limits, steps) && m <= |steps|
    ensures Grows(Run(limits, steps[..m]), Run(limits, steps))
  {
    hide Next, SysInv, Grows, Honest;
    if m == |steps| {
      assert steps[..m] == steps;
      GrowsReflexive(Run(limits, steps));
    } else {
      var n := |steps| - 1;
      HonestPrefix(limits, steps, n);
      RunGrows(limits, steps[..n], m);
      assert steps[..n][..m] == steps[..m];
      RunInv(limits, steps[..n]);
      StepInv(Run(limits, steps[..n]), limits, steps[n]);
      GrowsTransitive(Run(limits, steps[..m]), Run(limits, steps[..n]), Run(limits, steps));
    }
  }

  /** The ledger agrees with its own history in every reachable state, however submit, its exception
      handlers and `reconcile` interleave. */
  lemma LedgerMatchesHistory(limits: Limits, steps: seq<Step>, v: Venue, slot: Slot)
    requires HonestRun(limits, steps)
    ensures var b := Run(limits, steps).book;
      && (v in b.accounts ==>
            v in b.funding && b.accounts[v] >= 0.0
            && b.accounts[v] == b.funding[v] + Sum(b.orders, CashFlow(v))
            && b.accounts[v] + Sum(b.positions, Carried(v)) == b.funding[v])
      && PositionAt(b, slot).quantity == Sum(b.orders, QuantityFlow(slot))
      && PositionAt(b, slot).quantity >= 0.0 && PositionAt(b, slot).cost >= 0.0
  {
    RunInv(limits, steps);
  }

  /** At most one order is open, and an order once terminal keeps its status, amounts and reservation. */
  lemma SingleOpenOrder(limits: Limits, steps: seq<Step>, m: nat, j: OrderKey, k: OrderKey)
    requires HonestRun(limits, steps) && m <= |steps|
    ensures var s, s1 := Run(limits, steps[..m]), Run(limits, steps);
      && (j in s1.book.orders && Open(s1.book.orders[j].status) ==>
            k in s1.book.orders && Open(s1.book.orders[k].status) ==> j == k)
      && (k in s.book.orders && !Open(s.book.orders[k].status) ==>
            k in s1.book.orders && s1.book.orders[k] == s.book.orders[k])
  {
    RunInv(limits, steps);
    RunGrows(limits, steps, m);
    HonestPrefix(limits, steps, m);
    RunInv(limits, steps[..m]);
    RowsOk(Run(limits, steps[..m]).book);
    hide Inv;
  }

  // Why the lookup assumption is needed

  /** The announcing transaction writes the copy held in memory without reading the row. It keeps the
      ledger's accounted orders exactly when the row has not been accounted in between. */
  lemma MarkKeepsOrdersExactly(b: Book, limits: Limits, mode: RiskMode, r: Record)
    requires Inv(b) && Matches(b, r) && Open(r.status)
    requires RiskModeError(mode, limits.protectiveExit, r.intent.side).None?
    ensures Mark(b, limits, mode, r).Ok?
    ensures Preserves(b, Mark(b, limits, mode, r).value.0) <==> !b.orders[r.intent.key].data.accounted
    ensures Open(Mark(b, limits, mode, r).value.0.orders[r.intent.key].status)
  {
  }

  // The reconciliation window

  predicate KeyBefore(j: OrderKey, k: OrderKey) {
    match (j, k)
    case (PipelineKey(m), PipelineKey(n)) => m < n
    case (OtherKey(m), OtherKey(n)) => m < n
    case (PipelineKey(_), OtherKey(_)) => true
    case (OtherKey(_), PipelineKey(_)) => false
  }

  /** Row order of `orders`: newest first, then by key. */
  predicate RowBefore(b: Book, j: OrderKey, k: OrderKey)
    requires j in b.orders && k in b.orders
  {
    b.orders[j].created > b.orders[k].created || (b.orders[j].created == b.orders[k].created && KeyBefore(j, k))
  }

  const WINDOW := 1000

  ghost function Preceding(b: Book, k: OrderKey): set<OrderKey>
    requires k in b.orders
  {
    set j | j in b.orders && RowBefore(b, j, k)
  }

  /** Among the first 1000 rows that `reconcile` reads. */
  ghost predicate InWindow(b: Book, k: OrderKey) {
    k in b.orders && |Preceding(b, k)| < WINDOW
  }

  /** Rows created at the same instant with a smaller key. */
  ghost function Ties(b: Book, k: OrderKey): set<OrderKey>
    requires k in b.orders
  {
    set j | j in b.orders && b.orders[j].created == b.orders[k].created && KeyBefore(j, k)
  }

  /** Reservations are made at times that do not decrease in commit order. */
  ghost predicate ClockOk(s: Sys, step: Step) {
    step.DoReserve? ==> forall k :: k in s.book.orders ==> s.book.orders[k].created <= step.now
  }

  ghost predicate OpenIsNewest(b: Book) {
    forall j, k :: j in b.orders && k in b.orders && Open(b.orders[k].status) ==>
      b.orders[j].created <= b.orders[k].created
  }

  ghost predicate ClockedRun(limits: Limits, steps: seq<Step>) {
    forall n :: 0 <= n < |steps| ==> ClockOk(Run(limits, steps[..n]), steps[n])
  }

  lemma ReserveAdds(s: Sys, limits: Limits, step: Step, k: OrderKey)
    requires Inv(s.book) && step.DoReserve? && step.a in s.actors && s.actors[step.a].Ready?
    requires ValidIntent(s.actors[step.a].intent)
    requires k in ReserveStep(s, limits, step).book.orders && k !in s.book.orders
    ensures !HasOpenOrder(s.book) && ReserveStep(s, limits, step).book.orders[k].created == step.now
  {
    hide Inv, Reserve, PaperSubmit, ValidIntent;
    var i := s.actors[step.a].intent;
    if limits.paper {
      PaperBookInv(s.book, limits, step, i);
    } else {
      ReserveFacts(s.book, limits, step.mode, i, step.remote, step.guard, step.now);
    }
  }

  /** Only the reservation adds a row; it does so when nothing is open, and stamps the row with its time. */
  lemma StepAdds(s: Sys, limits: Limits, step: Step, k: OrderKey)
    requires SysInv(s) && k in Next(s, limits, step).book.orders && k !in s.book.orders
    ensures step.DoReserve? && !HasOpenOrder(s.book) && Next(s, limits, step).book.orders[k].created == step.now
  {
    if !step.DoReserve? {
      StepSame(s, limits, step);
    } else {
      assert ActorOk(s.book, s.intents, s.sends, s.actors[step.a]);
      ReserveAdds(s, limits, step, k);
    }
  }

  lemma OpenIsNewestKept(s: Sys, limits: Limits, step: Step)
    requires SysInv(s) && Honest(s, step) && ClockOk(s, step) && OpenIsNewest(s.book)
    ensures OpenIsNewest(Next(s, limits, step).book)
  {
    StepInv(s, limits, step);
    var b, b1 := s.book, Next(s, limits, step).book;
    RowsOk(b);
    RowsOk(b1);
    hide Inv, Next, OneOwner, IntentsOk, SendsOk, ActorOk, ValidIntent;
    forall j, k | j in b1.orders && k in b1.orders && Open(b1.orders[k].status)
      ensures b1.orders[j].created <= b1.orders[k].created
    {
      if j !in b.orders {
        StepAdds(s, limits, step, j);
      }
      if k !in b.orders {
        StepAdds(s, limits, step, k);
      }
    }
  }

  lemma ClockedPrefix(limits: Limits, steps: seq<Step>, n: nat)
    requires ClockedRun(limits, steps) && n <= |steps|
    ensures ClockedRun(limits, steps[..n])
  {
    hide Run, ClockOk;
    forall m | 0 <= m < n ensures ClockOk(Run(limits, steps[..n][..m]), steps[..n][m]) {
      assert steps[..n][..m] == steps[..m];
    }
  }

  lemma {:induction false} OpenStaysNewest(limits: Limits, steps: seq<Step>)
    requires HonestRun(limits, steps) && ClockedRun(limits, steps)
    ensures OpenIsNewest(Run(limits, steps).book)
  {
    if steps != [] {
      var n := |steps| - 1;
      hide Next, OpenIsNewest, SysInv, Honest, ClockOk;
      HonestPrefix(limits, steps, n);
      ClockedPrefix(limits, steps, n);
      OpenStaysNewest(limits, steps[..n]);
      RunInv(limits, steps[..n]);
      OpenIsNewestKept(Run(limits, steps[..n]), limits, steps[n]);
    }
  }

  /** `reconcile` sees the open order exactly when fewer than 1000 rows share its creation time with a
      smaller key: the time order alone is not enough, because ties are broken by key. */
  lemma WindowHoldsOpenOrderExactly(limits: Limits, steps: seq<Step>, k: OrderKey)
    requires HonestRun(limits, steps) && ClockedRun(limits, steps)
    requires k in Run(limits, steps).book.orders && Open(Run(limits, steps).book.orders[k].status)
    ensures InWindow(Run(limits, steps).book, k) <==> |Ties(Run(limits, steps).book, k)| < WINDOW
  {
    OpenStaysNewest(limits, steps);
    var b := Run(limits, steps).book;
    assert Preceding(b, k) == Ties(b, k);
  }
}
