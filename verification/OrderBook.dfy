/** Reading a public order book and walking its asks for a quote budget. */
module OrderBook {
  import opened Core

  datatype Level = Level(price: real, quantity: real)

  datatype Payload = Payload(bids: seq<Level>, asks: seq<Level>)

  datatype BookError =
    | InvalidNumber | BudgetExceedsLimit | BookTooLarge | InvalidPredictionPrice | NotTwoSided | Crossed

  datatype Liquidity = Liquidity(
    bid: real, ask: real, spread: real, spreadBps: real, bidDepth: real, askDepth: real, target: real, complete: bool,
    vwap: Option<real>, impactBps: Option<real>)

  const TOLERANCE := 0.00000001
  const MAX_ROWS := 10000
  const MAX_BUDGET := 1000.0

  function Cost(price: real, quantity: real): real { price * quantity }

  function Notional(levels: seq<Level>): real {
    if levels == [] then 0.0
    else Notional(levels[..|levels| - 1]) + Cost(levels[|levels| - 1].price, levels[|levels| - 1].quantity)
  }

  // Reading the levels

  /** Python's order on (price, quantity) pairs. */
  predicate Before(a: Level, b: Level) {
    a.price < b.price || (a.price == b.price && a.quantity <= b.quantity)
  }

  predicate InOrder(a: Level, b: Level, descending: bool) {
    if descending then Before(b, a) else Before(a, b)
  }

  predicate Sorted(levels: seq<Level>, descending: bool) {
    forall i, j :: 0 <= i < j < |levels| ==> InOrder(levels[i], levels[j], descending)
  }

  function Insert(levels: seq<Level>, x: Level, descending: bool): seq<Level> {
    if levels == [] || InOrder(x, levels[0], descending) then [x] + levels
    else [levels[0]] + Insert(levels[1..], x, descending)
  }

  function Sort(levels: seq<Level>, descending: bool): seq<Level> {
    if levels == [] then [] else Insert(Sort(levels[1..], descending), levels[0], descending)
  }

  lemma {:induction false} InsertSorts(levels: seq<Level>, x: Level, descending: bool)
    requires Sorted(levels, descending)
    ensures Sorted(Insert(levels, x, descending), descending)
  {
    if levels == [] || InOrder(x, levels[0], descending) {
      forall j | 0 <= j < |levels|
        ensures InOrder(x, levels[j], descending)
      {
        assert j > 0 ==> InOrder(levels[0], levels[j], descending);
      }
      PrependSorts(x, levels, descending);
    } else {
      var tail := Insert(levels[1..], x, descending);
      InsertSorts(levels[1..], x, descending);
      InsertKeeps(levels[1..], x, descending);
      hide Insert;
      forall j | 0 <= j < |tail|
        ensures InOrder(levels[0], tail[j], descending)
      {
        assert tail[j] in multiset(tail);
      }
      hide Sorted;
      PrependSorts(levels[0], tail, descending);
    }
  }

  lemma PrependSorts(first: Level, tail: seq<Level>, descending: bool)
    requires Sorted(tail, descending) && forall j :: 0 <= j < |tail| ==> InOrder(first, tail[j], descending)
    ensures Sorted([first] + tail, descending)
  {
    hide InOrder;
  }

  lemma {:induction false} InsertKeeps(levels: seq<Level>, x: Level, descending: bool)
    ensures multiset(Insert(levels, x, descending)) == multiset(levels) + multiset{x}
  {
    if levels != [] && !InOrder(x, levels[0], descending) {
      InsertKeeps(levels[1..], x, descending);
      assert levels == [levels[0]] + levels[1..];
    }
  }

  /** Sorting keeps exactly the levels it was given. */
  lemma {:induction false} SortSorts(levels: seq<Level>, descending: bool)
    ensures Sorted(Sort(levels, descending), descending) && multiset(Sort(levels, descending)) == multiset(levels)
  {
    if levels != [] {
      SortSorts(levels[1..], descending);
      InsertSorts(Sort(levels[1..], descending), levels[0], descending);
      InsertKeeps(Sort(levels[1..], descending), levels[0], descending);
      assert levels == [levels[0]] + levels[1..];
    }
  }

  lemma {:induction false} SortedUnique(a: seq<Level>, b: seq<Level>, descending: bool)
    requires Sorted(a, descending) && Sorted(b, descending) && multiset(a) == multiset(b)
    ensures a == b
  {
    assert |a| == |multiset(a)| == |multiset(b)| == |b|;
    if a != [] {
      SameFirst(a, b, descending);
      SameRest(a, b);
      hide InOrder;
      SortedUnique(a[1..], b[1..], descending);
      assert a == [a[0]] + a[1..] && b == [b[0]] + b[1..];
    }
  }

  lemma SameFirst(a: seq<Level>, b: seq<Level>, descending: bool)
    requires Sorted(a, descending) && Sorted(b, descending) && multiset(a) == multiset(b) && |a| == |b| > 0
    ensures a[0] == b[0]
  {
    assert a[0] in multiset(b) && b[0] in multiset(a);
    var i :| 0 <= i < |b| && b[i] == a[0];
    var j :| 0 <= j < |a| && a[j] == b[0];
    assert i > 0 ==> InOrder(b[0], b[i], descending);
    assert j > 0 ==> InOrder(a[0], a[j], descending);
    hide Sorted;
  }

  lemma SameRest(a: seq<Level>, b: seq<Level>)
    requires multiset(a) == multiset(b) && |a| == |b| > 0 && a[0] == b[0]
    ensures multiset(a[1..]) == multiset(b[1..])
  {
    assert a == [a[0]] + a[1..] && b == [b[0]] + b[1..];
    assert multiset(a[1..]) == multiset(a) - multiset{a[0]};
    assert multiset(b[1..]) == multiset(b) - multiset{b[0]};
  }

  /** The rows with something in them. */
  function Filled(rows: seq<Level>): seq<Level> {
    if rows == [] then []
    else Filled(rows[..|rows| - 1]) + if rows[|rows| - 1].quantity != 0.0 then [rows[|rows| - 1]] else []
  }

  predicate BadNumber(x: Level) {
    x.price <= 0.0 || x.quantity < 0.0
  }

  predicate GoodRows(rows: seq<Level>, prediction: bool) {
    |rows| <= 10000 && forall n :: 0 <= n < |rows| ==> !BadNumber(rows[n]) && (prediction ==> rows[n].price < 1.0)
  }

  /** `_levels`; a row that fails raises at once. */
  method Levels(rows: seq<Level>, descending: bool, prediction: bool) returns (r: Result<seq<Level>, BookError>)
    ensures r.Ok? <==> GoodRows(rows, prediction)
    ensures r.Ok? ==> r.value == Sort(Filled(rows), descending) && Usable(r.value, descending)
    ensures |rows| > 10000 <==> r == Err(BookTooLarge)
  {
    if |rows| > MAX_ROWS {
      return Err(BookTooLarge);
    }
    hide Sort, Usable;
    var levels: seq<Level> := [];
    for n := 0 to |rows|
      invariant forall k :: 0 <= k < n ==> !BadNumber(rows[k]) && (prediction ==> rows[k].price < 1.0)
      invariant levels == Filled(rows[..n])
      invariant forall k :: 0 <= k < |levels| ==> levels[k].price > 0.0 && levels[k].quantity > 0.0
    {
      assert rows[..n + 1][..n] == rows[..n];
      if BadNumber(rows[n]) {
        return Err(InvalidNumber);
      }
      if prediction && rows[n].price >= 1.0 {
        return Err(InvalidPredictionPrice);
      }
      if rows[n].quantity != 0.0 {
        levels := levels + [rows[n]];
      }
    }
    assert rows[..|rows|] == rows;
    SortUsable(levels, descending);
    return Ok(Sort(levels, descending));
  }

  lemma SortUsable(levels: seq<Level>, descending: bool)
    requires forall k :: 0 <= k < |levels| ==> levels[k].price > 0.0 && levels[k].quantity > 0.0
    ensures Usable(Sort(levels, descending), descending)
  {
    SortSorts(levels, descending);
    hide Sort;
    forall k | 0 <= k < |Sort(levels, descending)|
      ensures Sort(levels, descending)[k].price > 0.0 && Sort(levels, descending)[k].quantity > 0.0
    {
      assert Sort(levels, descending)[k] in multiset(levels);
    }
  }

  /** Sorted, with positive prices and quantities. */
  predicate Usable(levels: seq<Level>, descending: bool) {
    Sorted(levels, descending) && forall k :: 0 <= k < |levels| ==> levels[k].price > 0.0 && levels[k].quantity > 0.0
  }

  lemma {:induction false} FilledCounts(a: seq<Level>, x: Level)
    ensures multiset(Filled(a))[x] == if x.quantity != 0.0 then multiset(a)[x] else 0
  {
    if a != [] {
      FilledCounts(a[..|a| - 1], x);
      assert a == a[..|a| - 1] + [a[|a| - 1]];
    }
  }

  /** The order in which the exchange lists its rows does not matter. */
  lemma RowOrderIsIrrelevant(a: seq<Level>, b: seq<Level>, descending: bool)
    requires multiset(a) == multiset(b)
    ensures Sort(Filled(a), descending) == Sort(Filled(b), descending)
  {
    forall x: Level ensures multiset(Filled(a))[x] == multiset(Filled(b))[x] {
      FilledCounts(a, x);
      FilledCounts(b, x);
    }
    assert multiset(Filled(a)) == multiset(Filled(b));
    SortSorts(Filled(a), descending);
    SortSorts(Filled(b), descending);
    SortedUnique(Sort(Filled(a), descending), Sort(Filled(b), descending), descending);
  }

  /** The highest, or lowest, price at which a listing offers something. */
  predicate BestPrice(price: real, rows: seq<Level>, highest: bool) {
    && (exists n :: 0 <= n < |rows| && rows[n].quantity != 0.0 && rows[n].price == price)
    && forall n :: 0 <= n < |rows| && rows[n].quantity != 0.0 ==>
         if highest then rows[n].price <= price else price <= rows[n].price
  }

  lemma TopIsBest(rows: seq<Level>, descending: bool)
    requires Sort(Filled(rows), descending) != []
    ensures BestPrice(Sort(Filled(rows), descending)[0].price, rows, descending)
  {
    var sorted := Sort(Filled(rows), descending);
    SortSorts(Filled(rows), descending);
    hide Sort, Filled;
    forall x: Level
      ensures x in sorted <==> x in rows && x.quantity != 0.0
    {
      FilledCounts(rows, x);
      assert x in sorted <==> x in multiset(sorted);
      assert x in rows <==> x in multiset(rows);
    }
    assert sorted[0] in rows;
    forall n | 0 <= n < |rows| && rows[n].quantity != 0.0
      ensures if descending then rows[n].price <= sorted[0].price else sorted[0].price <= rows[n].price
    {
      assert rows[n] in sorted;
      var k :| 0 <= k < |sorted| && sorted[k] == rows[n];
      assert k > 0 ==> InOrder(sorted[0], sorted[k], descending);
    }
  }

  lemma PricesPositive(levels: seq<Level>, descending: bool)
    requires levels != [] && Usable(levels, descending)
    ensures levels[0].price > 0.0
  {
  }

  /** Bids come from the highest price down and asks from the lowest up; at one price the sizes follow in the same way. */
  lemma LevelOrder(rows: seq<Level>, descending: bool, i: nat, j: nat)
    requires i < j < |Sort(Filled(rows), descending)|
    ensures var a, b := Sort(Filled(rows), descending)[i], Sort(Filled(rows), descending)[j];
      && (descending ==> a.price > b.price || (a.price == b.price && a.quantity >= b.quantity))
      && (!descending ==> a.price < b.price || (a.price == b.price && a.quantity <= b.quantity))
  {
    SortSorts(Filled(rows), descending);
    var sorted := Sort(Filled(rows), descending);
    hide Sort, Filled;
    assert InOrder(sorted[i], sorted[j], descending);
  }

  // The walk

  /** A plan takes some quantity of each level; the walk is the plan that takes the cheapest first. */
  datatype Plan = Plan(takes: seq<real>, spent: real, shares: real)

  function Take(x: Level, left: real): real
    requires x.price > 0.0
  {
    Min(x.quantity, Max(0.0, left) / x.price)
  }

  predicate Reached(spent: real, budget: real) {
    spent >= budget - TOLERANCE
  }

  /** The walk over the first n levels: it stops when the budget is reached. */
  function Walk(asks: seq<Level>, budget: real, n: nat): Plan
    requires n <= |asks| && forall k :: 0 <= k < |asks| ==> asks[k].price > 0.0
  {
    if n == 0 then Plan([], 0.0, 0.0)
    else
      var w := Walk(asks, budget, n - 1);
      if n > 1 && Reached(w.spent, budget) then w
      else
        var take := Take(asks[n - 1], budget - w.spent);
        Plan(w.takes + [take], w.spent + Cost(asks[n - 1].price, take), w.shares + take)
  }

  lemma {:induction false} WalkStops(asks: seq<Level>, budget: real, m: nat, n: nat)
    requires 1 <= m <= n <= |asks| && forall k :: 0 <= k < |asks| ==> asks[k].price > 0.0
    requires Reached(Walk(asks, budget, m).spent, budget)
    ensures Walk(asks, budget, n) == Walk(asks, budget, m)
    decreases n
  {
    if m < n {
      WalkStops(asks, budget, m, n - 1);
    }
  }

  lemma TakeBounds(x: Level, left: real)
    requires x.price > 0.0 && x.quantity > 0.0
    ensures 0.0 <= Take(x, left) <= x.quantity
    ensures Cost(x.price, Take(x, left)) <= Max(0.0, left)
    ensures Take(x, left) == x.quantity || Cost(x.price, Take(x, left)) == Max(0.0, left)
    ensures left > 0.0 ==> Take(x, left) > 0.0
    ensures 0.0 <= Cost(x.price, Take(x, left)) <= Cost(x.price, x.quantity)
  {
  }

  method TotalNotional(levels: seq<Level>) returns (sum: real)
    ensures sum == Notional(levels)
  {
    sum := 0.0;
    for n := 0 to |levels|
      invariant sum == Notional(levels[..n])
    {
      assert levels[..n + 1][..n] == levels[..n];
      sum := sum + Cost(levels[n].price, levels[n].quantity);
    }
    assert levels[..|levels|] == levels;
  }

  method BookLiquidity(payload: Payload, prediction: bool, budget: real) returns (r: Result<Liquidity, BookError>)
    ensures r.Ok? <==>
      && 0.0 < budget <= 1000.0 && GoodRows(payload.bids, prediction) && GoodRows(payload.asks, prediction)
      && var bids, asks := Sort(Filled(payload.bids), true), Sort(Filled(payload.asks), false);
      |bids| > 0 && |asks| > 0 && bids[0].price <= asks[0].price
    ensures r.Ok? ==>
      var bids, asks := Sort(Filled(payload.bids), true), Sort(Filled(payload.asks), false);
      && Usable(bids, true) && Usable(asks, false)
      && BestPrice(r.value.bid, payload.bids, true) && BestPrice(r.value.ask, payload.asks, false)
      && r.value.spreadBps == (r.value.ask - r.value.bid) / ((r.value.ask + r.value.bid) / 2.0) * 10000.0
      && var w := Walk(asks, budget, |asks|);
      && r.value.bid == bids[0].price && r.value.ask == asks[0].price && r.value.spread == asks[0].price - bids[0].price
      && r.value.bidDepth == Notional(bids) && r.value.askDepth == Notional(asks) && r.value.target == budget
      && r.value.complete == Reached(w.spent, budget)
      && (r.value.vwap.Some? <==> r.value.complete) && (r.value.impactBps.Some? <==> r.value.complete)
      && (r.value.complete ==>
            w.shares > 0.0 && r.value.vwap.value == w.spent / w.shares
            && r.value.impactBps.value == (w.spent / w.shares / asks[0].price - 1.0) * 10000.0)
  {
    if budget <= 0.0 {
      return Err(InvalidNumber);
    }
    if budget > MAX_BUDGET {
      return Err(BudgetExceedsLimit);
    }
    hide Sort, Filled, Notional;
    var bids := Levels(payload.bids, true, prediction);
    if bids.Err? {
      return Err(bids.error);
    }
    var book := Levels(payload.asks, false, prediction);
    if book.Err? {
      return Err(book.error);
    }
    var asks := book.value;
    if bids.value == [] || asks == [] {
      return Err(NotTwoSided);
    }
    var bid, ask := bids.value[0].price, asks[0].price;
    if bid > ask {
      return Err(Crossed);
    }
    TopIsBest(payload.bids, true);
    TopIsBest(payload.asks, false);
    hide Take, Cost, Usable, BestPrice;
    PricesPositive(bids.value, true);
    PricesPositive(asks, false);
    var spread := ask - bid;
    var spreadBps := spread / ((ask + bid) / 2.0) * 10000.0;
    var spent, shares := Spend(asks, budget);
    var complete := spent >= budget - TOLERANCE;
    var bidDepth := TotalNotional(bids.value);
    var askDepth := TotalNotional(asks);
    var vwap := if complete then Some(spent / shares) else None;
    var impact := if complete then Some((spent / shares / ask - 1.0) * 10000.0) else None;
    return Ok(Liquidity(bid, ask, spread, spreadBps, bidDepth, askDepth, budget, complete, vwap, impact));
  }

  /** The loop over the asks. */
  method Spend(asks: seq<Level>, budget: real) returns (spent: real, shares: real)
    requires asks != [] && Usable(asks, false) && budget > 0.0
    ensures spent == Walk(asks, budget, |asks|).spent && shares == Walk(asks, budget, |asks|).shares && shares > 0.0
  {
    spent, shares := 0.0, 0.0;
    for n := 0 to |asks|
      invariant spent == Walk(asks, budget, n).spent && shares == Walk(asks, budget, n).shares
      invariant n > 0 ==> shares > 0.0 && !Reached(spent, budget)
      invariant n == 0 ==> spent == 0.0 && shares == 0.0
    {
      var price, quantity := asks[n].price, asks[n].quantity;
      var take := Min(quantity, Max(0.0, budget - spent) / price);
      assert take == Take(asks[n], budget - spent);
      TakeBounds(asks[n], budget - spent);
      hide Take, Cost;
      spent := spent + Cost(price, take);
      shares := shares + take;
      if spent >= budget - TOLERANCE {
        WalkStops(asks, budget, n + 1, |asks|);
        return;
      }
    }
  }
}
