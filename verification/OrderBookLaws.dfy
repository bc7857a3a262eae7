/** The order-book walk is the best way to spend the budget. */
module OrderBookLaws {
  import opened Core
  import opened OrderBook

  /** What a plan that takes `takes[k]` of the k-th level costs. */
  function PlanCost(asks: seq<Level>, takes: seq<real>): real
    requires |takes| <= |asks|
  {
    if takes == [] then 0.0
    else PlanCost(asks, takes[..|takes| - 1]) + Cost(asks[|takes| - 1].price, takes[|takes| - 1])
  }

  function PlanShares(takes: seq<real>): real {
    if takes == [] then 0.0 else PlanShares(takes[..|takes| - 1]) + takes[|takes| - 1]
  }

  /** A way of buying from the levels: some quantity of each, at most what it offers. */
  predicate Possible(asks: seq<Level>, takes: seq<real>) {
    |takes| <= |asks| && forall k :: 0 <= k < |takes| ==> 0.0 <= takes[k] <= asks[k].quantity
  }

  /** The walk is a possible plan within the budget that takes every level it leaves behind whole, and every
      level it came to while the budget is not reached. */
  ghost predicate Greedy(asks: seq<Level>, budget: real, n: nat, w: Plan) {
    && Possible(asks, w.takes) && |w.takes| <= n && (n > 0 ==> |w.takes| > 0)
    && w.spent == PlanCost(asks, w.takes) && w.shares == PlanShares(w.takes) && 0.0 <= w.spent <= budget
    && (forall k :: 0 <= k < |w.takes| - 1 ==> w.takes[k] == asks[k].quantity)
    && (w.spent < budget - TOLERANCE || n == 0 ==> |w.takes| == n)
    && (w.spent < budget ==> forall k :: 0 <= k < |w.takes| ==> w.takes[k] == asks[k].quantity)
  }

  lemma {:induction false} WalkIsGreedy(asks: seq<Level>, budget: real, n: nat)
    requires Usable(asks, false) && budget > 0.0 && n <= |asks|
    ensures Greedy(asks, budget, n, Walk(asks, budget, n))
  {
    hide Cost, Take, Greedy, PlanCost, PlanShares, Sorted;
    if n == 0 {
      EmptyIsGreedy(asks, budget);
    } else {
      WalkIsGreedy(asks, budget, n - 1);
      var w := Walk(asks, budget, n - 1);
      if n > 1 && Reached(w.spent, budget) {
        GreedyStops(asks, budget, n, w);
      } else {
        var take := Take(asks[n - 1], budget - w.spent);
        TakeBounds(asks[n - 1], budget - w.spent);
        GreedyNext(asks, budget, n, w, take);
      }
    }
  }

  lemma EmptyIsGreedy(asks: seq<Level>, budget: real)
    requires budget > 0.0
    ensures Greedy(asks, budget, 0, Plan([], 0.0, 0.0))
  {
  }

  lemma GreedyStops(asks: seq<Level>, budget: real, n: nat, w: Plan)
    requires n > 1 && Greedy(asks, budget, n - 1, w) && Reached(w.spent, budget)
    ensures Greedy(asks, budget, n, w)
  {
  }

  lemma GreedyNext(asks: seq<Level>, budget: real, n: nat, w: Plan, take: real)
    requires 1 <= n <= |asks| && budget > 0.0 && Greedy(asks, budget, n - 1, w)
    requires n > 1 ==> !Reached(w.spent, budget)
    requires 0.0 <= take <= asks[n - 1].quantity && 0.0 <= Cost(asks[n - 1].price, take) <= Max(0.0, budget - w.spent)
    requires take == asks[n - 1].quantity || Cost(asks[n - 1].price, take) == Max(0.0, budget - w.spent)
    ensures Greedy(asks, budget, n, Plan(w.takes + [take], w.spent + Cost(asks[n - 1].price, take), w.shares + take))
  {
  }

  lemma {:induction false} WholeLevels(asks: seq<Level>, takes: seq<real>)
    requires |takes| <= |asks| && forall k :: 0 <= k < |takes| ==> takes[k] == asks[k].quantity
    ensures PlanCost(asks, takes) == Notional(asks[..|takes|])
  {
    if takes != [] {
      WholeLevels(asks, takes[..|takes| - 1]);
      assert asks[..|takes|][..|takes| - 1] == asks[..|takes| - 1];
    }
  }

  lemma {:induction false} PlanWithinNotional(asks: seq<Level>, takes: seq<real>)
    requires Possible(asks, takes) && Usable(asks, false)
    ensures PlanCost(asks, takes) <= Notional(asks[..|takes|])
  {
    if takes != [] {
      var n := |takes| - 1;
      PlanWithinNotional(asks, takes[..n]);
      assert asks[..|takes|][..n] == asks[..n];
      CostMonotone(asks[n].price, takes[n], asks[n].quantity);
      hide Cost;
    }
  }

  lemma CostMonotone(price: real, x: real, y: real)
    requires price >= 0.0 && x <= y
    ensures Cost(price, x) <= Cost(price, y)
  {
  }

  lemma {:induction false} NotionalGrows(asks: seq<Level>, n: nat)
    requires Usable(asks, false) && n <= |asks|
    ensures Notional(asks[..n]) <= Notional(asks)
    decreases |asks| - n
  {
    if n == |asks| {
      assert asks[..n] == asks;
    } else {
      NotionalGrows(asks, n + 1);
      assert asks[..n + 1][..n] == asks[..n];
      CostMonotone(asks[n].price, 0.0, asks[n].quantity);
      assert Cost(asks[n].price, 0.0) == 0.0;
    }
  }

  /** The walk spends at most the budget, and reports enough depth exactly when the asks together are worth the
      budget, within the tolerance. */
  lemma DepthExactly(asks: seq<Level>, budget: real)
    requires Usable(asks, false) && asks != [] && budget > 0.0
    ensures var w := Walk(asks, budget, |asks|);
      && 0.0 <= w.spent <= budget && (Reached(w.spent, budget) <==> w.spent >= budget - 0.00000001)
      && (Reached(w.spent, budget) <==> Notional(asks) >= budget - 0.00000001)
  {
    WalkIsGreedy(asks, budget, |asks|);
    hide Walk, PlanCost, PlanShares;
    var w := Walk(asks, budget, |asks|);
    PlanWithinNotional(asks, w.takes);
    NotionalGrows(asks, |w.takes|);
    if !Reached(w.spent, budget) {
      WholeLevels(asks, w.takes);
      assert asks[..|asks|] == asks;
    }
  }

  // The price paid

  /** Buying from levels priced between `low` and `high` costs between those prices for each share. */
  lemma {:induction false} AveragePrice(asks: seq<Level>, takes: seq<real>, low: real, high: real)
    requires Possible(asks, takes) && forall k :: 0 <= k < |takes| ==> low <= asks[k].price <= high
    ensures Cost(low, PlanShares(takes)) <= PlanCost(asks, takes) <= Cost(high, PlanShares(takes))
  {
    if takes != [] {
      var n := |takes| - 1;
      AveragePrice(asks, takes[..n], low, high);
      PriceMonotone(low, asks[n].price, takes[n]);
      PriceMonotone(asks[n].price, high, takes[n]);
      CostAdds(low, PlanShares(takes[..n]), takes[n]);
      CostAdds(high, PlanShares(takes[..n]), takes[n]);
      hide Cost;
    }
  }

  lemma PriceMonotone(p: real, q: real, quantity: real)
    requires p <= q && quantity >= 0.0
    ensures Cost(p, quantity) <= Cost(q, quantity)
  {
  }

  lemma CostAdds(price: real, x: real, y: real)
    ensures Cost(price, x + y) == Cost(price, x) + Cost(price, y)
  {
  }

  lemma PerShare(low: real, high: real, spent: real, shares: real)
    requires shares > 0.0 && Cost(low, shares) <= spent <= Cost(high, shares)
    ensures low <= spent / shares <= high
  {
  }

  /** The volume-weighted price lies between the best ask and the worst ask that the walk touched. */
  lemma VwapBetweenTouchedPrices(asks: seq<Level>, budget: real)
    requires Usable(asks, false) && asks != [] && budget > 0.0 && Walk(asks, budget, |asks|).shares > 0.0
    ensures var w := Walk(asks, budget, |asks|);
      0 < |w.takes| <= |asks| && asks[0].price <= w.spent / w.shares <= asks[|w.takes| - 1].price
  {
    WalkIsGreedy(asks, budget, |asks|);
    hide Walk, Cost, PlanCost, PlanShares;
    var w := Walk(asks, budget, |asks|);
    forall k | 0 <= k < |w.takes|
      ensures asks[0].price <= asks[k].price <= asks[|w.takes| - 1].price
    {
      assert k > 0 ==> InOrder(asks[0], asks[k], false);
      assert k < |w.takes| - 1 ==> InOrder(asks[k], asks[|w.takes| - 1], false);
    }
    AveragePrice(asks, w.takes, asks[0].price, asks[|w.takes| - 1].price);
    PerShare(asks[0].price, asks[|w.takes| - 1].price, w.spent, w.shares);
  }

  // No plan does better

  /** Up to the n-th level: what plan `t` costs more than `x`, less the last touched price for every share it
      gets more. */
  function Excess(asks: seq<Level>, t: seq<real>, x: seq<real>, last: real, n: nat): real
    requires n <= |t| <= |asks| && |x| <= |asks|
  {
    if n == 0 then 0.0
    else
      var taken := if n <= |x| then x[n - 1] else 0.0;
      Excess(asks, t, x, last, n - 1) + Cost(asks[n - 1].price - last, t[n - 1] - taken)
  }

  /** Every level before the last touched one is cheaper and taken whole; every later one is dearer and not
      taken: moving a share never saves money. */
  lemma {:induction false} ExcessNonNegative(asks: seq<Level>, t: seq<real>, x: seq<real>, last: real, n: nat)
    requires Usable(asks, false) && Possible(asks, t) && Possible(asks, x) && x != [] && n <= |t|
    requires last == asks[|x| - 1].price && forall k :: 0 <= k < |x| - 1 ==> x[k] == asks[k].quantity
    ensures Excess(asks, t, x, last, n) >= 0.0
  {
    if n > 0 {
      ExcessNonNegative(asks, t, x, last, n - 1);
      if n < |x| {
        assert InOrder(asks[n - 1], asks[|x| - 1], false);
        SameSign(last - asks[n - 1].price, x[n - 1] - t[n - 1]);
        assert Cost(asks[n - 1].price - last, t[n - 1] - x[n - 1]) == Cost(last - asks[n - 1].price, x[n - 1] - t[n - 1]);
      } else if n > |x| {
        assert InOrder(asks[|x| - 1], asks[n - 1], false);
        SameSign(asks[n - 1].price - last, t[n - 1]);
      }
    }
  }

  lemma SameSign(x: real, y: real)
    requires x >= 0.0 && y >= 0.0
    ensures Cost(x, y) >= 0.0
  {
  }

  lemma {:induction false} ExcessIs(asks: seq<Level>, t: seq<real>, x: seq<real>, last: real, n: nat)
    requires n <= |t| <= |asks| && |x| <= |asks|
    ensures var m := if n <= |x| then n else |x|;
      Excess(asks, t, x, last, n)
      == PlanCost(asks, t[..n]) - PlanCost(asks, x[..m]) - Cost(last, PlanShares(t[..n]) - PlanShares(x[..m]))
  {
    hide Cost;
    if n == 0 {
      CostAdds(last, 0.0, 0.0);
      assert Cost(last, 0.0) == 0.0;
    } else {
      ExcessIs(asks, t, x, last, n - 1);
      assert t[..n][..n - 1] == t[..n - 1];
      var taken := if n <= |x| then x[n - 1] else 0.0;
      if n <= |x| {
        assert x[..n][..n - 1] == x[..n - 1];
      }
      var m := if n - 1 <= |x| then n - 1 else |x|;
      SpreadCost(asks[n - 1].price, last, t[n - 1], taken, PlanShares(t[..n - 1]) - PlanShares(x[..m]));
    }
  }

  lemma SpreadCost(price: real, last: real, t: real, x: real, more: real)
    ensures Cost(price - last, t - x) == Cost(price, t) - Cost(price, x) - Cost(last, more + t - x) + Cost(last, more)
    ensures Cost(price, 0.0) == 0.0
  {
  }

  lemma {:induction false} PlanComparison(asks: seq<Level>, t: seq<real>, x: seq<real>)
    requires Usable(asks, false) && Possible(asks, t) && |t| == |asks| && Possible(asks, x) && x != []
    requires forall k :: 0 <= k < |x| - 1 ==> x[k] == asks[k].quantity
    ensures Cost(asks[|x| - 1].price, PlanShares(t) - PlanShares(x)) <= PlanCost(asks, t) - PlanCost(asks, x)
  {
    var last := asks[|x| - 1].price;
    ExcessNonNegative(asks, t, x, last, |t|);
    ExcessIs(asks, t, x, last, |t|);
    assert t[..|t|] == t && x[..|x|] == x;
  }

  /** Optimality: a plan from the same levels within the budget gets at most as many shares as the walk and
      what the unspent part of the budget buys at the last touched price, which the tolerance bounds; when
      depth is insufficient, no more shares at all. A plan that gets as many shares costs at least as much. */
  lemma WalkIsOptimal(asks: seq<Level>, budget: real, t: seq<real>)
    requires Usable(asks, false) && asks != [] && budget > 0.0
    requires Possible(asks, t) && |t| == |asks| && PlanCost(asks, t) <= budget
    ensures var w := Walk(asks, budget, |asks|);
      && 0 < |w.takes| <= |asks|
      && PlanShares(t) <= w.shares + (budget - w.spent) / asks[|w.takes| - 1].price
      && (Reached(w.spent, budget) ==> budget - w.spent <= 0.00000001)
      && (!Reached(w.spent, budget) ==> PlanShares(t) <= w.shares)
      && (PlanShares(t) >= w.shares ==> PlanCost(asks, t) >= w.spent)
  {
    hide Walk, PlanCost, PlanShares, Cost, Sorted;
    WalkIsGreedy(asks, budget, |asks|);
    var w := Walk(asks, budget, |asks|);
    PlanComparison(asks, t, w.takes);
    PerUnit(asks[|w.takes| - 1].price, PlanShares(t) - w.shares, budget - w.spent);
    if !Reached(w.spent, budget) {
      TakesAll(asks, t, w.takes);
    }
  }

  lemma PerUnit(price: real, shares: real, money: real)
    requires price > 0.0
    ensures Cost(price, shares) <= money ==> shares <= money / price
    ensures shares >= 0.0 ==> Cost(price, shares) >= 0.0
  {
  }

  lemma {:induction false} TakesAll(asks: seq<Level>, t: seq<real>, x: seq<real>)
    requires Possible(asks, t) && |x| == |t| <= |asks| && forall k :: 0 <= k < |x| ==> x[k] == asks[k].quantity
    ensures PlanShares(t) <= PlanShares(x)
  {
    if t != [] {
      TakesAll(asks, t[..|t| - 1], x[..|x| - 1]);
    }
  }
}
