/** What the experiment reports, told by its prices alone: which fills, at which prices, and what the account is worth. */
module StrategyLaws {
  import opened Core
  import opened Backtest
  import opened BacktestLaws

  // The rule

  /** prices[lo] + ... + prices[hi - 1] */
  function SumOf(prices: seq<real>, lo: nat, hi: nat): real
    requires lo <= hi <= |prices|
    decreases hi - lo
  {
    if lo == hi then 0.0 else prices[lo] + SumOf(prices, lo + 1, hi)
  }

  /** The close before `n` is above the average of the window that ends with it. */
  predicate Above(r: Request, n: nat)
    requires 2 <= r.window < n <= |r.prices|
  {
    r.prices[n - 1] * r.window as real > SumOf(r.prices, n - r.window, n)
  }

  predicate Below(r: Request, n: nat)
    requires 2 <= r.window < n <= |r.prices|
  {
    r.prices[n - 1] * r.window as real < SumOf(r.prices, n - r.window, n)
  }

  // The fills before a price

  /** The first k fills, and no others, come before index n. */
  predicate Splits(fills: seq<Fill>, k: nat, n: nat) {
    && k <= |fills|
    && (forall j :: 0 <= j < k ==> fills[j].index < n)
    && (forall j :: k <= j < |fills| ==> n <= fills[j].index)
  }

  predicate TradesAt(fills: seq<Fill>, k: nat, n: nat) {
    k < |fills| && fills[k].index == n
  }

  /** Purchases and sales take turns, the purchase first, at rising indices, and at the price moved against the order by
      the slippage. */
  predicate TakeTurns(r: Request, fills: seq<Fill>) {
    && (forall k :: 0 <= k < |fills| ==> fills[k].index < |r.prices| && (fills[k].side.Buy? <==> k % 2 == 0))
    && (forall j, k :: 0 <= j < k < |fills| ==> fills[j].index < fills[k].index)
    && (forall k :: 0 <= k < |fills| ==>
          fills[k].price == if fills[k].side.Buy? then r.prices[fills[k].index] * (1.0 + r.slippageBps / 10000.0)
                            else r.prices[fills[k].index] * (1.0 - r.slippageBps / 10000.0))
  }

  /** What the account was worth before index n. */
  function Before(r: Request, curve: seq<real>, n: nat): real
    requires n <= |curve|
  {
    if n == 0 then r.initialCash else curve[n - 1]
  }

  /** What happens at index n. In cash, after as many sales as purchases, there is a purchase exactly when the close
      before is above the average: it spends everything but its fee. Invested, there is a sale exactly when that close is
      below: it brings its proceeds less the fee. Otherwise cash stays and a holding follows the price. */
  ghost predicate RuleAt(r: Request, fills: seq<Fill>, curve: seq<real>, n: nat)
    requires Fields(r) && Priced(r.prices) && n < |r.prices| && n < |curve| && TakeTurns(r, fills)
  {
    var fee, worth := r.feeBps / 10000.0, Before(r, curve, n);
    forall k: nat :: Splits(fills, k, n) ==>
      if k % 2 == 0 then
        && (TradesAt(fills, k, n) <==> n > r.window && Above(r, n))
        && (TradesAt(fills, k, n) ==>
              var spent := worth / (1.0 + fee);
              PositivePrice(r, fills, k);
              fills[k].fee == spent * fee && curve[n] == spent / fills[k].price * r.prices[n])
        && (!TradesAt(fills, k, n) ==> curve[n] == worth)
      else
        && n > 0
        && (TradesAt(fills, k, n) <==> n > r.window && Below(r, n))
        && var held := worth / r.prices[n - 1];
        && (TradesAt(fills, k, n) ==>
              var proceeds := held * fills[k].price;
              fills[k].fee == proceeds * fee && curve[n] == proceeds - proceeds * fee)
        && (!TradesAt(fills, k, n) ==> curve[n] == held * r.prices[n])
  }

  lemma PositivePrice(r: Request, fills: seq<Fill>, k: nat)
    requires Fields(r) && Priced(r.prices) && TakeTurns(r, fills) && k < |fills| && fills[k].side.Buy?
    ensures fills[k].price > 0.0
  {
    var price, slip := r.prices[fills[k].index], r.slippageBps / 10000.0;
    assert price > 0.0 && slip >= 0.0;
    assert price * (1.0 + slip) >= price * 1.0;
  }

  function FeesOf(fills: seq<Fill>): real {
    if fills == [] then 0.0 else FeesOf(fills[..|fills| - 1]) + fills[|fills| - 1].fee
  }

  /** A report in the terms of its request: the fills and the curve follow the rule at every price, the fees are those of
      the fills, the baseline buys at the first price and never sells, and the drawdown is the largest fall. */
  ghost predicate FollowsRule(r: Request, report: Report)
    requires Ready(r)
  {
    && TakeTurns(r, report.fills) && |report.curve| == |r.prices|
    && (forall n :: 0 <= n < |r.prices| ==> RuleAt(r, report.fills, report.curve, n))
    && report.fees == FeesOf(report.fills) && report.finalEquity == report.curve[|r.prices| - 1]
    && HeldThroughout(r, report.baseline) && LargestFall([r.initialCash] + report.curve, report.drawdown)
  }

  /** What the initial cash is worth at the end if it buys at the first price and never sells. */
  predicate HeldThroughout(r: Request, baseline: real)
    requires Ready(r)
  {
    baseline * ((1.0 + r.feeBps / 10000.0) * (r.prices[0] * (1.0 + r.slippageBps / 10000.0)))
    == r.initialCash * r.prices[|r.prices| - 1]
  }

  ghost predicate LargestFall(points: seq<real>, drawdown: real) {
    (forall n :: 0 <= n < |points| ==> points[n] > 0.0) && IsMaxDrawdown(points, drawdown)
  }

  // The simulation follows the rule

  lemma {:induction false} TotalIsSum(prices: seq<real>, lo: nat, hi: nat)
    requires lo <= hi <= |prices|
    ensures Total(prices[lo..hi]) == SumOf(prices, lo, hi)
    decreases hi - lo
  {
    if lo < hi {
      TotalIsSum(prices, lo, hi - 1);
      assert prices[lo..hi][..hi - lo - 1] == prices[lo..hi - 1];
      SumSnoc(prices, lo, hi);
    }
  }

  lemma {:induction false} SumSnoc(prices: seq<real>, lo: nat, hi: nat)
    requires lo < hi <= |prices|
    ensures SumOf(prices, lo, hi) == SumOf(prices, lo, hi - 1) + prices[hi - 1]
    decreases hi - lo
  {
    if lo < hi - 1 {
      SumSnoc(prices, lo + 1, hi);
    }
  }

  lemma DivideCompare(x: real, sum: real, w: real)
    requires w > 0.0
    ensures x > sum / w <==> x * w > sum
    ensures x < sum / w <==> x * w < sum
  {
  }

  lemma SignalIs(r: Request, n: nat)
    requires Fields(r) && n < |r.prices|
    ensures SignalAt(r.prices, n, r.window).Enter? <==> n > r.window && Above(r, n)
    ensures SignalAt(r.prices, n, r.window).Leave? <==> n > r.window && Below(r, n)
  {
    if n > r.window {
      TotalIsSum(r.prices, n - r.window, n);
      DivideCompare(r.prices[n - 1], SumOf(r.prices, n - r.window, n), r.window as real);
      hide SumOf, Total;
    }
  }

  /** Only one number of fills splits them at an index that none of the first is beyond. */
  lemma SplitsAll(fills: seq<Fill>, k: nat, n: nat)
    requires Splits(fills, |fills|, n)
    ensures Splits(fills, k, n) <==> k == |fills|
  {
    assert k < |fills| ==> fills[k].index < n;
  }

  lemma SplitsLast(fills: seq<Fill>, f: Fill, k: nat, n: nat)
    requires Splits(fills, |fills|, n) && f.index == n
    ensures Splits(fills + [f], k, n) <==> k == |fills|
  {
    assert k < |fills| ==> fills[k].index < n;
    assert (fills + [f])[|fills|] == f;
    assert forall j :: 0 <= j < |fills| ==> (fills + [f])[j] == fills[j];
  }

  lemma SplitsLater(fills: seq<Fill>, f: Fill, k: nat, n: nat)
    requires f.index > n
    ensures Splits(fills + [f], k, n) && k <= |fills| ==> Splits(fills, k, n)
    ensures Splits(fills + [f], k, n) ==> k <= |fills|
    ensures TradesAt(fills + [f], k, n) && k <= |fills| <==> TradesAt(fills, k, n)
  {
    assert (fills + [f])[|fills|] == f;
    assert forall j :: 0 <= j < |fills| ==> (fills + [f])[j] == fills[j];
  }

  /** A fill at a later index and later points of the curve leave what was said of an earlier index as it is. */
  lemma RuleKept(r: Request, fills: seq<Fill>, f: Fill, curve: seq<real>, more: seq<real>, n: nat)
    requires Fields(r) && Priced(r.prices) && n < |r.prices| && n < |curve| && curve <= more
    requires TakeTurns(r, fills) && TakeTurns(r, fills + [f]) && f.index > n && RuleAt(r, fills, curve, n)
    ensures RuleAt(r, fills + [f], more, n)
  {
    assert Before(r, more, n) == Before(r, curve, n) && more[n] == curve[n];
    hide Above, Below, TakeTurns, Priced;
    forall k: nat | Splits(fills + [f], k, n)
      ensures Splits(fills, k, n) && (TradesAt(fills + [f], k, n) <==> TradesAt(fills, k, n))
      ensures TradesAt(fills, k, n) ==> (fills + [f])[k] == fills[k]
    {
      SplitsLater(fills, f, k, n);
    }
    hide Splits, TradesAt, Before;
  }

  lemma CurveKept(r: Request, fills: seq<Fill>, curve: seq<real>, more: seq<real>, n: nat)
    requires Fields(r) && Priced(r.prices) && n < |r.prices| && n < |curve| && curve <= more
    requires TakeTurns(r, fills) && RuleAt(r, fills, curve, n)
    ensures RuleAt(r, fills, more, n)
  {
    assert Before(r, more, n) == Before(r, curve, n) && more[n] == curve[n];
    hide Above, Below, Splits, TradesAt, TakeTurns, Priced, Before;
  }

  /** Where the account stands after n prices: in cash after an even number of fills, else invested. */
  ghost predicate StandsAt(r: Request, a: Account, n: nat)
    requires Fields(r) && Priced(r.prices) && n <= |r.prices|
  {
    && |a.curve| == n && TakeTurns(r, a.fills) && Splits(a.fills, |a.fills|, n)
    && (|a.fills| % 2 == 0 ==> a.quantity == 0.0 && a.cash == Before(r, a.curve, n))
    && (|a.fills| % 2 == 1 ==> n > 0 && a.cash == 0.0 && a.quantity == Before(r, a.curve, n) / r.prices[n - 1])
    && a.fees == FeesOf(a.fills)
  }

  lemma FeesSnoc(fills: seq<Fill>, f: Fill)
    ensures FeesOf(fills + [f]) == FeesOf(fills) + f.fee
  {
  }

  // One more price

  /** The fill that the account makes at index n, if any. */
  lemma TradeFills(r: Request, a: Account, n: nat)
    requires Fields(r) && Priced(r.prices) && n < |r.prices| && StandsAt(r, a, n)
    requires |a.fills| % 2 == 1 ==> a.quantity > 0.0
    ensures var signal := SignalAt(r.prices, n, r.window);
      var b := Trade(a, signal, n, r.prices[n], Fee(r), Slip(r));
      var even := |a.fills| % 2 == 0;
      var trades := n > r.window && if even then Above(r, n) else Below(r, n);
      && b.curve == a.curve && b.peak == a.peak
      && (!trades ==> b == a)
      && (trades ==>
            && |b.fills| == |a.fills| + 1 && b.fills[..|a.fills|] == a.fills && b.fills[|a.fills|].index == n
            && b.fees == a.fees + b.fills[|a.fills|].fee)
      && (trades && even ==>
            && b.cash == 0.0 && b.fills[|a.fills|] == Fill(n, Buy, BuyPrice(r.prices[n], Slip(r)), Charge(Spendable(a.cash, Fee(r)), Fee(r)))
            && BuyPrice(r.prices[n], Slip(r)) > 0.0
            && b.quantity == Units(Spendable(a.cash, Fee(r)), BuyPrice(r.prices[n], Slip(r))))
      && (trades && !even ==>
            var sale := Value(a.quantity, SellPrice(r.prices[n], Slip(r)));
            && b.quantity == 0.0 && b.fills[|a.fills|] == Fill(n, Sell, SellPrice(r.prices[n], Slip(r)), Charge(sale, Fee(r)))
            && b.cash == sale - Charge(sale, Fee(r)))
  {
    SignalIs(r, n);
    BuyPricePositive(r.prices[n], Slip(r));
    hide SignalAt, Above, Below, TakeTurns, Splits, BuyPrice, SellPrice, Spendable, Units, Value, Charge, FeesOf, Before;
  }

  lemma TurnsKept(r: Request, fills: seq<Fill>, f: Fill, n: nat)
    requires Fields(r) && Priced(r.prices) && n < |r.prices| && TakeTurns(r, fills) && Splits(fills, |fills|, n)
    requires f.index == n && (f.side.Buy? <==> |fills| % 2 == 0)
    requires f.price == if f.side.Buy? then BuyPrice(r.prices[n], Slip(r)) else SellPrice(r.prices[n], Slip(r))
    ensures TakeTurns(r, fills + [f]) && Splits(fills + [f], |fills| + 1, n + 1)
  {
    var more := fills + [f];
    assert more[|fills|] == f && forall k :: 0 <= k < |fills| ==> more[k] == fills[k];
    var bought, sold := BuyPrice(r.prices[n], Slip(r)), SellPrice(r.prices[n], Slip(r));
    assert bought == r.prices[n] * (1.0 + r.slippageBps / 10000.0) && sold == r.prices[n] * (1.0 - r.slippageBps / 10000.0);
    hide BuyPrice, SellPrice, Priced, Fields;
  }

  lemma HoldingFollows(held: real, price: real)
    requires price > 0.0
    ensures Value(held, price) / price == held
  {
  }

  /** No order at index n: cash stays, or the holding is worth what the price says. */
  lemma Quiet(r: Request, a: Account, b: Account, n: nat)
    requires Fields(r) && Priced(r.prices) && n < |r.prices| && StandsAt(r, a, n)
    requires !(n > r.window && if |a.fills| % 2 == 0 then Above(r, n) else Below(r, n))
    requires b.fills == a.fills && b.fees == a.fees && b.cash == a.cash && b.quantity == a.quantity
    requires b.curve == a.curve + [a.cash + Value(a.quantity, r.prices[n])]
    requires Value(a.quantity, r.prices[n]) / r.prices[n] == a.quantity
    ensures StandsAt(r, b, n + 1) && RuleAt(r, b.fills, b.curve, n)
  {
    hide Above, Below, TakeTurns, Splits, FeesOf, Priced;
    assert Splits(b.fills, |b.fills|, n + 1) by { SplitsNext(a.fills, n); }
    assert Value(0.0, r.prices[n]) == 0.0;
    forall k: nat ensures Splits(b.fills, k, n) <==> k == |b.fills| {
      SplitsAll(b.fills, k, n);
    }
    assert Before(r, b.curve, n) == Before(r, a.curve, n);
    assert r.prices[n] > 0.0 by { PriceAt(r, n); }
    assert !TradesAt(b.fills, |b.fills|, n);
  }

  lemma PriceAt(r: Request, n: nat)
    requires Priced(r.prices) && n < |r.prices|
    ensures r.prices[n] > 0.0
  {
  }

  lemma SplitsNext(fills: seq<Fill>, n: nat)
    requires Splits(fills, |fills|, n)
    ensures Splits(fills, |fills|, n + 1)
  {
  }

  /** An order at index n. */
  lemma Traded(r: Request, a: Account, b: Account, f: Fill, n: nat)
    requires Fields(r) && Priced(r.prices) && n < |r.prices| && StandsAt(r, a, n)
    requires n > r.window && if |a.fills| % 2 == 0 then Above(r, n) else Below(r, n)
    requires b.fills == a.fills + [f] && f.index == n && TakeTurns(r, b.fills) && Splits(b.fills, |b.fills|, n + 1)
    requires b.fees == FeesOf(b.fills) && b.curve == a.curve + [b.cash + Value(b.quantity, r.prices[n])]
    requires Value(b.quantity, r.prices[n]) / r.prices[n] == b.quantity
    requires |a.fills| % 2 == 0 ==>
      && b.cash == 0.0 && f.side.Buy? && f.price > 0.0 && f.fee == Charge(Spendable(a.cash, Fee(r)), Fee(r))
      && b.quantity == Units(Spendable(a.cash, Fee(r)), f.price)
    requires |a.fills| % 2 == 1 ==>
      && b.quantity == 0.0 && f.fee == Charge(Value(a.quantity, f.price), Fee(r))
      && b.cash == Value(a.quantity, f.price) - Charge(Value(a.quantity, f.price), Fee(r))
    ensures StandsAt(r, b, n + 1) && RuleAt(r, b.fills, b.curve, n)
  {
    hide Above, Below, TakeTurns, FeesOf, Priced;
    assert Value(0.0, r.prices[n]) == 0.0;
    forall k: nat ensures Splits(b.fills, k, n) <==> k == |a.fills| {
      SplitsLast(a.fills, f, k, n);
    }
    hide Splits;
    assert Before(r, b.curve, n) == Before(r, a.curve, n);
    assert TradesAt(b.fills, |a.fills|, n) && b.fills[|a.fills|] == f;
    assert r.prices[n] > 0.0 by { PriceAt(r, n); }
  }

  /** The account after the price at index n stands where the rule says, and the rule holds at n. */
  lemma RuleNext(r: Request, a: Account, n: nat)
    requires Fields(r) && Priced(r.prices) && n < |r.prices| && StandsAt(r, a, n) && a.peak > 0.0
    requires |a.fills| % 2 == 1 ==> a.quantity > 0.0
    ensures var b := Marked(Trade(a, SignalAt(r.prices, n, r.window), n, r.prices[n], Fee(r), Slip(r)), r.prices[n]);
      && StandsAt(r, b, n + 1) && RuleAt(r, b.fills, b.curve, n)
      && a.curve <= b.curve && (b.fills == a.fills || exists f :: b.fills == a.fills + [f] && f.index == n)
  {
    hide Trade, SignalAt, Above, Below, RuleAt, TakeTurns, Splits, Before, FeesOf, BuyPrice, SellPrice, Spendable, Units, Value,
      Charge;
    TradeFills(r, a, n);
    var c := Trade(a, SignalAt(r.prices, n, r.window), n, r.prices[n], Fee(r), Slip(r));
    var b := Marked(c, r.prices[n]);
    HoldingFollows(c.quantity, r.prices[n]);
    if c == a {
      Quiet(r, a, b, n);
    } else {
      var f := c.fills[|a.fills|];
      assert c.fills == a.fills + [f];
      TurnsKept(r, a.fills, f, n);
      FeesSnoc(a.fills, f);
      Traded(r, a, b, f, n);
    }
  }

  /** The simulation follows the rule at every price so far. */
  lemma {:induction false} SimulationFollows(r: Request, n: nat)
    requires Fields(r) && Priced(r.prices) && n <= |r.prices|
    ensures var a := Simulate(r, n);
      StandsAt(r, a, n) && forall m :: 0 <= m < n ==> RuleAt(r, a.fills, a.curve, m)
  {
    hide Trade, SignalAt, RuleAt, Marked, StandsAt, Whole, TakeTurns, FeesOf, Splits;
    if n == 0 {
      StandsAtStart(r);
    } else {
      SimulationFollows(r, n - 1);
      AlwaysWhole(r, n - 1);
      var a, b := Simulate(r, n - 1), Simulate(r, n);
      hide Simulate;
      InvestedHolds(r, a, n - 1);
      RuleNext(r, a, n - 1);
      StandsFacts(r, a, n - 1);
      StandsFacts(r, b, n);
      forall m | 0 <= m < n - 1 ensures RuleAt(r, b.fills, b.curve, m) {
        RuleStays(r, a, b, n - 1, m);
      }
    }
  }

  lemma StandsAtStart(r: Request)
    requires Fields(r) && Priced(r.prices)
    ensures StandsAt(r, Simulate(r, 0), 0)
  {
  }

  lemma RuleStays(r: Request, a: Account, b: Account, n: nat, m: nat)
    requires Fields(r) && Priced(r.prices) && m < n < |r.prices| && |a.curve| == n && a.curve <= b.curve
    requires TakeTurns(r, a.fills) && TakeTurns(r, b.fills) && RuleAt(r, a.fills, a.curve, m)
    requires b.fills == a.fills || exists f :: b.fills == a.fills + [f] && f.index == n
    ensures RuleAt(r, b.fills, b.curve, m)
  {
    hide RuleAt, TakeTurns;
    if b.fills == a.fills {
      CurveKept(r, a.fills, a.curve, b.curve, m);
    } else {
      var f :| b.fills == a.fills + [f] && f.index == n;
      RuleKept(r, a.fills, f, a.curve, b.curve, m);
    }
  }

  lemma StandsFacts(r: Request, a: Account, n: nat)
    requires Fields(r) && Priced(r.prices) && n <= |r.prices| && StandsAt(r, a, n)
    ensures TakeTurns(r, a.fills) && |a.curve| == n && a.fees == FeesOf(a.fills)
  {
  }

  lemma InvestedHolds(r: Request, a: Account, n: nat)
    requires Fields(r) && Priced(r.prices) && n <= |r.prices| && StandsAt(r, a, n) && Whole(a)
    ensures |a.fills| % 2 == 1 ==> a.quantity > 0.0
  {
  }

  lemma BaselineIs(r: Request)
    requires Ready(r)
    ensures HeldThroughout(r, HoldFromStart(r))
  {
    BuyPricePositive(r.prices[0], Slip(r));
    Cancels(r.initialCash, 1.0 + r.feeBps / 10000.0, BuyPrice(r.prices[0], Slip(r)), r.prices[|r.prices| - 1]);
  }

  lemma Cancels(cash: real, a: real, b: real, price: real)
    requires a > 0.0 && b > 0.0
    ensures (cash / a / b * price) * (a * b) == cash * price
  {
    assert cash / a / b * b == cash / a;
    assert cash / a * a == cash;
    assert (cash / a / b * price) * (a * b) == (cash / a / b * b) * a * price;
  }

  /** The whole experiment follows the rule. */
  lemma ExperimentFollowsRule(r: Request, report: Report)
    requires Ready(r) && report == ReportOf(r)
    ensures FollowsRule(r, report)
  {
    hide RuleAt, Simulate, HoldFromStart, HeldThroughout, LargestFall, StandsAt, TakeTurns, FeesOf;
    SimulationFollows(r, |r.prices|);
    StandsFacts(r, Simulate(r, |r.prices|), |r.prices|);
    BaselineIs(r);
    CurveFalls(r);
  }

  lemma CurveFalls(r: Request)
    requires Ready(r)
    ensures LargestFall([r.initialCash] + Simulate(r, |r.prices|).curve, Simulate(r, |r.prices|).drawdown)
  {
    hide Simulate, IsMaxDrawdown;
    DrawdownIsMaxFall(r, |r.prices|);
  }
}
