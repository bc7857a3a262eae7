/** The experiment of the sandbox service: its loop over the prices. */
module Sandbox {
  import opened Core
  import opened Backtest
  import opened BacktestLaws
  import opened StrategyLaws

  method Sum(prices: seq<real>) returns (sum: real)
    ensures sum == Total(prices)
  {
    sum := 0.0;
    for n := 0 to |prices|
      invariant sum == Total(prices[..n])
    {
      assert prices[..n + 1][..n] == prices[..n];
      sum := sum + prices[n];
    }
    assert prices[..|prices|] == prices;
  }

  method Experiment(r: Request) returns (report: Result<Report, Refusal>)
    ensures report == Err(InvalidField) <==>
      || |r.prices| > 10000 || r.initialCash <= 0.0 || r.initialCash > 1000000.0 || r.feeBps < 0.0 || r.feeBps > 1000.0
      || r.slippageBps < 0.0 || r.slippageBps > 1000.0 || r.window < 2 || r.window > 500
    ensures report == Err(InvalidPrices) ==> |r.prices| < r.window + 2 || exists n :: 0 <= n < |r.prices| && r.prices[n] <= 0.0
    ensures report.Ok? ==> Ready(r) && |r.prices| >= r.window + 2 && forall n :: 0 <= n < |r.prices| ==> r.prices[n] > 0.0
    ensures report.Ok? ==> report.value == ReportOf(r) && FollowsRule(r, report.value)
  {
    if !(|r.prices| <= 10000 && 0.0 < r.initialCash <= 1000000.0 && 0.0 <= r.feeBps <= 1000.0
         && 0.0 <= r.slippageBps <= 1000.0 && 2 <= r.window <= 500) {
      return Err(InvalidField);
    }
    if |r.prices| < r.window + 2 || exists n :: 0 <= n < |r.prices| && r.prices[n] <= 0.0 {
      return Err(InvalidPrices);
    }
    hide Simulate, BuyPrice, Spendable, Units, Value, FollowsRule;
    var a, equity := Trial(r);
    BuyPricePositive(r.prices[0], r.slippageBps / 10000.0);
    var baseline := HoldFromStart(r);
    ExperimentFollowsRule(r, ReportOf(r));
    return Ok(Report(equity, a.drawdown, a.fees, baseline, a.fills, a.curve));
  }

  /** The loop over the prices. */
  method Trial(r: Request) returns (a: Account, equity: real)
    requires Ready(r)
    ensures a == Simulate(r, |r.prices|) && |a.curve| == |r.prices| && equity == a.curve[|r.prices| - 1]
  {
    hide Average, Total, BuyPrice, SellPrice, Spendable, Units, Value, Charge, Trade, Marked;
    var cash, quantity, peak, drawdown, fees := r.initialCash, 0.0, r.initialCash, 0.0, 0.0;
    var curve: seq<real>, fills: seq<Fill> := [], [];
    var fee, slip := r.feeBps / 10000.0, r.slippageBps / 10000.0;
    equity := 0.0;
    for index := 0 to |r.prices|
      invariant Account(cash, quantity, peak, drawdown, fees, curve, fills) == Simulate(r, index)
      invariant |curve| == index && (index > 0 ==> equity == curve[index - 1])
    {
      ghost var before := Simulate(r, index);
      var price := r.prices[index];
      var signal := Stay;
      if index > r.window {
        var previous := r.prices[index - 1];
        var sum := Sum(r.prices[index - r.window..index]);
        var average := sum / r.window as real;
        AverageIs(r.prices, index, r.window);
        signal := if previous > average then Enter else if previous < average then Leave else Stay;
      }
      assert signal == SignalAt(r.prices, index, r.window);
      cash, quantity, fees, fills := Order(cash, quantity, fees, fills, signal, index, price, fee, slip, before);
      MarkedIs(Account(cash, quantity, peak, drawdown, fees, curve, fills), price);
      equity := cash + Value(quantity, price);
      peak := Max(peak, equity);
      drawdown := Max(drawdown, 1.0 - equity / peak);
      curve := curve + [equity];
    }
    return Account(cash, quantity, peak, drawdown, fees, curve, fills), equity;
  }

  lemma MarkedIs(a: Account, price: real)
    requires a.peak > 0.0
    ensures var equity := a.cash + Value(a.quantity, price);
      var peak := Max(a.peak, equity);
      Marked(a, price) == a.(peak := peak, drawdown := Max(a.drawdown, 1.0 - equity / peak), curve := a.curve + [equity])
  {
  }

  /** The two orders of the strategy: all the cash into the asset, or the whole position into cash. */
  method Order(
    cash0: real, quantity0: real, fees0: real, fills0: seq<Fill>, signal: Signal, index: nat, price: real, fee: real,
    slip: real, ghost a: Account)
    returns (cash: real, quantity: real, fees: real, fills: seq<Fill>)
    requires fee >= 0.0 && slip >= 0.0 && price > 0.0
    requires a.cash == cash0 && a.quantity == quantity0 && a.fees == fees0 && a.fills == fills0
    ensures Trade(a, signal, index, price, fee, slip) == a.(cash := cash, quantity := quantity, fees := fees, fills := fills)
  {
    hide BuyPrice, SellPrice, Spendable, Units, Value, Charge;
    cash, quantity, fees, fills := cash0, quantity0, fees0, fills0;
    if signal.Enter? && quantity == 0.0 {
      var fill := BuyPrice(price, slip);
      BuyPricePositive(price, slip);
      var notional := Spendable(cash, fee);
      var paid := Charge(notional, fee);
      quantity, cash := Units(notional, fill), 0.0;
      fees := fees + paid;
      fills := fills + [Fill(index, Buy, fill, paid)];
    } else if signal.Leave? && quantity > 0.0 {
      var fill := SellPrice(price, slip);
      var paid := Charge(Value(quantity, fill), fee);
      cash, quantity := Value(quantity, fill) - paid, 0.0;
      fees := fees + paid;
      fills := fills + [Fill(index, Sell, fill, paid)];
    }
  }
}
