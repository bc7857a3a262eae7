/** The moving-average experiment, as values: what its loop computes. */
module Backtest {
  import opened Core

  datatype Request = Request(prices: seq<real>, initialCash: real, feeBps: real, slippageBps: real, window: int)

  datatype Side = Buy | Sell

  datatype Fill = Fill(index: nat, side: Side, price: real, fee: real)

  datatype Account = Account(
    cash: real, quantity: real, peak: real, drawdown: real, fees: real, curve: seq<real>, fills: seq<Fill>)

  datatype Report = Report(finalEquity: real, drawdown: real, fees: real, baseline: real, fills: seq<Fill>, curve: seq<real>)

  datatype Refusal = InvalidField | InvalidPrices

  function Fee(r: Request): real { r.feeBps / 10000.0 }

  function Slip(r: Request): real { r.slippageBps / 10000.0 }

  /** The bounds of the request's fields. */
  predicate Fields(r: Request) {
    && |r.prices| <= 10000 && 0.0 < r.initialCash <= 1000000.0
    && 0.0 <= r.feeBps <= 1000.0 && 0.0 <= r.slippageBps <= 1000.0 && 2 <= r.window <= 500
  }

  predicate Priced(prices: seq<real>) {
    forall n :: 0 <= n < |prices| ==> prices[n] > 0.0
  }

  predicate Ready(r: Request) {
    Fields(r) && r.window + 2 <= |r.prices| && Priced(r.prices)
  }

  function Total(prices: seq<real>): real {
    if prices == [] then 0.0 else Total(prices[..|prices| - 1]) + prices[|prices| - 1]
  }

  function Average(prices: seq<real>, index: nat, window: int): real
    requires 2 <= window <= index <= |prices|
  {
    Total(prices[index - window..index]) / window as real
  }

  lemma AverageIs(prices: seq<real>, index: nat, window: int)
    requires 2 <= window <= index <= |prices|
    ensures Average(prices, index, window) == Total(prices[index - window..index]) / window as real
  {
  }

  /** What the close before `index` asks for: it is acted on at `index`. */
  datatype Signal = Enter | Leave | Stay

  function SignalAt(prices: seq<real>, index: nat, window: int): Signal
    requires 2 <= window && index <= |prices|
  {
    if index <= window then Stay
    else if prices[index - 1] > Average(prices, index, window) then Enter
    else if prices[index - 1] < Average(prices, index, window) then Leave
    else Stay
  }

  function Start(initialCash: real): Account {
    Account(initialCash, 0.0, initialCash, 0.0, 0.0, [], [])
  }

  // The arithmetic of one order

  function BuyPrice(price: real, slip: real): real { price * (1.0 + slip) }

  function SellPrice(price: real, slip: real): real { price * (1.0 - slip) }

  /** The part of the cash that is left for the purchase once its fee is set aside. */
  function Spendable(cash: real, fee: real): real
    requires fee >= 0.0
  {
    cash / (1.0 + fee)
  }

  function Units(amount: real, price: real): real
    requires price > 0.0
  {
    amount / price
  }

  function Value(quantity: real, price: real): real { quantity * price }

  function Charge(amount: real, fee: real): real { amount * fee }

  lemma BuyPricePositive(price: real, slip: real)
    requires price > 0.0 && slip >= 0.0
    ensures BuyPrice(price, slip) > 0.0
  {
  }

  /** The order, if any, that the signal leads to. */
  function Trade(a: Account, signal: Signal, index: nat, price: real, fee: real, slip: real): Account
    requires fee >= 0.0 && slip >= 0.0 && price > 0.0
  {
    if signal.Enter? && a.quantity == 0.0 then
      var fill, notional := BuyPrice(price, slip), Spendable(a.cash, fee);
      BuyPricePositive(price, slip);
      a.(quantity := Units(notional, fill), cash := 0.0, fees := a.fees + Charge(notional, fee),
         fills := a.fills + [Fill(index, Buy, fill, Charge(notional, fee))])
    else if signal.Leave? && a.quantity > 0.0 then
      var fill := SellPrice(price, slip);
      var paid := Charge(Value(a.quantity, fill), fee);
      a.(cash := Value(a.quantity, fill) - paid, quantity := 0.0, fees := a.fees + paid,
         fills := a.fills + [Fill(index, Sell, fill, paid)])
    else a
  }

  function Equity(a: Account, price: real): real {
    a.cash + Value(a.quantity, price)
  }

  function Marked(a: Account, price: real): Account
    requires a.peak > 0.0
  {
    var equity := Equity(a, price);
    var peak := Max(a.peak, equity);
    a.(peak := peak, drawdown := Max(a.drawdown, 1.0 - equity / peak), curve := a.curve + [equity])
  }

  /** The account after the first n prices. */
  function Simulate(r: Request, n: nat): (a: Account)
    requires Fields(r) && Priced(r.prices) && n <= |r.prices|
    ensures a.peak > 0.0 && |a.curve| == n
  {
    if n == 0 then Start(r.initialCash)
    else
      var signal := SignalAt(r.prices, n - 1, r.window);
      Marked(Trade(Simulate(r, n - 1), signal, n - 1, r.prices[n - 1], Fee(r), Slip(r)), r.prices[n - 1])
  }

  /** The final equity of buying at the first price and never selling. */
  function HoldFromStart(r: Request): real
    requires Ready(r)
  {
    BuyPricePositive(r.prices[0], Slip(r));
    Value(Units(Spendable(r.initialCash, Fee(r)), BuyPrice(r.prices[0], Slip(r))), r.prices[|r.prices| - 1])
  }

  /** What the experiment reports: the account after the last price, and the baseline. */
  function ReportOf(r: Request): Report
    requires Ready(r)
  {
    var a := Simulate(r, |r.prices|);
    Report(a.curve[|r.prices| - 1], a.drawdown, a.fees, HoldFromStart(r), a.fills, a.curve)
  }
}
