/** How the results of the moving-average experiment relate to each other. */
module BacktestLaws {
  import opened Core
  import opened Backtest

  // All in cash or all invested

  predicate Whole(a: Account) {
    (a.quantity == 0.0 && a.cash > 0.0) || (a.quantity > 0.0 && a.cash == 0.0)
  }

  lemma TradeWhole(a: Account, signal: Signal, index: nat, price: real, fee: real, slip: real)
    requires Whole(a) && 0.0 <= fee <= 0.1 && 0.0 <= slip <= 0.1 && price > 0.0
    ensures Whole(Trade(a, signal, index, price, fee, slip))
  {
    hide BuyPrice, SellPrice, Spendable, Units, Value, Charge;
    BuyPricePositive(price, slip);
    if signal.Leave? && a.quantity > 0.0 {
      SaleBrings(a.quantity, price, fee, slip);
    } else if signal.Enter? && a.quantity == 0.0 {
      PurchaseBrings(a.cash, price, fee, slip);
    }
  }

  lemma SaleBrings(quantity: real, price: real, fee: real, slip: real)
    requires quantity > 0.0 && price > 0.0 && 0.0 <= fee <= 0.1 && 0.0 <= slip <= 0.1
    ensures SellPrice(price, slip) > 0.0
    ensures var sale := Value(quantity, SellPrice(price, slip)); 0.0 < sale - Charge(sale, fee)
  {
  }

  lemma PurchaseBrings(cash: real, price: real, fee: real, slip: real)
    requires cash > 0.0 && price > 0.0 && fee >= 0.0 && slip >= 0.0 && BuyPrice(price, slip) > 0.0
    ensures Spendable(cash, fee) > 0.0 && Units(Spendable(cash, fee), BuyPrice(price, slip)) > 0.0
  {
  }

  lemma EquityPositive(a: Account, price: real)
    requires Whole(a) && price > 0.0
    ensures Equity(a, price) > 0.0
  {
  }

  /** The account is always wholly in cash or wholly invested, and its equity is positive. */
  lemma {:induction false} AlwaysWhole(r: Request, n: nat)
    requires Fields(r) && Priced(r.prices) && n <= |r.prices|
    ensures var a := Simulate(r, n);
      Whole(a) && |a.curve| == n && forall k :: 0 <= k < n ==> a.curve[k] > 0.0
  {
    hide Trade, SignalAt, Whole, Equity;
    if n == 0 {
      StartWhole(r.initialCash);
    } else {
      AlwaysWhole(r, n - 1);
      var b := Simulate(r, n - 1);
      var signal := SignalAt(r.prices, n - 1, r.window);
      var a := Trade(b, signal, n - 1, r.prices[n - 1], Fee(r), Slip(r));
      TradeWhole(b, signal, n - 1, r.prices[n - 1], Fee(r), Slip(r));
      TradeFrame(b, signal, n - 1, r.prices[n - 1], Fee(r), Slip(r));
      MarkedWhole(a, r.prices[n - 1]);
      EquityPositive(a, r.prices[n - 1]);
    }
  }

  lemma StartWhole(initialCash: real)
    requires initialCash > 0.0
    ensures Whole(Start(initialCash))
  {
  }

  lemma TradeFrame(a: Account, signal: Signal, index: nat, price: real, fee: real, slip: real)
    requires fee >= 0.0 && slip >= 0.0 && price > 0.0
    ensures var b := Trade(a, signal, index, price, fee, slip);
      b.curve == a.curve && b.peak == a.peak && b.drawdown == a.drawdown
  {
  }

  lemma MarkedWhole(a: Account, price: real)
    requires Whole(a) && a.peak > 0.0
    ensures Whole(Marked(a, price))
  {
  }

  // Prefixes

  lemma SameSignal(prices: seq<real>, others: seq<real>, index: nat, window: int)
    requires 2 <= window && index <= |prices| && index <= |others| && prices[..index] == others[..index]
    ensures SignalAt(prices, index, window) == SignalAt(others, index, window)
  {
  }

  /** No price after the n-th matters to the account after n prices. */
  lemma {:induction false} NoLookAhead(r: Request, q: Request, n: nat)
    requires Fields(r) && Priced(r.prices) && Fields(q) && Priced(q.prices) && n <= |r.prices| && n <= |q.prices|
    requires q == r.(prices := q.prices) && r.prices[..n] == q.prices[..n]
    ensures Simulate(q, n) == Simulate(r, n)
  {
    hide Trade, Marked, SignalAt, Average;
    if n > 0 {
      assert forall k :: 0 <= k < n ==> r.prices[k] == r.prices[..n][k] == q.prices[k];
      assert r.prices[..n - 1] == q.prices[..n - 1];
      NoLookAhead(r, q, n - 1);
      SameSignal(r.prices, q.prices, n - 1, r.window);
    }
  }

  /** The first m points and exactly the fills before index m. */
  predicate UpTo(part: Account, whole: Account, m: nat) {
    && part.curve <= whole.curve && |part.curve| == m && part.fills <= whole.fills
    && (forall k :: 0 <= k < |part.fills| ==> part.fills[k].index < m)
    && (forall k :: |part.fills| <= k < |whole.fills| ==> m <= whole.fills[k].index)
  }

  /** One price adds one point to the curve, and at most one fill, at that price's index. */
  lemma StepAdds(a: Account, b: Account, signal: Signal, index: nat, price: real, fee: real, slip: real)
    requires fee >= 0.0 && slip >= 0.0 && price > 0.0 && a.peak > 0.0
    requires b == Marked(Trade(a, signal, index, price, fee, slip), price)
    ensures |b.curve| == |a.curve| + 1 && a.curve <= b.curve && a.fills <= b.fills && |b.fills| <= |a.fills| + 1
    ensures |b.fills| == |a.fills| + 1 ==> b.fills[|a.fills|].index == index
  {
  }

  lemma {:induction false} SimulationGrows(r: Request, m: nat, n: nat)
    requires Fields(r) && Priced(r.prices) && m <= n <= |r.prices|
    ensures UpTo(Simulate(r, m), Simulate(r, n), m)
    decreases n
  {
    hide Trade, Marked, SignalAt;
    if n > 0 {
      var a, b := Simulate(r, n - 1), Simulate(r, n);
      StepAdds(a, b, SignalAt(r.prices, n - 1, r.window), n - 1, r.prices[n - 1], Fee(r), Slip(r));
      if m < n {
        SimulationGrows(r, m, n - 1);
      } else {
        SimulationGrows(r, n - 1, n - 1);
      }
    }
  }

  /** The experiment on a prefix of the prices gives exactly the prefix of the fills and of the equity curve. */
  lemma PrefixOfPrices(r: Request, m: nat)
    requires Ready(r) && r.window + 2 <= m <= |r.prices|
    ensures var q := r.(prices := r.prices[..m]);
      Ready(q) && UpTo(Simulate(q, m), Simulate(r, |r.prices|), m)
  {
    var q := r.(prices := r.prices[..m]);
    assert r.prices[..m] == q.prices[..m];
    hide Simulate, UpTo;
    NoLookAhead(r, q, m);
    SimulationGrows(r, m, |r.prices|);
  }

  // Costs

  predicate SameCalls(a: seq<Fill>, b: seq<Fill>) {
    |a| == |b| && forall k :: 0 <= k < |a| ==> a[k].index == b[k].index && a[k].side == b[k].side
  }

  /** The second account made the same calls and is never richer. */
  predicate NoRicher(a: Account, b: Account) {
    && SameCalls(a.fills, b.fills)
    && b.cash <= a.cash && b.quantity <= a.quantity && (a.quantity == 0.0 <==> b.quantity == 0.0)
    && |a.curve| == |b.curve| && forall k :: 0 <= k < |a.curve| ==> b.curve[k] <= a.curve[k]
  }

  lemma ProductMonotone(x: real, y: real, u: real, v: real)
    requires 0.0 <= x <= u && 0.0 <= y <= v
    ensures x * y <= u * v
  {
  }

  lemma QuotientMonotone(x: real, u: real, d: real, e: real)
    requires 0.0 <= x <= u && 0.0 < e <= d
    ensures 0.0 <= x / d <= u / e
  {
  }

  lemma SaleNoRicher(p: real, q: real, price: real, fee: real, slip: real, fee1: real, slip1: real)
    requires 0.0 <= q <= p && price > 0.0 && 0.0 <= fee <= fee1 <= 0.1 && 0.0 <= slip <= slip1 <= 0.1
    ensures var sale, sale1 := Value(p, SellPrice(price, slip)), Value(q, SellPrice(price, slip1));
      sale1 - Charge(sale1, fee1) <= sale - Charge(sale, fee)
  {
    ProductMonotone(price, 1.0 - slip1, price, 1.0 - slip);
    ProductMonotone(q, price * (1.0 - slip1), p, price * (1.0 - slip));
    var sale, sale1 := p * (price * (1.0 - slip)), q * (price * (1.0 - slip1));
    ProductMonotone(sale1, 1.0 - fee1, sale, 1.0 - fee);
    assert sale - sale * fee == sale * (1.0 - fee) && sale1 - sale1 * fee1 == sale1 * (1.0 - fee1);
  }

  lemma PurchaseNoRicher(c: real, d: real, price: real, fee: real, slip: real, fee1: real, slip1: real)
    requires 0.0 <= d <= c && price > 0.0 && 0.0 <= fee <= fee1 <= 0.1 && 0.0 <= slip <= slip1 <= 0.1
    requires BuyPrice(price, slip) > 0.0 && BuyPrice(price, slip1) > 0.0
    ensures Units(Spendable(d, fee1), BuyPrice(price, slip1)) <= Units(Spendable(c, fee), BuyPrice(price, slip))
  {
    QuotientMonotone(d, c, 1.0 + fee1, 1.0 + fee);
    ProductMonotone(price, 1.0 + slip, price, 1.0 + slip1);
    QuotientMonotone(d / (1.0 + fee1), c / (1.0 + fee), price * (1.0 + slip1), price * (1.0 + slip));
  }

  lemma TradeNoRicher(a: Account, b: Account, signal: Signal, index: nat, price: real,
                      fee: real, slip: real, fee1: real, slip1: real)
    requires NoRicher(a, b) && Whole(a) && Whole(b) && price > 0.0
    requires 0.0 <= fee <= fee1 <= 0.1 && 0.0 <= slip <= slip1 <= 0.1
    ensures NoRicher(Trade(a, signal, index, price, fee, slip), Trade(b, signal, index, price, fee1, slip1))
  {
    hide BuyPrice, SellPrice, Spendable, Units, Value, Charge;
    BuyPricePositive(price, slip);
    BuyPricePositive(price, slip1);
    if signal.Enter? && a.quantity == 0.0 {
      PurchaseNoRicher(a.cash, b.cash, price, fee, slip, fee1, slip1);
      PurchaseBrings(a.cash, price, fee, slip);
      PurchaseBrings(b.cash, price, fee1, slip1);
    } else if signal.Leave? && a.quantity > 0.0 {
      SaleNoRicher(a.quantity, b.quantity, price, fee, slip, fee1, slip1);
    }
  }

  lemma MarkedNoRicher(a: Account, b: Account, price: real)
    requires NoRicher(a, b) && Whole(a) && Whole(b) && price > 0.0 && a.peak > 0.0 && b.peak > 0.0
    ensures NoRicher(Marked(a, price), Marked(b, price))
  {
  }

  /** Higher fees or slippage never change when or which way the strategy trades, and never raise any point of
      the equity curve. */
  lemma {:induction false} CostsNeverHelp(r: Request, q: Request, n: nat)
    requires Fields(r) && Priced(r.prices) && Fields(q) && n <= |r.prices|
    requires q == r.(feeBps := q.feeBps, slippageBps := q.slippageBps)
    requires r.feeBps <= q.feeBps && r.slippageBps <= q.slippageBps
    ensures NoRicher(Simulate(r, n), Simulate(q, n))
  {
    if n > 0 {
      CostsNeverHelp(r, q, n - 1);
      AlwaysWhole(r, n - 1);
      AlwaysWhole(q, n - 1);
      hide NoRicher, Whole, Trade, SignalAt, Marked;
      var a, b := Simulate(r, n - 1), Simulate(q, n - 1);
      var signal, price := SignalAt(r.prices, n - 1, r.window), r.prices[n - 1];
      TradeNoRicher(a, b, signal, n - 1, price, Fee(r), Slip(r), Fee(q), Slip(q));
      TradeWhole(a, signal, n - 1, price, Fee(r), Slip(r));
      TradeWhole(b, signal, n - 1, price, Fee(q), Slip(q));
      TradeFrame(a, signal, n - 1, price, Fee(r), Slip(r));
      TradeFrame(b, signal, n - 1, price, Fee(q), Slip(q));
      MarkedNoRicher(Trade(a, signal, n - 1, price, Fee(r), Slip(r)), Trade(b, signal, n - 1, price, Fee(q), Slip(q)), price);
    }
  }

  // The initial cash

  function Times(k: real, x: real): real { k * x }

  lemma TimesLaws(k: real, x: real, y: real)
    requires k > 0.0
    ensures Times(k, 0.0) == 0.0 && Times(k, x + y) == Times(k, x) + Times(k, y)
    ensures Times(k, x - y) == Times(k, x) - Times(k, y)
    ensures (Times(k, x) == 0.0 <==> x == 0.0) && (Times(k, x) > 0.0 <==> x > 0.0)
    ensures Times(k, Max(x, y)) == Max(Times(k, x), Times(k, y))
  {
  }

  predicate FeesScaled(a: seq<Fill>, b: seq<Fill>, k: real) {
    |a| == |b| && forall n :: 0 <= n < |a| ==> b[n] == a[n].(fee := Times(k, a[n].fee))
  }

  predicate PointsScaled(a: seq<real>, b: seq<real>, k: real) {
    |a| == |b| && forall n :: 0 <= n < |a| ==> b[n] == Times(k, a[n])
  }

  /** The second account is the first with every amount multiplied by k. */
  predicate Scaled(a: Account, b: Account, k: real) {
    && b.cash == Times(k, a.cash) && b.quantity == Times(k, a.quantity) && b.peak == Times(k, a.peak)
    && b.fees == Times(k, a.fees) && b.drawdown == a.drawdown
    && PointsScaled(a.curve, b.curve, k) && FeesScaled(a.fills, b.fills, k)
  }

  lemma PurchaseScales(k: real, cash: real, price: real, fee: real)
    requires price > 0.0 && fee >= 0.0
    ensures Spendable(Times(k, cash), fee) == Times(k, Spendable(cash, fee))
    ensures Units(Times(k, Spendable(cash, fee)), price) == Times(k, Units(Spendable(cash, fee), price))
  {
  }

  lemma ValueScales(k: real, x: real, y: real)
    ensures Value(Times(k, x), y) == Times(k, Value(x, y)) && Charge(Times(k, x), y) == Times(k, Charge(x, y))
  {
  }

  lemma TradeScaled(a: Account, b: Account, k: real, signal: Signal, index: nat, price: real, fee: real, slip: real)
    requires Scaled(a, b, k) && k > 0.0 && fee >= 0.0 && slip >= 0.0 && price > 0.0
    ensures Scaled(Trade(a, signal, index, price, fee, slip), Trade(b, signal, index, price, fee, slip), k)
  {
    hide BuyPrice, SellPrice, Spendable, Units, Value, Charge, Times, PointsScaled;
    BuyPricePositive(price, slip);
    TimesLaws(k, a.quantity, 0.0);
    if signal.Enter? && a.quantity == 0.0 {
      var fill, notional := BuyPrice(price, slip), Spendable(a.cash, fee);
      PurchaseScales(k, a.cash, fill, fee);
      ValueScales(k, notional, fee);
      TimesLaws(k, a.fees, Charge(notional, fee));
    } else if signal.Leave? && a.quantity > 0.0 {
      var sale := Value(a.quantity, SellPrice(price, slip));
      ValueScales(k, a.quantity, SellPrice(price, slip));
      ValueScales(k, sale, fee);
      TimesLaws(k, a.fees, Charge(sale, fee));
      TimesLaws(k, sale, Charge(sale, fee));
    }
  }

  lemma MarkedScaled(a: Account, b: Account, k: real, price: real)
    requires Scaled(a, b, k) && k > 0.0 && a.peak > 0.0 && b.peak > 0.0
    ensures Scaled(Marked(a, price), Marked(b, price), k)
  {
  }

  /** The equity curve is linear in the initial cash: trades, prices and drawdown stay, amounts are scaled. */
  lemma {:induction false} LinearInCash(r: Request, q: Request, k: real, n: nat)
    requires Fields(r) && Priced(r.prices) && Fields(q) && n <= |r.prices| && k > 0.0
    requires q == r.(initialCash := k * r.initialCash)
    ensures Scaled(Simulate(r, n), Simulate(q, n), k)
  {
    hide Trade, Marked, SignalAt;
    if n > 0 {
      LinearInCash(r, q, k, n - 1);
      hide Scaled;
      var signal, price := SignalAt(r.prices, n - 1, r.window), r.prices[n - 1];
      var a, b := Simulate(r, n - 1), Simulate(q, n - 1);
      TradeScaled(a, b, k, signal, n - 1, price, Fee(r), Slip(r));
      TradeFrame(a, signal, n - 1, price, Fee(r), Slip(r));
      TradeFrame(b, signal, n - 1, price, Fee(q), Slip(q));
      MarkedScaled(Trade(a, signal, n - 1, price, Fee(r), Slip(r)), Trade(b, signal, n - 1, price, Fee(q), Slip(q)), k, price);
    } else {
      TimesLaws(k, 0.0, 0.0);
    }
  }

  // The drawdown

  function Fall(high: real, low: real): real
    requires high > 0.0
  {
    1.0 - low / high
  }

  /** The largest relative fall from any point to a later one. */
  ghost predicate IsMaxDrawdown(points: seq<real>, drawdown: real)
    requires forall n :: 0 <= n < |points| ==> points[n] > 0.0
  {
    && (forall i, j :: 0 <= i <= j < |points| ==> Fall(points[i], points[j]) <= drawdown)
    && (exists i, j :: 0 <= i <= j < |points| && Fall(points[i], points[j]) == drawdown)
  }

  predicate IsPeak(points: seq<real>, peak: real) {
    peak in points && forall n :: 0 <= n < |points| ==> points[n] <= peak
  }

  lemma FallMonotone(high: real, higher: real, low: real)
    requires 0.0 < high <= higher && low > 0.0
    ensures Fall(high, low) <= Fall(higher, low) < 1.0
  {
    var x, y := low / high, low / higher;
    assert x * high == low && y * higher == low;
    assert x > 0.0 && y > 0.0;
    if y > x {
      ScaleUp(x, high, higher);
      ScaleDown(y, x, higher);
    }
  }

  lemma ScaleUp(x: real, high: real, higher: real)
    requires x > 0.0 && high <= higher
    ensures x * high <= x * higher
  {
  }

  lemma ScaleDown(y: real, x: real, higher: real)
    requires y > x && higher > 0.0
    ensures y * higher > x * higher
  {
  }

  lemma OnePoint(x: real)
    requires x > 0.0
    ensures IsPeak([x], x) && IsMaxDrawdown([x], 0.0)
  {
    assert [x][0] == x;
    assert Fall(x, x) == 0.0;
  }

  /** Marking the account to a price adds one point. */
  lemma MarkedFall(a: Account, price: real)
    requires a.peak > 0.0
    ensures var equity, b := Equity(a, price), Marked(a, price);
      && b.curve == a.curve + [equity] && b.peak == Max(a.peak, equity) && b.peak >= equity
      && b.drawdown == Max(a.drawdown, Fall(b.peak, equity))
  {
  }

  lemma NextDrawdown(points: seq<real>, peak: real, drawdown: real, equity: real)
    requires (forall n :: 0 <= n < |points| ==> points[n] > 0.0) && equity > 0.0
    requires IsPeak(points, peak) && IsMaxDrawdown(points, drawdown)
    ensures IsPeak(points + [equity], Max(peak, equity))
    ensures IsMaxDrawdown(points + [equity], Max(drawdown, Fall(Max(peak, equity), equity)))
  {
    hide Fall;
    var more, top := points + [equity], Max(peak, equity);
    var least := Max(drawdown, Fall(top, equity));
    forall i, j | 0 <= i <= j < |more|
      ensures Fall(more[i], more[j]) <= least
    {
      if j == |points| {
        FallMonotone(more[i], top, equity);
      }
    }
    if least == drawdown {
      var i, j :| 0 <= i <= j < |points| && Fall(points[i], points[j]) == drawdown;
      assert Fall(more[i], more[j]) == least;
    } else {
      var i := if top == equity then |points| else PeakIndex(points, peak);
      assert Fall(more[i], more[|points|]) == least;
    }
  }

  function PeakIndex(points: seq<real>, peak: real): (n: nat)
    requires peak in points
    ensures n < |points| && points[n] == peak
  {
    if points[|points| - 1] == peak then |points| - 1 else PeakIndex(points[..|points| - 1], peak)
  }

  /** The running drawdown is the largest fall between any two points of the curve, the start included. */
  lemma {:induction false} DrawdownIsMaxFall(r: Request, n: nat)
    requires Fields(r) && Priced(r.prices) && n <= |r.prices|
    ensures var a := Simulate(r, n);
      var points := [r.initialCash] + a.curve;
      && (forall k :: 0 <= k < |points| ==> points[k] > 0.0)
      && IsPeak(points, a.peak) && IsMaxDrawdown(points, a.drawdown) && 0.0 <= a.drawdown < 1.0
  {
    hide Trade, SignalAt, Equity, Marked, Fall, IsPeak, IsMaxDrawdown;
    AlwaysWhole(r, n);
    var a := Simulate(r, n);
    var points := [r.initialCash] + a.curve;
    if n == 0 {
      assert points == [r.initialCash];
      OnePoint(r.initialCash);
    } else {
      DrawdownIsMaxFall(r, n - 1);
      var b := Simulate(r, n - 1);
      var signal, price := SignalAt(r.prices, n - 1, r.window), r.prices[n - 1];
      TradeFrame(b, signal, n - 1, price, Fee(r), Slip(r));
      var c := Trade(b, signal, n - 1, price, Fee(r), Slip(r));
      var before, equity := [r.initialCash] + b.curve, Equity(c, price);
      MarkedFall(c, price);
      assert points == before + [equity];
      assert equity == a.curve[n - 1];
      NextDrawdown(before, b.peak, b.drawdown, equity);
      FallMonotone(a.peak, a.peak, equity);
    }
  }

  // Where the money went

  /** What the prices added to the position, price by price. */
  ghost function Gains(r: Request, n: nat): real
    requires Fields(r) && Priced(r.prices) && n <= |r.prices|
  {
    if n <= 1 then 0.0
    else Gains(r, n - 1) + Value(Simulate(r, n - 1).quantity, r.prices[n - 1] - r.prices[n - 2])
  }

  /** What the fills lost against the price they were made at. */
  ghost function Slippage(r: Request, n: nat): real
    requires Fields(r) && Priced(r.prices) && n <= |r.prices|
  {
    if n == 0 then 0.0
    else
      var before, after := Simulate(r, n - 1).quantity, Simulate(r, n).quantity;
      Slippage(r, n - 1) + SlipCost(Max(before - after, after - before), r.prices[n - 1], Slip(r))
  }

  function SlipCost(quantity: real, price: real, slip: real): real { quantity * price * slip }

  lemma TradeAddsUp(a: Account, signal: Signal, index: nat, price: real, fee: real, slip: real)
    requires Whole(a) && 0.0 <= fee <= 0.1 && 0.0 <= slip <= 0.1 && price > 0.0
    ensures var b := Trade(a, signal, index, price, fee, slip);
      var traded := Max(a.quantity - b.quantity, b.quantity - a.quantity);
      Equity(b, price) + (b.fees - a.fees) + SlipCost(traded, price, slip) == Equity(a, price)
  {
  }

  lemma NothingTraded(price: real, slip: real)
    ensures Value(0.0, price) == 0.0 && SlipCost(0.0, price, slip) == 0.0
  {
  }

  lemma PriceMoved(a: Account, price: real, previous: real)
    ensures Equity(a, price) == Equity(a, previous) + Value(a.quantity, price - previous)
  {
  }

  /** Conservation: equity, fees and slippage together are the initial cash and the gains on what was held. */
  lemma {:induction false} NothingIsLost(r: Request, n: nat)
    requires Fields(r) && Priced(r.prices) && 1 <= n <= |r.prices|
    ensures |Simulate(r, n).curve| == n
    ensures Equity(Simulate(r, n), r.prices[n - 1]) == Simulate(r, n).curve[n - 1]
    ensures Simulate(r, n).curve[n - 1] + Simulate(r, n).fees + Slippage(r, n) == r.initialCash + Gains(r, n)
  {
    hide Trade, SignalAt, Value, SlipCost;
    AlwaysWhole(r, n);
    AlwaysWhole(r, n - 1);
    var b := Simulate(r, n - 1);
    var signal, price := SignalAt(r.prices, n - 1, r.window), r.prices[n - 1];
    TradeAddsUp(b, signal, n - 1, price, Fee(r), Slip(r));
    TradeFrame(b, signal, n - 1, price, Fee(r), Slip(r));
    if n == 1 {
      NothingTraded(price, Slip(r));
    } else {
      NothingIsLost(r, n - 1);
      PriceMoved(b, price, r.prices[n - 2]);
    }
  }
}
