/**
 * The capital simulation shared, line for line, by
 * src/analysis/research/allocation_research.py and
 * src/analysis/research/allocation_for_specific_relayer.py: `simulate`, which
 * replays the fills of one trade pair against a fund refilled every two
 * hours, and `calculate_max_fund`, the largest two-window volume.
 *
 * Times are seconds; `Decimal` amounts are exact reals.
 */
module FundSimulation {
  import opened Wrappers

  /** `timedelta(hours=2)` and the `"2h"` window, in seconds. */
  const RefillInterval: int := 7200
  /** The ether price in USD the profit column charges gas at. */
  const GasPriceUsd: real := 2700.0

  /** One fill of the trade pair, in `fill_block_time` order. */
  datatype Order = Order(outputAmountUsd: real, fillTime: int, profit: real)

  /** `input_amount_usd - output_amount_usd - gas_fee * 2700`. */
  function RowProfit(inputAmountUsd: real, outputAmountUsd: real, gasFee: real): (p: real)
    ensures p + outputAmountUsd + gasFee * GasPriceUsd == inputAmountUsd
    ensures gasFee >= 0.0 ==> p <= inputAmountUsd - outputAmountUsd
  {
    inputAmountUsd - outputAmountUsd - gasFee * GasPriceUsd
  }

  /** One row of the trade-pair query: `output_amount_usd, fill_block_time, input_amount_usd, gas_fee`. */
  datatype Fill = Fill(outputAmountUsd: real, fillTime: int, inputAmountUsd: real, gasFee: real)

  /** The frame `simulate` sees: the query rows with the `profit` column added. */
  function Orders(fills: seq<Fill>): (orders: seq<Order>)
    ensures |orders| == |fills|
    ensures forall k :: 0 <= k < |fills| ==>
      orders[k] == Order(fills[k].outputAmountUsd, fills[k].fillTime,
                         RowProfit(fills[k].inputAmountUsd, fills[k].outputAmountUsd, fills[k].gasFee))
  {
    if fills == [] then []
    else
      var f := fills[|fills| - 1];
      Orders(fills[..|fills| - 1]) + [Order(f.outputAmountUsd, f.fillTime, RowProfit(f.inputAmountUsd, f.outputAmountUsd, f.gasFee))]
  }

  /**
   * The variables of `simulate`, plus `accepted`, the number of orders taken,
   * which the source does not keep but which the properties below talk about.
   */
  datatype SimState = SimState(available: real, lastRefill: int, totalProfit: real,
                               accepted: nat, missedOrders: nat, missedProfit: real)

  /** The state before the first order: a full fund, last refilled at the first order's time. */
  function Start(initialFund: real, firstTime: int): SimState {
    SimState(initialFund, firstTime, 0.0, 0, 0, 0.0)
  }

  /** The refill check: two hours after the last refill the fund is full again. */
  function Refill(initialFund: real, s: SimState, o: Order): SimState {
    if o.fillTime - s.lastRefill >= RefillInterval then s.(available := initialFund, lastRefill := o.fillTime)
    else s
  }

  /** One iteration of the loop: refill if due, then take the order if the fund covers it, else count it as missed. */
  function Step(initialFund: real, s: SimState, o: Order): SimState {
    var r := Refill(initialFund, s, o);
    if r.available >= o.outputAmountUsd then
      r.(available := r.available - o.outputAmountUsd, totalProfit := r.totalProfit + o.profit, accepted := r.accepted + 1)
    else
      r.(missedOrders := r.missedOrders + 1, missedProfit := r.missedProfit + o.profit)
  }

  /** The state after replaying `orders`. */
  function Run(initialFund: real, firstTime: int, orders: seq<Order>): SimState {
    if orders == [] then Start(initialFund, firstTime)
    else Step(initialFund, Run(initialFund, firstTime, orders[..|orders| - 1]), orders[|orders| - 1])
  }

  /**
   * `simulate`: the loop over the orders, returning the profit taken, the
   * number of missed orders and the profit missed. The first row's time is
   * read before the loop, so an empty frame is not accepted.
   */
  method Simulate(initialFund: real, orders: seq<Order>) returns (totalProfit: real, missedOrders: nat, missedProfit: real)
    requires |orders| > 0
    ensures var s := Run(initialFund, orders[0].fillTime, orders);
      totalProfit == s.totalProfit && missedOrders == s.missedOrders && missedProfit == s.missedProfit
  {
    var availableFund := initialFund;
    totalProfit := 0.0;
    missedOrders := 0;
    missedProfit := 0.0;
    var lastRefillTime := orders[0].fillTime;
    ghost var accepted: nat := 0;
    for k := 0 to |orders|
      invariant Run(initialFund, orders[0].fillTime, orders[..k])
        == SimState(availableFund, lastRefillTime, totalProfit, accepted, missedOrders, missedProfit)
    {
      assert orders[..k + 1][..k] == orders[..k];
      var row := orders[k];
      if row.fillTime - lastRefillTime >= RefillInterval {
        availableFund := initialFund;
        lastRefillTime := row.fillTime;
      }
      if availableFund >= row.outputAmountUsd {
        availableFund := availableFund - row.outputAmountUsd;
        totalProfit := totalProfit + row.profit;
        accepted := accepted + 1;
      } else {
        missedOrders := missedOrders + 1;
        missedProfit := missedProfit + row.profit;
      }
    }
    assert orders[..|orders|] == orders;
  }

  /** The sum of the orders' profits. */
  function SumProfit(orders: seq<Order>): real {
    if orders == [] then 0.0 else SumProfit(orders[..|orders| - 1]) + orders[|orders| - 1].profit
  }

  /**
   * Every order is either taken or missed, and the profit taken plus the
   * profit missed is the profit of all orders.
   */
  lemma {:induction false} RunTotals(initialFund: real, firstTime: int, orders: seq<Order>)
    ensures Run(initialFund, firstTime, orders).accepted + Run(initialFund, firstTime, orders).missedOrders == |orders|
    ensures Run(initialFund, firstTime, orders).totalProfit + Run(initialFund, firstTime, orders).missedProfit == SumProfit(orders)
  {
    if orders != [] {
      RunTotals(initialFund, firstTime, orders[..|orders| - 1]);
    }
  }

  /** With a non-negative fund and non-negative amounts, the available fund stays within `[0, initialFund]`. */
  lemma {:induction false} RunFundBounds(initialFund: real, firstTime: int, orders: seq<Order>)
    requires initialFund >= 0.0
    requires forall k :: 0 <= k < |orders| ==> orders[k].outputAmountUsd >= 0.0
    ensures 0.0 <= Run(initialFund, firstTime, orders).available <= initialFund
  {
    if orders != [] {
      RunFundBounds(initialFund, firstTime, orders[..|orders| - 1]);
    }
  }

  /**
   * The refill rule: the last refill time moves only when at least two hours
   * have passed since it, and then to the order's time, with a full fund; the
   * order is taken exactly when the fund after that check covers it.
   */
  lemma StepRules(initialFund: real, s: SimState, o: Order)
    ensures var n := Step(initialFund, s, o);
      && (n.lastRefill != s.lastRefill ==> o.fillTime - s.lastRefill >= RefillInterval)
      && (o.fillTime - s.lastRefill >= RefillInterval ==> n.lastRefill == o.fillTime && Refill(initialFund, s, o).available == initialFund)
      && (o.fillTime - s.lastRefill < RefillInterval ==> Refill(initialFund, s, o) == s)
      && (n.accepted == s.accepted + 1 <==> Refill(initialFund, s, o).available >= o.outputAmountUsd)
      && (n.missedOrders == s.missedOrders + 1 <==> Refill(initialFund, s, o).available < o.outputAmountUsd)
  {
  }

  /** The first order never triggers a refill: it is checked against the initial fund. */
  lemma FirstOrderNoRefill(initialFund: real, orders: seq<Order>)
    requires |orders| > 0
    ensures Refill(initialFund, Start(initialFund, orders[0].fillTime), orders[0]) == Start(initialFund, orders[0].fillTime)
    ensures Run(initialFund, orders[0].fillTime, orders[..1]).lastRefill == orders[0].fillTime
  {
    assert orders[..1][..0] == [];
  }

  /** The start of the `dt.floor("2h")` window holding time `t`, as a window number. */
  function WindowOf(t: int): int {
    t / RefillInterval
  }

  /**
   * `df.groupby("time_window")["output_amount_usd"].sum()` for orders that
   * arrive in time order (the query sorts by `fill_block_time`): consecutive
   * orders of the same window are summed, in window order.
   */
  function WindowSums(orders: seq<Order>): (sums: seq<real>)
    ensures |sums| <= |orders|
    ensures |sums| == 0 <==> |orders| == 0
  {
    if orders == [] then []
    else
      var init := orders[..|orders| - 1];
      var last := orders[|orders| - 1];
      var prev := WindowSums(init);
      if init != [] && WindowOf(init[|init| - 1].fillTime) == WindowOf(last.fillTime) then
        prev[..|prev| - 1] + [prev[|prev| - 1] + last.outputAmountUsd]
      else
        prev + [last.outputAmountUsd]
  }

  function Sum(xs: seq<real>): real {
    if xs == [] then 0.0 else Sum(xs[..|xs| - 1]) + xs[|xs| - 1]
  }

  function SumAmounts(orders: seq<Order>): real {
    if orders == [] then 0.0 else SumAmounts(orders[..|orders| - 1]) + orders[|orders| - 1].outputAmountUsd
  }

  /** The window sums account for every order's amount exactly once. */
  lemma {:induction false} WindowSumsTotal(orders: seq<Order>)
    ensures Sum(WindowSums(orders)) == SumAmounts(orders)
  {
    if orders != [] {
      var init := orders[..|orders| - 1];
      var prev := WindowSums(init);
      WindowSumsTotal(init);
      if init != [] && WindowOf(init[|init| - 1].fillTime) == WindowOf(orders[|orders| - 1].fillTime) {
        var body := prev[..|prev| - 1];
        assert prev == body + [prev[|prev| - 1]];
        assert (body + [prev[|prev| - 1] + orders[|orders| - 1].outputAmountUsd])[..|body|] == body;
      }
    }
  }

  /** The orders arrive in `fill_block_time` order, as the trade-pair query sorts them. */
  ghost predicate TimeOrdered(orders: seq<Order>) {
    forall i, j :: 0 <= i <= j < |orders| ==> orders[i].fillTime <= orders[j].fillTime
  }

  /** The window of each entry of `WindowSums`, computed by the same merging of consecutive orders. */
  function WindowStarts(orders: seq<Order>): (ws: seq<int>)
    ensures |ws| == |WindowSums(orders)|
    ensures orders != [] ==> ws != [] && ws[|ws| - 1] == WindowOf(orders[|orders| - 1].fillTime)
  {
    if orders == [] then []
    else
      var init := orders[..|orders| - 1];
      var last := orders[|orders| - 1];
      var prev := WindowStarts(init);
      if init != [] && WindowOf(init[|init| - 1].fillTime) == WindowOf(last.fillTime) then
        assert |WindowSums(orders)| == |WindowSums(init)|;
        prev
      else
        assert |WindowSums(orders)| == |WindowSums(init)| + 1;
        prev + [WindowOf(last.fillTime)]
  }

  /** The windows some order falls in: the index of `groupby("time_window")`. */
  ghost function WindowSet(orders: seq<Order>): set<int> {
    set i | 0 <= i < |orders| :: WindowOf(orders[i].fillTime)
  }

  /** The total `output_amount_usd` of the orders in window `w`. */
  function AmountIn(orders: seq<Order>, w: int): real {
    if orders == [] then 0.0
    else
      var last := orders[|orders| - 1];
      AmountIn(orders[..|orders| - 1], w) + (if WindowOf(last.fillTime) == w then last.outputAmountUsd else 0.0)
  }

  /** A window holding no order has nothing in it. */
  lemma {:induction false} AmountInAbsent(orders: seq<Order>, w: int)
    requires w !in WindowSet(orders)
    ensures AmountIn(orders, w) == 0.0
  {
    if orders != [] {
      var init := orders[..|orders| - 1];
      assert WindowSet(init) <= WindowSet(orders) by {
        forall x | x in WindowSet(init) ensures x in WindowSet(orders) {
          var i :| 0 <= i < |init| && WindowOf(init[i].fillTime) == x;
          assert orders[i] == init[i];
        }
      }
      assert WindowOf(orders[|orders| - 1].fillTime) in WindowSet(orders);
      AmountInAbsent(init, w);
    }
  }

  /** One more order adds its window to the set of windows. */
  lemma WindowSetSnoc(orders: seq<Order>)
    requires orders != []
    ensures WindowSet(orders) == WindowSet(orders[..|orders| - 1]) + {WindowOf(orders[|orders| - 1].fillTime)}
  {
    var init := orders[..|orders| - 1];
    assert forall i :: 0 <= i < |init| ==> orders[i] == init[i];
  }

  /** Flooring to windows keeps the order of times. */
  lemma WindowMonotone(s: int, t: int)
    requires s <= t
    ensures WindowOf(s) <= WindowOf(t)
  {
  }

  ghost predicate Increasing(ws: seq<int>) {
    forall p, q :: 0 <= p < q < |ws| ==> ws[p] < ws[q]
  }

  /** Consecutive orders of different windows start a later window, so the windows strictly increase. */
  lemma {:induction false} StartsIncreasing(orders: seq<Order>)
    requires TimeOrdered(orders)
    ensures Increasing(WindowStarts(orders))
  {
    if orders != [] {
      var init := orders[..|orders| - 1];
      var w := WindowOf(orders[|orders| - 1].fillTime);
      assert TimeOrdered(init);
      StartsIncreasing(init);
      var ws0 := WindowStarts(init);
      if !(init != [] && WindowOf(init[|init| - 1].fillTime) == w) {
        if init != [] {
          WindowMonotone(init[|init| - 1].fillTime, orders[|orders| - 1].fillTime);
        }
        IncreasingSnoc(ws0, w);
      }
    }
  }

  lemma IncreasingSnoc(ws: seq<int>, w: int)
    requires Increasing(ws) && (ws == [] || ws[|ws| - 1] < w)
    ensures Increasing(ws + [w])
  {
    forall p, q | 0 <= p < q < |ws + [w]| ensures (ws + [w])[p] < (ws + [w])[q] {
      if q == |ws| && p < |ws| - 1 {
        assert ws[p] < ws[|ws| - 1];
      }
    }
  }

  /** The windows listed are exactly the windows some order falls in. */
  lemma {:induction false} StartsCover(orders: seq<Order>)
    ensures (set x | x in WindowStarts(orders)) == WindowSet(orders)
  {
    if orders != [] {
      var init := orders[..|orders| - 1];
      var w := WindowOf(orders[|orders| - 1].fillTime);
      StartsCover(init);
      WindowSetSnoc(orders);
      var ws0 := WindowStarts(init);
      if init != [] && WindowOf(init[|init| - 1].fillTime) == w {
        assert ws0[|ws0| - 1] == w;
        assert w in WindowSet(init);
      } else {
        assert (set x | x in ws0 + [w]) == (set x | x in ws0) + {w};
      }
    }
  }

  /** Each entry of `WindowSums` is the total amount of exactly its window's orders. */
  lemma {:induction false} SumsAmounts(orders: seq<Order>)
    requires TimeOrdered(orders)
    ensures forall k :: 0 <= k < |WindowStarts(orders)| ==> WindowSums(orders)[k] == AmountIn(orders, WindowStarts(orders)[k])
  {
    if orders != [] {
      var init := orders[..|orders| - 1];
      var w := WindowOf(orders[|orders| - 1].fillTime);
      assert TimeOrdered(init);
      SumsAmounts(init);
      StartsIncreasing(init);
      if init != [] && WindowOf(init[|init| - 1].fillTime) == w {
        SumsSameWindow(orders);
      } else {
        StartsCover(init);
        if init != [] {
          WindowMonotone(init[|init| - 1].fillTime, orders[|orders| - 1].fillTime);
        }
        SumsNewWindow(orders);
      }
    }
  }

  /** An order of the last window so far adds its amount to the last entry only. */
  lemma SumsSameWindow(orders: seq<Order>)
    requires |orders| >= 2
    requires WindowOf(orders[|orders| - 2].fillTime) == WindowOf(orders[|orders| - 1].fillTime)
    requires var init := orders[..|orders| - 1];
      && Increasing(WindowStarts(init))
      && forall k :: 0 <= k < |WindowStarts(init)| ==> WindowSums(init)[k] == AmountIn(init, WindowStarts(init)[k])
    ensures forall k :: 0 <= k < |WindowStarts(orders)| ==> WindowSums(orders)[k] == AmountIn(orders, WindowStarts(orders)[k])
  {
    var init := orders[..|orders| - 1];
    assert init[|init| - 1] == orders[|orders| - 2];
    var ws0, s0 := WindowStarts(init), WindowSums(init);
    var ws, s := WindowStarts(orders), WindowSums(orders);
    assert ws == ws0;
    forall k | 0 <= k < |ws| ensures s[k] == AmountIn(orders, ws[k]) {
      if k < |ws| - 1 {
        assert ws0[k] < ws0[|ws0| - 1];
        assert s[k] == s0[k];
      }
    }
  }

  /** An order of a window later than all before it opens a new last entry holding its amount. */
  lemma SumsNewWindow(orders: seq<Order>)
    requires |orders| >= 1
    requires var init := orders[..|orders| - 1];
      var w := WindowOf(orders[|orders| - 1].fillTime);
      && (init == [] || WindowOf(init[|init| - 1].fillTime) < w)
      && Increasing(WindowStarts(init))
      && (set x | x in WindowStarts(init)) == WindowSet(init)
      && forall k :: 0 <= k < |WindowStarts(init)| ==> WindowSums(init)[k] == AmountIn(init, WindowStarts(init)[k])
    ensures forall k :: 0 <= k < |WindowStarts(orders)| ==> WindowSums(orders)[k] == AmountIn(orders, WindowStarts(orders)[k])
  {
    var init := orders[..|orders| - 1];
    var w := WindowOf(orders[|orders| - 1].fillTime);
    var ws0, s0 := WindowStarts(init), WindowSums(init);
    var ws, s := WindowStarts(orders), WindowSums(orders);
    assert ws == ws0 + [w];
    forall k | 0 <= k < |ws0| ensures ws0[k] < w {
      if k < |ws0| - 1 {
        assert ws0[k] < ws0[|ws0| - 1];
      }
    }
    assert w !in WindowSet(init);
    AmountInAbsent(init, w);
    forall k | 0 <= k < |ws| ensures s[k] == AmountIn(orders, ws[k]) {
      if k < |ws0| {
        assert ws[k] == ws0[k] && s[k] == s0[k];
      }
    }
  }

  /**
   * On orders in time order, `WindowSums` is `groupby(floor("2h")).sum()`:
   * one entry per window some order falls in, windows strictly increasing,
   * and each entry the total amount of exactly that window's orders.
   */
  lemma WindowSumsGroupBy(orders: seq<Order>)
    requires TimeOrdered(orders)
    ensures var ws := WindowStarts(orders);
      && (forall p, q :: 0 <= p < q < |ws| ==> ws[p] < ws[q])
      && (set x | x in ws) == WindowSet(orders)
      && forall k :: 0 <= k < |ws| ==> WindowSums(orders)[k] == AmountIn(orders, ws[k])
  {
    StartsIncreasing(orders);
    StartsCover(orders);
    SumsAmounts(orders);
  }

  /** `(window_sums + np.roll(window_sums, 1))[k]`: a window plus the one before it, the first pairing with the last. */
  function PairSum(sums: seq<real>, k: nat): real
    requires k < |sums|
  {
    sums[k] + sums[(k + |sums| - 1) % |sums|]
  }

  /** The largest of the first `n` pair sums. */
  function MaxPairSum(sums: seq<real>, n: nat): (m: real)
    requires 1 <= n <= |sums|
    ensures exists k :: 0 <= k < n && m == PairSum(sums, k)
    ensures forall k :: 0 <= k < n ==> PairSum(sums, k) <= m
  {
    if n == 1 then PairSum(sums, 0)
    else
      var prev := MaxPairSum(sums, n - 1);
      if PairSum(sums, n - 1) > prev then PairSum(sums, n - 1) else prev
  }

  /**
   * `calculate_max_fund` over the window sums: the largest pair sum, and
   * `None` for no windows, where `np.nanmax` raises. A single window pairs
   * with itself and gives twice its sum.
   */
  function CalculateMaxFund(sums: seq<real>): (m: Option<real>)
    ensures m.None? <==> sums == []
    ensures m.Some? ==> exists k :: 0 <= k < |sums| && m.value == PairSum(sums, k)
    ensures m.Some? ==> forall k :: 0 <= k < |sums| ==> PairSum(sums, k) <= m.value
    ensures |sums| == 1 ==> m == Some(2.0 * sums[0])
  {
    if sums == [] then None else Some(MaxPairSum(sums, |sums|))
  }

  /** `calculate_max_fund(df)`. */
  function MaxFund(orders: seq<Order>): Option<real> {
    CalculateMaxFund(WindowSums(orders))
  }

  /** With non-negative amounts the maximum fund is never negative. */
  lemma MaxFundNonNegative(orders: seq<Order>)
    requires |orders| > 0
    requires forall k :: 0 <= k < |orders| ==> orders[k].outputAmountUsd >= 0.0
    ensures MaxFund(orders).Some? && MaxFund(orders).value >= 0.0
  {
    WindowSumsNonNegative(orders);
    var sums := WindowSums(orders);
    assert PairSum(sums, 0) >= 0.0;
  }

  lemma {:induction false} WindowSumsNonNegative(orders: seq<Order>)
    requires forall k :: 0 <= k < |orders| ==> orders[k].outputAmountUsd >= 0.0
    ensures forall k :: 0 <= k < |WindowSums(orders)| ==> WindowSums(orders)[k] >= 0.0
  {
    if orders != [] {
      WindowSumsNonNegative(orders[..|orders| - 1]);
    }
  }

  /**
   * `max_fund * Decimal(str(1 - i * 0.05))` over exact reals; the first level,
   * whose factor is exactly 1, is the maximum fund itself.
   */
  function FundLevel(maxFund: real, i: nat): (f: real)
    ensures i == 0 ==> f == maxFund
    ensures maxFund >= 0.0 && i <= 20 ==> 0.0 <= f <= maxFund
  {
    maxFund * (1.0 - (i as real) * 0.05)
  }

  /** `total_profit / fund if fund > 0 else Decimal("0")`. */
  function ProfitRatio(totalProfit: real, fund: real): (r: real)
    ensures fund > 0.0 ==> r * fund == totalProfit
    ensures fund <= 0.0 ==> r == 0.0
  {
    if fund > 0.0 then totalProfit / fund else 0.0
  }

  /** Number of fund levels tried per trade pair. */
  const LevelCount: nat := 20
}
