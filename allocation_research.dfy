/**
 * src/analysis/research/allocation_research.py: for one trade pair, the
 * simulation at 20 fund levels below the maximum fund, with the profit ratio
 * and the share of profit lost to missed orders at each level.
 */
module AllocationResearch {
  import opened Wrappers
  import opened FundSimulation

  /**
   * `missed_profit / (total_profit + missed_profit) * 100` when that total is
   * positive, else 0.
   */
  function ProfitLossPercentage(totalProfit: real, missedProfit: real): (p: real)
    ensures totalProfit + missedProfit > 0.0 ==> p * (totalProfit + missedProfit) == missedProfit * 100.0
    ensures totalProfit + missedProfit <= 0.0 ==> p == 0.0
  {
    if totalProfit + missedProfit > 0.0 then missedProfit / (totalProfit + missedProfit) * 100.0 else 0.0
  }

  /** With no losses on either side, the percentage lies within `[0, 100]`. */
  lemma ProfitLossBounds(totalProfit: real, missedProfit: real)
    requires totalProfit >= 0.0 && missedProfit >= 0.0
    ensures 0.0 <= ProfitLossPercentage(totalProfit, missedProfit) <= 100.0
    ensures missedProfit == 0.0 ==> ProfitLossPercentage(totalProfit, missedProfit) == 0.0
  {
    if totalProfit + missedProfit > 0.0 {
      var d := totalProfit + missedProfit;
      assert missedProfit / d <= 1.0;
    }
  }

  /** One entry of `results`. */
  datatype LevelResult = LevelResult(fund: real, totalProfit: real, missedOrders: nat, missedProfit: real,
                                     profitLossPercentage: real, profitToAllocationRatio: real)

  /** The entry for a fund level: the simulation's outcome and the two ratios. */
  function LevelOutcome(orders: seq<Order>, fund: real): LevelResult
    requires |orders| > 0
  {
    var s := Run(fund, orders[0].fillTime, orders);
    LevelResult(fund, s.totalProfit, s.missedOrders, s.missedProfit,
                ProfitLossPercentage(s.totalProfit, s.missedProfit), ProfitRatio(s.totalProfit, fund))
  }

  /**
   * The body of the trade-pair loop: compute the profit column and the
   * maximum fund (which raises, here `None`, for a pair without rows), then
   * simulate each fund level.
   */
  method AnalyzePair(fills: seq<Fill>) returns (results: Option<seq<LevelResult>>)
    ensures results.None? <==> fills == []
    ensures results.Some? ==>
      var orders := Orders(fills);
      && |results.value| == LevelCount
      && results.value[0].fund == MaxFund(orders).value
      && forall i :: 0 <= i < LevelCount ==> results.value[i] == LevelOutcome(orders, FundLevel(MaxFund(orders).value, i))
  {
    var orders := Orders(fills);
    var maxFund := MaxFund(orders);
    if maxFund.None? {
      return None;
    }
    var rs: seq<LevelResult> := [];
    for i := 0 to LevelCount
      invariant |rs| == i
      invariant forall l :: 0 <= l < i ==> rs[l] == LevelOutcome(orders, FundLevel(maxFund.value, l))
    {
      var fund := FundLevel(maxFund.value, i);
      var totalProfit, missedOrders, missedProfit := Simulate(fund, orders);
      rs := rs + [LevelResult(fund, totalProfit, missedOrders, missedProfit,
                              ProfitLossPercentage(totalProfit, missedProfit), ProfitRatio(totalProfit, fund))];
    }
    return Some(rs);
  }
}
