/**
 * src/analysis/research/allocation_for_specific_relayer.py: the same
 * simulation for the fills of one relayer, over every trade pair that has
 * any, reporting the profit ratio at each fund level and at the maximum fund.
 */
module AllocationForSpecificRelayer {
  import opened Wrappers
  import opened FundSimulation

  /** One entry of `results`. */
  datatype LevelResult = LevelResult(fund: real, totalProfit: real, missedOrders: nat, missedProfit: real,
                                     profitToAllocationRatio: real)

  /** What is reported for a trade pair: its levels, and the fund and ratio of the first one. */
  datatype PairReport = PairReport(pairIndex: nat, levels: seq<LevelResult>, maxAllocation: real,
                                   maxAllocationProfitRatio: real)

  function LevelOutcome(orders: seq<Order>, fund: real): LevelResult
    requires |orders| > 0
  {
    var s := Run(fund, orders[0].fillTime, orders);
    LevelResult(fund, s.totalProfit, s.missedOrders, s.missedProfit, ProfitRatio(s.totalProfit, fund))
  }

  /** Every fund level of a non-empty frame, simulated. */
  function ExpectedLevels(orders: seq<Order>): (levels: seq<LevelResult>)
    requires |orders| > 0
    ensures |levels| == LevelCount
    ensures levels[0].fund == MaxFund(orders).value
    ensures forall i :: 0 <= i < LevelCount ==> levels[i].fund == FundLevel(MaxFund(orders).value, i)
    ensures forall i :: 0 <= i < LevelCount ==>
      var s := Run(levels[i].fund, orders[0].fillTime, orders);
      (levels[i].totalProfit, levels[i].missedOrders, levels[i].missedProfit) == (s.totalProfit, s.missedOrders, s.missedProfit)
      && levels[i].profitToAllocationRatio == ProfitRatio(s.totalProfit, levels[i].fund)
  {
    seq(LevelCount, i requires 0 <= i < LevelCount => LevelOutcome(orders, FundLevel(MaxFund(orders).value, i)))
  }

  /**
   * The fund-level loop of one trade pair: every level simulated, the first
   * level being the maximum fund itself.
   */
  method SimulateLevels(orders: seq<Order>) returns (levels: seq<LevelResult>)
    requires |orders| > 0
    ensures levels == ExpectedLevels(orders)
  {
    var maxFund := MaxFund(orders).value;
    levels := [];
    for i := 0 to LevelCount
      invariant |levels| == i
      invariant forall l :: 0 <= l < i ==> levels[l] == LevelOutcome(orders, FundLevel(maxFund, l))
    {
      var fund := FundLevel(maxFund, i);
      var totalProfit, missedOrders, missedProfit := Simulate(fund, orders);
      levels := levels + [LevelResult(fund, totalProfit, missedOrders, missedProfit, ProfitRatio(totalProfit, fund))];
    }
  }

  /** The report of a trade pair: its levels, and the first level's fund and ratio. */
  function ReportOf(pairIndex: nat, levels: seq<LevelResult>): PairReport
    requires |levels| > 0
  {
    PairReport(pairIndex, levels, levels[0].fund, levels[0].profitToAllocationRatio)
  }

  /** The report of the trade pair at position `p`, which has fills. */
  function ExpectedReport(fills: seq<Fill>, p: nat): (r: PairReport)
    requires |fills| > 0
    ensures r.pairIndex == p && |r.levels| == LevelCount
    ensures r.maxAllocation == MaxFund(Orders(fills)).value
    ensures r.maxAllocationProfitRatio == LevelOutcome(Orders(fills), MaxFund(Orders(fills)).value).profitToAllocationRatio
  {
    ReportOf(p, ExpectedLevels(Orders(fills)))
  }

  /** The positions among the first `p` trade pairs that have fills, in order. */
  function Kept(pairs: seq<seq<Fill>>, p: nat): (ks: seq<nat>)
    requires p <= |pairs|
    ensures forall k :: 0 <= k < |ks| ==> ks[k] < p && |pairs[ks[k]]| > 0
  {
    if p == 0 then []
    else Kept(pairs, p - 1) + if |pairs[p - 1]| > 0 then [p - 1] else []
  }

  /** The kept positions are strictly increasing. */
  lemma {:induction false} KeptOrdered(pairs: seq<seq<Fill>>, p: nat)
    requires p <= |pairs|
    ensures forall i, j :: 0 <= i < j < |Kept(pairs, p)| ==> Kept(pairs, p)[i] < Kept(pairs, p)[j]
  {
    if p > 0 {
      KeptOrdered(pairs, p - 1);
    }
  }

  /** Every one of the first `p` pairs with fills is kept. */
  lemma {:induction false} KeptCovers(pairs: seq<seq<Fill>>, p: nat)
    requires p <= |pairs|
    ensures forall q :: 0 <= q < p && |pairs[q]| > 0 ==> q in Kept(pairs, p)
  {
    if p > 0 {
      KeptCovers(pairs, p - 1);
      assert forall q :: q in Kept(pairs, p - 1) ==> q in Kept(pairs, p);
    }
  }

  /** The reports for the first `p` trade pairs: one per kept pair, in order. */
  function Reports(pairs: seq<seq<Fill>>, p: nat): seq<PairReport>
    requires p <= |pairs|
  {
    var ks := Kept(pairs, p);
    seq(|ks|, k requires 0 <= k < |ks| => ExpectedReport(pairs[ks[k]], ks[k]))
  }

  /** One more pair adds its report when it has fills, and nothing otherwise. */
  lemma ReportsStep(pairs: seq<seq<Fill>>, p: nat)
    requires p < |pairs|
    ensures Reports(pairs, p + 1) == Reports(pairs, p) + if |pairs[p]| > 0 then [ExpectedReport(pairs[p], p)] else []
  {
    assert Kept(pairs, p + 1) == Kept(pairs, p) + if |pairs[p]| > 0 then [p] else [];
  }

  /** Some report of `rs` is about the trade pair at position `p`. */
  predicate Mentions(rs: seq<PairReport>, p: nat) {
    exists k :: 0 <= k < |rs| && rs[k].pairIndex == p
  }

  /** The reports are in strictly increasing pair order, so no pair is reported twice. */
  ghost predicate Ordered(rs: seq<PairReport>) {
    forall i, j :: 0 <= i < j < |rs| ==> rs[i].pairIndex < rs[j].pairIndex
  }

  /** Every one of the first `p` pairs with fills is reported. */
  ghost predicate Covers(pairs: seq<seq<Fill>>, p: nat, rs: seq<PairReport>)
    requires p <= |pairs|
  {
    forall q :: 0 <= q < p && |pairs[q]| > 0 ==> Mentions(rs, q)
  }

  /** Every report is about one of the first `p` pairs, which has fills, and is that pair's report. */
  ghost predicate Faithful(pairs: seq<seq<Fill>>, p: nat, rs: seq<PairReport>)
    requires p <= |pairs|
  {
    forall k :: 0 <= k < |rs| ==>
      rs[k].pairIndex < p && |pairs[rs[k].pairIndex]| > 0
      && rs[k] == ExpectedReport(pairs[rs[k].pairIndex], rs[k].pairIndex)
  }

  lemma ReportsFaithful(pairs: seq<seq<Fill>>, p: nat)
    requires p <= |pairs|
    ensures Faithful(pairs, p, Reports(pairs, p))
  {
    var ks, rs := Kept(pairs, p), Reports(pairs, p);
    forall k | 0 <= k < |rs| ensures rs[k].pairIndex == ks[k] {
    }
  }

  lemma ReportsOrdered(pairs: seq<seq<Fill>>, p: nat)
    requires p <= |pairs|
    ensures Ordered(Reports(pairs, p))
  {
    var ks, rs := Kept(pairs, p), Reports(pairs, p);
    KeptOrdered(pairs, p);
    forall k | 0 <= k < |rs| ensures rs[k].pairIndex == ks[k] {
    }
  }

  lemma ReportsCover(pairs: seq<seq<Fill>>, p: nat)
    requires p <= |pairs|
    ensures Covers(pairs, p, Reports(pairs, p))
  {
    var ks, rs := Kept(pairs, p), Reports(pairs, p);
    KeptCovers(pairs, p);
    forall q | 0 <= q < p && |pairs[q]| > 0 ensures Mentions(rs, q) {
      var k :| 0 <= k < |ks| && ks[k] == q;
      assert rs[k].pairIndex == q;
    }
  }

  /**
   * The loop over trade pairs: a pair without fills is skipped, so the
   * simulation and the maximum fund only ever see a non-empty frame; exactly
   * the other pairs are reported, once each and in order, each with its own
   * simulation.
   */
  method AnalyzePairs(pairs: seq<seq<Fill>>) returns (reports: seq<PairReport>)
    ensures reports == Reports(pairs, |pairs|)
    ensures Ordered(reports) && Covers(pairs, |pairs|, reports) && Faithful(pairs, |pairs|, reports)
  {
    reports := [];
    for p := 0 to |pairs|
      invariant reports == Reports(pairs, p)
    {
      ReportsStep(pairs, p);
      if |pairs[p]| == 0 {
        continue;
      }
      var levels := SimulateLevels(Orders(pairs[p]));
      reports := reports + [ReportOf(p, levels)];
    }
    ReportsOrdered(pairs, |pairs|);
    ReportsCover(pairs, |pairs|);
    ReportsFaithful(pairs, |pairs|);
  }
}
