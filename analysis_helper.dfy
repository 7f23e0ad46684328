/**
 * src/analysis/analysis_helper.py: the column expressions of the
 * `relay_analysis_results` insert and of the performance queries, and the
 * batch loop of `insert_relay_data`.
 *
 * Amounts are exact reals; token symbols are strings compared exactly.
 */
module AnalysisHelper {
  import opened Wrappers
  import opened Batching
  import opened Store
  import opened Fees
  import opened Placeholders

  /** 10^18, 10^9, 10^8 and 10^6 as reals. */
  const E18: real := 1000000000000000000.0
  const E9: real := 1000000000.0
  const E8: real := 100000000.0
  const E6: real := 1000000.0

  /** `10^n`. */
  function Pow10(n: nat): (p: real)
    ensures p >= 1.0
  {
    if n == 0 then 1.0 else 10.0 * Pow10(n - 1)
  }

  /** The constants are the powers of ten they stand for. */
  lemma {:induction false} PowersOfTen()
    ensures Pow10(6) == E6 && Pow10(8) == E8 && Pow10(9) == E9 && Pow10(18) == E18
  {
    assert Pow10(1) == 10.0;
    assert Pow10(2) == 100.0;
    assert Pow10(3) == 1000.0;
    assert Pow10(4) == 10000.0;
    assert Pow10(5) == 100000.0;
    assert Pow10(6) == 1000000.0;
    assert Pow10(7) == 10000000.0;
    assert Pow10(8) == 100000000.0;
    assert Pow10(9) == 1000000000.0;
    assert Pow10(10) == 10000000000.0;
    assert Pow10(11) == 100000000000.0;
    assert Pow10(12) == 1000000000000.0;
    assert Pow10(13) == 10000000000000.0;
    assert Pow10(14) == 100000000000000.0;
    assert Pow10(15) == 1000000000000000.0;
    assert Pow10(16) == 10000000000000000.0;
    assert Pow10(17) == 100000000000000000.0;
  }

  /**
   * The on-chain decimals of the tokens the scaling knows: 18 for WETH, ETH and
   * DAI, 8 for WBTC, 6 for USDT and USDC; any other symbol is left unscaled.
   */
  function TokenDecimals(symbol: string): nat {
    if symbol in {"WETH", "ETH", "DAI"} then 18
    else if symbol == "WBTC" then 8
    else if symbol in {"USDT", "USDC"} then 6
    else 0
  }

  /** The `input_amount` / `output_amount` CASE: a raw token amount in whole tokens. */
  function ScaleDown(symbol: string, amount: real): real {
    if symbol in {"WETH", "ETH"} then amount / E18
    else if symbol == "WBTC" then amount / E8
    else if symbol in {"USDT", "USDC"} then amount / E6
    else if symbol == "DAI" then amount / E18
    else amount
  }

  /**
   * The scaling divides by ten to the token's decimals, so it keeps the sign,
   * never grows a non-negative amount, and is the identity on unknown symbols.
   */
  lemma ScaleDownByDecimals(symbol: string, amount: real)
    ensures ScaleDown(symbol, amount) == amount / Pow10(TokenDecimals(symbol))
    ensures amount >= 0.0 ==> 0.0 <= ScaleDown(symbol, amount) <= amount
    ensures TokenDecimals(symbol) == 0 ==> ScaleDown(symbol, amount) == amount
  {
    PowersOfTen();
  }

  /** Scaling is monotone: a larger raw amount never scales to a smaller one. */
  lemma ScaleDownMonotone(symbol: string, a: real, b: real)
    requires a <= b
    ensures ScaleDown(symbol, a) <= ScaleDown(symbol, b)
  {
    ScaleDownByDecimals(symbol, a);
    ScaleDownByDecimals(symbol, b);
    var p := Pow10(TokenDecimals(symbol));
    assert a / p <= b / p;
  }

  /** The `input_amount_usd` / `output_amount_usd` CASE, with a missing price taken as 1. */
  function UsdAmount(symbol: string, amount: real, price: Option<real>): real {
    if symbol in {"WETH", "ETH"} then (amount / E18) * price.GetOr(1.0)
    else if symbol == "WBTC" then (amount / E8) * price.GetOr(1.0)
    else if symbol in {"USDT", "USDC"} then (amount / E6) * price.GetOr(1.0)
    else if symbol == "DAI" then (amount / E18) * price.GetOr(1.0)
    else amount * price.GetOr(1.0)
  }

  /** A USD amount is the scaled amount times the price, or the scaled amount itself when no price is known. */
  lemma UsdIsScaledTimesPrice(symbol: string, amount: real, price: Option<real>)
    ensures UsdAmount(symbol, amount, price) == ScaleDown(symbol, amount) * price.GetOr(1.0)
    ensures price.None? ==> UsdAmount(symbol, amount, price) == ScaleDown(symbol, amount)
  {
  }

  /** `COALESCE(t.total_gas_fee, 0) / 1e18`: the transaction's fee in ether. */
  function GasFee(totalGasFee: Option<int>): (fee: real)
    ensures totalGasFee.None? ==> fee == 0.0
    ensures totalGasFee.Some? && totalGasFee.value >= 0 ==> fee >= 0.0
  {
    totalGasFee.GetOr(0) as real / E18
  }

  /** The gas fee of a fetched transaction is its gas used times its gas price, in ether. */
  lemma GasFeeOfTransaction(gasUsed: int, gasPrice: int)
    ensures GasFee(Some(TotalGasFee(gasUsed, gasPrice))) * E18 == (gasUsed * gasPrice) as real
  {
  }

  /** `GREATEST(0, t.gas_price - b.base_fee_per_gas) * t.gas_used / 1e18`: the tip in ether. */
  function PriorityFee(gasPrice: int, baseFee: int, gasUsed: int): (fee: real)
    ensures gasUsed >= 0 ==> fee >= 0.0
    ensures gasPrice <= baseFee ==> fee == 0.0
  {
    PriorityFeeWei(gasPrice, baseFee, gasUsed) as real / E18
  }

  /** `GREATEST(0, t.gas_price - b.base_fee_per_gas) / 1e9`: the tip per gas in gwei. */
  function PriorityFeePerGas(gasPrice: int, baseFee: int): (fee: real)
    ensures fee >= 0.0
    ensures gasPrice <= baseFee ==> fee == 0.0
  {
    Max(0, gasPrice - baseFee) as real / E9
  }

  /** `b.base_fee_per_gas / 1e9`: the base fee in gwei. */
  function BaseFeeGwei(baseFee: int): (fee: real)
    ensures baseFee >= 0 ==> fee >= 0.0
  {
    baseFee as real / E9
  }

  /**
   * The two tip columns agree (the fee in ether is the per-gas tip in gwei
   * times the gas used, over 10^9), and with non-negative inputs the tip never
   * exceeds the gas fee.
   */
  lemma PriorityFeeConsistent(gasPrice: int, baseFee: int, gasUsed: int)
    ensures PriorityFee(gasPrice, baseFee, gasUsed) == PriorityFeePerGas(gasPrice, baseFee) * (gasUsed as real) / E9
    ensures 0 <= baseFee && 0 <= gasPrice && 0 <= gasUsed ==>
      PriorityFee(gasPrice, baseFee, gasUsed) <= GasFee(Some(TotalGasFee(gasUsed, gasPrice)))
  {
    var tip := Max(0, gasPrice - baseFee);
    assert (tip * gasUsed) as real == (tip as real) * (gasUsed as real);
    if 0 <= baseFee && 0 <= gasPrice && 0 <= gasUsed {
      PriorityWithinTotal(gasPrice, baseFee, gasUsed);
    }
  }

  /** The four buckets of the `amount_range` CASE. */
  datatype AmountRange = UpTo1k | From1kTo10k | From10kTo100k | From100k

  /** The label the CASE produces for each bucket. */
  function Label(r: AmountRange): string {
    match r
    case UpTo1k => "0-1k"
    case From1kTo10k => "1k-10k"
    case From10kTo100k => "10k-100k"
    case From100k => "100k+"
  }

  /**
   * The `amount_range` CASE of lines 13-18 (repeated at 80-85, 102-107,
   * 176-181 and 219-224): each threshold belongs to the higher bucket.
   */
  function AmountRangeOf(usd: real): (r: AmountRange)
    ensures usd == 1000.0 ==> r == From1kTo10k
    ensures usd == 10000.0 ==> r == From10kTo100k
    ensures usd == 100000.0 ==> r == From100k
  {
    if usd < 1000.0 then UpTo1k
    else if usd < 10000.0 then From1kTo10k
    else if usd < 100000.0 then From10kTo100k
    else From100k
  }

  /** The position of a bucket, smallest first. */
  function Rank(r: AmountRange): nat {
    match r
    case UpTo1k => 0
    case From1kTo10k => 1
    case From10kTo100k => 2
    case From100k => 3
  }

  /** The half-open interval `[lower, upper)` a bucket stands for; the outer buckets are unbounded. */
  predicate InBucket(r: AmountRange, usd: real) {
    match r
    case UpTo1k => usd < 1000.0
    case From1kTo10k => 1000.0 <= usd < 10000.0
    case From10kTo100k => 10000.0 <= usd < 100000.0
    case From100k => 100000.0 <= usd
  }

  /** The CASE picks exactly the bucket whose interval holds the amount, and the labels are distinct. */
  lemma AmountRangeSpec(usd: real, r: AmountRange)
    ensures AmountRangeOf(usd) == r <==> InBucket(r, usd)
    ensures forall s: AmountRange :: Label(s) == Label(r) ==> s == r
  {
  }

  /** A larger USD amount never falls into a lower bucket. */
  lemma AmountRangeMonotone(a: real, b: real)
    requires a <= b
    ensures Rank(AmountRangeOf(a)) <= Rank(AmountRangeOf(b))
  {
  }

  /**
   * `suggested_allocation_usd`: the larger of the average daily volume and the
   * largest transaction when there is volume, else 0.
   */
  function SuggestedAllocation(avgDailyVolume: real, maxTransactionSize: real): (a: real)
    ensures a >= avgDailyVolume
    ensures avgDailyVolume > 0.0 ==> a >= maxTransactionSize && (a == avgDailyVolume || a == maxTransactionSize)
    ensures avgDailyVolume <= 0.0 ==> a == 0.0
  {
    if avgDailyVolume > 0.0 then
      (if avgDailyVolume >= maxTransactionSize then avgDailyVolume else maxTransactionSize)
    else 0.0
  }

  /**
   * `daily_capital_turnover`: volume over the larger of volume and largest
   * transaction, `NULL` (None) when that is 0.
   */
  function CapitalTurnover(avgDailyVolume: real, maxTransactionSize: real): (t: Option<real>)
    ensures avgDailyVolume > 0.0 ==> t.Some? && 0.0 < t.value <= 1.0
  {
    var g := if avgDailyVolume >= maxTransactionSize then avgDailyVolume else maxTransactionSize;
    if g == 0.0 then None else Some(avgDailyVolume / g)
  }

  /**
   * `estimated_annual_profit_usd = suggested_allocation_usd *
   * daily_capital_turnover * annual_roi`: with volume, allocation and turnover
   * cancel, and the estimate is the daily volume times the annual ROI.
   */
  lemma EstimatedAnnualProfit(avgDailyVolume: real, maxTransactionSize: real, annualRoi: real)
    requires avgDailyVolume > 0.0
    ensures SuggestedAllocation(avgDailyVolume, maxTransactionSize) * CapitalTurnover(avgDailyVolume, maxTransactionSize).value * annualRoi
      == avgDailyVolume * annualRoi
  {
    var g := SuggestedAllocation(avgDailyVolume, maxTransactionSize);
    assert g > 0.0;
    assert CapitalTurnover(avgDailyVolume, maxTransactionSize).value == avgDailyVolume / g;
    assert g * (avgDailyVolume / g) == avgDailyVolume;
  }

  /** `[item for sublist in batch for item in sublist]` over `(deposit_id, destination_chain_id)` pairs. */
  function FlattenPairs(batch: seq<(int, int)>): (flat: seq<int>)
    ensures |flat| == 2 * |batch|
    ensures forall i :: 0 <= i < |batch| ==> flat[2 * i] == batch[i].0 && flat[2 * i + 1] == batch[i].1
  {
    if batch == [] then []
    else
      var prev := FlattenPairs(batch[..|batch| - 1]);
      var last := batch[|batch| - 1];
      assert forall i :: 0 <= i < |batch| - 1 ==> batch[..|batch| - 1][i] == batch[i];
      prev + [last.0, last.1]
  }

  /**
   * The query text and parameters of one batch: one `(%s,%s)` group per
   * combination, so the markers match the flattened values exactly.
   */
  function PairStatement(batch: seq<(int, int)>): (q: (string, seq<int>))
    ensures Markers(q.0) == |q.1| == 2 * |batch|
    ensures q.1 == FlattenPairs(batch)
  {
    (PairList(|batch|), FlattenPairs(batch))
  }

  /**
   * `insert_relay_data`: when the two initial queries fail, roll back and
   * return 0; otherwise the new combinations in slices of `batchSize`, each
   * one plain `INSERT ... SELECT` (which raises on a duplicate key) committed
   * on its own or rolled back, and the summed row counts. `selectRows` stands
   * for the join the `SELECT` computes for a slice.
   */
  method InsertRelayData<K(==), R>(db: Table<K, R>, initialQueryFails: bool, newCombinations: seq<(int, int)>,
                                   selectRows: seq<(int, int)> -> seq<(K, R)>, fails: seq<(K, R)> -> bool, batchSize: nat)
    returns (totalInserted: nat)
    requires batchSize > 0
    requires db.Idle()
    modifies db
    ensures db.Idle()
    ensures initialQueryFails ==> totalInserted == 0 && db.committed == old(db.committed)
    ensures !initialQueryFails ==>
      (db.committed, totalInserted) == CommitEach(old(db.committed), StatementBatches(selectRows, Chunks(newCombinations, batchSize)), fails, Plain)
  {
    if initialQueryFails {
      db.Rollback();
      return 0;
    }
    totalInserted := CommitEachBatch(db, StatementBatches(selectRows, Chunks(newCombinations, batchSize)), fails, Plain);
  }
}
