/**
 * src/fee_fetcher_hourly.py: the two CASE expressions of `get_token_pairs`,
 * which undo the decimal scaling of the analysis results and bucket each
 * relay by its USD output amount.
 */
module FeeFetcherHourly {
  import opened AnalysisHelper

  /** The `original_output_amount` CASE: a whole-token amount back in raw units. */
  function OriginalOutputAmount(symbol: string, outputAmount: real): real {
    if symbol in {"WETH", "ETH", "DAI"} then outputAmount * E18
    else if symbol == "WBTC" then outputAmount * E8
    else if symbol in {"USDT", "USDC"} then outputAmount * E6
    else outputAmount
  }

  /** It multiplies by ten to the token's decimals: unknown symbols pass through unchanged. */
  lemma OriginalByDecimals(symbol: string, outputAmount: real)
    ensures OriginalOutputAmount(symbol, outputAmount) == outputAmount * Pow10(TokenDecimals(symbol))
    ensures TokenDecimals(symbol) == 0 ==> OriginalOutputAmount(symbol, outputAmount) == outputAmount
  {
    PowersOfTen();
  }

  /**
   * The two CASEs are inverse for every symbol, in exact arithmetic: undoing
   * the scaling of a raw amount gives it back, and scaling an original amount
   * gives back the stored one.
   */
  lemma RoundTrip(symbol: string, amount: real)
    ensures OriginalOutputAmount(symbol, ScaleDown(symbol, amount)) == amount
    ensures ScaleDown(symbol, OriginalOutputAmount(symbol, amount)) == amount
  {
    var p := Pow10(TokenDecimals(symbol));
    var down := ScaleDown(symbol, amount);
    var up := OriginalOutputAmount(symbol, amount);
    ScaleDownByDecimals(symbol, amount);
    OriginalByDecimals(symbol, down);
    Cancel(amount, p);
    assert OriginalOutputAmount(symbol, down) == amount;
    OriginalByDecimals(symbol, amount);
    ScaleDownByDecimals(symbol, up);
    assert ScaleDown(symbol, up) == amount;
  }

  /** Multiplying and dividing by the same non-zero factor cancel, in either order. */
  lemma Cancel(a: real, p: real)
    requires p != 0.0
    ensures (a / p) * p == a && (a * p) / p == a
  {
  }

  /** The `amount_range` CASE of `get_token_pairs`, over `output_amount_usd`. */
  function OutputAmountRange(outputAmountUsd: real): AmountRange {
    if outputAmountUsd < 1000.0 then UpTo1k
    else if outputAmountUsd < 10000.0 then From1kTo10k
    else if outputAmountUsd < 100000.0 then From10kTo100k
    else From100k
  }

  /** It has the same thresholds and boundary rule as the analysis queries' bucketing. */
  lemma SameBuckets(usd: real)
    ensures OutputAmountRange(usd) == AmountRangeOf(usd)
    ensures InBucket(OutputAmountRange(usd), usd)
  {
    AmountRangeSpec(usd, AmountRangeOf(usd));
  }
}
