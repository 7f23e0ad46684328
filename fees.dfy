/**
 * The gas-fee arithmetic shared by the relay formulas: the total fee a
 * transaction paid (src/transaction_data_fetcher.py:23-25) and its priority
 * tip, the part above the block's base fee in the fee split of EIP-1559.
 * All values are integers in wei.
 */
module Fees {

  function Max(a: int, b: int): int { if a >= b then a else b }

  /** `total_gas_fee = gas_used * gas_price`. */
  function TotalGasFee(gasUsed: int, gasPrice: int): (fee: int)
    ensures gasUsed >= 0 && gasPrice >= 0 ==> fee >= 0
    ensures gasUsed == 0 || gasPrice == 0 ==> fee == 0
  {
    gasUsed * gasPrice
  }

  /** `GREATEST(0, gas_price - base_fee_per_gas) * gas_used`. */
  function PriorityFeeWei(gasPrice: int, baseFee: int, gasUsed: int): (fee: int)
    ensures gasUsed >= 0 ==> fee >= 0
    ensures gasPrice <= baseFee ==> fee == 0
  {
    Max(0, gasPrice - baseFee) * gasUsed
  }

  /**
   * When the price covers the base fee, the total fee splits exactly into the
   * burnt base fee and the priority tip.
   */
  lemma FeeSplit(gasPrice: int, baseFee: int, gasUsed: int)
    requires baseFee <= gasPrice
    ensures PriorityFeeWei(gasPrice, baseFee, gasUsed) + baseFee * gasUsed == TotalGasFee(gasUsed, gasPrice)
  {
    calc {
      PriorityFeeWei(gasPrice, baseFee, gasUsed) + baseFee * gasUsed;
      (gasPrice - baseFee) * gasUsed + baseFee * gasUsed;
      { assert (gasPrice - baseFee) * gasUsed == gasPrice * gasUsed - baseFee * gasUsed; }
      gasPrice * gasUsed;
    }
  }

  /** With a non-negative base fee, the tip never exceeds the total fee. */
  lemma PriorityWithinTotal(gasPrice: int, baseFee: int, gasUsed: int)
    requires 0 <= baseFee && 0 <= gasPrice && 0 <= gasUsed
    ensures 0 <= PriorityFeeWei(gasPrice, baseFee, gasUsed) <= TotalGasFee(gasUsed, gasPrice)
  {
    if baseFee <= gasPrice {
      FeeSplit(gasPrice, baseFee, gasUsed);
      assert baseFee * gasUsed >= 0;
    }
  }
}
