# relayer-analysis in Dafny

This is a verified model of the computational core of relayer-analysis, a set
of Python scripts that study relayers of the Across bridge. The model covers
four parts of that code:

- **Block resolution and block batching.** These are `binary_search_block`
  and the two variants of `get_block_range` (`BlockSearch`, `DataFetcher`,
  `EventDataFetcher`). The fetch loops cut a block range into batches of 1000
  blocks, which `Batching` models.
- **Duplicate-tolerant persistence.** `Store` models a table with a unique
  key. It has a durable view and an open transaction's view, so each batch
  can be committed or rolled back. A plain `INSERT` raises on a duplicate key;
  `INSERT IGNORE` skips the row and counts only the rows it added.
  `DbOperations`, `EventDataFetcher` and `AnalysisHelper` run their batch
  loops against it. Which batches fail is an abstract parameter.
- **Relay economics.** These are the column expressions of the analysis
  queries (`AnalysisHelper`, `Fees`, `DbOperations`):
  - decimal scaling per token;
  - USD amounts with a default price of 1;
  - the gas fee with a default of 0;
  - the priority tip above the base fee, from the fee split of EIP-1559;
  - the four-bucket `amount_range`;
  - the suggested allocation.

  `FeeFetcherHourly` models the inverse scaling of the hourly fee script.
- **Capital-allocation research.** `FundSimulation` models `simulate`, the
  two-hour refill simulation of a fund, and `calculate_max_fund`, the largest
  two-window volume. Both research scripts share these functions.
  `AllocationResearch` and `AllocationForSpecificRelayer` model the loops
  over fund levels and trade pairs. `AllocationSuggestion` models
  `optimize_allocation_dp`, the dynamic programme that spreads a budget over
  trade-pair combos in steps of 5000.

RPC calls are function parameters:

- `ts[b]` stands for the timestamp of block `b`;
- `fetch(from, to)` stands for the two `get_logs` calls;
- `getBlock(n)` stands for `get_block`, and is `None` when the call raises.

Amounts are exact `real`s: `Decimal`, SQL `DOUBLE` and CSV floats all become
`real`. Times are integer seconds.

## Where the code and its description differ

The model follows the code in each of these places.

- **The estimate window is not widened.** The time-window `get_block_range`
  searches only ±1000 blocks around its estimate, with no fallback. A block
  outside that window is never found, and the search returns the block just
  before the window. `DataFetcher.EstimateWindowCanMiss` exhibits this on a
  chain with one block per second.
- **The search window can lie below block 0.** When `start_time` is far
  earlier than the estimate reaches, `max(0, est - 1000)` can exceed
  `min(latest, est + 1000)`. The search window is then empty and the search
  returns its upper bound, which may be negative.
- **`earned_amount_usd` mixes units.** In `fetch_and_insert_relay_data`
  (src/db_operations.py) it subtracts `total_gas_fee` in wei, unconverted,
  from USD amounts. `DbOperations.RelayAmountsOf` states this: its
  `earnedAmountUsd` is `inputAmountUsd - outputAmountUsd - gasFee`, where
  `gasFee` is the total gas fee in wei.
- **`total_steps` truncates toward zero.** In `optimize_allocation_dp` it is
  `int(total_allocation / step)`, not a floor. Any budget above −5000 gives at
  least 0 steps. A budget of −5000 or less gives an empty table, and reading
  its last entry raises `IndexError`.
- **A query result is never used.** `insert_relay_data` fetches
  `existing_combinations` but does not use it.
- **`fetch_events_details` can never skip a chain.** Its check for a missing
  block range cannot fire, because the checkpoint variant of
  `get_block_range` never returns `None`.

## Model

| member | source | states |
|---|---|---|
| BlockSearch.Search | src/data_fetcher.py:17-27 | On an empty window the result is the original `right`, and no block is read. Otherwise the result lies in `[left - 1, right]`. The same code is at src/event_data_fetcher.py:17-27. |
| BlockSearch.BinarySearchBlock | src/data_fetcher.py:17-27 | The while loop terminates because `right - left` shrinks each iteration. It returns exactly what `Search` specifies and stays in the same bounds. |
| BlockSearch.SearchBrackets | src/data_fetcher.py:18-27 | On non-decreasing timestamps, the result either holds the target exactly, or every block from `left` to it is below the target and every block after it up to `right` is above. |
| BlockSearch.SearchFindsExact | src/data_fetcher.py:20-22 | If any block of the window has the target timestamp, the result is a block with that timestamp. |
| BlockSearch.SearchLastBelow | src/data_fetcher.py:18-27 | If no block has the target timestamp, the result is the last block below the target, or `left - 1` when there is none. |
| Batching.BlockBatches | src/data_fetcher.py:82-84 | The block loop's batches; `Batching.BlockBatchesTile` and `Batching.TilesPartition` state that they tile `[start, end]` in order, at most `size` blocks each. |
| Batching.BlockBatchesTile | src/data_fetcher.py:82-84 | The batches `[i, min(i + size - 1, end)]` start at `start`, follow each other without gap or overlap, span at most `size` blocks each, and end at `end`. |
| Batching.TilesPartition | src/data_fetcher.py:82-84 | The batches are strictly ordered and pairwise disjoint. A block lies in some batch exactly when it lies in `[start, end]`. |
| Batching.TilesFind | src/data_fetcher.py:82-84 | Every block of `[start, end]` has a batch holding it. |
| Batching.Chunks | src/db_operations.py:94-95 | The slices of the row loop; `Batching.ChunksPartition` states that they give back the list, and each is non-empty and at most `size` long. |
| Batching.ChunksPartition | src/db_operations.py:94-95 | The slices `xs[i:i + size]`, concatenated, give back the list. Each is non-empty and at most `size` long, and all but the last are exactly `size` long. |
| Batching.FetchInBatches | src/data_fetcher.py:76-88 | The lists the loop extends are the per-batch results, concatenated in batch order. |
| DataFetcher.Estimate | src/data_fetcher.py:40-42 | The estimate for a time no later than the latest block's is at most the latest block number. It is exactly that number for any time less than 15 seconds before the latest block's. |
| DataFetcher.EstimateWindows | src/data_fetcher.py:34-45 | The result is `None` exactly when the start is after the latest timestamp. Otherwise the end time is clamped to the latest timestamp. Both estimates are at most the latest block, and the start estimate is at most the end estimate when `start_time <= end_time`. Both windows are clipped to `[0, latest]`, and the start window contains its estimate when that is a block. |
| DataFetcher.GetBlockRange | src/data_fetcher.py:29-47 | `(None, None)` exactly when `start_time` is after the latest timestamp. Otherwise each block is the binary search over its clipped estimate window. Each is at most the latest block. Each is at least one below the window's low end, or the window's high end when the window is empty. |
| DataFetcher.ExactStartResolved | src/data_fetcher.py:41-44 | On a non-decreasing chain, a start time that is the timestamp of a block inside the estimate window resolves to a block with that exact timestamp. |
| DataFetcher.EstimateWindowCanMiss | src/data_fetcher.py:40-44 | There is a chain and a window for which the block sought lies outside the estimate window, and the result is the block just before that window. |
| DataFetcher.FetchEvents | src/data_fetcher.py:65-88 | With no block range the result is two empty lists. Otherwise it is the per-batch results over the range in batches of 1000, in batch order. |
| EventDataFetcher.GetBlockRange | src/event_data_fetcher.py:29-40 | The range ends at the latest block and `start <= end`. Start is the checkpoint when that is at most the latest block; otherwise, or with no checkpoint, it is the latest block. |
| EventDataFetcher.EventBatchesTile | src/event_data_fetcher.py:71-77 | The batches over the checkpoint range tile it exactly, with at least one batch of at most 1000 blocks. |
| EventDataFetcher.FetchEventsDetails | src/event_data_fetcher.py:58-97 | The result is always the per-batch results over the checkpoint range, in batch order. |
| EventDataFetcher.RowOf | src/event_data_fetcher.py:109-116 | The row keeps the chain and block number, and stores a missing `baseFeePerGas` as 0. |
| EventDataFetcher.DetailRows | src/event_data_fetcher.py:105-118 | The rows of one batch; `EventDataFetcher.DetailRowsSpec` states that they are exactly the blocks fetched, in batch order. |
| EventDataFetcher.DetailRowsSpec | src/event_data_fetcher.py:105-118 | The rows of a batch are exactly its successfully fetched blocks, in batch order. A failed `get_block` drops only its own block. |
| EventDataFetcher.CollectBlockDetails | src/event_data_fetcher.py:105-118 | The inner loop builds exactly those rows. |
| EventDataFetcher.InsertBlockDetails | src/db_operations.py:248-260 | One `INSERT IGNORE` of the rows followed by a commit, or a rollback with the store unchanged. The exception is swallowed. |
| EventDataFetcher.FetchBlockDetails | src/event_data_fetcher.py:99-123 | `processed_blocks == len(block_numbers)` even when blocks fail. The store ends as each slice's fetched rows committed batch by batch. |
| EventDataFetcher.FetchSlice | src/event_data_fetcher.py:103-122 | One slice is non-empty and is the next chunk of the list. The store afterwards is the store before with this slice's fetched rows committed after those of the earlier slices. |
| EventDataFetcher.GroupBlocksByChain | src/event_data_fetcher.py:164-168 | The keys are exactly the chains present. Each chain's list holds its block numbers in their original order. |
| Grouping.GroupBy | src/event_data_fetcher.py:164-168 | The keys are exactly the keys present, and each key's list is its values in input order. Keys are inserted once each, in order of first appearance, and there are no more of them than pairs. |
| Grouping.GroupAppend | src/event_data_fetcher.py:166-168 | A pair whose key is already present appends its value to that key's list and leaves the key order as it was. |
| Grouping.GroupInsert | src/event_data_fetcher.py:165-168 | A pair with a new key inserts it last, with a list holding just that value. |
| Grouping.SelectComplete | src/event_data_fetcher.py:164-168 | Nothing is lost or duplicated: the list for `k` has one entry per position holding `k`, and holds each such value. |
| Store.InsertIgnore | src/db_operations.py:84 | `INSERT IGNORE`; `Store.InsertIgnoreSpec` states that old rows are kept unchanged and new keys are added. |
| Store.InsertIgnoreSpec | src/db_operations.py:84 | After `INSERT IGNORE`, the keys are the old keys plus the new ones and every old row is unchanged. The count is the number of rows added, which is at most the number sent. |
| Store.InsertIgnoreStored | src/db_operations.py:84 | When every key is already stored, the statement changes nothing and reports 0. |
| Store.InsertIgnoreFresh | src/db_operations.py:84 | Rows with new, distinct keys are all added, each under its own key, and the count is their number. |
| Store.Statement | src/db_operations.py:119-125 | `INSERT IGNORE` never raises. A count is never more than the rows sent, and stored rows are never overwritten. |
| Store.CommitEach | src/db_operations.py:94-128 | One committed statement per batch. `Store.CommitEachBounds`, `Store.CommitEachAppend` and `Store.FailedBatchSkipped` state its bounds, how it splits, and that failures are skipped; `Store.CommitEachBatch` proves the loop equal to it. |
| Store.CommitEachBounds | src/db_operations.py:119-128 | The summed count is at most the number of rows sent, and rows stored before the loop stay stored, unchanged. |
| Store.CommitEachAppend | src/db_operations.py:94-128 | Running the batches in two parts gives the same store and the sum of the two counts. |
| Store.FailedBatchSkipped | src/db_operations.py:126-128 | A failing batch is rolled back and skipped: the result is the same as without it, so earlier batches stay committed and later ones still run. |
| Store.RerunInsertsNothing | src/db_operations.py:84-130 | Running the same insert-ignore batches again inserts nothing and leaves the store as it is. |
| Store.Table.Execute | src/db_operations.py:121 | A statement that raises changes nothing; otherwise the open transaction's view and the count are the statement's. The durable rows are unchanged. |
| Store.Table.Commit | src/db_operations.py:122 | The open transaction's rows become durable. |
| Store.Table.Rollback | src/db_operations.py:128 | The uncommitted rows are discarded. |
| Store.CommitEachBatch | src/db_operations.py:94-128 | The per-batch try/commit/rollback loop leaves exactly the store and summed count of `CommitEach`. |
| DbOperations.InsertDepositEvents | src/db_operations.py:82-130 | The first result is always `len(events)`. The store and count are those of committing the slices of `batch_size` one by one. |
| DbOperations.DepositEventsBounds | src/db_operations.py:91-130 | The slices cover the events in order, `total_inserted <= total_events`, and rows stored before the call are kept unchanged. |
| DbOperations.DepositEventsStored | src/db_operations.py:119-125 | With no failing slice, every event's key is stored afterwards. |
| DbOperations.CommittedBefore | src/db_operations.py:65-66 | The last commit before position `e` covers a multiple of 100 events, fewer than 100 before `e`. |
| DbOperations.InsertFillEvents | src/db_operations.py:22-80 | Without a failing event, it returns `len(events)` with every event inserted and committed. Otherwise it rolls back and raises, and only the events up to the last commit at a multiple of 100 persist. |
| DbOperations.GetUnprocessedTransactions | src/db_operations.py:149-168 | Only the two event tables are accepted; any other name is `ValueError("Unknown table name: …")`. The result is exactly the hashes of that table's rows on the chain that have no `transaction_details` row. |
| DbOperations.RelayStatement | src/db_operations.py:216-223 | The `IN` list has exactly one `%s` per deposit id passed. |
| DbOperations.FetchAndInsertRelayData | src/db_operations.py:170-233 | The pending deposit ids go in slices of 1000, each slice's rows inserted with `INSERT IGNORE` and committed or rolled back. The result is the summed count. |
| DbOperations.RelayAmountsOf | src/db_operations.py:196-201 | `gas_fee` is the total gas fee if present, else 0, and `earned = input - output - gas`. `priority_fee` is `(price - base) * gas_used` when the price is above the base fee, else 0. Each USD amount is the amount times its price, or the amount alone when no price is known. `earned_usd = input_usd - output_usd - gas`, with the gas fee unconverted. |
| DbOperations.RelayFeeSplit | src/db_operations.py:198 | When the price covers the base fee, the row's `priority_fee` plus the burnt base fee is the transaction's total gas fee. |
| Fees.TotalGasFee | src/transaction_data_fetcher.py:23-25 | `gas_used * gas_price` is non-negative for non-negative inputs, and 0 when either is 0. |
| Fees.PriorityFeeWei | src/db_operations.py:198 | `GREATEST(0, gas_price - base_fee) * gas_used` is non-negative, and 0 when the price does not exceed the base fee. |
| Fees.FeeSplit | src/db_operations.py:198 | When the price covers the base fee, the total fee is exactly the base fee times gas plus the tip. |
| Fees.PriorityWithinTotal | src/db_operations.py:196-198 | With non-negative inputs, the tip lies between 0 and the total fee. |
| Placeholders.JoinRepeatMarkers | src/db_operations.py:219 | `','.join([piece] * n)` carries `n` times the piece's `%s` markers. |
| Placeholders.InList | src/db_operations.py:219 | The `IN` list has exactly `n` markers. |
| Placeholders.PairList | src/analysis/analysis_helper.py:460 | The row-constructor list has exactly `2n` markers. |
| AnalysisHelper.TokenDecimals | src/analysis/analysis_helper.py:333-346 | The decimals behind the scaling CASE. `AnalysisHelper.ScaleDownByDecimals` states that the CASE divides by ten to this power. |
| AnalysisHelper.ScaleDown | src/analysis/analysis_helper.py:333-346 | The amount CASE. `AnalysisHelper.ScaleDownByDecimals` states that it divides by ten to the token's decimals, and `AnalysisHelper.ScaleDownMonotone` that it keeps order. |
| AnalysisHelper.ScaleDownByDecimals | src/analysis/analysis_helper.py:333-346 | Scaling divides by ten to the token's decimals: 18 for WETH, ETH and DAI, 8 for WBTC, 6 for USDT and USDC. It never grows a non-negative amount, and leaves other symbols unchanged. |
| AnalysisHelper.ScaleDownMonotone | src/analysis/analysis_helper.py:340-346 | A larger raw amount never scales to a smaller one. |
| AnalysisHelper.UsdAmount | src/analysis/analysis_helper.py:347-360 | The USD CASE; `AnalysisHelper.UsdIsScaledTimesPrice` states that it is the scaled amount times the price. |
| AnalysisHelper.UsdIsScaledTimesPrice | src/analysis/analysis_helper.py:347-360 | A USD amount is the scaled amount times the price, with a missing price taken as 1. |
| AnalysisHelper.GasFee | src/analysis/analysis_helper.py:363 | A missing `total_gas_fee` gives 0; a non-negative one gives a non-negative fee in ether. |
| AnalysisHelper.GasFeeOfTransaction | src/analysis/analysis_helper.py:363 | The gas fee of a fetched transaction, times 10^18, is its gas used times its gas price. |
| AnalysisHelper.PriorityFee | src/analysis/analysis_helper.py:364 | The tip in ether is non-negative for non-negative gas, and 0 when the price is at most the base fee. |
| AnalysisHelper.PriorityFeePerGas | src/analysis/analysis_helper.py:367 | The tip per gas is non-negative, and 0 when the price is at most the base fee. |
| AnalysisHelper.BaseFeeGwei | src/analysis/analysis_helper.py:365 | A non-negative base fee gives a non-negative fee in gwei. |
| AnalysisHelper.PriorityFeeConsistent | src/analysis/analysis_helper.py:364-367 | The tip in ether is the per-gas tip in gwei times gas used over 10^9. With non-negative inputs it never exceeds the gas fee. |
| AnalysisHelper.AmountRangeOf | src/analysis/analysis_helper.py:13-18 | The thresholds 1000, 10000 and 100000 each fall into the higher bucket. |
| AnalysisHelper.AmountRangeSpec | src/analysis/analysis_helper.py:13-18 | The CASE picks a bucket exactly when its half-open interval holds the amount, so it is total and picks one bucket. The four labels are distinct. |
| AnalysisHelper.AmountRangeMonotone | src/analysis/analysis_helper.py:13-18 | A larger amount never falls into a lower bucket. |
| AnalysisHelper.SuggestedAllocation | src/analysis/analysis_helper.py:43-50 | The result is at least the volume. With volume, it is the larger of volume and largest transaction; without, it is 0. |
| AnalysisHelper.CapitalTurnover | src/analysis/analysis_helper.py:52 | With volume, the turnover exists and lies in `(0, 1]`. |
| AnalysisHelper.EstimatedAnnualProfit | src/analysis/analysis_helper.py:62 | With volume, the allocation and the turnover cancel: the estimate is the daily volume times the annual ROI. |
| AnalysisHelper.FlattenPairs | src/analysis/analysis_helper.py:461 | The flattened list has twice the length, with each pair's two values at positions `2i` and `2i + 1`. |
| AnalysisHelper.PairStatement | src/analysis/analysis_helper.py:460-461 | The query has exactly as many markers as flattened parameters, two per combination. |
| AnalysisHelper.InsertRelayData | src/analysis/analysis_helper.py:443-480 | A failing initial query rolls back and returns 0. Otherwise the slices are inserted with plain `INSERT`, each committed or rolled back, and the result is the summed count. |
| FeeFetcherHourly.OriginalOutputAmount | src/fee_fetcher_hourly.py:64-69 | The raw-units CASE; `FeeFetcherHourly.OriginalByDecimals` and `FeeFetcherHourly.RoundTrip` state that it multiplies by ten to the decimals and that it undoes the scaling. |
| FeeFetcherHourly.OriginalByDecimals | src/fee_fetcher_hourly.py:64-69 | `original_output_amount` multiplies by ten to the token's decimals, and leaves other symbols unchanged. |
| FeeFetcherHourly.RoundTrip | src/fee_fetcher_hourly.py:64-69 | It is the exact inverse of the scaling in src/analysis/analysis_helper.py:340-346, in both directions, for every symbol. |
| FeeFetcherHourly.OutputAmountRange | src/fee_fetcher_hourly.py:78-83 | The hourly bucketing; `FeeFetcherHourly.SameBuckets` states that it agrees with the analysis queries' buckets. |
| FeeFetcherHourly.SameBuckets | src/fee_fetcher_hourly.py:78-83 | Its `amount_range` has the same thresholds and boundary rule as the analysis queries. |
| FundSimulation.RowProfit | src/analysis/research/allocation_research.py:112-114 | Profit plus output plus gas times 2700 is the input. With a non-negative gas fee, profit is at most input minus output. |
| FundSimulation.Orders | src/analysis/research/allocation_research.py:107-114 | There is one order per fill, with its amount, time and computed profit. |
| FundSimulation.Refill | src/analysis/research/allocation_research.py:32-34 | The refill check; `FundSimulation.StepRules` states when it fires and what it resets. |
| FundSimulation.Step | src/analysis/research/allocation_research.py:31-41 | One loop iteration; `FundSimulation.StepRules` states the accept and miss rules. |
| FundSimulation.Run | src/analysis/research/allocation_research.py:24-43 | The loop as a state machine. `FundSimulation.RunTotals` and `FundSimulation.RunFundBounds` state its totals and fund bounds, and `FundSimulation.Simulate` is proved equal to it. |
| FundSimulation.Simulate | src/analysis/research/allocation_research.py:24-43 | The loop returns the profit taken, the missed count and the missed profit of the state machine `Run`, which starts with the first row's time as last refill. |
| FundSimulation.RunTotals | src/analysis/research/allocation_research.py:31-41 | Accepted plus missed orders is the number of rows, and profit taken plus profit missed is the sum of all row profits. The same holds at src/analysis/research/allocation_for_specific_relayer.py:29-41. |
| FundSimulation.RunFundBounds | src/analysis/research/allocation_research.py:24-37 | With a non-negative fund and amounts, the available fund stays within `[0, initial_fund]`. |
| FundSimulation.StepRules | src/analysis/research/allocation_research.py:32-41 | A refill happens only two hours or more after the last one, resets the fund and moves the refill time to the row. A row is taken exactly when the fund after that check covers it. |
| FundSimulation.FirstOrderNoRefill | src/analysis/research/allocation_research.py:29-34 | The first row never triggers a refill. |
| FundSimulation.WindowSums | src/analysis/research/allocation_research.py:19-20 | There are at most as many window sums as rows, and none exactly when there are no rows. Its `groupby` meaning on time-ordered rows is `FundSimulation.WindowSumsGroupBy`. |
| FundSimulation.WindowStarts | src/analysis/research/allocation_research.py:19 | One window per sum, and the last is the last row's window. |
| FundSimulation.WindowSumsTotal | src/analysis/research/allocation_research.py:19-20 | The window sums add up to the total amount of all rows. |
| FundSimulation.WindowSumsGroupBy | src/analysis/research/allocation_research.py:19-20 | On rows in `fill_block_time` order there is one sum per window that some row falls in. The windows are strictly increasing, and each sum is the total amount of exactly the rows in its window. This is `groupby(floor("2h")).sum()`. |
| FundSimulation.StartsIncreasing | src/analysis/research/allocation_research.py:19-20 | On time-ordered rows, the windows of the sums strictly increase, as `groupby` sorts its index. |
| FundSimulation.StartsCover | src/analysis/research/allocation_research.py:19-20 | The windows of the sums are exactly the windows some row falls in. |
| FundSimulation.SumsAmounts | src/analysis/research/allocation_research.py:19-20 | On time-ordered rows, each sum is the total amount of the rows in its window. |
| FundSimulation.AmountInAbsent | src/analysis/research/allocation_research.py:20 | A window that holds no row sums to 0. |
| FundSimulation.MaxPairSum | src/analysis/research/allocation_research.py:21 | The result is one of the first `n` pair sums and at least each of them. |
| FundSimulation.MaxFund | src/analysis/research/allocation_research.py:18-21 | `calculate_max_fund`. `FundSimulation.MaxFundNonNegative` states that it exists and is non-negative for non-empty rows, and `FundSimulation.WindowSumsGroupBy` gives the sums it reads their `groupby` meaning. |
| FundSimulation.CalculateMaxFund | src/analysis/research/allocation_research.py:18-21 | With no windows the result is `None`, where `nanmax` raises. Otherwise it is the largest `sum[k] + sum[k-1]`, the first window pairing with the last; a single window gives twice its sum. |
| FundSimulation.MaxFundNonNegative | src/analysis/research/allocation_research.py:18-21 | With non-negative amounts the maximum fund exists and is non-negative. |
| FundSimulation.FundLevel | src/analysis/research/allocation_research.py:119 | Level 0 is the maximum fund exactly. Every level lies within `[0, max_fund]`. |
| FundSimulation.ProfitRatio | src/analysis/research/allocation_research.py:124 | `total_profit / fund` when the fund is positive, else 0. |
| AllocationResearch.ProfitLossPercentage | src/analysis/research/allocation_research.py:131-135 | `missed / (total + missed) * 100` when that denominator is positive, else 0. |
| AllocationResearch.ProfitLossBounds | src/analysis/research/allocation_research.py:131-135 | With no negative profits the percentage lies in `[0, 100]`, and it is 0 when nothing was missed. |
| AllocationResearch.AnalyzePair | src/analysis/research/allocation_research.py:112-138 | A pair without rows fails, as `calculate_max_fund` raises. Otherwise there are 20 results: the first fund is the maximum fund, and each level is simulated with its two ratios. |
| AllocationForSpecificRelayer.ExpectedLevels | src/analysis/research/allocation_for_specific_relayer.py:95-111 | There are 20 levels, the first at the maximum fund. Each level's totals are the simulation's and its ratio is `ProfitRatio`. |
| AllocationForSpecificRelayer.SimulateLevels | src/analysis/research/allocation_for_specific_relayer.py:95-111 | The fund-level loop produces exactly those levels. |
| AllocationForSpecificRelayer.ExpectedReport | src/analysis/research/allocation_for_specific_relayer.py:143-149 | The reported max allocation is the maximum fund, and its ratio is that of the simulation at the maximum fund. |
| AllocationForSpecificRelayer.ReportsFaithful | src/analysis/research/allocation_for_specific_relayer.py:65-111 | Every report is about an earlier pair with rows, and is that pair's report. |
| AllocationForSpecificRelayer.ReportsOrdered | src/analysis/research/allocation_for_specific_relayer.py:65 | Reports are in strictly increasing pair order, so no pair is reported twice. |
| AllocationForSpecificRelayer.ReportsCover | src/analysis/research/allocation_for_specific_relayer.py:81-82 | Every pair with rows is reported; only empty pairs are skipped. |
| AllocationForSpecificRelayer.Kept | src/analysis/research/allocation_for_specific_relayer.py:65-82 | The pairs that are not skipped: each is an index below `p` whose query returned rows. |
| AllocationForSpecificRelayer.KeptOrdered | src/analysis/research/allocation_for_specific_relayer.py:65 | The pairs that are not skipped appear in strictly increasing order. |
| AllocationForSpecificRelayer.KeptCovers | src/analysis/research/allocation_for_specific_relayer.py:81-82 | Every pair below `p` whose query returned rows is not skipped. |
| AllocationForSpecificRelayer.ReportsStep | src/analysis/research/allocation_for_specific_relayer.py:65-111 | One more pair appends its own report when its query returned rows, and nothing otherwise. |
| AllocationForSpecificRelayer.AnalyzePairs | src/analysis/research/allocation_for_specific_relayer.py:65-149 | The loop skips empty pairs and reports each other pair once, in order, with its own simulation. |
| AllocationSuggestion.Truncate | src/analysis/research/allocation_sugestion.py:8 | `int(x)` truncates toward zero: the result is within one of `x` on the side of 0. |
| AllocationSuggestion.TotalSteps | src/analysis/research/allocation_sugestion.py:7-8 | The step count is non-negative exactly when the budget is above −5000, and is the whole number of steps in a non-negative budget. It is 0 exactly when the budget lies strictly between −5000 and 5000. |
| AllocationSuggestion.ValueAtZero | src/analysis/research/allocation_sugestion.py:38-40 | An allocation of no steps earns at most 0. |
| AllocationSuggestion.BestChoice | src/analysis/research/allocation_sugestion.py:29-47 | `max_profit` is non-negative and at least every usable candidate. With no improving candidate it stays 0 with no row. Otherwise it is attained by the first `(j, row)` in loop order to reach it, under the strict `>`. |
| AllocationSuggestion.ScanRows | src/analysis/research/allocation_sugestion.py:37-47 | After the rows loop for `j` steps, every pair up to `j` steps and every row is below or at the best, and the best is still the first pair in loop order to reach it. |
| AllocationSuggestion.VisitRow | src/analysis/research/allocation_sugestion.py:38-47 | One row at `j` steps: a usable row whose candidate beats the best becomes the best, and everything else leaves the best as it was. Either way the search has now accounted for one more pair. |
| AllocationSuggestion.SettleBudget | src/analysis/research/allocation_sugestion.py:30-54 | The entry for budget `i` is at least the old one and every candidate. It is either the old entry or the first best candidate in loop order (ascending allocation, then row order, under the strict `>`). That candidate's plan is the old plan for the remaining budget plus one entry for this combo. |
| AllocationSuggestion.ChoiceSettled | src/analysis/research/allocation_sugestion.py:49-54 | The best choice settles the budget. When it beats the old entry it is kept, as the first pair in loop order to reach its value, with the plan for the remaining budget extended by this combo. Otherwise the old entry stays. |
| AllocationSuggestion.CombineCombo | src/analysis/research/allocation_sugestion.py:26-54 | For every budget the new entry is at least the old one and at least every candidate. It either keeps the old entry or replaces it with the first candidate in loop order that reaches the new value. That candidate's plan is the old plan for the remaining budget plus one entry for this combo. |
| AllocationSuggestion.TieKeepsFirst | src/analysis/research/allocation_sugestion.py:35-47 | On one row whose every usable allocation earns its full profit, one step and two steps tie. The settled entry is the one-step plan, which the strict `>` keeps. |
| AllocationSuggestion.FoldCombo | src/analysis/research/allocation_sugestion.py:25-57 | After combo `c`, every entry of the table is still a valid plan drawn from the first `c + 1` combos, and the whole-budget profit beats each of those combos. |
| AllocationSuggestion.PlanSnoc | src/analysis/research/allocation_sugestion.py:49-54 | That extension of a plan is again a plan: profits sum to `dp[i]`, allocations are whole steps within budget, and combos are in order. |
| AllocationSuggestion.InvStep | src/analysis/research/allocation_sugestion.py:22-57 | After each combo, every `allocations[i]` is a plan worth `dp[i] >= 0`, `dp[0]` stays 0, and no entry decreases. |
| AllocationSuggestion.SettledAtZero | src/analysis/research/allocation_sugestion.py:29-50 | For a budget of zero steps the old entry is always kept. |
| AllocationSuggestion.ResultValid | src/analysis/research/allocation_sugestion.py:10-25 | The final plan's combos are input combos, once each, in order of first appearance. |
| AllocationSuggestion.BeatsStep | src/analysis/research/allocation_sugestion.py:35-50 | After a combo, the whole-budget entry earns at least what any single row of it earns with any usable allocation. |
| AllocationSuggestion.ResultBeatsRows | src/analysis/research/allocation_sugestion.py:10-20 | Every input row is in its combo's group, so the total beats every row alone. |
| AllocationSuggestion.OptimizeAllocationDp | src/analysis/research/allocation_sugestion.py:3-60 | The call fails with `IndexError` exactly when the step count is negative. Otherwise the plan's profits sum to the returned total, which is non-negative; allocations are positive multiples of 5000 summing to at most the budget; and combos are distinct and in first-seen order. With no rows or no whole step, the result is `([], 0)`. The total is at least what any single row earns alone. |

## Left out

- FundSimulation.Simulate: requires a non-empty frame, because `simulate` reads the first row's time before its loop (the `iloc[0]` IndexError is not modelled). Neither script reaches that error. In the pair loop of src/analysis/research/allocation_research.py, `calculate_max_fund` (line 118) raises first on an empty frame. src/analysis/research/allocation_for_specific_relayer.py:81-82 skips a pair with no rows.
- RPC (`get_block`, `get_logs`, `get_transaction`) and the price and fee APIs. Block timestamps, fetched events and block headers are inputs.
- MySQL connections and cursors, the "Commands out of sync" retry of `execute_query`, and exceptions that are not database errors. The store is a keyed map with commit and rollback, and which batches fail is an input.
- DbOperations.InsertFillEvents: it returns only `total_processed`. The `cursor.rowcount` sums depend on driver behaviour for per-row `execute`.
- The checkpoint itself. `get_last_synced_block` is not part of this model and no code advances it, so the checkpoint is an input.
- The SQL aggregates (AVG, SUM, GROUP BY, joins, daily and annual ROI), and also SQL NULL beyond the modelled COALESCE defaults, and collation. String comparison is exact.
- Turning events and rows into tuples and dicts. Events arrive already keyed.
- Floating point throughout, except `int()` truncation:
  - the progress and ETA printing;
  - `DOUBLE` rounding of `/1e18`;
  - the LOG10/POWER ranges of the hourly fee script;
  - the quantile and percentile code.
- FundSimulation.WindowSums: it merges runs of consecutive rows of the same window. That equals `groupby` only for time-ordered rows; on times `[0, 7200, 100]` it gives three sums where `groupby` gives two. Both scripts sort their query by `fill_block_time` (src/analysis/research/allocation_research.py:101 and src/analysis/research/allocation_for_specific_relayer.py:75), and `FundSimulation.WindowSumsGroupBy` proves the `groupby` meaning under that assumption (`FundSimulation.TimeOrdered`).
- FundSimulation.FundLevel: over exact reals it is `max_fund * (1 - i/20)`. The float rounding of `1 - i * 0.05` beyond level 0 is not modelled.
- Wall clock, `time.sleep` and `datetime` conversions. Times are integer seconds, and a `"2h"` floor is `t / 7200`.
- Reports, CSV, DOCX and plots, including the CSV rows written by the research script.
- The `idxmax` best-ratio point, and the configuration loops over chains and trade pairs with their queries.
- Batching.BlockBatches, Batching.Chunks, DbOperations.InsertDepositEvents, EventDataFetcher.FetchBlockDetails, AnalysisHelper.InsertRelayData: these require a positive batch size. Python's `range` raises on a step of 0, and the callers always pass 100 or 1000.
- AllocationSuggestion.CombineCombo: it requires the old table to be non-negative. It is the body of the combo loop, whose invariant provides that.
- AllocationSuggestion.SettleBudget, AllocationSuggestion.ChoiceSettled: these require the old entry for the budget to be non-negative. They are parts of the combo loop's body, whose invariant provides that.
- AllocationSuggestion.FoldCombo: it requires the combo loop's invariant. It is that loop's body, and the loop keeps the invariant.
- AllocationSuggestion.OptimizeAllocationDp: global optimality of the dynamic programme is not proved. What is proved is the plan's validity and that the total beats any single row.
- The report files, chain intensity, relay time, priority fee, marginal-effect and coin-price scripts. They are output rendering or RPC glue.
