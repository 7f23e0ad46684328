/**
 * src/data_fetcher.py: resolving a time window to a block range and fetching
 * both event kinds over it in batches of 1000 blocks.
 *
 * The chain is `ts`, the timestamps of blocks `0 .. |ts| - 1`; its latest
 * block is the last one. `fetch(from, to)` stands for the two `get_logs`
 * calls of `fetch_events_batch`.
 */
module DataFetcher {
  import opened Wrappers
  import opened BlockSearch
  import opened Batching

  /** Assumed seconds per block of the estimate. */
  const AvgBlockTime: int := 15
  /** Half-width of the window searched around each estimate. */
  const SearchRadius: int := 1000
  /** Blocks per `get_logs` batch. */
  const BatchSize: int := 1000

  function Max(a: int, b: int): int { if a >= b then a else b }

  /** The block range `(start_block, end_block)` of a time window. */
  datatype BlockRange = BlockRange(startBlock: int, endBlock: int)

  /** The clamped end time, the two estimates and the two search windows. */
  datatype Windows = Windows(endTime: int, estStart: int, estEnd: int,
                             startLo: int, startHi: int, endLo: int, endHi: int)

  /** Linear extrapolation back from the latest block at `AvgBlockTime` seconds per block. */
  function Estimate(latestNumber: int, latestTs: int, t: int): (e: int)
    ensures t <= latestTs ==> e <= latestNumber
    ensures t == latestTs ==> e == latestNumber
    ensures latestTs - AvgBlockTime < t <= latestTs ==> e == latestNumber
  {
    latestNumber - (latestTs - t) / AvgBlockTime
  }

  /**
   * The arithmetic of `get_block_range` before the searches: `None` exactly
   * when the window starts after the latest block; otherwise the end time is
   * clamped to the latest timestamp, and each window is the estimate plus or
   * minus `SearchRadius`, clipped to `[0, latestNumber]`.
   */
  function EstimateWindows(latestNumber: int, latestTs: int, startTime: int, endTime: int): (w: Option<Windows>)
    ensures w.None? <==> startTime > latestTs
    ensures w.Some? ==> w.value.endTime == Min(endTime, latestTs)
    ensures w.Some? ==> w.value.estStart <= latestNumber && w.value.estEnd <= latestNumber
    ensures w.Some? && startTime <= endTime ==> w.value.estStart <= w.value.estEnd
    ensures w.Some? ==> 0 <= w.value.startLo && w.value.startHi <= latestNumber
                        && 0 <= w.value.endLo && w.value.endHi <= latestNumber
    ensures w.Some? && latestNumber >= 0 && 0 <= w.value.estStart ==> w.value.startLo <= w.value.estStart <= w.value.startHi
  {
    if startTime > latestTs then None
    else
      var end := if endTime > latestTs then latestTs else endTime;
      var estStart := Estimate(latestNumber, latestTs, startTime);
      var estEnd := Estimate(latestNumber, latestTs, end);
      Some(Windows(end, estStart, estEnd,
                   Max(0, estStart - SearchRadius), Min(latestNumber, estStart + SearchRadius),
                   Max(0, estEnd - SearchRadius), Min(latestNumber, estEnd + SearchRadius)))
  }

  /**
   * `get_block_range` (time-window variant): the two estimate windows searched
   * for the start time and the clamped end time.
   */
  function GetBlockRange(ts: seq<int>, startTime: int, endTime: int): (r: Option<BlockRange>)
    requires |ts| > 0
    ensures r.None? <==> startTime > ts[|ts| - 1]
    ensures r.Some? ==> r.value.startBlock <= |ts| - 1 && r.value.endBlock <= |ts| - 1
    ensures r.Some? ==>
      var w := EstimateWindows(|ts| - 1, ts[|ts| - 1], startTime, endTime).value;
      && r.value.startBlock == Search(ts, startTime, w.startLo, w.startHi)
      && r.value.endBlock == Search(ts, w.endTime, w.endLo, w.endHi)
      && (if w.startLo <= w.startHi then w.startLo - 1 <= r.value.startBlock else r.value.startBlock == w.startHi)
      && (if w.endLo <= w.endHi then w.endLo - 1 <= r.value.endBlock else r.value.endBlock == w.endHi)
  {
    var latest := |ts| - 1;
    match EstimateWindows(latest, ts[latest], startTime, endTime)
    case None => None
    case Some(w) =>
      Some(BlockRange(Search(ts, startTime, w.startLo, w.startHi),
                      Search(ts, w.endTime, w.endLo, w.endHi)))
  }

  /**
   * On a non-decreasing chain, a start time that is the timestamp of a block
   * inside the estimate window resolves to a block with exactly that timestamp.
   */
  lemma ExactStartResolved(ts: seq<int>, startTime: int, endTime: int, b: int)
    requires |ts| > 0 && NonDecreasing(ts)
    requires EstimateWindows(|ts| - 1, ts[|ts| - 1], startTime, endTime).Some?
    requires var w := EstimateWindows(|ts| - 1, ts[|ts| - 1], startTime, endTime).value;
      w.startLo <= b <= w.startHi && ts[b] == startTime
    ensures GetBlockRange(ts, startTime, endTime).Some?
    ensures var s := GetBlockRange(ts, startTime, endTime).value.startBlock;
      0 <= s < |ts| && ts[s] == startTime
  {
    var w := EstimateWindows(|ts| - 1, ts[|ts| - 1], startTime, endTime).value;
    SearchFindsExact(ts, startTime, w.startLo, w.startHi, b);
  }

  /**
   * The window can miss the block being looked for: on a chain with one block
   * per second, block 0 has timestamp 0, yet a window starting at time 0
   * resolves to block 1799, the block just before the search window
   * `[1800, 3000]` (the estimate is 3000 - 3000 / 15 = 2800).
   */
  lemma EstimateWindowCanMiss()
    ensures var ts := seq(3001, k => k);
      GetBlockRange(ts, 0, 3000) == Some(BlockRange(1799, 3000)) && ts[0] == 0
  {
    var ts := seq(3001, (k: int) => k);
    assert NonDecreasing(ts);
    var w := EstimateWindows(3000, 3000, 0, 3000).value;
    assert w.startLo == 1800 && w.startHi == 3000;
    SearchLastBelow(ts, 0, 1800, 3000);
    var s := Search(ts, 0, 1800, 3000);
    assert ts[1800] > 0;
    assert s == 1799;
    assert w.endTime == 3000 && w.endLo == 2000 && w.endHi == 3000;
    SearchFindsExact(ts, 3000, 2000, 3000, 3000);
    var e := Search(ts, 3000, 2000, 3000);
    assert e == 3000;
    assert GetBlockRange(ts, 0, 3000) == Some(BlockRange(s, e));
  }

  /**
   * `fetch_events`: no range gives two empty lists; otherwise the per-batch
   * results over `[startBlock, endBlock]` in batches of `BatchSize`,
   * concatenated in batch order.
   */
  method FetchEvents<F, D>(ts: seq<int>, startTime: int, endTime: int, fetch: (int, int) -> (seq<F>, seq<D>))
    returns (filled: seq<F>, deposited: seq<D>)
    requires |ts| > 0
    ensures GetBlockRange(ts, startTime, endTime).None? ==> filled == [] && deposited == []
    ensures GetBlockRange(ts, startTime, endTime).Some? ==>
      var r := GetBlockRange(ts, startTime, endTime).value;
      (filled, deposited) == Collect(fetch, BlockBatches(r.startBlock, r.endBlock, BatchSize))
  {
    var range := GetBlockRange(ts, startTime, endTime);
    if range.None? {
      return [], [];
    }
    filled, deposited := FetchInBatches(fetch, range.value.startBlock, range.value.endBlock, BatchSize);
  }
}
