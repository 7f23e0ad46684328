/**
 * src/event_data_fetcher.py: the checkpoint variant of `get_block_range`, the
 * event batch loop of `fetch_events_details`, `fetch_block_details`, and the
 * grouping of unfetched blocks by chain in `main`.
 *
 * The binary search of this file is the same code as in src/data_fetcher.py
 * and is modelled once, in `BlockSearch`. RPC calls are function parameters:
 * `fetch(from, to)` for the two `get_logs` calls and `getBlock(n)` for
 * `w3.eth.get_block(n)`, `None` when that call raises.
 */
module EventDataFetcher {
  import opened Wrappers
  import opened Batching
  import opened Grouping
  import opened Store

  /** Blocks per `get_logs` batch. */
  const EventBatchSize: int := 1000
  /** Blocks per `insert_block_details` call, as `main` passes it. */
  const BlockBatchSize: nat := 100

  /** The block range `(start_block, end_block)`. */
  datatype BlockRange = BlockRange(startBlock: int, endBlock: int)

  /**
   * `get_block_range`: from the latest block number and the last synced block
   * of the chain (`None` when there is none), the range ends at the latest
   * block and starts at the checkpoint, clamped down to the latest block.
   */
  function GetBlockRange(latestNumber: int, checkpoint: Option<int>): (r: BlockRange)
    ensures r.endBlock == latestNumber
    ensures r.startBlock <= r.endBlock
    ensures checkpoint.None? ==> r.startBlock == latestNumber
    ensures checkpoint.Some? && checkpoint.value > latestNumber ==> r.startBlock == latestNumber
    ensures checkpoint.Some? && checkpoint.value <= latestNumber ==> r.startBlock == checkpoint.value
  {
    BlockRange(Min(checkpoint.GetOr(latestNumber), latestNumber), latestNumber)
  }

  /**
   * The batches of `fetch_events_details` tile the whole range: there is at
   * least one, they are consecutive and disjoint, at most 1000 blocks each, and
   * they cover `start .. end` exactly.
   */
  lemma EventBatchesTile(latestNumber: int, checkpoint: Option<int>)
    ensures var r := GetBlockRange(latestNumber, checkpoint);
      var bs := BlockBatches(r.startBlock, r.endBlock, EventBatchSize);
      && |bs| > 0
      && Tiles(bs, r.startBlock, r.endBlock, EventBatchSize)
      && (forall i, j :: 0 <= i < j < |bs| ==> bs[i].to < bs[j].from)
      && (forall b :: r.startBlock <= b <= r.endBlock <==> InSome(bs, b))
  {
    var r := GetBlockRange(latestNumber, checkpoint);
    BlockBatchesTile(r.startBlock, r.endBlock, EventBatchSize);
    TilesPartition(BlockBatches(r.startBlock, r.endBlock, EventBatchSize), r.startBlock, r.endBlock, EventBatchSize);
  }

  /**
   * `fetch_events_details`: the range never comes back as `None` here, so the
   * result is always the per-batch results over the checkpoint range,
   * concatenated in batch order.
   */
  method FetchEventsDetails<F, D>(latestNumber: int, checkpoint: Option<int>, fetch: (int, int) -> (seq<F>, seq<D>))
    returns (filled: seq<F>, deposited: seq<D>)
    ensures var r := GetBlockRange(latestNumber, checkpoint);
      (filled, deposited) == Collect(fetch, BlockBatches(r.startBlock, r.endBlock, EventBatchSize))
  {
    var range := GetBlockRange(latestNumber, checkpoint);
    filled, deposited := FetchInBatches(fetch, range.startBlock, range.endBlock, EventBatchSize);
  }

  /** The fields of a block that `fetch_block_details` reads. */
  datatype BlockHeader = BlockHeader(timestamp: int, gasUsed: int, gasLimit: int, baseFeePerGas: Option<int>)

  /** A row of `block_details`, keyed by `(chain_id, block_number)`. */
  datatype BlockRow = BlockRow(chainId: int, blockNumber: int, timestamp: int, gasUsed: int, gasLimit: int, baseFeePerGas: int)

  /** The row for block `n`, with a missing base fee stored as 0. */
  function RowOf(chainId: int, n: int, h: BlockHeader): (row: BlockRow)
    ensures row.chainId == chainId && row.blockNumber == n
    ensures row.baseFeePerGas == (if h.baseFeePerGas.Some? then h.baseFeePerGas.value else 0)
  {
    BlockRow(chainId, n, h.timestamp, h.gasUsed, h.gasLimit, h.baseFeePerGas.GetOr(0))
  }

  /** The rows built for one batch: one per block whose `get_block` succeeded, in batch order. */
  function DetailRows(chainId: int, batch: seq<int>, getBlock: int -> Option<BlockHeader>): seq<BlockRow> {
    if batch == [] then []
    else
      var n := batch[|batch| - 1];
      DetailRows(chainId, batch[..|batch| - 1], getBlock)
        + (match getBlock(n) case Some(h) => [RowOf(chainId, n, h)] case None => [])
  }

  /**
   * `rows` are the blocks of `batch` at positions `idx` (strictly increasing),
   * each fetched, and every position whose block was fetched is among them.
   */
  ghost predicate Picks(chainId: int, batch: seq<int>, getBlock: int -> Option<BlockHeader>, rows: seq<BlockRow>, idx: seq<nat>) {
    && |idx| == |rows|
    && (forall i :: 0 <= i < |idx| ==>
          && idx[i] < |batch|
          && getBlock(batch[idx[i]]).Some?
          && rows[i] == RowOf(chainId, batch[idx[i]], getBlock(batch[idx[i]]).value))
    && (forall i, j :: 0 <= i < j < |idx| ==> idx[i] < idx[j])
    && (forall p :: 0 <= p < |batch| && getBlock(batch[p]).Some? ==> p in idx)
  }

  /** The rows of a batch are exactly its successfully fetched blocks, in order. */
  lemma {:induction false} DetailRowsSpec(chainId: int, batch: seq<int>, getBlock: int -> Option<BlockHeader>)
    returns (idx: seq<nat>)
    ensures Picks(chainId, batch, getBlock, DetailRows(chainId, batch, getBlock), idx)
  {
    if batch == [] {
      idx := [];
    } else {
      var m := |batch| - 1;
      var init := batch[..m];
      var prev := DetailRowsSpec(chainId, init, getBlock);
      PicksExtend(chainId, init, batch[m], getBlock, DetailRows(chainId, init, getBlock), prev);
      assert init + [batch[m]] == batch;
      if getBlock(batch[m]).Some? {
        idx := prev + [m];
      } else {
        idx := prev;
      }
    }
  }

  lemma PicksExtend(chainId: int, init: seq<int>, n: int, getBlock: int -> Option<BlockHeader>, rows: seq<BlockRow>, idx: seq<nat>)
    requires Picks(chainId, init, getBlock, rows, idx)
    ensures getBlock(n).Some? ==>
      Picks(chainId, init + [n], getBlock, rows + [RowOf(chainId, n, getBlock(n).value)], idx + [|init|])
    ensures getBlock(n).None? ==> Picks(chainId, init + [n], getBlock, rows, idx)
  {
    var batch := init + [n];
    assert forall p :: 0 <= p < |init| ==> batch[p] == init[p];
    if getBlock(n).Some? {
      var rows' := rows + [RowOf(chainId, n, getBlock(n).value)];
      var idx' := idx + [|init|];
      forall i | 0 <= i < |idx'|
        ensures idx'[i] < |batch| && getBlock(batch[idx'[i]]).Some?
        ensures rows'[i] == RowOf(chainId, batch[idx'[i]], getBlock(batch[idx'[i]]).value)
      {
        if i < |idx| { assert idx'[i] == idx[i] && rows'[i] == rows[i]; }
      }
      forall p | 0 <= p < |batch| && getBlock(batch[p]).Some? ensures p in idx' {
        if p < |init| { assert p in idx; }
      }
    }
  }

  /** The inner loop of `fetch_block_details`: one `get_block` per block, keeping the ones that succeed. */
  method CollectBlockDetails(chainId: int, batch: seq<int>, getBlock: int -> Option<BlockHeader>)
    returns (rows: seq<BlockRow>)
    ensures rows == DetailRows(chainId, batch, getBlock)
  {
    rows := [];
    for k := 0 to |batch|
      invariant rows == DetailRows(chainId, batch[..k], getBlock)
    {
      assert batch[..k + 1][..k] == batch[..k];
      match getBlock(batch[k]) {
        case Some(h) =>
          rows := rows + [RowOf(chainId, batch[k], h)];
        case None =>
      }
    }
    assert batch[..|batch|] == batch;
  }

  /** The rows of `block_details` under their unique key. */
  function Keyed(rows: seq<BlockRow>): (keyed: seq<((int, int), BlockRow)>)
    ensures |keyed| == |rows|
    ensures forall i :: 0 <= i < |rows| ==> keyed[i] == ((rows[i].chainId, rows[i].blockNumber), rows[i])
  {
    if rows == [] then [] else Keyed(rows[..|rows| - 1]) + [((rows[|rows| - 1].chainId, rows[|rows| - 1].blockNumber), rows[|rows| - 1])]
  }

  /** The keyed rows `fetch_block_details` sends, one entry per batch of block numbers. */
  function DetailBatches(chainId: int, batches: seq<seq<int>>, getBlock: int -> Option<BlockHeader>): seq<seq<((int, int), BlockRow)>> {
    if batches == [] then []
    else DetailBatches(chainId, batches[..|batches| - 1], getBlock) + [Keyed(DetailRows(chainId, batches[|batches| - 1], getBlock))]
  }

  /**
   * `insert_block_details`: one `INSERT IGNORE` of the rows and a commit, or a
   * rollback when it fails; the exception is swallowed.
   */
  method InsertBlockDetails(db: Table<(int, int), BlockRow>, rows: seq<BlockRow>, fails: seq<((int, int), BlockRow)> -> bool)
    requires db.Idle()
    modifies db
    ensures db.Idle()
    ensures db.committed == CommitEach(old(db.committed), [Keyed(rows)], fails, Ignore).0
  {
    var keyed := Keyed(rows);
    assert [keyed][..0] == [];
    if fails(keyed) {
      db.Rollback();
    } else {
      var ok, count := db.Execute(Ignore, keyed);
      db.Commit();
    }
  }

  /**
   * `fetch_block_details`: the block numbers in slices of `batchSize`, each
   * slice's fetched blocks inserted on their own; `processed` counts every
   * block of every slice, fetched or not.
   */
  method FetchBlockDetails(db: Table<(int, int), BlockRow>, chainId: int, blockNumbers: seq<int>,
                           getBlock: int -> Option<BlockHeader>, batchSize: nat,
                           fails: seq<((int, int), BlockRow)> -> bool)
    returns (processed: nat)
    requires batchSize > 0
    requires db.Idle()
    modifies db
    ensures processed == |blockNumbers|
    ensures db.Idle()
    ensures db.committed == CommitEach(old(db.committed), DetailBatches(chainId, Chunks(blockNumbers, batchSize), getBlock), fails, Ignore).0
  {
    processed := 0;
    var i := 0;
    ghost var start := db.committed;
    ghost var done: seq<seq<int>> := [];
    while i < |blockNumbers|
      invariant 0 <= i <= |blockNumbers| && processed == i
      invariant done + Chunks(blockNumbers[i..], batchSize) == Chunks(blockNumbers, batchSize)
      invariant db.Idle()
      invariant db.committed == CommitEach(start, DetailBatches(chainId, done, getBlock), fails, Ignore).0
      decreases |blockNumbers| - i
    {
      var batch := FetchSlice(db, chainId, blockNumbers, i, getBlock, batchSize, fails, start, done);
      done := done + [batch];
      processed := processed + |batch|;
      i := i + |batch|;
    }
    assert Chunks(blockNumbers[i..], batchSize) == [];
    assert done + [] == done;
  }

  /**
   * The body of the `fetch_block_details` loop: the slice from `i`, its blocks
   * fetched and inserted, committed after the slices before it.
   */
  method FetchSlice(db: Table<(int, int), BlockRow>, chainId: int, blockNumbers: seq<int>, i: nat,
                    getBlock: int -> Option<BlockHeader>, batchSize: nat,
                    fails: seq<((int, int), BlockRow)> -> bool,
                    ghost start: map<(int, int), BlockRow>, ghost done: seq<seq<int>>)
    returns (batch: seq<int>)
    requires batchSize > 0 && i < |blockNumbers|
    requires done + Chunks(blockNumbers[i..], batchSize) == Chunks(blockNumbers, batchSize)
    requires db.Idle()
    requires db.committed == CommitEach(start, DetailBatches(chainId, done, getBlock), fails, Ignore).0
    modifies db
    ensures |batch| > 0 && i + |batch| <= |blockNumbers|
    ensures (done + [batch]) + Chunks(blockNumbers[i + |batch|..], batchSize) == Chunks(blockNumbers, batchSize)
    ensures db.Idle()
    ensures db.committed == CommitEach(start, DetailBatches(chainId, done + [batch], getBlock), fails, Ignore).0
  {
    batch := blockNumbers[i..Min(i + batchSize, |blockNumbers|)];
    FetchStep(start, chainId, blockNumbers, i, batchSize, done, getBlock, fails);
    ghost var rest := Chunks(blockNumbers[i + |batch|..], batchSize);
    assert (done + [batch]) + rest == Chunks(blockNumbers, batchSize);
    ghost var before := db.committed;
    var rows := CollectBlockDetails(chainId, batch, getBlock);
    InsertBlockDetails(db, rows, fails);
    assert db.committed == CommitEach(before, [Keyed(DetailRows(chainId, batch, getBlock))], fails, Ignore).0;
  }

  /**
   * One slice of `fetch_block_details`: the next chunk of the list, whose
   * keyed rows are committed after those of the slices before it.
   */
  lemma FetchStep(start: map<(int, int), BlockRow>, chainId: int, xs: seq<int>, i: nat, size: nat, done: seq<seq<int>>,
                  getBlock: int -> Option<BlockHeader>, fails: seq<((int, int), BlockRow)> -> bool)
    requires size > 0 && i < |xs|
    requires done + Chunks(xs[i..], size) == Chunks(xs, size)
    ensures var batch := xs[i..Min(i + size, |xs|)];
      && |batch| > 0 && i + |batch| <= |xs|
      && (done + [batch]) + Chunks(xs[i + |batch|..], size) == Chunks(xs, size)
      && CommitEach(start, DetailBatches(chainId, done + [batch], getBlock), fails, Ignore).0
         == CommitEach(CommitEach(start, DetailBatches(chainId, done, getBlock), fails, Ignore).0,
                       [Keyed(DetailRows(chainId, batch, getBlock))], fails, Ignore).0
  {
    var batch := xs[i..Min(i + size, |xs|)];
    ChunksStep(xs, i, size, done);
    DetailBatchesStep(chainId, done, batch, getBlock);
    CommitOneMore(start, DetailBatches(chainId, done, getBlock), Keyed(DetailRows(chainId, batch, getBlock)), fails);
  }

  lemma CommitOneMore<K, R>(start: map<K, R>, sent: seq<seq<(K, R)>>, b: seq<(K, R)>, fails: seq<(K, R)> -> bool)
    ensures CommitEach(start, sent + [b], fails, Ignore).0 == CommitEach(CommitEach(start, sent, fails, Ignore).0, [b], fails, Ignore).0
  {
    CommitEachAppend(start, sent, [b], fails, Ignore);
  }

  /** One slice of `fetch_block_details` is the next chunk of the list. */
  lemma ChunksStep<T>(xs: seq<T>, i: nat, size: nat, done: seq<seq<T>>)
    requires size > 0 && i < |xs|
    requires done + Chunks(xs[i..], size) == Chunks(xs, size)
    ensures var batch := xs[i..Min(i + size, |xs|)];
      && |batch| > 0
      && done + [batch] + Chunks(xs[i + |batch|..], size) == Chunks(xs, size)
  {
    var rest := xs[i..];
    assert rest[..Min(size, |rest|)] == xs[i..Min(i + size, |xs|)];
    assert rest[Min(size, |rest|)..] == xs[i + Min(size, |rest|)..];
    assert Chunks(rest, size) == [rest[..Min(size, |rest|)]] + Chunks(rest[Min(size, |rest|)..], size);
  }

  lemma DetailBatchesStep(chainId: int, done: seq<seq<int>>, batch: seq<int>, getBlock: int -> Option<BlockHeader>)
    ensures DetailBatches(chainId, done + [batch], getBlock)
      == DetailBatches(chainId, done, getBlock) + [Keyed(DetailRows(chainId, batch, getBlock))]
  {
    assert (done + [batch])[..|done|] == done;
  }

  /**
   * The grouping in `main`: each chain's block numbers, in the order
   * `get_unique_blocks` returned them.
   */
  method GroupBlocksByChain(uniqueBlocks: seq<(int, int)>) returns (blocksByChain: map<int, seq<int>>)
    ensures blocksByChain.Keys == KeysOf(uniqueBlocks)
    ensures forall c :: c in blocksByChain ==> blocksByChain[c] == Select(uniqueBlocks, c)
  {
    var order;
    order, blocksByChain := GroupBy(uniqueBlocks);
  }
}
