/**
 * The two batching shapes of the source.
 *
 * Block batches: `for i in range(start, end + 1, size)` with the batch
 * `[i, min(i + size - 1, end)]` (src/data_fetcher.py:82-84,
 * src/event_data_fetcher.py:75-77).
 *
 * List chunks: `for i in range(0, len(xs), size)` with the chunk
 * `xs[i:i + size]` (src/db_operations.py:94-95,184-185,
 * src/event_data_fetcher.py:103-104, src/analysis/analysis_helper.py:457-458).
 */
module Batching {

  function Min(a: int, b: int): int { if a <= b then a else b }

  /** An inclusive range of block numbers `[from, to]`, the arguments of one `get_logs` call. */
  datatype Span = Span(from: int, to: int)

  /** The batches the block loop visits, in order. */
  function BlockBatches(start: int, end: int, size: int): seq<Span>
    requires size > 0
    decreases end - start + 1
  {
    if start > end then []
    else [Span(start, Min(start + size - 1, end))] + BlockBatches(start + size, end, size)
  }

  /**
   * `bs` tiles `[start, end]`: it begins at `start`, ends at `end`, each batch
   * follows the previous one without gap or overlap, spans at most `size` blocks
   * (exactly `size` except for the last) and never passes `end`.
   */
  ghost predicate Tiles(bs: seq<Span>, start: int, end: int, size: int) {
    && (start > end ==> bs == [])
    && (start <= end ==> |bs| > 0 && bs[0].from == start && bs[|bs| - 1].to == end)
    && (forall k :: 0 <= k < |bs| ==> bs[k].from <= bs[k].to <= end && bs[k].to - bs[k].from < size)
    && (forall k :: 0 <= k < |bs| - 1 ==> bs[k].to - bs[k].from == size - 1)
    && (forall k :: 0 <= k < |bs| - 1 ==> bs[k + 1].from == bs[k].to + 1)
  }

  lemma {:induction false} BlockBatchesTile(start: int, end: int, size: int)
    requires size > 0
    ensures Tiles(BlockBatches(start, end, size), start, end, size)
    decreases end - start + 1
  {
    if start <= end {
      var rest := BlockBatches(start + size, end, size);
      BlockBatchesTile(start + size, end, size);
      var bs := BlockBatches(start, end, size);
      assert bs == [Span(start, Min(start + size - 1, end))] + rest;
      if start + size <= end {
        assert rest[0].from == start + size;
      } else {
        assert rest == [];
      }
      forall k | 0 <= k < |bs| - 1 ensures bs[k + 1].from == bs[k].to + 1 {
        if k > 0 { assert bs[k + 1] == rest[k] && bs[k] == rest[k - 1]; }
      }
      forall k | 0 <= k < |bs| - 1 ensures bs[k].to - bs[k].from == size - 1 {
        if k > 0 { assert bs[k] == rest[k - 1]; }
      }
      forall k | 0 <= k < |bs| ensures bs[k].from <= bs[k].to <= end && bs[k].to - bs[k].from < size {
        if k > 0 { assert bs[k] == rest[k - 1]; }
      }
    }
  }

  /**
   * A tiling is a partition of `[start, end]`: batches are strictly ordered and
   * pairwise disjoint, and a block lies in some batch exactly when it lies in
   * `[start, end]`.
   */
  lemma TilesPartition(bs: seq<Span>, start: int, end: int, size: int)
    requires Tiles(bs, start, end, size)
    ensures forall i, j :: 0 <= i < j < |bs| ==> bs[i].to < bs[j].from
    ensures forall b :: start <= b <= end <==> InSome(bs, b)
  {
    TilesOrdered(bs, start, end, size);
    TilesBounds(bs, start, end, size);
    forall b ensures start <= b <= end <==> InSome(bs, b) {
      if start <= b <= end {
        var k := TilesFind(bs, start, end, size, b);
      }
    }
  }

  /** Block `b` lies in one of the batches. */
  ghost predicate InSome(bs: seq<Span>, b: int) {
    exists k :: 0 <= k < |bs| && bs[k].from <= b <= bs[k].to
  }

  lemma TilesOrdered(bs: seq<Span>, start: int, end: int, size: int)
    requires Tiles(bs, start, end, size)
    ensures forall i, j :: 0 <= i < j < |bs| ==> bs[i].to < bs[j].from
  {
    forall i, j | 0 <= i < j < |bs| ensures bs[i].to < bs[j].from {
      var m := i;
      while m < j - 1
        invariant i <= m < j
        invariant bs[i].to < bs[m + 1].from
      {
        m := m + 1;
      }
    }
  }

  lemma TilesBounds(bs: seq<Span>, start: int, end: int, size: int)
    requires Tiles(bs, start, end, size)
    ensures forall k :: 0 <= k < |bs| ==> start <= bs[k].from
  {
    forall k | 0 <= k < |bs| ensures start <= bs[k].from {
      var m := 0;
      while m < k
        invariant 0 <= m <= k
        invariant start <= bs[m].from
      {
        m := m + 1;
      }
    }
  }

  lemma TilesFind(bs: seq<Span>, start: int, end: int, size: int, b: int) returns (k: nat)
    requires Tiles(bs, start, end, size) && start <= b <= end
    ensures k < |bs| && bs[k].from <= b <= bs[k].to
  {
    k := 0;
    while bs[k].to < b
      invariant k < |bs| && bs[k].from <= b
      decreases |bs| - k
    {
      k := k + 1;
    }
  }

  /** The consecutive slices `xs[i:i + size]` for `i` in `range(0, len(xs), size)`. */
  function Chunks<T>(xs: seq<T>, size: nat): seq<seq<T>>
    requires size > 0
    decreases |xs|
  {
    if |xs| == 0 then []
    else
      var n := Min(size, |xs|);
      [xs[..n]] + Chunks(xs[n..], size)
  }

  function Flatten<T>(xss: seq<seq<T>>): seq<T> {
    if xss == [] then [] else Flatten(xss[..|xss| - 1]) + xss[|xss| - 1]
  }

  lemma FlattenAppend<T>(xss: seq<seq<T>>, yss: seq<seq<T>>)
    ensures Flatten(xss + yss) == Flatten(xss) + Flatten(yss)
    decreases |yss|
  {
    if yss != [] {
      assert (xss + yss)[..|xss + yss| - 1] == xss + yss[..|yss| - 1];
      FlattenAppend(xss, yss[..|yss| - 1]);
    } else {
      assert xss + yss == xss;
    }
  }

  /**
   * The chunks cover the list in order (no element lost, duplicated or moved);
   * each is non-empty and at most `size` long, and all but the last are exactly
   * `size` long.
   */
  lemma ChunksPartition<T>(xs: seq<T>, size: nat)
    requires size > 0
    ensures Flatten(Chunks(xs, size)) == xs
    ensures forall k :: 0 <= k < |Chunks(xs, size)| ==> 0 < |Chunks(xs, size)[k]| <= size
    ensures forall k :: 0 <= k < |Chunks(xs, size)| - 1 ==> |Chunks(xs, size)[k]| == size
  {
    ChunksFlatten(xs, size);
    ChunksSizes(xs, size);
  }

  lemma {:induction false} ChunksFlatten<T>(xs: seq<T>, size: nat)
    requires size > 0
    ensures Flatten(Chunks(xs, size)) == xs
    decreases |xs|
  {
    if |xs| > 0 {
      var n := Min(size, |xs|);
      var rest := Chunks(xs[n..], size);
      ChunksFlatten(xs[n..], size);
      FlattenAppend([xs[..n]], rest);
      assert Flatten([xs[..n]]) == xs[..n] by {
        assert [xs[..n]][..0] == [];
      }
      assert xs[..n] + xs[n..] == xs;
    }
  }

  /** Every chunk is non-empty and at most `size` long; all but the last are exactly `size` long. */
  ghost predicate ChunkSizes<T>(cs: seq<seq<T>>, size: nat) {
    && (forall k :: 0 <= k < |cs| ==> 0 < |cs[k]| <= size)
    && (forall k :: 0 <= k < |cs| - 1 ==> |cs[k]| == size)
  }

  lemma {:induction false} ChunksSizes<T>(xs: seq<T>, size: nat)
    requires size > 0
    ensures ChunkSizes(Chunks(xs, size), size)
    decreases |xs|
  {
    if |xs| > 0 {
      var n := Min(size, |xs|);
      var rest := Chunks(xs[n..], size);
      ChunksSizes(xs[n..], size);
      var cs := Chunks(xs, size);
      assert cs == [xs[..n]] + rest;
      assert |xs[..n]| == n;
      assert rest != [] ==> n == size;
      forall k | 0 <= k < |cs| ensures 0 < |cs[k]| <= size {
        if k > 0 { assert cs[k] == rest[k - 1]; }
      }
      forall k | 0 <= k < |cs| - 1 ensures |cs[k]| == size {
        if k > 0 { assert cs[k] == rest[k - 1]; }
      }
    }
  }

  /** Total length of a list of chunks. */
  function TotalLength<T>(xss: seq<seq<T>>): nat {
    if xss == [] then 0 else TotalLength(xss[..|xss| - 1]) + |xss[|xss| - 1]|
  }

  lemma {:induction false} TotalLengthFlatten<T>(xss: seq<seq<T>>)
    ensures TotalLength(xss) == |Flatten(xss)|
  {
    if xss != [] { TotalLengthFlatten(xss[..|xss| - 1]); }
  }

  /**
   * The rows an `INSERT ... SELECT` produces for each batch of keys, batch by
   * batch: `rowsOf` stands for what the statement's `SELECT` returns.
   */
  function StatementBatches<B, X>(rowsOf: B -> X, batches: seq<B>): (xs: seq<X>)
    ensures |xs| == |batches|
    ensures forall k :: 0 <= k < |xs| ==> xs[k] == rowsOf(batches[k])
  {
    if batches == [] then []
    else StatementBatches(rowsOf, batches[..|batches| - 1]) + [rowsOf(batches[|batches| - 1])]
  }

  /**
   * The two event lists the block loop accumulates: the per-batch results of
   * `fetch`, concatenated in batch order.
   */
  function Collect<F, D>(fetch: (int, int) -> (seq<F>, seq<D>), bs: seq<Span>): (seq<F>, seq<D>) {
    if bs == [] then ([], [])
    else
      var prev := Collect(fetch, bs[..|bs| - 1]);
      var last := fetch(bs[|bs| - 1].from, bs[|bs| - 1].to);
      (prev.0 + last.0, prev.1 + last.1)
  }

  /**
   * The block loop of `fetch_events` / `fetch_events_details`: one `fetch`
   * (the two `get_logs` calls) per batch, extending both lists in place.
   */
  method FetchInBatches<F, D>(fetch: (int, int) -> (seq<F>, seq<D>), start: int, end: int, size: int)
    returns (filled: seq<F>, deposited: seq<D>)
    requires size > 0
    ensures (filled, deposited) == Collect(fetch, BlockBatches(start, end, size))
  {
    filled, deposited := [], [];
    ghost var done: seq<Span> := [];
    var i := start;
    while i <= end
      invariant BlockBatches(start, end, size) == done + BlockBatches(i, end, size)
      invariant (filled, deposited) == Collect(fetch, done)
      decreases end - i + 1
    {
      var fromBlock := i;
      var toBlock := Min(i + size - 1, end);
      var batch := fetch(fromBlock, toBlock);
      filled := filled + batch.0;
      deposited := deposited + batch.1;
      assert (done + [Span(fromBlock, toBlock)])[..|done|] == done;
      done := done + [Span(fromBlock, toBlock)];
      i := i + size;
    }
    assert done + BlockBatches(i, end, size) == done;
  }
}
