/**
 * Resolving a timestamp to a block number by binary search over block
 * timestamps (`binary_search_block`, present verbatim in both
 * src/data_fetcher.py and src/event_data_fetcher.py).
 *
 * The chain is a sequence of timestamps indexed by block number; reading
 * `ts[b]` stands for the RPC call `get_block(b)`.
 */
module BlockSearch {

  /** Block timestamps never decrease with the block number. */
  ghost predicate NonDecreasing(ts: seq<int>) {
    forall i, j :: 0 <= i <= j < |ts| ==> ts[i] <= ts[j]
  }

  /** Every block the search may read exists: the window is empty or inside the chain. */
  predicate Readable(ts: seq<int>, left: int, right: int) {
    left > right || (0 <= left && right < |ts|)
  }

  /**
   * What the search returns: the midpoint whose timestamp equals the target,
   * or the final `right` cursor once the window is empty.
   */
  function Search(ts: seq<int>, target: int, left: int, right: int): (r: int)
    requires Readable(ts, left, right)
    ensures left > right ==> r == right
    ensures left <= right ==> left - 1 <= r <= right
    decreases right - left + 1
  {
    if left > right then right
    else
      var mid := (left + right) / 2;
      if ts[mid] == target then mid
      else if ts[mid] < target then Search(ts, target, mid + 1, right)
      else Search(ts, target, left, mid - 1)
  }

  /**
   * The loop of `binary_search_block`. Each iteration reads one block and
   * strictly shrinks `right - left`; an exact match returns at once.
   */
  method BinarySearchBlock(ts: seq<int>, target: int, left: int, right: int) returns (r: int)
    requires Readable(ts, left, right)
    ensures r == Search(ts, target, left, right)
    ensures left > right ==> r == right
    ensures left <= right ==> left - 1 <= r <= right
  {
    var lo, hi := left, right;
    while lo <= hi
      invariant left <= lo && hi <= right
      invariant Readable(ts, lo, hi)
      invariant Search(ts, target, lo, hi) == Search(ts, target, left, right)
      invariant lo > hi ==> hi == Search(ts, target, left, right)
      decreases hi - lo
    {
      var mid := (lo + hi) / 2;
      if ts[mid] == target {
        return mid;
      }
      if ts[mid] < target {
        lo := mid + 1;
      } else {
        hi := mid - 1;
      }
    }
    r := hi;
  }

  /** Every timestamp from `lo` through `hi` is below the target. */
  ghost predicate AllBelow(ts: seq<int>, target: int, lo: int, hi: int)
    requires 0 <= lo && hi < |ts|
  {
    forall k :: lo <= k <= hi ==> ts[k] < target
  }

  /** Every timestamp from `lo` through `hi` is above the target. */
  ghost predicate AllAbove(ts: seq<int>, target: int, lo: int, hi: int)
    requires 0 <= lo && hi < |ts|
  {
    forall k :: lo <= k <= hi ==> ts[k] > target
  }

  /**
   * `r` is an index of the window holding the target, or the last index of
   * the window below it with everything after it, up to `right`, above it.
   */
  ghost predicate Brackets(ts: seq<int>, target: int, left: int, right: int, r: int)
    requires 0 <= left && right < |ts|
  {
    (left <= r <= right && ts[r] == target)
    || (left - 1 <= r <= right && AllBelow(ts, target, left, r) && AllAbove(ts, target, r + 1, right))
  }

  /**
   * On a non-decreasing chain the search either returns an index holding the
   * target exactly, or returns the last index of the window whose timestamp is
   * below the target: everything from `left` to `r` is below it, everything
   * after `r` up to `right` is above it.
   */
  lemma {:induction false} SearchBrackets(ts: seq<int>, target: int, left: int, right: int)
    requires Readable(ts, left, right) && NonDecreasing(ts)
    requires 0 <= left <= right + 1 <= |ts|
    ensures Brackets(ts, target, left, right, Search(ts, target, left, right))
    decreases right - left + 1
  {
    if left > right {
      assert AllBelow(ts, target, left, right) && AllAbove(ts, target, right + 1, right);
    } else {
      var mid := (left + right) / 2;
      if ts[mid] < target {
        var r := Search(ts, target, mid + 1, right);
        assert Search(ts, target, left, right) == r;
        SearchBrackets(ts, target, mid + 1, right);
        BelowUpTo(ts, target, left, mid);
        WidenLeft(ts, target, left, mid, right, r);
      } else if ts[mid] > target {
        var r := Search(ts, target, left, mid - 1);
        assert Search(ts, target, left, right) == r;
        SearchBrackets(ts, target, left, mid - 1);
        AboveFrom(ts, target, mid, right);
        WidenRight(ts, target, left, mid, right, r);
      } else {
        assert Search(ts, target, left, right) == mid;
      }
    }
  }

  /** Brackets in the upper half stay brackets once the lower half is known to be below. */
  lemma WidenLeft(ts: seq<int>, target: int, left: int, mid: int, right: int, r: int)
    requires 0 <= left <= mid <= right < |ts|
    requires Brackets(ts, target, mid + 1, right, r) && AllBelow(ts, target, left, mid)
    ensures Brackets(ts, target, left, right, r)
  {
  }

  /** Brackets in the lower half stay brackets once the upper half is known to be above. */
  lemma WidenRight(ts: seq<int>, target: int, left: int, mid: int, right: int, r: int)
    requires 0 <= left <= mid <= right < |ts|
    requires Brackets(ts, target, left, mid - 1, r) && AllAbove(ts, target, mid, right)
    ensures Brackets(ts, target, left, right, r)
  {
  }

  lemma BelowUpTo(ts: seq<int>, target: int, left: int, mid: int)
    requires NonDecreasing(ts) && 0 <= left <= mid < |ts| && ts[mid] < target
    ensures AllBelow(ts, target, left, mid)
  {
    forall k | left <= k <= mid ensures ts[k] < target {
      assert ts[k] <= ts[mid];
    }
  }

  lemma AboveFrom(ts: seq<int>, target: int, mid: int, right: int)
    requires NonDecreasing(ts) && 0 <= mid <= right < |ts| && ts[mid] > target
    ensures AllAbove(ts, target, mid, right)
  {
    forall k | mid <= k <= right ensures ts[k] > target {
      assert ts[mid] <= ts[k];
    }
  }

  /** If some block of the window has exactly the target timestamp, the search returns such a block. */
  lemma SearchFindsExact(ts: seq<int>, target: int, left: int, right: int, b: int)
    requires Readable(ts, left, right) && NonDecreasing(ts)
    requires left <= b <= right && ts[b] == target
    ensures var r := Search(ts, target, left, right);
      left <= r <= right && ts[r] == target
  {
    SearchBrackets(ts, target, left, right);
  }

  /**
   * If no block of the window has the target timestamp, the search returns the
   * last block whose timestamp is below the target (`left - 1` when there is none).
   */
  lemma SearchLastBelow(ts: seq<int>, target: int, left: int, right: int)
    requires Readable(ts, left, right) && NonDecreasing(ts)
    requires left <= right + 1
    requires forall k :: left <= k <= right ==> ts[k] != target
    ensures var r := Search(ts, target, left, right);
      left - 1 <= r <= right
      && (forall k :: left <= k <= r ==> ts[k] < target)
      && (forall k :: r < k <= right ==> ts[k] > target)
  {
    if left <= right {
      SearchBrackets(ts, target, left, right);
    }
  }
}
