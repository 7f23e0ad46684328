/**
 * Grouping a list of `(key, value)` pairs into a dictionary of lists, the
 * `if key not in d: d[key] = []; d[key].append(value)` loop of
 * src/event_data_fetcher.py:164-168 and
 * src/analysis/research/allocation_sugestion.py:10-20. `order` is the
 * dictionary's insertion order (the order Python iterates it in).
 */
module Grouping {

  /** The keys occurring in `items`. */
  ghost function KeysOf<K, V>(items: seq<(K, V)>): set<K> {
    set i | 0 <= i < |items| :: items[i].0
  }

  /** The values stored under `k`, in their original order. */
  function Select<K(==), V>(items: seq<(K, V)>, k: K): seq<V> {
    if items == [] then []
    else
      var last := items[|items| - 1];
      Select(items[..|items| - 1], k) + (if last.0 == k then [last.1] else [])
  }

  /** Key `a` occurs in `items` before the first occurrence of key `b`. */
  ghost predicate SeenBefore<K, V>(items: seq<(K, V)>, a: K, b: K) {
    exists i :: 0 <= i < |items| && items[i].0 == a && forall j :: 0 <= j <= i ==> items[j].0 != b
  }

  lemma KeysOfAppend<K, V>(items: seq<(K, V)>, x: (K, V))
    ensures KeysOf(items + [x]) == KeysOf(items) + {x.0}
  {
    var next := items + [x];
    assert forall j :: 0 <= j < |items| ==> next[j] == items[j];
    assert next[|items|] == x;
  }

  lemma {:induction false} SelectAbsent<K, V>(items: seq<(K, V)>, k: K)
    requires k !in KeysOf(items)
    ensures Select(items, k) == []
  {
    if items != [] {
      var init := items[..|items| - 1];
      assert items == init + [items[|items| - 1]];
      KeysOfAppend(init, items[|items| - 1]);
      SelectAbsent(init, k);
    }
  }

  lemma SeenBeforeExtend<K, V>(items: seq<(K, V)>, x: (K, V), a: K, b: K)
    requires SeenBefore(items, a, b)
    ensures SeenBefore(items + [x], a, b)
  {
    var next := items + [x];
    var w :| 0 <= w < |items| && items[w].0 == a && forall j :: 0 <= j <= w ==> items[j].0 != b;
    assert next[w] == items[w];
    forall j | 0 <= j <= w ensures next[j].0 != b {
      assert next[j] == items[j];
    }
  }

  lemma SeenBeforeNew<K, V>(items: seq<(K, V)>, x: (K, V), a: K)
    requires a in KeysOf(items) && x.0 !in KeysOf(items)
    ensures SeenBefore(items + [x], a, x.0)
  {
    var next := items + [x];
    var w :| 0 <= w < |items| && items[w].0 == a;
    assert next[w] == items[w];
    forall j | 0 <= j <= w ensures next[j].0 != x.0 {
      assert next[j] == items[j];
      assert items[j].0 in KeysOf(items);
    }
  }

  /**
   * What grouping `items` builds: one list per key holding that key's values
   * in input order, and the keys inserted once each, in order of first appearance.
   */
  ghost predicate Grouped<K(!new), V>(items: seq<(K, V)>, order: seq<K>, groups: map<K, seq<V>>) {
    && groups.Keys == KeysOf(items)
    && (forall k :: k in groups ==> groups[k] == Select(items, k))
    && (forall k :: k in order <==> k in groups)
    && (forall p, q :: 0 <= p < q < |order| ==> order[p] != order[q])
    && (forall p, q :: 0 <= p < q < |order| ==> SeenBefore(items, order[p], order[q]))
    && |order| <= |items|
  }

  /**
   * Every pair lands in the list of its key, in input order, and the lists hold
   * nothing else; keys are inserted once each, in order of first appearance.
   */
  method GroupBy<K(==,!new), V>(items: seq<(K, V)>) returns (order: seq<K>, groups: map<K, seq<V>>)
    ensures groups.Keys == KeysOf(items)
    ensures forall k :: k in groups ==> groups[k] == Select(items, k)
    ensures forall k :: k in order <==> k in groups
    ensures forall p, q :: 0 <= p < q < |order| ==> order[p] != order[q]
    ensures forall p, q :: 0 <= p < q < |order| ==> SeenBefore(items, order[p], order[q])
    ensures |order| <= |items|
  {
    order, groups := [], map[];
    for i := 0 to |items|
      invariant Grouped(items[..i], order, groups)
    {
      var (k, v) := items[i];
      assert items[..i + 1] == items[..i] + [(k, v)];
      if k in groups {
        GroupAppend(items[..i], (k, v), order, groups);
      } else {
        GroupInsert(items[..i], (k, v), order, groups);
      }
      if k !in groups {
        groups := groups[k := []];
        order := order + [k];
      }
      groups := groups[k := groups[k] + [v]];
    }
    assert items[..|items|] == items;
  }

  /** One more pair extends each key's list, the key set and the first-appearance order. */
  lemma StepFacts<K, V>(prefix: seq<(K, V)>, x: (K, V))
    ensures forall c :: Select(prefix + [x], c) == Select(prefix, c) + (if x.0 == c then [x.1] else [])
    ensures KeysOf(prefix + [x]) == KeysOf(prefix) + {x.0}
    ensures forall a, b :: SeenBefore(prefix, a, b) ==> SeenBefore(prefix + [x], a, b)
  {
    var next := prefix + [x];
    assert forall c :: Select(next, c) == Select(prefix, c) + (if x.0 == c then [x.1] else []) by {
      assert next[..|prefix|] == prefix;
    }
    KeysOfAppend(prefix, x);
    forall a, b | SeenBefore(prefix, a, b) ensures SeenBefore(next, a, b) {
      SeenBeforeExtend(prefix, x, a, b);
    }
  }

  /** A pair whose key is already grouped: its value is appended to the key's list. */
  lemma GroupAppend<K(!new), V>(prefix: seq<(K, V)>, x: (K, V), order: seq<K>, groups: map<K, seq<V>>)
    requires Grouped(prefix, order, groups) && x.0 in groups
    ensures Grouped(prefix + [x], order, groups[x.0 := groups[x.0] + [x.1]])
  {
    StepFacts(prefix, x);
  }

  /** A pair with a new key: the key is inserted last, with a list of that one value. */
  lemma GroupInsert<K(!new), V>(prefix: seq<(K, V)>, x: (K, V), order: seq<K>, groups: map<K, seq<V>>)
    requires Grouped(prefix, order, groups) && x.0 !in groups
    ensures Grouped(prefix + [x], order + [x.0], groups[x.0 := [] + [x.1]])
  {
    StepFacts(prefix, x);
    SelectAbsent(prefix, x.0);
    forall p | 0 <= p < |order| ensures SeenBefore(prefix + [x], order[p], x.0) {
      SeenBeforeNew(prefix, x, order[p]);
    }
  }

  /** The positions of `items` whose key is `k`. */
  ghost function PositionsOf<K, V>(items: seq<(K, V)>, k: K): set<nat> {
    set i: nat | i < |items| && items[i].0 == k
  }

  /**
   * Nothing is lost or duplicated: the list for `k` has one entry per position
   * holding key `k`, and the value at each such position is in it.
   */
  lemma {:induction false} SelectComplete<K, V>(items: seq<(K, V)>, k: K)
    ensures |Select(items, k)| == |PositionsOf(items, k)|
    ensures forall i :: 0 <= i < |items| && items[i].0 == k ==> items[i].1 in Select(items, k)
  {
    if items != [] {
      var n := |items| - 1;
      var init := items[..n];
      SelectComplete(init, k);
      assert forall i :: 0 <= i < n ==> items[i] == init[i];
      if items[n].0 == k {
        assert PositionsOf(items, k) == PositionsOf(init, k) + {n};
        assert n !in PositionsOf(init, k);
      } else {
        assert PositionsOf(items, k) == PositionsOf(init, k);
      }
    }
  }
}
