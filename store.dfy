/**
 * The relational store as the source uses it: tables with a unique key,
 * written by `INSERT IGNORE` (or plain `INSERT`) statements inside a
 * transaction that the caller commits or rolls back.
 *
 * A table holds `committed`, the durable rows, and `working`, the rows the
 * open transaction sees. A commit makes `working` durable; a rollback
 * discards it. A statement that raises is atomic: it changes nothing.
 */
module Store {
  import opened Wrappers
  import opened Grouping
  import opened Batching

  /**
   * `INSERT IGNORE` of `rows` into `view`, row by row: a row is added only when
   * no row with its key is present, so stored rows are never overwritten and,
   * within one statement, the first row with a key wins.
   */
  function InsertIgnore<K, R>(view: map<K, R>, rows: seq<(K, R)>): map<K, R> {
    if rows == [] then view
    else
      var prev := InsertIgnore(view, rows[..|rows| - 1]);
      var last := rows[|rows| - 1];
      if last.0 in prev then prev else prev[last.0 := last.1]
  }

  /** Inserting one more row is inserting it into the result of the rows before it. */
  lemma InsertIgnoreSnoc<K, R>(view: map<K, R>, rows: seq<(K, R)>, r: (K, R))
    ensures InsertIgnore(view, rows + [r]) == InsertIgnore(InsertIgnore(view, rows), [r])
  {
    assert (rows + [r])[..|rows|] == rows;
    assert [r][..0] == [];
  }

  /** The row count `INSERT IGNORE` reports: how many rows it actually added. */
  function Added<K, R>(view: map<K, R>, rows: seq<(K, R)>): nat {
    if rows == [] then 0
    else
      var prev := InsertIgnore(view, rows[..|rows| - 1]);
      Added(view, rows[..|rows| - 1]) + (if rows[|rows| - 1].0 in prev then 0 else 1)
  }

  /**
   * After `INSERT IGNORE` the table holds the old keys and the new ones, every
   * old row unchanged; the reported count is the number of keys that were
   * absent and never exceeds the number of rows sent.
   */
  lemma InsertIgnoreSpec<K, R>(view: map<K, R>, rows: seq<(K, R)>)
    ensures InsertIgnore(view, rows).Keys == view.Keys + KeysOf(rows)
    ensures forall k :: k in view ==> InsertIgnore(view, rows)[k] == view[k]
    ensures |InsertIgnore(view, rows)| == |view| + Added(view, rows)
    ensures Added(view, rows) <= |rows|
  {
    InsertIgnoreKeys(view, rows);
    InsertIgnoreKeeps(view, rows);
    InsertIgnoreCount(view, rows);
  }

  lemma {:induction false} InsertIgnoreKeys<K, R>(view: map<K, R>, rows: seq<(K, R)>)
    ensures InsertIgnore(view, rows).Keys == view.Keys + KeysOf(rows)
  {
    if rows != [] {
      var init := rows[..|rows| - 1];
      assert rows == init + [rows[|rows| - 1]];
      KeysOfAppend(init, rows[|rows| - 1]);
      InsertIgnoreKeys(view, init);
    }
  }

  lemma {:induction false} InsertIgnoreKeeps<K, R>(view: map<K, R>, rows: seq<(K, R)>)
    ensures forall k :: k in view ==> k in InsertIgnore(view, rows) && InsertIgnore(view, rows)[k] == view[k]
  {
    if rows != [] {
      InsertIgnoreKeeps(view, rows[..|rows| - 1]);
    }
  }

  lemma {:induction false} InsertIgnoreCount<K, R>(view: map<K, R>, rows: seq<(K, R)>)
    ensures |InsertIgnore(view, rows)| == |view| + Added(view, rows)
    ensures Added(view, rows) <= |rows|
  {
    if rows != [] {
      var init := rows[..|rows| - 1];
      var last := rows[|rows| - 1];
      InsertIgnoreCount(view, init);
      var prev := InsertIgnore(view, init);
      if last.0 !in prev {
        assert prev[last.0 := last.1].Keys == prev.Keys + {last.0};
        assert |prev[last.0 := last.1].Keys| == |prev.Keys| + 1;
      }
    }
  }

  /** When every key is already stored, `INSERT IGNORE` changes nothing and reports 0. */
  lemma {:induction false} InsertIgnoreStored<K, R>(view: map<K, R>, rows: seq<(K, R)>)
    requires KeysOf(rows) <= view.Keys
    ensures InsertIgnore(view, rows) == view
    ensures Added(view, rows) == 0
  {
    if rows != [] {
      var init := rows[..|rows| - 1];
      assert rows == init + [rows[|rows| - 1]];
      KeysOfAppend(init, rows[|rows| - 1]);
      InsertIgnoreStored(view, init);
    }
  }

  /** No key of `rows` is stored and no key repeats: the test a unique index applies. */
  predicate Distinct<K(==), R>(view: map<K, R>, rows: seq<(K, R)>) {
    && (forall i | 0 <= i < |rows| :: rows[i].0 !in view)
    && (forall i, j | 0 <= i < j < |rows| :: rows[i].0 != rows[j].0)
  }

  /** Distinct rows are all added, each under its own key, and the count is their number. */
  lemma {:induction false} InsertIgnoreFresh<K, R>(view: map<K, R>, rows: seq<(K, R)>)
    requires Distinct(view, rows)
    ensures Added(view, rows) == |rows|
    ensures forall i :: 0 <= i < |rows| ==> rows[i].0 in InsertIgnore(view, rows) && InsertIgnore(view, rows)[rows[i].0] == rows[i].1
  {
    if rows != [] {
      var init := rows[..|rows| - 1];
      var last := rows[|rows| - 1];
      assert Distinct(view, init);
      InsertIgnoreFresh(view, init);
      InsertIgnoreKeys(view, init);
      var prev := InsertIgnore(view, init);
      assert last.0 !in view;
      assert last.0 !in KeysOf(init);
      assert last.0 !in prev;
      forall i | 0 <= i < |rows| ensures rows[i].0 in InsertIgnore(view, rows) && InsertIgnore(view, rows)[rows[i].0] == rows[i].1 {
        if i < |rows| - 1 {
          assert rows[i] == init[i];
        }
      }
    }
  }

  /** How a statement treats keys that are already present. */
  datatype Mode = Ignore | Plain

  /**
   * One insert statement: the new view and the row count, or `None` when the
   * statement raises. A plain `INSERT` raises on a duplicate key (stored, or
   * repeated within the statement); `INSERT IGNORE` never does.
   */
  function Statement<K, R>(mode: Mode, view: map<K, R>, rows: seq<(K, R)>): (res: Option<(map<K, R>, nat)>)
    ensures mode == Ignore ==> res.Some?
    ensures res.Some? ==> res.value.1 <= |rows|
    ensures res.Some? ==> forall k :: k in view ==> k in res.value.0 && res.value.0[k] == view[k]
  {
    InsertIgnoreSpec(view, rows);
    if mode == Plain && !Distinct(view, rows) then None
    else Some((InsertIgnore(view, rows), Added(view, rows)))
  }

  /**
   * The durable rows and the summed row count after running one statement per
   * batch and committing each batch on its own: a batch that fails (by the
   * abstract `fails`, or because its statement raises) is rolled back and
   * skipped, and the next batch runs.
   */
  function CommitEach<K, R>(store: map<K, R>, batches: seq<seq<(K, R)>>, fails: seq<(K, R)> -> bool, mode: Mode): (map<K, R>, nat) {
    if batches == [] then (store, 0)
    else
      var prev := CommitEach(store, batches[..|batches| - 1], fails, mode);
      var b := batches[|batches| - 1];
      if fails(b) then prev
      else match Statement(mode, prev.0, b)
        case None => prev
        case Some(res) => (res.0, prev.1 + res.1)
  }

  /** The summed count is at most the number of rows sent, and stored rows are never lost or changed. */
  lemma {:induction false} CommitEachBounds<K, R>(store: map<K, R>, batches: seq<seq<(K, R)>>, fails: seq<(K, R)> -> bool, mode: Mode)
    ensures CommitEach(store, batches, fails, mode).1 <= TotalLength(batches)
    ensures forall k :: k in store ==>
      k in CommitEach(store, batches, fails, mode).0 && CommitEach(store, batches, fails, mode).0[k] == store[k]
  {
    if batches != [] {
      CommitEachBounds(store, batches[..|batches| - 1], fails, mode);
    }
  }

  /** Running the batches in two parts gives the same store and the sum of the two counts. */
  lemma {:induction false} CommitEachAppend<K, R>(store: map<K, R>, xs: seq<seq<(K, R)>>, ys: seq<seq<(K, R)>>, fails: seq<(K, R)> -> bool, mode: Mode)
    ensures var first := CommitEach(store, xs, fails, mode);
      var second := CommitEach(first.0, ys, fails, mode);
      CommitEach(store, xs + ys, fails, mode) == (second.0, first.1 + second.1)
    decreases |ys|
  {
    if ys == [] {
      assert xs + ys == xs;
    } else {
      var init := ys[..|ys| - 1];
      assert (xs + ys)[..|xs + ys| - 1] == xs + init;
      assert (xs + ys)[|xs + ys| - 1] == ys[|ys| - 1];
      CommitEachAppend(store, xs, init, fails, mode);
    }
  }

  /**
   * A failing batch is as if it were not there: the batches before it stay
   * committed and the batches after it still run.
   */
  lemma FailedBatchSkipped<K, R>(store: map<K, R>, before: seq<seq<(K, R)>>, b: seq<(K, R)>, after: seq<seq<(K, R)>>, fails: seq<(K, R)> -> bool, mode: Mode)
    requires fails(b)
    ensures CommitEach(store, before + [b] + after, fails, mode) == CommitEach(store, before + after, fails, mode)
  {
    CommitEachAppend(store, before + [b], after, fails, mode);
    CommitEachAppend(store, before, after, fails, mode);
    assert (before + [b])[..|before + [b]| - 1] == before;
  }

  /**
   * Idempotence: once every batch has been committed, running the same batches
   * again with `INSERT IGNORE` inserts nothing and leaves the store as it is.
   */
  lemma RerunInsertsNothing<K, R>(store: map<K, R>, batches: seq<seq<(K, R)>>, fails: seq<(K, R)> -> bool)
    requires forall i :: 0 <= i < |batches| ==> !fails(batches[i])
    ensures var first := CommitEach(store, batches, fails, Ignore);
      CommitEach(first.0, batches, fails, Ignore) == (first.0, 0)
  {
    var s := CommitEach(store, batches, fails, Ignore).0;
    AllKeysStored(store, batches, fails);
    RerunStored(s, batches, fails);
  }

  lemma {:induction false} AllKeysStored<K, R>(store: map<K, R>, batches: seq<seq<(K, R)>>, fails: seq<(K, R)> -> bool)
    requires forall i :: 0 <= i < |batches| ==> !fails(batches[i])
    ensures forall i :: 0 <= i < |batches| ==> KeysOf(batches[i]) <= CommitEach(store, batches, fails, Ignore).0.Keys
  {
    if batches != [] {
      var init := batches[..|batches| - 1];
      AllKeysStored(store, init, fails);
      var b := batches[|batches| - 1];
      var prev := CommitEach(store, init, fails, Ignore).0;
      InsertIgnoreSpec(prev, b);
      CommitIgnoredBatch(store, batches, fails);
      var next := CommitEach(store, batches, fails, Ignore).0;
      assert prev.Keys <= next.Keys && KeysOf(b) <= next.Keys;
      forall i | 0 <= i < |batches| ensures KeysOf(batches[i]) <= next.Keys {
        if i < |init| {
          assert batches[i] == init[i];
        }
      }
    }
  }

  /** A last batch that does not fail is inserted, with `INSERT IGNORE`, into the store the earlier batches left. */
  lemma CommitIgnoredBatch<K, R>(store: map<K, R>, batches: seq<seq<(K, R)>>, fails: seq<(K, R)> -> bool)
    requires batches != [] && !fails(batches[|batches| - 1])
    ensures CommitEach(store, batches, fails, Ignore).0
      == InsertIgnore(CommitEach(store, batches[..|batches| - 1], fails, Ignore).0, batches[|batches| - 1])
  {
  }

  lemma {:induction false} RerunStored<K, R>(s: map<K, R>, batches: seq<seq<(K, R)>>, fails: seq<(K, R)> -> bool)
    requires forall i :: 0 <= i < |batches| ==> KeysOf(batches[i]) <= s.Keys
    ensures CommitEach(s, batches, fails, Ignore) == (s, 0)
  {
    if batches != [] {
      RerunStored(s, batches[..|batches| - 1], fails);
      InsertIgnoreStored(s, batches[|batches| - 1]);
    }
  }

  /** A table of rows with unique keys, and the open transaction's view of it. */
  class Table<K(==), R> {
    var committed: map<K, R>
    var working: map<K, R>

    constructor (rows: map<K, R>)
      ensures committed == rows && working == rows
    {
      committed := rows;
      working := rows;
    }

    /** No uncommitted work is pending. */
    ghost predicate Idle()
      reads this
    {
      working == committed
    }

    /** `cursor.execute`/`executemany` of one insert statement; `ok` is false when it raises, and then nothing changes. */
    method Execute(mode: Mode, rows: seq<(K, R)>) returns (ok: bool, count: nat)
      modifies this
      ensures ok == Statement(mode, old(working), rows).Some?
      ensures ok ==> (working, count) == Statement(mode, old(working), rows).value
      ensures !ok ==> working == old(working)
      ensures committed == old(committed)
    {
      var res := Statement(mode, working, rows);
      match res {
        case None =>
          ok, count := false, 0;
        case Some(r) =>
          ok := true;
          working, count := r.0, r.1;
      }
    }

    /** `conn.commit()`: the transaction's rows become durable. */
    method Commit()
      modifies this
      ensures committed == old(working) && working == old(working)
    {
      committed := working;
    }

    /** `conn.rollback()`: the transaction's uncommitted rows are discarded. */
    method Rollback()
      modifies this
      ensures working == old(committed) && committed == old(committed)
    {
      working := committed;
    }
  }

  /**
   * The per-batch commit loop shared by `insert_deposit_events`,
   * `fetch_and_insert_relay_data` and `insert_relay_data`: for each batch try
   * the statement and commit, adding the row count; on failure roll back and
   * go on with the next batch.
   */
  method CommitEachBatch<K(==), R>(db: Table<K, R>, batches: seq<seq<(K, R)>>, fails: seq<(K, R)> -> bool, mode: Mode)
    returns (inserted: nat)
    requires db.Idle()
    modifies db
    ensures db.Idle()
    ensures (db.committed, inserted) == CommitEach(old(db.committed), batches, fails, mode)
  {
    inserted := 0;
    for i := 0 to |batches|
      invariant db.Idle()
      invariant (db.committed, inserted) == CommitEach(old(db.committed), batches[..i], fails, mode)
    {
      assert batches[..i + 1][..i] == batches[..i];
      var batch := batches[i];
      if fails(batch) {
        db.Rollback();
      } else {
        var ok, count := db.Execute(mode, batch);
        if ok {
          db.Commit();
          inserted := inserted + count;
        } else {
          db.Rollback();
        }
      }
    }
    assert batches[..|batches|] == batches;
  }
}
