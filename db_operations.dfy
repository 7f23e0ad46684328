/**
 * src/db_operations.py: the batched inserts of both event kinds, the lookup
 * of transactions still missing their details, and the `relay_analysis`
 * insert with its column formulas.
 *
 * Events arrive already turned into keyed rows (the tuple building of the
 * source is not modelled); a row or batch whose statement raises is chosen
 * by the abstract `fails`.
 */
module DbOperations {
  import opened Wrappers
  import opened Batching
  import opened Store
  import opened Fees
  import opened Placeholders

  /** `insert_fill_events` commits after every this many events. */
  const FillCommitEvery: nat := 100
  /** Deposit ids per `relay_analysis` insert. */
  const RelayBatchSize: nat := 1000

  /**
   * `insert_deposit_events`: the events in slices of `batchSize`, each slice
   * one `INSERT IGNORE` committed on its own or rolled back on failure; the
   * first result is always the number of events.
   */
  method InsertDepositEvents<K(==), R>(db: Table<K, R>, events: seq<(K, R)>, batchSize: nat, fails: seq<(K, R)> -> bool)
    returns (totalEvents: nat, totalInserted: nat)
    requires batchSize > 0
    requires db.Idle()
    modifies db
    ensures totalEvents == |events|
    ensures db.Idle()
    ensures (db.committed, totalInserted) == CommitEach(old(db.committed), Chunks(events, batchSize), fails, Ignore)
  {
    totalEvents := |events|;
    totalInserted := CommitEachBatch(db, Chunks(events, batchSize), fails, Ignore);
  }

  /**
   * What `insert_deposit_events` achieves: the slices cover the events in
   * order, the inserted count never exceeds the number of events, and every
   * row stored before the call is still stored, unchanged.
   */
  lemma DepositEventsBounds<K, R>(store: map<K, R>, events: seq<(K, R)>, batchSize: nat, fails: seq<(K, R)> -> bool)
    requires batchSize > 0
    ensures Flatten(Chunks(events, batchSize)) == events
    ensures CommitEach(store, Chunks(events, batchSize), fails, Ignore).1 <= |events|
    ensures forall k :: k in store ==>
      k in CommitEach(store, Chunks(events, batchSize), fails, Ignore).0
      && CommitEach(store, Chunks(events, batchSize), fails, Ignore).0[k] == store[k]
  {
    ChunksPartition(events, batchSize);
    CommitEachBounds(store, Chunks(events, batchSize), fails, Ignore);
    TotalLengthFlatten(Chunks(events, batchSize));
  }

  /**
   * With no failing slice, every event's key ends up stored: the deposit
   * events are all present after the call.
   */
  lemma DepositEventsStored<K, R>(store: map<K, R>, events: seq<(K, R)>, batchSize: nat, fails: seq<(K, R)> -> bool)
    requires batchSize > 0
    requires forall i :: 0 <= i < |Chunks(events, batchSize)| ==> !fails(Chunks(events, batchSize)[i])
    ensures forall j :: 0 <= j < |events| ==> events[j].0 in CommitEach(store, Chunks(events, batchSize), fails, Ignore).0
  {
    var cs := Chunks(events, batchSize);
    AllKeysStored(store, cs, fails);
    forall j | 0 <= j < |events| ensures events[j].0 in CommitEach(store, cs, fails, Ignore).0 {
      var k, p := ChunkOf(events, batchSize, j);
      assert events[j].0 in Grouping.KeysOf(cs[k]);
    }
  }

  /** Position `j` of the list is position `p` of chunk `k`. */
  lemma {:induction false} ChunkOf<T>(xs: seq<T>, size: nat, j: nat) returns (k: nat, p: nat)
    requires size > 0 && j < |xs|
    ensures k < |Chunks(xs, size)| && p < |Chunks(xs, size)[k]| && Chunks(xs, size)[k][p] == xs[j]
    decreases |xs|
  {
    var n := Min(size, |xs|);
    if j < n {
      k, p := 0, j;
    } else {
      var k', p' := ChunkOf(xs[n..], size, j - n);
      k, p := k' + 1, p';
    }
  }

  /** The position of the first event whose statement raises, if any. */
  function FirstFailure<T>(rows: seq<T>, fails: T -> bool): (e: Option<nat>)
    ensures e.Some? ==> e.value < |rows| && fails(rows[e.value]) && forall j :: 0 <= j < e.value ==> !fails(rows[j])
    ensures e.None? ==> forall j :: 0 <= j < |rows| ==> !fails(rows[j])
  {
    if rows == [] then None
    else if fails(rows[0]) then Some(0)
    else match FirstFailure(rows[1..], fails)
      case None => None
      case Some(k) => Some(k + 1)
  }

  /** A failing position with none failing before it is the first failure. */
  lemma FirstFailureAt<T>(rows: seq<T>, fails: T -> bool, i: nat)
    requires i < |rows| && fails(rows[i])
    requires forall j :: 0 <= j < i ==> !fails(rows[j])
    ensures FirstFailure(rows, fails) == Some(i)
  {
  }

  /** With no failing position there is no first failure. */
  lemma FirstFailureNone<T>(rows: seq<T>, fails: T -> bool)
    requires forall j :: 0 <= j < |rows| ==> !fails(rows[j])
    ensures FirstFailure(rows, fails) == None
  {
  }

  /** How many events the last commit before the failing position `e` had made durable. */
  function CommittedBefore(e: nat): (n: nat)
    ensures n <= e && e - n < FillCommitEvery && n % FillCommitEvery == 0
  {
    (e / FillCommitEvery) * FillCommitEvery
  }

  /**
   * `insert_fill_events`: one `INSERT IGNORE` per event, a commit after every
   * 100th event and once more at the end. A statement that raises rolls back
   * and re-raises, so only the events up to the last commit persist; otherwise
   * every event has been sent and the count of processed events is returned.
   */
  method InsertFillEvents<K(==), R>(db: Table<K, R>, events: seq<(K, R)>, fails: ((K, R)) -> bool)
    returns (res: Result<nat, string>)
    requires db.Idle()
    modifies db
    ensures db.Idle()
    ensures match FirstFailure(events, fails)
      case None => res == Ok(|events|) && db.committed == InsertIgnore(old(db.committed), events)
      case Some(e) => res.Err? && db.committed == InsertIgnore(old(db.committed), events[..CommittedBefore(e)])
  {
    ghost var start := db.committed;
    var totalProcessed: nat := 0;
    for i := 0 to |events|
      invariant totalProcessed == i
      invariant forall j :: 0 <= j < i ==> !fails(events[j])
      invariant db.committed == InsertIgnore(start, events[..CommittedBefore(i)])
      invariant db.working == InsertIgnore(start, events[..i])
    {
      var index := i + 1;
      if fails(events[i]) {
        FirstFailureAt(events, fails, i);
        db.Rollback();
        return Err("MySQL Error");
      }
      FillStep(start, events, i);
      var ok, count := db.Execute(Ignore, [events[i]]);
      totalProcessed := totalProcessed + 1;
      if index % FillCommitEvery == 0 {
        db.Commit();
      }
    }
    db.Commit();
    assert events[..|events|] == events;
    FirstFailureNone(events, fails);
    return Ok(totalProcessed);
  }

  /**
   * One event of `insert_fill_events`: its statement extends the open
   * transaction by that event, and the last commit moves to it exactly
   * when it is a 100th event.
   */
  lemma FillStep<K, R>(start: map<K, R>, events: seq<(K, R)>, i: nat)
    requires i < |events|
    ensures Statement(Ignore, InsertIgnore(start, events[..i]), [events[i]]).value.0 == InsertIgnore(start, events[..i + 1])
    ensures (i + 1) % FillCommitEvery == 0 ==> CommittedBefore(i + 1) == i + 1
    ensures (i + 1) % FillCommitEvery != 0 ==> CommittedBefore(i + 1) == CommittedBefore(i)
  {
    InsertIgnoreSnoc(start, events[..i], events[i]);
    assert events[..i + 1] == events[..i] + [events[i]];
  }

  /** The two event tables `get_unprocessed_transactions` accepts. */
  const FilledTable: string := "filled_v3_relays"
  const DepositedTable: string := "v3_funds_deposited"

  /**
   * The distinct transaction hashes of `rows` (pairs of chain id and hash) on
   * chain `chainId` with no `transaction_details` row for that chain and hash.
   */
  function Unprocessed(rows: seq<(int, string)>, chainId: int, details: set<(int, string)>): set<string> {
    set i | 0 <= i < |rows| && rows[i].0 == chainId && (chainId, rows[i].1) !in details :: rows[i].1
  }

  /**
   * `get_unprocessed_transactions`: only the two event tables are accepted,
   * any other name is a `ValueError`; the result holds exactly the hashes of
   * that table's rows on the chain that have no details yet.
   */
  function GetUnprocessedTransactions(tableName: string, chainId: int, filled: seq<(int, string)>,
                                      deposited: seq<(int, string)>, details: set<(int, string)>): (r: Result<set<string>, string>)
    ensures r.Err? <==> tableName != FilledTable && tableName != DepositedTable
    ensures r.Err? ==> r.error == "Unknown table name: " + tableName
    ensures r.Ok? ==>
      var rows := if tableName == FilledTable then filled else deposited;
      forall h :: h in r.value <==> (chainId, h) in rows && (chainId, h) !in details
  {
    if tableName == FilledTable then Ok(Unprocessed(filled, chainId, details))
    else if tableName == DepositedTable then Ok(Unprocessed(deposited, chainId, details))
    else Err("Unknown table name: " + tableName)
  }

  /**
   * The query text and parameters of one batch: the `IN` list has exactly one
   * marker per deposit id passed.
   */
  function RelayStatement(batchIds: seq<int>): (q: (string, seq<int>))
    ensures Markers(q.0) == |q.1| && q.1 == batchIds
  {
    (InList(|batchIds|), batchIds)
  }

  /**
   * `fetch_and_insert_relay_data`: the deposit ids not yet analysed, in slices
   * of 1000, each slice one `INSERT IGNORE ... SELECT` committed on its own or
   * rolled back on failure; returns the summed row counts. `joinRows` stands
   * for the join the `SELECT` computes for a slice.
   */
  method FetchAndInsertRelayData<K(==), R>(db: Table<K, R>, pendingIds: seq<int>, joinRows: seq<int> -> seq<(K, R)>,
                                           fails: seq<(K, R)> -> bool)
    returns (totalInserted: nat)
    requires db.Idle()
    modifies db
    ensures db.Idle()
    ensures (db.committed, totalInserted) == CommitEach(old(db.committed), StatementBatches(joinRows, Chunks(pendingIds, RelayBatchSize)), fails, Ignore)
  {
    totalInserted := CommitEachBatch(db, StatementBatches(joinRows, Chunks(pendingIds, RelayBatchSize)), fails, Ignore);
  }

  /** The computed columns of one `relay_analysis` row. */
  datatype RelayAmounts = RelayAmounts(gasFee: real, earnedAmount: real, priorityFee: int,
                                       inputAmountUsd: real, outputAmountUsd: real, earnedAmountUsd: real)

  /**
   * The column expressions of the `relay_analysis` insert: `gas_fee` is the
   * total gas fee or 0; `earned_amount` is input minus output minus that fee;
   * `priority_fee` is the tip; the USD amounts use a price of 1 when none is
   * known; and `earned_amount_usd` subtracts the gas fee as it is, in wei.
   */
  function RelayAmountsOf(inputAmount: real, outputAmount: real, totalGasFee: Option<int>,
                          gasPrice: int, baseFee: int, gasUsed: int,
                          inputPrice: Option<real>, outputPrice: Option<real>): (a: RelayAmounts)
    ensures totalGasFee.None? ==> a.gasFee == 0.0
    ensures totalGasFee.Some? ==> a.gasFee == totalGasFee.value as real
    ensures a.earnedAmount + a.gasFee + outputAmount == inputAmount
    ensures a.priorityFee == PriorityFeeWei(gasPrice, baseFee, gasUsed)
    ensures gasUsed >= 0 ==> a.priorityFee >= 0
    ensures gasPrice <= baseFee ==> a.priorityFee == 0
    ensures baseFee < gasPrice ==> a.priorityFee == (gasPrice - baseFee) * gasUsed
    ensures a.earnedAmountUsd == a.inputAmountUsd - a.outputAmountUsd - a.gasFee
    ensures inputPrice.None? ==> a.inputAmountUsd == inputAmount
    ensures inputPrice.Some? ==> a.inputAmountUsd == inputAmount * inputPrice.value
    ensures outputPrice.None? ==> a.outputAmountUsd == outputAmount
    ensures outputPrice.Some? ==> a.outputAmountUsd == outputAmount * outputPrice.value
    ensures inputPrice.None? && outputPrice.None? ==> a.earnedAmountUsd == a.earnedAmount
  {
    var gas := totalGasFee.GetOr(0) as real;
    var inUsd := inputAmount * inputPrice.GetOr(1.0);
    var outUsd := outputAmount * outputPrice.GetOr(1.0);
    RelayAmounts(gas, inputAmount - outputAmount - gas, PriorityFeeWei(gasPrice, baseFee, gasUsed),
                 inUsd, outUsd, inUsd - outUsd - gas)
  }

  /**
   * When the price covers the base fee, the row's `priority_fee` plus the
   * burnt base fee is the transaction's total gas fee.
   */
  lemma RelayFeeSplit(inputAmount: real, outputAmount: real, totalGasFee: Option<int>,
                      gasPrice: int, baseFee: int, gasUsed: int,
                      inputPrice: Option<real>, outputPrice: Option<real>)
    requires baseFee <= gasPrice
    ensures var a := RelayAmountsOf(inputAmount, outputAmount, totalGasFee, gasPrice, baseFee, gasUsed, inputPrice, outputPrice);
      a.priorityFee + baseFee * gasUsed == TotalGasFee(gasUsed, gasPrice)
  {
    FeeSplit(gasPrice, baseFee, gasUsed);
  }
}
