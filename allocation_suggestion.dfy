/**
 * src/analysis/research/allocation_sugestion.py: `optimize_allocation_dp`, a
 * dynamic programme that spreads a total budget over trade-pair combos in
 * steps of 5000, picking for each combo and each budget the simulated row
 * and the allocation that add the most expected profit.
 *
 * `dp[i]` is the best expected profit found so far for a budget of `i`
 * steps and `allocations[i]` the plan achieving it; both lists are replaced
 * wholesale after each combo, so they are modelled as sequences.
 */
module AllocationSuggestion {
  import opened Wrappers
  import opened Grouping

  /** The budget step. */
  const Step: nat := 5000

  /** The four columns that identify a trade-pair combo. */
  datatype Combo = Combo(originChain: int, destinationChain: int, inputSymbol: string, outputSymbol: string)

  /** One row of the simulation results file. */
  datatype CsvRow = CsvRow(combo: Combo, simulatedAllocation: real, profit: real, profitRatio: real)

  /** One line of the returned plan: a combo, its allocation and its expected profit. */
  datatype Entry = Entry(combo: Combo, allocation: nat, expectedProfit: real)

  function RMin(a: real, b: real): real { if a <= b then a else b }

  /** Python's `int(x)` on a float: truncation toward zero. */
  function Truncate(x: real): (n: int)
    ensures x >= 0.0 ==> n as real <= x < n as real + 1.0
    ensures x < 0.0 ==> n as real - 1.0 < x <= n as real
  {
    if x >= 0.0 then x.Floor else -((-x).Floor)
  }

  /**
   * `total_steps = int(total_allocation / step)`: the whole number of steps
   * in a non-negative budget, 0 for any budget above minus one step, and
   * negative below that.
   */
  function TotalSteps(totalAllocation: real): (n: int)
    ensures n >= 0 <==> totalAllocation > -(Step as real)
    ensures n >= 0 && totalAllocation >= 0.0 ==>
      (n * Step) as real <= totalAllocation < ((n + 1) * Step) as real
    ensures n == 0 <==> -(Step as real) < totalAllocation < Step as real
  {
    Truncate(totalAllocation / Step as real)
  }

  /** The rows keyed by their combo, as the grouping loop sees them. */
  function Keyed(rows: seq<CsvRow>): (items: seq<(Combo, CsvRow)>)
    ensures |items| == |rows|
    ensures forall k :: 0 <= k < |rows| ==> items[k] == (rows[k].combo, rows[k])
  {
    seq(|rows|, k requires 0 <= k < |rows| => (rows[k].combo, rows[k]))
  }

  /** `allocation >= row["simulated_allocation"]` for an allocation of `j` steps. */
  predicate Usable(row: CsvRow, j: nat) {
    (j * Step) as real >= row.simulatedAllocation
  }

  /** `min(row["profit"], row["profit_ratio"] * allocation)` for an allocation of `j` steps. */
  function Value(row: CsvRow, j: nat): real {
    RMin(row.profit, row.profitRatio * (j * Step) as real)
  }

  /** The candidate total for budget `i`: `j` steps on `row`, the rest as the table had it. */
  function Candidate(row: CsvRow, j: nat, dp: seq<real>, i: nat): real
    requires j <= i < |dp|
  {
    Value(row, j) + dp[i - j]
  }

  /** An allocation of no steps is never worth more than nothing. */
  lemma ValueAtZero(row: CsvRow)
    ensures Value(row, 0) <= 0.0
  {
  }

  /** Pair `(j', r')` comes before `(j, r)` in the order the two loops visit them. */
  predicate Before(j': nat, r': nat, j: nat, r: nat) {
    j' < j || (j' == j && r' < r)
  }

  /** What the search for budget `i` knows once it has visited every pair before `(j, r)`. */
  ghost predicate BestSoFar(dp: seq<real>, rows: seq<CsvRow>, i: nat, j: nat, r: nat,
                            maxProfit: real, bestJ: nat, bestRow: Option<nat>)
    requires i < |dp|
  {
    && maxProfit >= 0.0
    && (forall j', r' :: 0 <= j' <= i && 0 <= r' < |rows| && Before(j', r', j, r) && Usable(rows[r'], j') ==>
          Candidate(rows[r'], j', dp, i) <= maxProfit)
    && (bestRow.None? ==> maxProfit == 0.0 && bestJ == 0)
    && (bestRow.Some? ==>
          && bestRow.value < |rows| && bestJ <= i && Before(bestJ, bestRow.value, j, r)
          && Usable(rows[bestRow.value], bestJ)
          && maxProfit == Candidate(rows[bestRow.value], bestJ, dp, i) > 0.0
          && forall j', r' :: 0 <= j' <= i && 0 <= r' < |rows| && Before(j', r', bestJ, bestRow.value) && Usable(rows[r'], j') ==>
               Candidate(rows[r'], j', dp, i) < maxProfit)
  }

  /**
   * The two inner loops for budget `i`: the largest candidate over every
   * allocation up to `i` steps and every usable row, starting from 0, and the
   * first allocation and row that reach it (the comparison is strict).
   */
  method BestChoice(dp: seq<real>, rows: seq<CsvRow>, i: nat)
    returns (maxProfit: real, bestAllocation: nat, bestRow: Option<nat>, ghost bestJ: nat)
    requires i < |dp|
    ensures maxProfit >= 0.0
    ensures forall j, r :: 0 <= j <= i && 0 <= r < |rows| && Usable(rows[r], j) ==> Candidate(rows[r], j, dp, i) <= maxProfit
    ensures bestAllocation == bestJ * Step
    ensures bestRow.None? ==> maxProfit == 0.0 && bestAllocation == 0
    ensures bestRow.Some? ==>
      && bestRow.value < |rows| && bestJ <= i && Usable(rows[bestRow.value], bestJ)
      && maxProfit == Candidate(rows[bestRow.value], bestJ, dp, i) > 0.0
      && forall j, r :: 0 <= j <= i && 0 <= r < |rows| && Before(j, r, bestJ, bestRow.value) && Usable(rows[r], j) ==>
           Candidate(rows[r], j, dp, i) < maxProfit
  {
    maxProfit, bestAllocation, bestRow, bestJ := 0.0, 0, None, 0;
    for j := 0 to i + 1
      invariant bestAllocation == bestJ * Step
      invariant BestSoFar(dp, rows, i, j, 0, maxProfit, bestJ, bestRow)
    {
      maxProfit, bestAllocation, bestRow, bestJ := ScanRows(dp, rows, i, j, maxProfit, bestAllocation, bestRow, bestJ);
      NextAllocation(dp, rows, i, j, maxProfit, bestJ, bestRow);
    }
    SearchDone(dp, rows, i, maxProfit, bestJ, bestRow);
  }

  /** Once every allocation up to `i` steps is visited, the best so far is the best overall. */
  lemma SearchDone(dp: seq<real>, rows: seq<CsvRow>, i: nat, maxProfit: real, bestJ: nat, bestRow: Option<nat>)
    requires i < |dp|
    requires BestSoFar(dp, rows, i, i + 1, 0, maxProfit, bestJ, bestRow)
    ensures forall j, r :: 0 <= j <= i && 0 <= r < |rows| && Usable(rows[r], j) ==> Candidate(rows[r], j, dp, i) <= maxProfit
    ensures bestRow.Some? ==> bestJ <= i
  {
  }

  /** The inner loop for allocation `j`: every row, in order, against the best so far. */
  method ScanRows(dp: seq<real>, rows: seq<CsvRow>, i: nat, j: nat,
                  maxProfit0: real, bestAllocation0: nat, bestRow0: Option<nat>, ghost bestJ0: nat)
    returns (maxProfit: real, bestAllocation: nat, bestRow: Option<nat>, ghost bestJ: nat)
    requires j <= i < |dp|
    requires bestAllocation0 == bestJ0 * Step
    requires BestSoFar(dp, rows, i, j, 0, maxProfit0, bestJ0, bestRow0)
    ensures bestAllocation == bestJ * Step
    ensures BestSoFar(dp, rows, i, j, |rows|, maxProfit, bestJ, bestRow)
  {
    maxProfit, bestAllocation, bestRow, bestJ := maxProfit0, bestAllocation0, bestRow0, bestJ0;
    for r := 0 to |rows|
      invariant bestAllocation == bestJ * Step
      invariant BestSoFar(dp, rows, i, j, r, maxProfit, bestJ, bestRow)
    {
      maxProfit, bestAllocation, bestRow, bestJ := VisitRow(dp, rows, i, j, r, maxProfit, bestAllocation, bestRow, bestJ);
    }
  }

  /** The body of the inner loop: row `r` at `j` steps, if usable and better, becomes the best. */
  method VisitRow(dp: seq<real>, rows: seq<CsvRow>, i: nat, j: nat, r: nat,
                  maxProfit0: real, bestAllocation0: nat, bestRow0: Option<nat>, ghost bestJ0: nat)
    returns (maxProfit: real, bestAllocation: nat, bestRow: Option<nat>, ghost bestJ: nat)
    requires j <= i < |dp| && r < |rows|
    requires bestAllocation0 == bestJ0 * Step
    requires BestSoFar(dp, rows, i, j, r, maxProfit0, bestJ0, bestRow0)
    ensures bestAllocation == bestJ * Step
    ensures BestSoFar(dp, rows, i, j, r + 1, maxProfit, bestJ, bestRow)
  {
    var allocation := j * Step;
    var row := rows[r];
    if allocation as real >= row.simulatedAllocation {
      var profit := RMin(row.profit, row.profitRatio * allocation as real);
      var remaining := i - j;
      var totalProfit := profit + dp[remaining];
      assert totalProfit == Candidate(row, j, dp, i);
      if totalProfit > maxProfit0 {
        VisitBetter(dp, rows, i, j, r, maxProfit0, bestJ0, bestRow0);
        maxProfit, bestAllocation, bestRow, bestJ := totalProfit, allocation, Some(r), j;
        return;
      }
    }
    VisitOther(dp, rows, i, j, r, maxProfit0, bestJ0, bestRow0);
    maxProfit, bestAllocation, bestRow, bestJ := maxProfit0, bestAllocation0, bestRow0, bestJ0;
  }

  /** A pair that is unusable or no better leaves the search as it was. */
  lemma VisitOther(dp: seq<real>, rows: seq<CsvRow>, i: nat, j: nat, r: nat, maxProfit: real, bestJ: nat, bestRow: Option<nat>)
    requires j <= i < |dp| && r < |rows|
    requires BestSoFar(dp, rows, i, j, r, maxProfit, bestJ, bestRow)
    requires Usable(rows[r], j) ==> Candidate(rows[r], j, dp, i) <= maxProfit
    ensures BestSoFar(dp, rows, i, j, r + 1, maxProfit, bestJ, bestRow)
  {
  }

  /** A usable pair that beats the best so far becomes the best. */
  lemma VisitBetter(dp: seq<real>, rows: seq<CsvRow>, i: nat, j: nat, r: nat, maxProfit: real, bestJ: nat, bestRow: Option<nat>)
    requires j <= i < |dp| && r < |rows|
    requires BestSoFar(dp, rows, i, j, r, maxProfit, bestJ, bestRow)
    requires Usable(rows[r], j) && Candidate(rows[r], j, dp, i) > maxProfit
    ensures BestSoFar(dp, rows, i, j, r + 1, Candidate(rows[r], j, dp, i), j, Some(r))
  {
  }

  /** Having visited every row for `j` steps is having visited everything before `j + 1` steps. */
  lemma NextAllocation(dp: seq<real>, rows: seq<CsvRow>, i: nat, j: nat, maxProfit: real, bestJ: nat, bestRow: Option<nat>)
    requires i < |dp|
    requires BestSoFar(dp, rows, i, j, |rows|, maxProfit, bestJ, bestRow)
    ensures BestSoFar(dp, rows, i, j + 1, 0, maxProfit, bestJ, bestRow)
  {
  }

  /** No usable pair visited before `(j, r)` reaches `v`: `(j, r)` is the first pair in loop order to reach it. */
  ghost predicate FirstToReach(dp: seq<real>, rows: seq<CsvRow>, i: nat, j: nat, r: nat, v: real)
    requires i < |dp|
  {
    forall j', r' :: 0 <= j' <= i && 0 <= r' < |rows| && Before(j', r', j, r) && Usable(rows[r'], j') ==>
      Candidate(rows[r'], j', dp, i) < v
  }

  /**
   * The outcome `(v, a)` for budget `i` after one combo: never below the old
   * entry, at least every usable candidate, and either the old entry kept or
   * replaced by a candidate that beats it, the first in loop order to reach
   * `v`, whose plan is the old plan for the remaining budget plus one entry for
   * this combo.
   */
  ghost predicate Settled(dp: seq<real>, allocs: seq<seq<Entry>>, combo: Combo, rows: seq<CsvRow>,
                          i: nat, v: real, a: seq<Entry>)
    requires |dp| == |allocs| && i < |dp|
  {
    && v >= dp[i]
    && (forall j, r :: 0 <= j <= i && 0 <= r < |rows| && Usable(rows[r], j) ==> Candidate(rows[r], j, dp, i) <= v)
    && ((v == dp[i] && a == allocs[i])
        || exists j, r :: 0 <= j <= i && 0 <= r < |rows| && Usable(rows[r], j)
             && v == Candidate(rows[r], j, dp, i) && v > dp[i] && FirstToReach(dp, rows, i, j, r, v)
             && a == allocs[i - j] + [Entry(combo, j * Step, v - dp[i - j])])
  }

  /**
   * The body of the combo loop: a fresh table computed from the old one for
   * every budget. The old entries are never negative (see `Inv`).
   */
  method CombineCombo(dp: seq<real>, allocs: seq<seq<Entry>>, combo: Combo, rows: seq<CsvRow>)
    returns (newDp: seq<real>, newAllocs: seq<seq<Entry>>)
    requires |dp| == |allocs|
    requires forall i :: 0 <= i < |dp| ==> dp[i] >= 0.0
    ensures |newDp| == |dp| && |newAllocs| == |allocs|
    ensures forall i :: 0 <= i < |dp| ==> Settled(dp, allocs, combo, rows, i, newDp[i], newAllocs[i])
  {
    newDp := dp;
    newAllocs := allocs;
    for i := 0 to |dp|
      invariant |newDp| == |dp| && |newAllocs| == |allocs|
      invariant forall k :: 0 <= k < i ==> Settled(dp, allocs, combo, rows, k, newDp[k], newAllocs[k])
      invariant forall k :: i <= k < |dp| ==> newDp[k] == dp[k] && newAllocs[k] == allocs[k]
    {
      var v, a := SettleBudget(dp, allocs, combo, rows, i);
      newDp, newAllocs := newDp[i := v], newAllocs[i := a];
    }
  }

  /**
   * One iteration of the budget loop: the entry for budget `i` is replaced
   * when the best choice beats it, and kept otherwise.
   */
  method SettleBudget(dp: seq<real>, allocs: seq<seq<Entry>>, combo: Combo, rows: seq<CsvRow>, i: nat)
    returns (v: real, a: seq<Entry>)
    requires |dp| == |allocs| && i < |dp| && dp[i] >= 0.0
    ensures Settled(dp, allocs, combo, rows, i, v, a)
  {
    v, a := dp[i], allocs[i];
    var maxProfit, bestAllocation, bestRow, bestJ := BestChoice(dp, rows, i);
    ChoiceSettled(dp, allocs, combo, rows, i, maxProfit, bestJ, bestRow);
    if maxProfit > v {
      v := maxProfit;
      var remaining := i - bestAllocation / Step;
      assert remaining == i - bestJ;
      a := allocs[remaining] + [Entry(combo, bestAllocation, maxProfit - dp[remaining])];
    }
  }

  /** The best choice for budget `i` settles it: kept when no better, otherwise taken. */
  lemma ChoiceSettled(dp: seq<real>, allocs: seq<seq<Entry>>, combo: Combo, rows: seq<CsvRow>,
                      i: nat, maxProfit: real, bestJ: nat, bestRow: Option<nat>)
    requires |dp| == |allocs| && i < |dp| && dp[i] >= 0.0
    requires maxProfit >= 0.0 && bestJ <= i
    requires forall j, r :: 0 <= j <= i && 0 <= r < |rows| && Usable(rows[r], j) ==> Candidate(rows[r], j, dp, i) <= maxProfit
    requires bestRow.None? ==> maxProfit == 0.0
    requires bestRow.Some? ==>
      && bestRow.value < |rows| && Usable(rows[bestRow.value], bestJ)
      && maxProfit == Candidate(rows[bestRow.value], bestJ, dp, i)
      && forall j, r :: 0 <= j <= i && 0 <= r < |rows| && Before(j, r, bestJ, bestRow.value) && Usable(rows[r], j) ==>
           Candidate(rows[r], j, dp, i) < maxProfit
    ensures maxProfit > dp[i] ==>
      Settled(dp, allocs, combo, rows, i, maxProfit, allocs[i - bestJ] + [Entry(combo, bestJ * Step, maxProfit - dp[i - bestJ])])
    ensures maxProfit <= dp[i] ==> Settled(dp, allocs, combo, rows, i, dp[i], allocs[i])
  {
    if maxProfit > dp[i] {
      var r := bestRow.value;
      assert FirstToReach(dp, rows, i, bestJ, r, maxProfit);
      assert 0 <= bestJ <= i && 0 <= r < |rows| && Usable(rows[r], bestJ)
             && maxProfit == Candidate(rows[r], bestJ, dp, i) && maxProfit > dp[i];
    }
  }

  /**
   * Ties go to the first pair in loop order. Here every usable allocation of
   * the one row earns its full profit of 10, so one step (5000) and two steps
   * tie, and the settled plan is the single step the strict `>` keeps.
   */
  lemma TieKeepsFirst(c: Combo, v: real, a: seq<Entry>)
    requires Settled([0.0, 0.0, 0.0], [[], [], []], c, [CsvRow(c, 5000.0, 10.0, 1.0)], 2, v, a)
    ensures v == 10.0 && a == [Entry(c, 5000, 10.0)]
  {
    var dp: seq<real>, allocs: seq<seq<Entry>> := [0.0, 0.0, 0.0], [[], [], []];
    var rows := [CsvRow(c, 5000.0, 10.0, 1.0)];
    assert Usable(rows[0], 1) && Candidate(rows[0], 1, dp, 2) == 10.0;
    assert v > dp[2];
    var j, r :| 0 <= j <= 2 && 0 <= r < |rows| && Usable(rows[r], j)
             && v == Candidate(rows[r], j, dp, 2) && v > dp[2] && FirstToReach(dp, rows, 2, j, r, v)
             && a == allocs[2 - j] + [Entry(c, j * Step, v - dp[2 - j])];
    assert r == 0 && !Usable(rows[0], 0);
    assert Value(rows[0], 2) == 10.0;
    assert v == 10.0;
    assert !Before(1, 0, j, r);
    assert j == 1;
  }

  /** Total expected profit of a plan. */
  function SumProfit(e: seq<Entry>): real {
    if e == [] then 0.0 else SumProfit(e[..|e| - 1]) + e[|e| - 1].expectedProfit
  }

  /** Total allocation of a plan. */
  function SumAlloc(e: seq<Entry>): nat {
    if e == [] then 0 else SumAlloc(e[..|e| - 1]) + e[|e| - 1].allocation
  }

  lemma SumsSnoc(e: seq<Entry>, x: Entry)
    ensures SumProfit(e + [x]) == SumProfit(e) + x.expectedProfit
    ensures SumAlloc(e + [x]) == SumAlloc(e) + x.allocation
  {
    assert (e + [x])[..|e|] == e;
  }

  /** The position of `x` in `s`. */
  function IndexIn<T(==)>(s: seq<T>, x: T): (k: nat)
    requires x in s
    ensures k < |s| && s[k] == x
  {
    if s[0] == x then 0 else 1 + IndexIn(s[1..], x)
  }

  ghost predicate Distinct<T>(s: seq<T>) {
    forall p, q :: 0 <= p < q < |s| ==> s[p] != s[q]
  }

  /**
   * `e` is a plan for a budget of `i` steps worth `v`, drawing only on the
   * first `c` combos of `order`: its profits sum to `v`, its allocations are
   * whole steps, at least one each, and fit the budget, and its combos appear
   * once each, in processing order.
   */
  ghost predicate Plan(e: seq<Entry>, v: real, i: nat, order: seq<Combo>, c: nat) {
    && v >= 0.0 && SumProfit(e) == v && SumAlloc(e) <= i * Step
    && (forall a :: 0 <= a < |e| ==>
          e[a].allocation % Step == 0 && e[a].allocation >= Step
          && e[a].combo in order && IndexIn(order, e[a].combo) < c)
    && (forall a, b :: 0 <= a < b < |e| ==> IndexIn(order, e[a].combo) < IndexIn(order, e[b].combo))
  }

  /** The invariant of the combo loop after `c` combos, for budgets up to `t` steps. */
  ghost predicate Inv(dp: seq<real>, allocs: seq<seq<Entry>>, order: seq<Combo>, c: nat, t: nat) {
    && |dp| == t + 1 && |allocs| == t + 1 && c <= |order|
    && dp[0] == 0.0 && allocs[0] == []
    && forall i :: 0 <= i <= t ==> Plan(allocs[i], dp[i], i, order, c)
  }

  lemma PlanWiden(e: seq<Entry>, v: real, i: nat, order: seq<Combo>, c: nat)
    requires Plan(e, v, i, order, c)
    ensures Plan(e, v, i, order, c + 1)
  {
  }

  /** Adding an entry for the next combo to a plan for the rest of the budget gives a plan. */
  lemma PlanSnoc(e: seq<Entry>, w: real, m: nat, order: seq<Combo>, c: nat, j: nat, v: real)
    requires Plan(e, w, m, order, c)
    requires Distinct(order) && c < |order|
    requires j >= 1 && v >= 0.0
    ensures Plan(e + [Entry(order[c], j * Step, v - w)], v, m + j, order, c + 1)
  {
    var x := Entry(order[c], j * Step, v - w);
    var e' := e + [x];
    SumsSnoc(e, x);
    assert SumProfit(e') == v;
    assert SumAlloc(e') <= (m + j) * Step;
    assert x.allocation % Step == 0 && x.allocation >= Step;
    assert IndexIn(order, order[c]) == c;
    SnocEntries(e, x, order, c);
  }

  /** The entries of a plan over the first `c` combos, then one for combo `c`, keep the combo order. */
  lemma SnocEntries(e: seq<Entry>, x: Entry, order: seq<Combo>, c: nat)
    requires forall a :: 0 <= a < |e| ==>
      e[a].allocation % Step == 0 && e[a].allocation >= Step
      && e[a].combo in order && IndexIn(order, e[a].combo) < c
    requires forall a, b :: 0 <= a < b < |e| ==> IndexIn(order, e[a].combo) < IndexIn(order, e[b].combo)
    requires x.allocation % Step == 0 && x.allocation >= Step
    requires x.combo in order && IndexIn(order, x.combo) == c
    ensures forall a :: 0 <= a < |e + [x]| ==>
      (e + [x])[a].allocation % Step == 0 && (e + [x])[a].allocation >= Step
      && (e + [x])[a].combo in order && IndexIn(order, (e + [x])[a].combo) < c + 1
    ensures forall a, b :: 0 <= a < b < |e + [x]| ==> IndexIn(order, (e + [x])[a].combo) < IndexIn(order, (e + [x])[b].combo)
  {
    var e' := e + [x];
    forall a | 0 <= a < |e'|
      ensures e'[a].allocation % Step == 0 && e'[a].allocation >= Step
      ensures e'[a].combo in order && IndexIn(order, e'[a].combo) < c + 1
    {
      if a < |e| {
        assert e'[a] == e[a];
      }
    }
    forall a, b | 0 <= a < b < |e'| ensures IndexIn(order, e'[a].combo) < IndexIn(order, e'[b].combo) {
      assert e'[a] == e[a];
      if b < |e| {
        assert e'[b] == e[b];
      }
    }
  }

  /** One budget's outcome after the next combo is again a plan. */
  lemma SettledPlan(dp: seq<real>, allocs: seq<seq<Entry>>, order: seq<Combo>, c: nat, t: nat,
                    rows: seq<CsvRow>, i: nat, v: real, a: seq<Entry>)
    requires Inv(dp, allocs, order, c, t) && Distinct(order) && c < |order| && i <= t
    requires Settled(dp, allocs, order[c], rows, i, v, a)
    ensures Plan(a, v, i, order, c + 1)
  {
    var kept, j := SettledShape(dp, allocs, order[c], rows, i, v, a);
    if kept {
      assert Plan(allocs[i], dp[i], i, order, c);
      PlanWiden(allocs[i], dp[i], i, order, c);
    } else {
      assert Plan(allocs[i - j], dp[i - j], i - j, order, c);
      PlanSnoc(allocs[i - j], dp[i - j], i - j, order, c, j, v);
    }
  }

  /**
   * A settled outcome either keeps the old entry, or extends the plan of a
   * smaller budget by at least one step on this combo, with a gain over it.
   */
  lemma SettledShape(dp: seq<real>, allocs: seq<seq<Entry>>, combo: Combo, rows: seq<CsvRow>, i: nat, v: real, a: seq<Entry>)
    returns (kept: bool, j: nat)
    requires |dp| == |allocs| && i < |dp|
    requires Settled(dp, allocs, combo, rows, i, v, a)
    ensures kept ==> v == dp[i] && a == allocs[i]
    ensures !kept ==> 1 <= j <= i && v > dp[i] && a == allocs[i - j] + [Entry(combo, j * Step, v - dp[i - j])]
  {
    if v == dp[i] && a == allocs[i] {
      kept, j := true, 0;
    } else {
      var r;
      kept := false;
      j, r :| 0 <= j <= i && 0 <= r < |rows| && Usable(rows[r], j)
             && v == Candidate(rows[r], j, dp, i) && v > dp[i]
             && a == allocs[i - j] + [Entry(combo, j * Step, v - dp[i - j])];
      ValueAtZero(rows[r]);
    }
  }

  /** The combo loop keeps its invariant, and no entry of the table decreases. */
  lemma InvStep(dp: seq<real>, allocs: seq<seq<Entry>>, order: seq<Combo>, c: nat, t: nat,
                rows: seq<CsvRow>, newDp: seq<real>, newAllocs: seq<seq<Entry>>)
    requires Inv(dp, allocs, order, c, t) && Distinct(order) && c < |order|
    requires |newDp| == t + 1 && |newAllocs| == t + 1
    requires forall i :: 0 <= i <= t ==> Settled(dp, allocs, order[c], rows, i, newDp[i], newAllocs[i])
    ensures Inv(newDp, newAllocs, order, c + 1, t)
    ensures forall i :: 0 <= i <= t ==> newDp[i] >= dp[i]
  {
    forall i | 0 <= i <= t ensures Plan(newAllocs[i], newDp[i], i, order, c + 1) {
      SettledPlan(dp, allocs, order, c, t, rows, i, newDp[i], newAllocs[i]);
    }
    SettledAtZero(dp, allocs, order[c], rows, newDp[0], newAllocs[0]);
  }

  /** With no budget nothing can beat the old entry, which is kept. */
  lemma SettledAtZero(dp: seq<real>, allocs: seq<seq<Entry>>, combo: Combo, rows: seq<CsvRow>, v: real, a: seq<Entry>)
    requires |dp| == |allocs| && 0 < |dp|
    requires Settled(dp, allocs, combo, rows, 0, v, a)
    ensures v == dp[0] && a == allocs[0]
  {
    forall j, r | 0 <= j <= 0 && 0 <= r < |rows| ensures Candidate(rows[r], j, dp, 0) <= dp[0] {
      ValueAtZero(rows[r]);
    }
  }

  /**
   * What the returned plan satisfies: its expected profits sum to the
   * returned total, which is not negative; its allocations are whole steps,
   * at least one each, within `t` steps in all; and each of its combos occurs
   * in the input, once, in order of first appearance.
   */
  ghost predicate ValidPlan(rows: seq<CsvRow>, t: nat, plan: seq<Entry>, total: real) {
    && total >= 0.0 && SumProfit(plan) == total && SumAlloc(plan) <= t * Step
    && (forall a :: 0 <= a < |plan| ==>
          plan[a].allocation % Step == 0 && plan[a].allocation >= Step && plan[a].combo in KeysOf(Keyed(rows)))
    && (forall a, b :: 0 <= a < b < |plan| ==>
          plan[a].combo != plan[b].combo && SeenBefore(Keyed(rows), plan[a].combo, plan[b].combo))
  }

  /**
   * `optimize_allocation_dp`: group the rows by combo, fold every combo into
   * the table, and return the plan and profit for the whole budget. A budget
   * of minus one step or less leaves the table empty, and reading its last
   * entry is an `IndexError`.
   */
  method OptimizeAllocationDp(rows: seq<CsvRow>, totalAllocation: real) returns (res: Result<(seq<Entry>, real), string>)
    ensures res.Err? <==> TotalSteps(totalAllocation) < 0
    ensures res.Ok? ==> ValidPlan(rows, TotalSteps(totalAllocation), res.value.0, res.value.1)
    ensures res.Ok? && (TotalSteps(totalAllocation) == 0 || rows == []) ==> res.value == ([], 0.0)
    ensures res.Ok? ==> forall k :: 0 <= k < |rows| ==> AtLeast(res.value.1, TotalSteps(totalAllocation), rows[k])
  {
    var totalSteps := TotalSteps(totalAllocation);
    var order, combos := GroupBy(Keyed(rows));
    if totalSteps < 0 {
      return Err("list index out of range");
    }
    var t: nat := totalSteps;
    var dp: seq<real> := seq(t + 1, _ => 0.0);
    var allocs: seq<seq<Entry>> := seq(t + 1, _ => []);
    for c := 0 to |order|
      invariant Inv(dp, allocs, order, c, t)
      invariant forall c' :: 0 <= c' < c ==> Beats(dp[t], t, combos[order[c']])
    {
      dp, allocs := FoldCombo(dp, allocs, order, combos, c, t);
    }
    if rows == [] {
      PlanWithoutCombos(allocs[t], dp[t], t, order);
    }
    ResultValid(rows, order, combos, t, allocs[t], dp[t]);
    ResultBeatsRows(rows, order, combos, t, dp[t]);
    return Ok((allocs[t], dp[t]));
  }

  /**
   * One iteration of the combo loop: the table after combo `c` keeps the
   * invariant, and its whole-budget profit still beats every combo so far.
   */
  method FoldCombo(dp: seq<real>, allocs: seq<seq<Entry>>, order: seq<Combo>, combos: map<Combo, seq<CsvRow>>, c: nat, t: nat)
    returns (newDp: seq<real>, newAllocs: seq<seq<Entry>>)
    requires Inv(dp, allocs, order, c, t) && Distinct(order) && c < |order|
    requires forall k :: k in order ==> k in combos
    requires forall c' :: 0 <= c' < c ==> Beats(dp[t], t, combos[order[c']])
    ensures Inv(newDp, newAllocs, order, c + 1, t)
    ensures forall c' :: 0 <= c' < c + 1 ==> Beats(newDp[t], t, combos[order[c']])
  {
    newDp, newAllocs := CombineCombo(dp, allocs, order[c], combos[order[c]]);
    InvStep(dp, allocs, order, c, t, combos[order[c]], newDp, newAllocs);
    BeatsStep(dp, allocs, order[c], combos[order[c]], t, newDp, newAllocs);
    forall c' | 0 <= c' < c ensures Beats(newDp[t], t, combos[order[c']]) {
      BeatsMonotone(dp[t], newDp[t], t, combos[order[c']]);
    }
  }

  /** A plan drawn from none of the combos is the empty plan, worth nothing. */
  lemma PlanWithoutCombos(e: seq<Entry>, v: real, i: nat, order: seq<Combo>)
    requires Plan(e, v, i, order, 0)
    ensures e == [] && v == 0.0
  {
    assert forall a :: 0 <= a < |e| ==> IndexIn(order, e[a].combo) < 0;
  }

  /** A plan over the grouped combos is a valid plan for the input rows. */
  lemma ResultValid(rows: seq<CsvRow>, order: seq<Combo>, groups: map<Combo, seq<CsvRow>>, t: nat,
                    plan: seq<Entry>, total: real)
    requires groups.Keys == KeysOf(Keyed(rows))
    requires forall k :: k in order <==> k in groups
    requires Distinct(order)
    requires forall p, q :: 0 <= p < q < |order| ==> SeenBefore(Keyed(rows), order[p], order[q])
    requires Plan(plan, total, t, order, |order|)
    ensures ValidPlan(rows, t, plan, total)
  {
    forall a, b | 0 <= a < b < |plan|
      ensures plan[a].combo != plan[b].combo && SeenBefore(Keyed(rows), plan[a].combo, plan[b].combo)
    {
      var p, q := IndexIn(order, plan[a].combo), IndexIn(order, plan[b].combo);
      assert p < q;
    }
  }

  /**
   * `total` is at least what `row` alone earns with any usable allocation
   * of at most `t` steps.
   */
  ghost predicate AtLeast(total: real, t: int, row: CsvRow) {
    forall j :: 0 <= j <= t && Usable(row, j) ==> Value(row, j) <= total
  }

  ghost predicate Beats(total: real, t: int, rows: seq<CsvRow>) {
    forall r :: 0 <= r < |rows| ==> AtLeast(total, t, rows[r])
  }

  lemma BeatsMonotone(total: real, total': real, t: int, rows: seq<CsvRow>)
    requires Beats(total, t, rows) && total <= total'
    ensures Beats(total', t, rows)
  {
  }

  /** After a combo, the entry for the whole budget beats every single row of that combo. */
  lemma BeatsStep(dp: seq<real>, allocs: seq<seq<Entry>>, combo: Combo, rows: seq<CsvRow>, t: nat,
                  newDp: seq<real>, newAllocs: seq<seq<Entry>>)
    requires |dp| == t + 1 && |allocs| == t + 1 && |newDp| == t + 1 && |newAllocs| == t + 1
    requires forall i :: 0 <= i <= t ==> dp[i] >= 0.0
    requires Settled(dp, allocs, combo, rows, t, newDp[t], newAllocs[t])
    ensures Beats(newDp[t], t, rows)
  {
    forall r, j | 0 <= r < |rows| && 0 <= j <= t && Usable(rows[r], j) ensures Value(rows[r], j) <= newDp[t] {
      assert Candidate(rows[r], j, dp, t) <= newDp[t];
    }
  }

  /**
   * Every input row sits in the group of its combo, so beating every group
   * beats every row.
   */
  lemma ResultBeatsRows(rows: seq<CsvRow>, order: seq<Combo>, groups: map<Combo, seq<CsvRow>>, t: nat, total: real)
    requires groups.Keys == KeysOf(Keyed(rows))
    requires forall k :: k in groups ==> groups[k] == Select(Keyed(rows), k)
    requires forall k :: k in order <==> k in groups
    requires forall c :: 0 <= c < |order| ==> Beats(total, t, groups[order[c]])
    ensures forall k :: 0 <= k < |rows| ==> AtLeast(total, t, rows[k])
  {
    var items := Keyed(rows);
    forall k | 0 <= k < |rows| ensures AtLeast(total, t, rows[k]) {
      var key := rows[k].combo;
      assert items[k].0 == key;
      assert key in KeysOf(items);
      SelectComplete(items, key);
      var c := IndexIn(order, key);
      var r :| 0 <= r < |groups[key]| && groups[key][r] == rows[k];
      assert Beats(total, t, groups[order[c]]);
    }
  }
}
