/**
 Which configuration a sweep reports (server/backtest.py): the head of the stable
 sort over all rows, and the one full result that was kept while they landed.
 */
module Ranking {
  import opened Seqs
  import opened Bisect
  import opened Sweep

  // The tuple _rank_key returns, compared in order.
  datatype Rank = Rank(missing: nat, value: real, tieMissing: nat, tieValue: real)

  predicate Below(a: Rank, b: Rank) {
    a.missing < b.missing
    || (a.missing == b.missing && (a.value < b.value
        || (a.value == b.value && (a.tieMissing < b.tieMissing
            || (a.tieMissing == b.tieMissing && a.tieValue < b.tieValue)))))
  }

  // Descending, missing or NaN last.
  function Part(row: Row, column: Option<string>): (nat, real) {
    if column == None then (0, 0.0)
    else if column.value in row.metrics && row.metrics[column.value].Some? then (0, -row.metrics[column.value].value)
    else (1, 0.0)
  }

  datatype Ranking = Ranking(rankBy: string, tieBreakBy: Option<string>)

  function RankKey(row: Row, how: Ranking): Rank {
    var first, second := Part(row, Some(how.rankBy)), Part(row, how.tieBreakBy);
    Rank(first.0, first.1, second.0, second.1)
  }

  function RankKeys(rows: seq<Row>, how: Ranking): seq<Rank> {
    seq(|rows|, i requires 0 <= i < |rows| => RankKey(rows[i], how))
  }

  // A higher value ranks first, any value before none, and only rows that rank
  // alike are left to the tie-break.
  lemma RankKeyOrders(a: Row, b: Row, how: Ranking)
    ensures var x, y := Value(a, how.rankBy), Value(b, how.rankBy);
            && (x.Some? && y.Some? && x.value > y.value ==> Below(RankKey(a, how), RankKey(b, how)))
            && (x.Some? && y.None? ==> Below(RankKey(a, how), RankKey(b, how)))
            && (x == y && how.tieBreakBy == None ==> RankKey(a, how) == RankKey(b, how))
            && (x == y && how.tieBreakBy.Some? ==>
                  var s, t := Value(a, how.tieBreakBy.value), Value(b, how.tieBreakBy.value);
                  Below(RankKey(a, how), RankKey(b, how)) <==> s.Some? && (t.None? || s.value > t.value))
  {
  }

  function Value(row: Row, column: string): Option<real> {
    if column in row.metrics then row.metrics[column] else None
  }

  // ---- the stable sort --------------------------------------------------

  // Of two positions, which comes first: the better key, or the earlier of two
  // equal ones.
  predicate Before(keys: seq<Rank>, i: nat, j: nat) {
    i < |keys| && j < |keys| && (Below(keys[i], keys[j]) || (keys[i] == keys[j] && i < j))
  }

  ghost predicate Ordered(keys: seq<Rank>, order: seq<nat>) {
    && (forall a | 0 <= a < |order| :: order[a] < |keys|)
    && forall a, b | 0 <= a < b < |order| :: Before(keys, order[a], order[b])
  }

  // sorted(range(len(keys)), key=...): every position, in that order.
  ghost predicate IsStableSort(keys: seq<Rank>, order: seq<nat>) {
    Ordered(keys, order) && forall i | 0 <= i < |keys| :: i in order
  }

  function Insert(keys: seq<Rank>, order: seq<nat>, i: nat): seq<nat> {
    if order == [] then [i]
    else if Before(keys, i, order[0]) then [i] + order
    else [order[0]] + Insert(keys, order[1..], i)
  }

  function StableSort(keys: seq<Rank>, n: nat): seq<nat> {
    if n == 0 then [] else Insert(keys, StableSort(keys, n - 1), n - 1)
  }

  lemma {:induction false} InsertMembers(keys: seq<Rank>, order: seq<nat>, i: nat)
    ensures forall x: nat :: x in Insert(keys, order, i) <==> x in order || x == i
  {
    if order != [] && !Before(keys, i, order[0]) {
      InsertMembers(keys, order[1..], i);
      assert order == [order[0]] + order[1..];
    }
  }

  lemma OrderedTail(keys: seq<Rank>, order: seq<nat>)
    requires Ordered(keys, order) && order != []
    ensures Ordered(keys, order[1..])
    ensures forall i: nat | i in order[1..] :: Before(keys, order[0], i)
  {
    var rest := order[1..];
    forall a, b | 0 <= a < b < |rest| ensures Before(keys, rest[a], rest[b]) {
      assert rest[a] == order[a + 1] && rest[b] == order[b + 1];
    }
    forall i: nat | i in rest ensures Before(keys, order[0], i) {
      var b :| 0 <= b < |rest| && rest[b] == i;
      assert order[b + 1] == i;
    }
  }

  lemma {:induction false} InsertOrdered(keys: seq<Rank>, order: seq<nat>, i: nat)
    requires Ordered(keys, order) && i < |keys| && i !in order
    ensures Ordered(keys, Insert(keys, order, i))
  {
    InsertMembers(keys, order, i);
    if order != [] {
      var tail := order[1..];
      assert order == [order[0]] + tail;
      OrderedTail(keys, order);
      if Before(keys, i, order[0]) {
        InFront(keys, order, i);
      } else {
        InsertOrdered(keys, tail, i);
        InsertMembers(keys, tail, i);
        InFront(keys, Insert(keys, tail, i), order[0]);
      }
    }
  }

  lemma InFront(keys: seq<Rank>, order: seq<nat>, i: nat)
    requires Ordered(keys, order) && i < |keys|
    requires order == [] || Before(keys, i, order[0])
    ensures Ordered(keys, [i] + order)
  {
    var whole := [i] + order;
    forall a, b | 0 <= a < b < |whole| ensures Before(keys, whole[a], whole[b]) {
      assert whole[b] == order[b - 1];
      if a > 0 {
        assert whole[a] == order[a - 1];
      } else if b > 1 {
        assert Before(keys, order[0], order[b - 1]);
      }
    }
  }

  lemma {:induction false} StableSortSorts(keys: seq<Rank>, n: nat)
    requires n <= |keys|
    ensures Ordered(keys, StableSort(keys, n))
    ensures forall i: nat :: i in StableSort(keys, n) <==> i < n
  {
    if n > 0 {
      StableSortSorts(keys, n - 1);
      InsertMembers(keys, StableSort(keys, n - 1), n - 1);
      InsertOrdered(keys, StableSort(keys, n - 1), n - 1);
    }
  }

  // ---- the streaming best -----------------------------------------------

  // The first of the best among the positions that have a result.
  ghost predicate IsBest(keys: seq<Rank>, results: seq<Option<Result>>, best: Option<nat>)
    requires |keys| == |results|
  {
    match best
    case None => forall i | 0 <= i < |results| :: results[i] == None
    case Some(b) =>
      b < |results| && results[b].Some?
      && forall i | 0 <= i < |results| && results[i].Some? && i != b :: Before(keys, b, i)
  }

  // _BestOnlySink: one row after another, one full result at a time.
  class BestOnlySink {
    const firstIndex: nat
    const how: Ranking
    var rows: seq<Row>
    var bestIndex: Option<nat>
    var bestResult: Option<Result>
    var bestKey: Option<Rank>
    // The results as they were handed over; only one of them is kept.
    ghost var results: seq<Option<Result>>

    function Best(): Option<nat>
      reads this
      requires bestIndex.Some? ==> bestIndex.value >= firstIndex
    {
      if bestIndex.None? then None else Some(bestIndex.value - firstIndex)
    }

    ghost predicate Valid()
      reads this
    {
      && |results| == |rows|
      && (bestIndex.Some? ==> bestIndex.value >= firstIndex)
      && IsBest(RankKeys(rows, how), results, Best())
      && bestKey == (if Best().None? then None else Some(RankKeys(rows, how)[Best().value]))
      && bestResult == (if Best().None? then None else results[Best().value])
    }

    constructor (firstIndex: nat, how: Ranking)
      ensures Valid() && rows == [] && results == [] && this.firstIndex == firstIndex && this.how == how
    {
      this.firstIndex, this.how := firstIndex, how;
      rows, results, bestIndex, bestResult, bestKey := [], [], None, None, None;
    }

    method Record(row: Row, result: Option<Result>)
      requires Valid()
      modifies this
      ensures Valid() && rows == old(rows) + [row] && results == old(results) + [result]
    {
      var index := firstIndex + |rows|;
      ghost var before := RankKeys(rows, how);
      rows := rows + [row];
      results := results + [result];
      assert RankKeys(rows, how) == before + [RankKey(row, how)];
      if result == None {
        return;
      }
      var key := RankKey(row, how);
      if bestKey == None || Below(key, bestKey.value) {
        bestKey := Some(key);
        bestIndex := Some(index);
        bestResult := result;
      }
    }
  }

  // ---- they agree -------------------------------------------------------

  lemma HeadIsFirst(keys: seq<Rank>, order: seq<nat>, i: nat)
    requires IsStableSort(keys, order) && i < |keys|
    ensures order != [] && order[0] < |keys| && (i == order[0] || Before(keys, order[0], i))
  {
    assert i in order;
    var k :| 0 <= k < |order| && order[k] == i;
  }

  // The row the sink kept a result of is the one the stable sort puts first
  // exactly when that one was finished in this attempt and has a result.
  lemma StreamingBestIsBatchBest(prior: seq<Rank>, keys: seq<Rank>, results: seq<Option<Result>>, best: Option<nat>, order: seq<nat>)
    requires |keys| == |results| && IsBest(keys, results, best) && IsStableSort(prior + keys, order) && order != []
    ensures order[0] < |prior + keys|
    ensures best.Some? && |prior| + best.value == order[0]
            <==> order[0] >= |prior| && results[order[0] - |prior|].Some?
  {
    var all, head := prior + keys, order[0];
    if head >= |prior| && results[head - |prior|].Some? {
      var h, b := head - |prior|, best.value;
      HeadIsFirst(all, order, |prior| + b);
      assert all[|prior| + b] == keys[b] && all[head] == keys[h];
      assert Before(keys, b, h) || h == b;
    }
  }

  // Nothing to rank it by: missing in both columns.
  predicate Unranked(row: Row, how: Ranking) {
    Value(row, how.rankBy) == None && (how.tieBreakBy.Some? ==> Value(row, how.tieBreakBy.value) == None)
  }

  // A configuration that could not be run is put first if and only if it comes
  // first in the rows and no configuration that was run has anything to be
  // ranked by.
  lemma HeadFailedIff(rows: seq<Row>, how: Ranking, order: seq<nat>)
    requires rows != [] && IsStableSort(RankKeys(rows, how), order)
    requires forall i | 0 <= i < |rows| && rows[i].failed :: rows[i].metrics == map[]
    ensures order != [] && order[0] < |rows|
    ensures rows[order[0]].failed <==> rows[0].failed && forall i | 0 <= i < |rows| && !rows[i].failed :: Unranked(rows[i], how)
  {
    var keys := RankKeys(rows, how);
    HeadIsFirst(keys, order, 0);
    var head := order[0];
    if rows[head].failed {
      assert keys[head] == RankKey(rows[head], how) && keys[0] == RankKey(rows[0], how);
      UnrankedIsLast(rows[head], rows[0], how);
      assert head == 0;
      forall i | 0 <= i < |rows| && !rows[i].failed ensures Unranked(rows[i], how) {
        HeadIsFirst(keys, order, i);
        assert keys[i] == RankKey(rows[i], how);
        UnrankedIsLast(rows[head], rows[i], how);
      }
    } else if rows[0].failed && Unranked(rows[head], how) {
      assert keys[head] == RankKey(rows[head], how) && keys[0] == RankKey(rows[0], how);
      UnrankedIsLast(rows[head], rows[0], how);
    }
  }

  lemma UnrankedIsLast(row: Row, other: Row, how: Ranking)
    requires Unranked(row, how)
    ensures !Below(RankKey(row, how), RankKey(other, how))
    ensures !Below(RankKey(other, how), RankKey(row, how)) <==> Unranked(other, how)
    ensures Unranked(other, how) ==> RankKey(row, how) == RankKey(other, how)
  {
  }

  // ---- the report ---------------------------------------------------------

  predicate HasColumn(rows: seq<Row>, column: string) {
    exists i :: 0 <= i < |rows| && column in rows[i].metrics
  }

  // Every configuration that was run, ranked.
  function Cells(rows: seq<Row>, order: seq<nat>): seq<Row> {
    if order == [] then []
    else (if order[0] < |rows| && !rows[order[0]].failed then [rows[order[0]]] else []) + Cells(rows, order[1..])
  }

  // NoResult: the report takes its fills from a result there is none of.
  datatype Report = NoColumn | NoResult | Reported(cells: seq<Row>, log: Result)

  // The end of run_backtest for one fund. The result is the one the sink kept if
  // it is that of the row ranked first; else that row's configuration is run
  // once more.
  function ReportFund(rows: seq<Row>, how: Ranking, order: seq<nat>, bestIndex: Option<nat>, bestResult: Option<Result>,
                      keys: set<Key>, eval: Config -> Outcome): Report
    requires rows != [] ==> order != [] && order[0] < |rows|
  {
    if !HasColumn(rows, how.rankBy) || (how.tieBreakBy.Some? && !HasColumn(rows, how.tieBreakBy.value)) then NoColumn
    else
      var result := if bestIndex == Some(order[0]) && bestResult.Some? then bestResult
                    else ResultOf(eval(KeyOf(rows[order[0]], keys)));
      if result == None then NoResult else Reported(Cells(rows, order), result.value)
  }

  // A report is refused exactly when no row has one of the two columns.
  lemma NoColumnIff(rows: seq<Row>, how: Ranking, order: seq<nat>, bestIndex: Option<nat>, bestResult: Option<Result>,
                    keys: set<Key>, eval: Config -> Outcome)
    requires rows != [] ==> order != [] && order[0] < |rows|
    ensures ReportFund(rows, how, order, bestIndex, bestResult, keys, eval) == NoColumn
            <==> (forall row | row in rows :: how.rankBy !in row.metrics)
                 || (how.tieBreakBy.Some? && forall row | row in rows :: how.tieBreakBy.value !in row.metrics)
  {
    assert forall column: string :: HasColumn(rows, column) <==> exists row | row in rows :: column in row.metrics;
  }

  // Every configuration that was run and no other, each once, the better first
  // and the earlier of two as good.
  ghost predicate AreCells(rows: seq<Row>, how: Ranking, cells: seq<Row>, at: seq<nat>) {
    && |cells| == |at| && Ordered(RankKeys(rows, how), at)
    && (forall i | 0 <= i < |at| :: cells[i] == rows[at[i]])
    && forall i: nat | i < |rows| :: i in at <==> !rows[i].failed
  }

  // Those positions of an order whose rows did not fail.
  lemma {:induction false} CellsAt(rows: seq<Row>, how: Ranking, order: seq<nat>) returns (at: seq<nat>)
    requires Ordered(RankKeys(rows, how), order)
    ensures Ordered(RankKeys(rows, how), at) && |Cells(rows, order)| == |at|
    ensures forall i | 0 <= i < |at| :: Cells(rows, order)[i] == rows[at[i]]
    ensures forall i: nat :: i in at <==> i in order && !rows[i].failed
  {
    if order == [] {
      at := [];
    } else {
      var keys, first, rest := RankKeys(rows, how), order[0], order[1..];
      OrderedTail(keys, order);
      at := CellsAt(rows, how, rest);
      assert order == [first] + rest;
      if !rows[first].failed {
        assert at != [] ==> at[0] in at;
        InFront(keys, at, first);
        at := [first] + at;
      }
    }
  }

  // The cells of the report.
  lemma CellsAreWhatRan(rows: seq<Row>, how: Ranking, order: seq<nat>)
    requires IsStableSort(RankKeys(rows, how), order)
    ensures exists at :: AreCells(rows, how, Cells(rows, order), at)
  {
    var at := CellsAt(rows, how, order);
    assert AreCells(rows, how, Cells(rows, order), at);
  }

  // Rows of this sweep: what the engine made of their configurations.
  ghost predicate Genuine(rows: seq<Row>, keys: set<Key>, eval: Config -> Outcome) {
    forall i | 0 <= i < |rows| :: rows[i] == RowOf(KeyOf(rows[i], keys), eval(KeyOf(rows[i], keys)))
  }

  // The cells reported are the configurations that were run, ranked, and the trade
  // log reported, the one kept or one computed again, is that of cells[0], the
  // first of the best, if and only if the row ranked first did not fail -- that
  // is, unless a failed row leads the rows and nothing that was run has anything
  // to be ranked by. Then there is no report, whatever was run.
  lemma ReportedLogIsCellsFirst(prior: seq<Row>, rows: seq<Row>, results: seq<Option<Result>>, how: Ranking, keys: set<Key>,
                                eval: Config -> Outcome, best: Option<nat>, order: seq<nat>)
    requires var all := prior + rows;
             && all != [] && Genuine(all, keys, eval) && IsStableSort(RankKeys(all, how), order)
             && HasColumn(all, how.rankBy) && (how.tieBreakBy.Some? ==> HasColumn(all, how.tieBreakBy.value))
    requires |rows| == |results| && IsBest(RankKeys(rows, how), results, best)
    requires forall i | 0 <= i < |rows| :: results[i] == ResultOf(eval(KeyOf(rows[i], keys)))
    ensures order != [] && order[0] < |prior + rows|
    ensures var all := prior + rows;
            var report := ReportFund(all, how, order, if best.Some? then Some(|prior| + best.value) else None,
                                     if best.Some? then results[best.value] else None, keys, eval);
            && (report.Reported? && LogIsOf(report, all, how, keys, eval) <==> !all[order[0]].failed)
            && (report.NoResult? <==> all[0].failed && forall i | 0 <= i < |all| && !all[i].failed :: Unranked(all[i], how))
  {
    var all := prior + rows;
    FailedHaveNoMetrics(all, keys, eval);
    HeadFailedIff(all, how, order);
    var head := order[0];
    FailedHasNoResult(all[head], keys, eval);
    KeptIsHeads(prior, rows, results, keys, eval, best, head);
    ReportIsHeads(all, how, order, if best.Some? then Some(|prior| + best.value) else None,
                  if best.Some? then results[best.value] else None, keys, eval);
    if !all[head].failed {
      HeadLogIsOf(all, how, keys, eval, order);
    }
  }

  // Kept or computed again, the result is that of the row ranked first.
  lemma ReportIsHeads(rows: seq<Row>, how: Ranking, order: seq<nat>, bestIndex: Option<nat>, bestResult: Option<Result>,
                      keys: set<Key>, eval: Config -> Outcome)
    requires order != [] && order[0] < |rows|
    requires HasColumn(rows, how.rankBy) && (how.tieBreakBy.Some? ==> HasColumn(rows, how.tieBreakBy.value))
    requires bestIndex == Some(order[0]) && bestResult.Some? ==> bestResult == ResultOf(eval(KeyOf(rows[order[0]], keys)))
    ensures var result := ResultOf(eval(KeyOf(rows[order[0]], keys)));
            ReportFund(rows, how, order, bestIndex, bestResult, keys, eval)
            == if result == None then NoResult else Reported(Cells(rows, order), result.value)
  {
  }

  lemma FailedHasNoResult(row: Row, keys: set<Key>, eval: Config -> Outcome)
    requires row == RowOf(KeyOf(row, keys), eval(KeyOf(row, keys)))
    ensures row.failed <==> ResultOf(eval(KeyOf(row, keys))) == None
    ensures row.failed ==> row.metrics == map[]
  {
  }

  lemma FailedHaveNoMetrics(rows: seq<Row>, keys: set<Key>, eval: Config -> Outcome)
    requires Genuine(rows, keys, eval)
    ensures forall i | 0 <= i < |rows| && rows[i].failed :: rows[i].metrics == map[]
  {
    forall i | 0 <= i < |rows| && rows[i].failed ensures rows[i].metrics == map[] {
      FailedHasNoResult(rows[i], keys, eval);
    }
  }

  // The result kept, if it is that of the row ranked first, is what running its
  // configuration again would give.
  lemma KeptIsHeads(prior: seq<Row>, rows: seq<Row>, results: seq<Option<Result>>, keys: set<Key>, eval: Config -> Outcome,
                    best: Option<nat>, head: nat)
    requires |rows| == |results| && forall i | 0 <= i < |rows| :: results[i] == ResultOf(eval(KeyOf(rows[i], keys)))
    requires (best.Some? ==> best.value < |rows|) && head < |prior + rows|
    ensures best.Some? && |prior| + best.value == head ==> results[best.value] == ResultOf(eval(KeyOf((prior + rows)[head], keys)))
  {
    if best.Some? && |prior| + best.value == head {
      assert (prior + rows)[head] == rows[best.value];
    }
  }

  ghost predicate LogIsOf(report: Report, rows: seq<Row>, how: Ranking, keys: set<Key>, eval: Config -> Outcome)
    requires report.Reported?
  {
    && report.cells != [] && Some(report.log) == ResultOf(eval(KeyOf(report.cells[0], keys)))
    && (exists at :: AreCells(rows, how, report.cells, at))
    && exists i | 0 <= i < |rows| && !rows[i].failed ::
      report.cells[0] == rows[i] && forall j | 0 <= j < |rows| && !rows[j].failed && j != i :: Before(RankKeys(rows, how), i, j)
  }

  // The log of the row ranked first, when that one was run.
  lemma HeadLogIsOf(rows: seq<Row>, how: Ranking, keys: set<Key>, eval: Config -> Outcome, order: seq<nat>)
    requires IsStableSort(RankKeys(rows, how), order) && order != [] && !rows[order[0]].failed
    ensures var result := ResultOf(eval(KeyOf(rows[order[0]], keys)));
            result.Some? ==> LogIsOf(Reported(Cells(rows, order), result.value), rows, how, keys, eval)
  {
    CellsLead(rows, how, order);
    CellsAreWhatRan(rows, how, order);
    assert Cells(rows, order)[0] == rows[order[0]];
  }

  lemma CellsLead(rows: seq<Row>, how: Ranking, order: seq<nat>)
    requires IsStableSort(RankKeys(rows, how), order) && exists i :: 0 <= i < |rows| && !rows[i].failed
    ensures Cells(rows, order) != []
    ensures exists i | 0 <= i < |rows| && !rows[i].failed ::
              Cells(rows, order)[0] == rows[i]
              && forall j | 0 <= j < |rows| && !rows[j].failed && j != i :: Before(RankKeys(rows, how), i, j)
  {
    var k :| 0 <= k < |rows| && !rows[k].failed;
    CellsAreWhatRan(rows, how, order);
    var at :| AreCells(rows, how, Cells(rows, order), at);
    assert k in at;
    assert at[0] in at;
    forall j | 0 <= j < |rows| && !rows[j].failed && j != at[0] ensures Before(RankKeys(rows, how), at[0], j) {
      assert j in at;
      var b :| 0 <= b < |at| && at[b] == j;
    }
  }

  // One configuration could not be run, the other ran and its metric is missing:
  // the failed one is first, and the run that did finish is not reported.
  lemma FailedRowCanLead(rankBy: string, ok: Row, failed: Row, result: Result, keys: set<Key>, eval: Config -> Outcome)
    requires !ok.failed && ok.metrics == map[rankBy := None] && failed.failed && failed.metrics == map[]
    requires eval(KeyOf(failed, keys)).CouldNotRun?
    ensures var how, rows := Ranking(rankBy, None), [failed, ok];
            && IsStableSort(RankKeys(rows, how), [0, 1]) && IsBest(RankKeys(rows, how), [None, Some(result)], Some(1))
            && Cells(rows, [0, 1]) == [ok]
            && ReportFund(rows, how, [0, 1], Some(1), Some(result), keys, eval) == NoResult
  {
    var how, rows, order := Ranking(rankBy, None), [failed, ok], [0, 1];
    assert RankKeys(rows, how)[0] == RankKeys(rows, how)[1];
    assert order[0] == 0 && order[1] == 1;
    assert Cells(rows, order[1..]) == [ok] by {
      assert order[1..] == [1] && order[1..][1..] == [];
    }
    assert rankBy in rows[1].metrics;
  }
}
