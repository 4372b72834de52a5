/**
 What a page of the trade log and its summary say of the fills themselves: which
 cycles there are, what is in each, and which of them a page shows
 (FundFills.cycles, _cycle_row and query in server/fills.py).
 */
module CyclePages {
  import opened Fills
  import opened Cycles

  // ---- a cycle, over the fills --------------------------------------------

  // The selected fills of one lot on one side, as they were recorded.
  ghost predicate AreThose(fills: seq<Fill>, selected: seq<nat>, lot: Text, which: Side, at: seq<nat>) {
    && Ascending(at, |fills|)
    && forall k: nat :: Has(at, k) <==> k < |fills| && Has(selected, k) && fills[k].side == which && fills[k].lot == lot
  }

  // No selected buy of its lot comes before it.
  ghost predicate Starts(fills: seq<Fill>, selected: seq<nat>, k: nat) {
    && k < |fills| && Has(selected, k) && fills[k].side.Buy?
    && forall j: nat | j < k && Has(selected, j) :: !(fills[j].side.Buy? && fills[j].lot == fills[k].lot)
  }

  ghost predicate IsSold(fills: seq<Fill>, selected: seq<nat>, lot: Text) {
    exists j: nat | j < |fills| :: Has(selected, j) && fills[j].side.Sell? && fills[j].lot == lot
  }

  ghost predicate InView(fills: seq<Fill>, selected: seq<nat>, k: nat, view: CycleView)
    requires k < |fills|
  {
    (view == ClosedCycle ==> IsSold(fills, selected, fills[k].lot))
    && (view == OpenCycle ==> !IsSold(fills, selected, fills[k].lot))
  }

  function Gains(sells: seq<Fill>): real {
    if sells == [] then 0.0 else (if sells[0].pnl.Some? then sells[0].pnl.value else 0.0) + Gains(sells[1..])
  }

  predicate AnyGain(sells: seq<Fill>) {
    exists i | 0 <= i < |sells| :: sells[i].pnl.Some?
  }

  // The row of the cycle that buy k opens: the buy and the sells of its lot as
  // they were recorded, and what those realized if any of them realized
  // anything.
  ghost predicate CycleSays(fills: seq<Fill>, selected: seq<nat>, k: nat, row: Row)
    requires k < |fills|
  {
    && row.lot == fills[k].lot && row.buy == Normal(fills[k])
    && (row.open <==> !IsSold(fills, selected, fills[k].lot))
    && (row.realized.Some? <==> AnyGain(row.sells))
    && (row.realized.Some? ==> row.realized.value == Gains(row.sells))
    && exists at :: AreThose(fills, selected, fills[k].lot, Sell, at) && AreFills(fills, at, row.sells)
  }

  ghost predicate AreFills(fills: seq<Fill>, at: seq<nat>, shown: seq<Fill>) {
    |shown| == |at| && forall i | 0 <= i < |at| :: at[i] < |fills| && shown[i] == Normal(fills[at[i]])
  }

  // The buys that open the cycles of a view.
  ghost predicate AreBuys(fills: seq<Fill>, selected: seq<nat>, view: CycleView, buys: seq<nat>) {
    && Ascending(buys, |fills|)
    && forall k: nat :: Has(buys, k) <==> Starts(fills, selected, k) && InView(fills, selected, k, view)
  }

  ghost predicate AreCycles(fills: seq<Fill>, selected: seq<nat>, buys: seq<nat>, rows: seq<Row>) {
    |rows| == |buys| && forall i | 0 <= i < |buys| :: buys[i] < |fills| && CycleSays(fills, selected, buys[i], rows[i])
  }

  // At most 5000 of the whole, from the offset on.
  ghost predicate IsPage<T>(whole: seq<T>, offset: int, limit: int, page: seq<T>) {
    var from := if offset < 0 then 0 else offset;
    && (forall i | 0 <= i < |page| :: from + i < |whole| && page[i] == whole[from + i])
    && (|page| == limit || |page| == 5000 || from + |page| >= |whole| || (limit < 0 && page == []))
    && (limit >= 0 ==> |page| <= limit) && |page| <= 5000
  }

  // What `query` answers with view=cycles.
  ghost predicate PageTells(fills: seq<Fill>, selected: seq<nat>, view: CycleView, offset: int, limit: int,
                            total: nat, page: seq<Row>) {
    exists buys, rows :: AreBuys(fills, selected, view, buys) && AreCycles(fills, selected, buys, rows)
      && total == |rows| && IsPage(rows, offset, limit, page)
  }

  // ---- the proof ----------------------------------------------------------

  lemma {:induction false} OfLotFacts(c: Columns, s: seq<nat>, lot: nat)
    requires Aligned(c) && Ascending(s, |c.side|)
    ensures forall k: nat :: Has(OfLot(c, s, lot), k) <==> Has(s, k) && k < |c.side| && c.lotId[k] == lot
    ensures Ascending(OfLot(c, s, lot), |c.side|)
  {
    if s != [] {
      var front, last := s[..|s| - 1], s[|s| - 1];
      assert s == front + [last];
      NotInFront(s, |c.side|);
      BelowTop(front, last, |c.side|);
      OfLotFacts(c, front, lot);
      HasSnoc(front, last);
      HasSnoc(OfLot(c, front, lot), last);
      if c.lotId[last] == lot {
        SnocAscending(OfLot(c, front, lot), last, |c.side|);
      } else {
        assert OfLot(c, s, lot) == OfLot(c, front, lot);
      }
    }
  }

  // A fill and what the columns have of it.
  lemma OneFill(c: Columns, fills: seq<Fill>, j: nat, k: nat)
    requires Encodes(c, fills) && j < |fills| && k < |fills|
    ensures c.side[k] == fills[k].side && c.lots[c.lotId[k]] == fills[k].lot && c.pnl[k] == fills[k].pnl
    ensures c.lotId[j] == c.lotId[k] <==> fills[j].lot == fills[k].lot
  {
    assert Decode(c, j) == Normal(fills[j]) && Decode(c, k) == Normal(fills[k]);
  }

  lemma SellsAreThose(c: Columns, fills: seq<Fill>, selected: seq<nat>, buy: nat)
    requires Encodes(c, fills) && Ascending(selected, |fills|) && buy < |fills|
    ensures AreThose(fills, selected, fills[buy].lot, Sell, Sells(c, selected, c.lotId[buy]))
    ensures IsSold(fills, selected, fills[buy].lot) <==> Sells(c, selected, c.lotId[buy]) != []
  {
    var sells := Sells(c, selected, c.lotId[buy]);
    OnSideHas(c, selected, Sell);
    OnSideAscending(c, selected, Sell);
    OfLotFacts(c, OnSide(c, selected, Sell), c.lotId[buy]);
    forall k: nat
      ensures Has(sells, k) <==> k < |fills| && Has(selected, k) && fills[k].side == Sell && fills[k].lot == fills[buy].lot
    {
      if k < |fills| {
        OneFill(c, fills, k, buy);
        OneFill(c, fills, buy, k);
      }
    }
    if sells != [] {
      assert Has(sells, sells[0]);
    }
  }

  lemma {:induction false} GainsMore(sells: seq<Fill>, last: Fill)
    ensures Gains(sells + [last]) == Gains(sells) + if last.pnl.Some? then last.pnl.value else 0.0
  {
    if sells == [] {
      assert (sells + [last])[1..] == [];
    } else {
      GainsMore(sells[1..], last);
      assert (sells + [last])[1..] == sells[1..] + [last];
    }
  }

  lemma {:induction false} PnlSumIsGains(c: Columns, at: seq<nat>)
    requires Aligned(c) && Within(at, |c.side|)
    ensures PnlSum(c, at) == Gains(DecodeAll(c, at))
  {
    if at != [] {
      var front, last := at[..|at| - 1], at[|at| - 1];
      PnlSumIsGains(c, front);
      GainsMore(DecodeAll(c, front), Decode(c, last));
      assert DecodeAll(c, at) == DecodeAll(c, front) + [Decode(c, last)];
    }
  }

  lemma DecodedFills(c: Columns, fills: seq<Fill>, at: seq<nat>)
    requires Encodes(c, fills) && Within(at, |fills|)
    ensures AreFills(fills, at, DecodeAll(c, at))
    ensures AnyPnl(c, at) <==> AnyGain(DecodeAll(c, at))
  {
    var shown := DecodeAll(c, at);
    assert forall i | 0 <= i < |at| :: shown[i] == Decode(c, at[i]) && shown[i].pnl == c.pnl[at[i]];
    if AnyPnl(c, at) {
      var i :| 0 <= i < |at| && c.pnl[at[i]].Some?;
      assert shown[i].pnl.Some?;
    }
  }

  lemma PlainRowSays(c: Columns, fills: seq<Fill>, selected: seq<nat>, buy: nat)
    requires Encodes(c, fills) && Ascending(selected, |fills|) && buy < |fills|
    ensures CycleSays(fills, selected, buy, PlainRow(c, selected, buy))
  {
    var sells := Sells(c, selected, c.lotId[buy]);
    SellsAreThose(c, fills, selected, buy);
    OneFill(c, fills, buy, buy);
    PnlSumIsGains(c, sells);
    DecodedFills(c, fills, sells);
    assert Decode(c, buy) == Normal(fills[buy]);
    assert AreFills(fills, sells, PlainRow(c, selected, buy).sells);
  }

  lemma OpensStarts(c: Columns, fills: seq<Fill>, selected: seq<nat>, k: nat)
    requires Encodes(c, fills) && Ascending(selected, |fills|)
    ensures Opens(c, selected, k) <==> Starts(fills, selected, k)
  {
    if k < |fills| {
      OneFill(c, fills, k, k);
      forall j: nat | j < k && Has(selected, j)
        ensures c.side[j].Buy? && c.lotId[j] == c.lotId[k] <==> fills[j].side.Buy? && fills[j].lot == fills[k].lot
      {
        OneFill(c, fills, k, j);
      }
    }
  }

  lemma ViewedMore(c: Columns, fills: seq<Fill>, selected: seq<nat>, front: seq<nat>, last: nat, view: CycleView)
    requires Encodes(c, fills) && Ascending(selected, |fills|) && Within(front, |fills|) && last < |fills|
    ensures Within(front + [last], |fills|)
    ensures var shown := Viewed(PlainRows(c, selected, front), view);
            Viewed(PlainRows(c, selected, front + [last]), view)
            == if InView(fills, selected, last, view) then shown + [PlainRow(c, selected, last)] else shown
  {
    RowsMore(c, selected, front, last);
    SellsAreThose(c, fills, selected, last);
  }

  lemma RowsMore(c: Columns, selected: seq<nat>, front: seq<nat>, last: nat)
    requires Aligned(c) && Ascending(selected, |c.side|) && Within(front, |c.side|) && last < |c.side|
    ensures Within(front + [last], |c.side|)
    ensures PlainRows(c, selected, front + [last]) == PlainRows(c, selected, front) + [PlainRow(c, selected, last)]
  {
  }

  // The buys of some cycles that are in the view.
  lemma {:induction false} BuysInView(fills: seq<Fill>, selected: seq<nat>, front: seq<nat>, shown: seq<nat>, last: nat, view: CycleView)
    requires Ascending(front + [last], |fills|) && Ascending(shown, |fills|)
    requires forall k: nat :: Has(shown, k) <==> Has(front, k) && k < |fills| && InView(fills, selected, k, view)
    ensures last < |fills|
    ensures var more := if InView(fills, selected, last, view) then shown + [last] else shown;
            Ascending(more, |fills|)
            && forall k: nat :: Has(more, k) <==> Has(front + [last], k) && k < |fills| && InView(fills, selected, k, view)
  {
    BelowTop(front, last, |fills|);
    HasSnoc(front, last);
    HasSnoc(shown, last);
    if InView(fills, selected, last, view) {
      SnocAscending(shown, last, |fills|);
    }
  }

  // The rows shown of some cycles are those of the buys that are in the view.
  lemma {:induction false} ViewedAre(c: Columns, fills: seq<Fill>, selected: seq<nat>, buys: seq<nat>, view: CycleView)
    returns (shown: seq<nat>)
    requires Encodes(c, fills) && Ascending(selected, |fills|) && Ascending(buys, |fills|)
    ensures Ascending(shown, |fills|)
    ensures forall k: nat :: Has(shown, k) <==> Has(buys, k) && k < |fills| && InView(fills, selected, k, view)
    ensures Viewed(PlainRows(c, selected, buys), view) == PlainRows(c, selected, shown)
  {
    if buys == [] {
      shown := [];
    } else {
      var front, last := buys[..|buys| - 1], buys[|buys| - 1];
      assert buys == front + [last];
      NotInFront(buys, |fills|);
      var before := ViewedAre(c, fills, selected, front, view);
      BuysInView(fills, selected, front, before, last, view);
      ViewedMore(c, fills, selected, front, last, view);
      RowsMore(c, selected, before, last);
      shown := if InView(fills, selected, last, view) then before + [last] else before;
    }
  }

  lemma ViewIsCycles(c: Columns, fills: seq<Fill>, selected: seq<nat>, view: CycleView) returns (buys: seq<nat>)
    requires Encodes(c, fills) && Ascending(selected, |fills|)
    ensures Within(Opening(c, selected, {}), |fills|) && AreBuys(fills, selected, view, buys)
    ensures AreCycles(fills, selected, buys, Viewed(PlainRows(c, selected, Opening(c, selected, {})), view))
  {
    OpeningFacts(c, selected, {});
    buys := ViewedAre(c, fills, selected, Opening(c, selected, {}), view);
    forall k: nat ensures Has(buys, k) <==> Starts(fills, selected, k) && InView(fills, selected, k, view) {
      OpensStarts(c, fills, selected, k);
    }
    forall i | 0 <= i < |buys| ensures CycleSays(fills, selected, buys[i], PlainRow(c, selected, buys[i])) {
      PlainRowSays(c, fills, selected, buys[i]);
    }
  }

  lemma PageIsPage<T>(whole: seq<T>, offset: int, limit: int)
    ensures IsPage(whole, offset, limit, Page(whole, offset, limit))
  {
  }

  // A page of cycles: one for each lot with a selected buy, in the order of those
  // first buys, each with its own fills, of them the ones in the view, and of
  // those the stretch asked for.
  lemma CyclePageTells(c: Columns, fills: seq<Fill>, selected: seq<nat>, view: CycleView, offset: int, limit: int)
    requires Encodes(c, fills) && Ascending(selected, |fills|)
    ensures Within(Opening(c, selected, {}), |fills|)
    ensures var rows := Viewed(PlainRows(c, selected, Opening(c, selected, {})), view);
            PageTells(fills, selected, view, offset, limit, |rows|, Page(rows, offset, limit))
  {
    var buys := ViewIsCycles(c, fills, selected, view);
    PageIsPage(Viewed(PlainRows(c, selected, Opening(c, selected, {})), view), offset, limit);
  }

  // A page of fills: the selected ones as they were recorded, and of those the
  // stretch asked for.
  lemma FillPageTells(c: Columns, fills: seq<Fill>, selected: seq<nat>, offset: int, limit: int)
    requires Encodes(c, fills) && Ascending(selected, |fills|)
    ensures AreFills(fills, selected, DecodeAll(c, selected))
    ensures IsPage(DecodeAll(c, selected), offset, limit, Page(DecodeAll(c, selected), offset, limit))
  {
    PageIsPage(DecodeAll(c, selected), offset, limit);
  }

  // ---- the summary --------------------------------------------------------

  function Total(rows: seq<Row>): real {
    if rows == [] then 0.0
    else (if rows[0].realized.Some? then rows[0].realized.value else 0.0) + Total(rows[1..])
  }

  lemma {:induction false} TotalMore(rows: seq<Row>, last: Row)
    ensures Total(rows + [last]) == Total(rows) + if last.realized.Some? then last.realized.value else 0.0
  {
    if rows == [] {
      assert (rows + [last])[1..] == [];
    } else {
      TotalMore(rows[1..], last);
      assert (rows + [last])[1..] == rows[1..] + [last];
    }
  }

  lemma {:induction false} CountsAreViews(rows: seq<Row>)
    ensures CountTrue(Flipped(OpenFlags(rows))) == |Viewed(rows, ClosedCycle)|
    ensures |Viewed(rows, ClosedCycle)| + |Viewed(rows, OpenCycle)| == |rows|
  {
    if rows != [] {
      var front, flags := rows[..|rows| - 1], Flipped(OpenFlags(rows));
      CountsAreViews(front);
      assert |flags| == |rows| && flags[..|flags| - 1] == Flipped(OpenFlags(front)) && flags[|rows| - 1] == !rows[|rows| - 1].open;
    }
  }

  lemma {:induction false} RealizedIsOfClosed(rows: seq<Row>)
    ensures RealizedOfRows(rows) == Total(Viewed(rows, ClosedCycle))
  {
    if rows != [] {
      var front, last := rows[..|rows| - 1], rows[|rows| - 1];
      RealizedIsOfClosed(front);
      var before := Viewed(front, ClosedCycle);
      TotalMore(before, last);
      assert Viewed(rows, ClosedCycle) == if last.open then before else before + [last];
    }
  }

  // What `query` sums up, whatever page is asked for.
  ghost predicate SummaryTells(fills: seq<Fill>, selected: seq<nat>, summary: Summary) {
    && summary.fills == |selected| && summary.unfiltered == |fills|
    && (exists buys :: AreBuys(fills, selected, OpenCycle, buys) && summary.open == |buys|)
    && exists buys, rows :: AreBuys(fills, selected, ClosedCycle, buys) && AreCycles(fills, selected, buys, rows)
         && summary.closed == |rows| && summary.realized == Total(rows)
  }

  // The counts are those of the two views, and the sum is over the closed one.
  lemma SummaryIsOfTheViews(c: Columns, fills: seq<Fill>, selected: seq<nat>, summary: Summary)
    requires Encodes(c, fills) && Ascending(selected, |fills|) && Within(Opening(c, selected, {}), |fills|)
    requires summary.fills == |selected| && summary.unfiltered == |c.side|
    requires summary.closed + summary.open == |Opening(c, selected, {})|
    requires summary.closed == CountTrue(Flipped(OpenFlags(PlainRows(c, selected, Opening(c, selected, {})))))
    requires summary.realized == RealizedOfRows(PlainRows(c, selected, Opening(c, selected, {})))
    ensures SummaryTells(fills, selected, summary)
  {
    var rows := PlainRows(c, selected, Opening(c, selected, {}));
    CountsAreViews(rows);
    RealizedIsOfClosed(rows);
    var open := ViewIsCycles(c, fills, selected, OpenCycle);
    var closed := ViewIsCycles(c, fills, selected, ClosedCycle);
    assert AreCycles(fills, selected, closed, Viewed(rows, ClosedCycle));
  }
}
