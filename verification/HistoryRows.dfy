/**
 What the index and the rows of a fund say, against the archives themselves: which
 runs, which cells at which ranks, with which fields, and in which order.
 */
module HistoryRows {
  import opened Seqs
  import opened History

  // ---- an archive ---------------------------------------------------------

  predicate Reported(s: State, id: Id) {
    id in s.archives && s.archives[id].run.Some? && s.archives[id].run.value.report.Some?
  }

  function FundsOf(s: State, id: Id): seq<(Ticker, seq<Cell>)>
    requires Reported(s, id)
  {
    s.archives[id].run.value.report.value.funds
  }

  // When it was saved: by its own account, or else when its file was written.
  function SavedAt(s: State, id: Id): nat
    requires Reported(s, id)
  {
    if s.archives[id].run.value.savedAt == None then s.archives[id].mtime else s.archives[id].run.value.savedAt.value
  }

  // How many cells stand before a fund in a report, and how many of them are of one
  // ticker.
  function CellsBefore(funds: seq<(Ticker, seq<Cell>)>, i: nat): nat
    requires i <= |funds|
  {
    if i == 0 then 0 else |funds[0].1| + CellsBefore(funds[1..], i - 1)
  }

  function CellsOf(funds: seq<(Ticker, seq<Cell>)>, ticker: Ticker, i: nat): nat
    requires i <= |funds|
  {
    if i == 0 then 0 else (if funds[0].0 == ticker then |funds[0].1| else 0) + CellsOf(funds[1..], ticker, i - 1)
  }

  // ---- one entry ----------------------------------------------------------

  // Every fund of the report in turn, and every cell of it at its rank.
  ghost predicate ListsCells(rows: seq<IndexRow>, funds: seq<(Ticker, seq<Cell>)>) {
    && |rows| == CellsBefore(funds, |funds|)
    && forall i, r: nat | 0 <= i < |funds| && r < |funds[i].1| :: CellAt(rows, funds, i, r)
  }

  ghost predicate CellAt(rows: seq<IndexRow>, funds: seq<(Ticker, seq<Cell>)>, i: nat, r: nat)
    requires i < |funds| && r < |funds[i].1|
  {
    CellsBefore(funds, i) + r < |rows| && rows[CellsBefore(funds, i) + r] == IndexRow(funds[i].0, funds[i].1[r], r)
  }

  lemma {:induction false} ReportListsCells(funds: seq<(Ticker, seq<Cell>)>)
    ensures ListsCells(ReportRows(funds), funds)
  {
    if funds != [] {
      var first, rest := FundRows(funds[0].0, funds[0].1), ReportRows(funds[1..]);
      ReportListsCells(funds[1..]);
      forall i, r: nat | 0 <= i < |funds| && r < |funds[i].1| ensures CellAt(first + rest, funds, i, r) {
        if i > 0 {
          assert CellAt(rest, funds[1..], i - 1, r);
          assert (first + rest)[CellsBefore(funds, i) + r] == rest[CellsBefore(funds[1..], i - 1) + r];
        }
      }
    }
  }

  // What an entry says of the archive of that name.
  ghost predicate Says(s: State, e: Entry) {
    && Reported(s, e.id) && e.run == Some(RunFields(s.archives[e.id].run.value.report.value.meta, SavedAt(s, e.id)))
    && ListsCells(e.rows, FundsOf(s, e.id))
  }

  ghost predicate Exact(s: State, e: Entry) {
    Says(s, e) && e.rows == ReportRows(FundsOf(s, e.id))
  }

  lemma RederivedSays(s: State, id: Id)
    requires Reported(s, id)
    ensures |Rederived(s, id)| == 1 && Rederived(s, id)[0].0 == s.archives[id].mtime
    ensures Rederived(s, id)[0].1.id == id && Exact(s, Rederived(s, id)[0].1)
  {
    ReportListsCells(FundsOf(s, id));
  }

  // ---- the index ----------------------------------------------------------

  function IdsIn(entries: seq<Entry>): seq<Id> {
    seq(|entries|, p requires 0 <= p < |entries| => entries[p].id)
  }

  function ItemIds(items: seq<(nat, Entry)>): seq<Id> {
    seq(|items|, p requires 0 <= p < |items| => items[p].1.id)
  }

  // Items of archives as they are.
  ghost predicate Genuine(s: State, items: seq<(nat, Entry)>) {
    forall item | item in items :: Exact(s, item.1) && item.0 == s.archives[item.1.id].mtime
  }

  // Each item of `later` comes from a place of its own in `earlier`, in order.
  ghost predicate InOrder<T>(earlier: seq<T>, later: seq<T>) {
    forall p, q | 0 <= p < q < |later| :: Earlier(earlier, later[p], later[q])
  }

  ghost predicate Earlier<T>(s: seq<T>, x: T, y: T) {
    exists a, b :: 0 <= a < b < |s| && s[a] == x && s[b] == y
  }

  lemma EarlierMore<T>(s: seq<T>, last: T, x: T, y: T)
    ensures Earlier(s, x, y) ==> Earlier(s + [last], x, y)
    ensures x in s && y == last ==> Earlier(s + [last], x, y)
  {
    if Earlier(s, x, y) {
      var a, b :| 0 <= a < b < |s| && s[a] == x && s[b] == y;
      assert (s + [last])[a] == x && (s + [last])[b] == y;
    }
    if x in s && y == last {
      var a :| 0 <= a < |s| && s[a] == x;
      assert (s + [last])[a] == x && (s + [last])[|s|] == y;
    }
  }

  lemma {:induction false} RederiveAllSays(s: State, names: seq<Id>)
    ensures Genuine(s, RederiveAll(s, names))
    ensures forall id | id in ItemIds(RederiveAll(s, names)) :: id in names
    ensures InOrder(names, ItemIds(RederiveAll(s, names)))
    ensures forall id :: multiset(ItemIds(RederiveAll(s, names)))[id] == if Reported(s, id) then multiset(names)[id] else 0
    decreases |names|
  {
    if names != [] {
      var front, last := names[..|names| - 1], names[|names| - 1];
      assert names == front + [last];
      RederiveAllSays(s, front);
      var before := RederiveAll(s, front);
      if Reported(s, last) {
        RederivedSays(s, last);
        OneMoreItem(s, front, last, before, Rederived(s, last)[0]);
        assert RederiveAll(s, names) == before + [Rederived(s, last)[0]];
      } else {
        assert RederiveAll(s, names) == before;
        forall p, q | 0 <= p < q < |before| ensures Earlier(names, ItemIds(before)[p], ItemIds(before)[q]) {
          EarlierMore(front, last, ItemIds(before)[p], ItemIds(before)[q]);
        }
      }
    }
  }

  lemma OneMoreItem(s: State, front: seq<Id>, last: Id, before: seq<(nat, Entry)>, item: (nat, Entry))
    requires Genuine(s, before) && InOrder(front, ItemIds(before)) && forall id | id in ItemIds(before) :: id in front
    requires Exact(s, item.1) && item.0 == s.archives[item.1.id].mtime && item.1.id == last
    ensures Genuine(s, before + [item]) && InOrder(front + [last], ItemIds(before + [item]))
    ensures ItemIds(before + [item]) == ItemIds(before) + [last]
  {
    var ids, more := ItemIds(before), ItemIds(before + [item]);
    assert more == ids + [last];
    forall p, q | 0 <= p < q < |more| ensures Earlier(front + [last], more[p], more[q]) {
      assert more[p] == ids[p] && ids[p] in ids;
      EarlierMore(front, last, more[p], more[q]);
    }
  }

  // ---- sorting them -------------------------------------------------------

  lemma {:induction false} InsertNewestItems(sorted: seq<(nat, Entry)>, item: (nat, Entry))
    ensures multiset(InsertNewest(sorted, item)) == multiset(sorted) + multiset{item}
  {
    if !(sorted == [] || sorted[|sorted| - 1].0 >= item.0) {
      var front, last := sorted[..|sorted| - 1], sorted[|sorted| - 1];
      assert sorted == front + [last];
      InsertNewestItems(front, item);
    }
  }

  lemma {:induction false} NewestFirstItems(items: seq<(nat, Entry)>)
    ensures multiset(NewestFirst(items)) == multiset(items)
  {
    if items != [] {
      var front, last := items[..|items| - 1], items[|items| - 1];
      assert items == front + [last];
      NewestFirstItems(front);
      InsertNewestItems(NewestFirst(front), last);
    }
  }

  lemma ItemIdsMore(items: seq<(nat, Entry)>, item: (nat, Entry))
    ensures ItemIds(items + [item]) == ItemIds(items) + [item.1.id]
  {
  }

  lemma {:induction false} InsertNewestIds(sorted: seq<(nat, Entry)>, item: (nat, Entry))
    ensures multiset(ItemIds(InsertNewest(sorted, item))) == multiset(ItemIds(sorted)) + multiset{item.1.id}
  {
    if sorted == [] || sorted[|sorted| - 1].0 >= item.0 {
      ItemIdsMore(sorted, item);
    } else {
      var front, last := sorted[..|sorted| - 1], sorted[|sorted| - 1];
      assert sorted == front + [last];
      InsertNewestIds(front, item);
      ItemIdsMore(InsertNewest(front, item), last);
      ItemIdsMore(front, last);
    }
  }

  lemma {:induction false} NewestFirstIds(items: seq<(nat, Entry)>)
    ensures multiset(ItemIds(NewestFirst(items))) == multiset(ItemIds(items))
  {
    if items != [] {
      var front, last := items[..|items| - 1], items[|items| - 1];
      assert items == front + [last];
      NewestFirstIds(front);
      InsertNewestIds(NewestFirst(front), last);
      ItemIdsMore(front, last);
    }
  }

  // Two items written at one time stand among those written then as they stand
  // among all, and the other way round.
  lemma {:induction false} WrittenAtHas(items: seq<(nat, Entry)>, p: nat, q: nat)
    requires p < q < |items| && items[p].0 == items[q].0
    ensures Earlier(WrittenAt(items, items[q].0), items[p], items[q])
    decreases |items|
  {
    var front, last, t := items[..|items| - 1], items[|items| - 1], items[q].0;
    assert front[p] == items[p] && WrittenAt(items, t) == if last.0 == t then WrittenAt(front, t) + [last] else WrittenAt(front, t);
    if q < |front| {
      assert front[q] == items[q];
      WrittenAtHas(front, p, q);
      EarlierMore(WrittenAt(front, t), last, items[p], items[q]);
    } else {
      WrittenAtMember(front, p);
      EarlierMore(WrittenAt(front, t), last, items[p], items[q]);
    }
  }

  lemma {:induction false} WrittenAtMember(items: seq<(nat, Entry)>, p: nat)
    requires p < |items|
    ensures items[p] in WrittenAt(items, items[p].0)
    decreases |items|
  {
    if p < |items| - 1 {
      WrittenAtMember(items[..|items| - 1], p);
    }
  }

  lemma {:induction false} WrittenAtFrom(items: seq<(nat, Entry)>, t: nat, x: (nat, Entry), y: (nat, Entry))
    requires Earlier(WrittenAt(items, t), x, y)
    ensures Earlier(items, x, y)
    decreases |items|
  {
    if items != [] {
      var front, last := items[..|items| - 1], items[|items| - 1];
      assert items == front + [last];
      var written, all := WrittenAt(front, t), WrittenAt(items, t);
      var a, b :| 0 <= a < b < |all| && all[a] == x && all[b] == y;
      if b < |written| {
        assert written[a] == x && written[b] == y;
        WrittenAtFrom(front, t, x, y);
      } else {
        assert x == written[a] && x in written;
        WrittenAtSubset(front, t);
      }
      EarlierMore(front, last, x, y);
    }
  }

  lemma {:induction false} WrittenAtSubset(items: seq<(nat, Entry)>, t: nat)
    ensures forall x | x in WrittenAt(items, t) :: x in items
    decreases |items|
  {
    if items != [] {
      WrittenAtSubset(items[..|items| - 1], t);
      assert items == items[..|items| - 1] + [items[|items| - 1]];
    }
  }

  // Newest first, and runs written at one time in the order the directory lists them.
  ghost predicate ListedBefore(s: State, names: seq<Id>, x: Id, y: Id)
    requires x in s.archives && y in s.archives
  {
    s.archives[x].mtime > s.archives[y].mtime || (s.archives[x].mtime == s.archives[y].mtime && Earlier(names, x, y))
  }

  lemma SortedInOrder(s: State, names: seq<Id>, items: seq<(nat, Entry)>, p: nat, q: nat)
    requires Genuine(s, items) && InOrder(names, ItemIds(items)) && p < q < |NewestFirst(items)|
    ensures Genuine(s, NewestFirst(items))
    ensures var sorted := NewestFirst(items);
            && sorted[p] in items && sorted[q] in items
            && ListedBefore(s, names, sorted[p].1.id, sorted[q].1.id)
  {
    var sorted := NewestFirst(items);
    NewestFirstSorts(items, sorted[q].0);
    NewestFirstItems(items);
    SameItems(items, sorted);
    if sorted[p].0 == sorted[q].0 {
      WrittenAtHas(sorted, p, q);
      WrittenAtFrom(items, sorted[q].0, sorted[p], sorted[q]);
      var a, b :| 0 <= a < b < |items| && items[a] == sorted[p] && items[b] == sorted[q];
      assert Earlier(names, ItemIds(items)[a], ItemIds(items)[b]);
    }
  }

  lemma SameItems(items: seq<(nat, Entry)>, sorted: seq<(nat, Entry)>)
    requires multiset(sorted) == multiset(items)
    ensures forall x :: x in sorted <==> x in items
  {
    forall x ensures x in sorted <==> x in items {
      assert x in multiset(sorted) <==> x in multiset(items);
    }
  }

  // Every entry says what its own archive says, each readable archive with a report
  // has as many entries as the directory lists it, and they are listed newest first.
  ghost predicate Indexes(s: State, names: seq<Id>, index: seq<Entry>) {
    && (forall e | e in index :: Says(s, e) && e.id in names)
    && (forall id :: multiset(IdsIn(index))[id] == if Reported(s, id) then multiset(names)[id] else 0)
    && forall p, q | 0 <= p < q < |index| ::
      index[p].id in s.archives && index[q].id in s.archives && ListedBefore(s, names, index[p].id, index[q].id)
  }

  // The index against the archives, whatever was cached.
  lemma IndexSays(s: State, names: seq<Id>, now: nat)
    requires Honest(s) && CacheHonest(s)
    ensures Indexes(s, names, IndexEntries(s, names, now))
  {
    IndexIsRederived(s, names, now);
    RederiveAllSays(s, names);
    var items := RederiveAll(s, names);
    var sorted := NewestFirst(items);
    NewestFirstIds(items);
    assert IdsIn(EntriesIn(sorted)) == ItemIds(sorted);
    SortedSays(s, names, items);
    forall p, q | 0 <= p < q < |sorted|
      ensures sorted[p].1.id in s.archives && sorted[q].1.id in s.archives && ListedBefore(s, names, sorted[p].1.id, sorted[q].1.id) {
      SortedInOrder(s, names, items, p, q);
      assert sorted[p] in sorted && sorted[q] in sorted;
    }
  }

  lemma SortedSays(s: State, names: seq<Id>, items: seq<(nat, Entry)>)
    requires Genuine(s, items) && forall id | id in ItemIds(items) :: id in names
    ensures forall e | e in EntriesIn(NewestFirst(items)) :: Exact(s, e) && e.id in names
    ensures AllExact(s, EntriesIn(NewestFirst(items)))
  {
    var sorted := NewestFirst(items);
    NewestFirstItems(items);
    SameItems(items, sorted);
    forall e | e in EntriesIn(sorted) ensures Exact(s, e) && e.id in names {
      var p :| 0 <= p < |sorted| && EntriesIn(sorted)[p] == e;
      assert sorted[p] in items;
      var k :| 0 <= k < |items| && items[k] == sorted[p];
      assert ItemIds(items)[k] == e.id;
    }
    forall p | 0 <= p < |sorted| ensures Exact(s, EntriesIn(sorted)[p]) {
      assert EntriesIn(sorted)[p] in EntriesIn(sorted);
    }
  }

  // ---- the rows of a fund -------------------------------------------------

  lemma {:induction false} JoinRowsBoth(entry: Entry, a: seq<IndexRow>, b: seq<IndexRow>, ticker: Ticker)
    requires entry.run.Some?
    ensures JoinRows(entry, a + b, ticker) == JoinRows(entry, a, ticker) + JoinRows(entry, b, ticker)
    decreases |b|
  {
    if b == [] {
      assert a + b == a;
    } else {
      var front, last := b[..|b| - 1], b[|b| - 1];
      assert (a + b)[..|a + b| - 1] == a + front && (a + b)[|a + b| - 1] == last;
      JoinRowsBoth(entry, a, front, ticker);
    }
  }

  function Shown(fields: RunFields, id: Id, fund: (Ticker, seq<Cell>)): seq<Joined> {
    seq(|fund.1|, r requires 0 <= r < |fund.1| => Joined(IndexRow(fund.0, fund.1[r], r), fields, id))
  }

  lemma {:induction false} JoinAll(entry: Entry, rows: seq<IndexRow>, ticker: Ticker)
    requires entry.run.Some? && forall r | 0 <= r < |rows| :: rows[r].ticker == ticker
    ensures |JoinRows(entry, rows, ticker)| == |rows|
    ensures forall r | 0 <= r < |rows| :: JoinRows(entry, rows, ticker)[r] == Joined(rows[r], entry.run.value, entry.id)
  {
    if rows != [] {
      JoinAll(entry, rows[..|rows| - 1], ticker);
    }
  }

  lemma {:induction false} JoinNone(entry: Entry, rows: seq<IndexRow>, ticker: Ticker)
    requires entry.run.Some? && forall r | 0 <= r < |rows| :: rows[r].ticker != ticker
    ensures JoinRows(entry, rows, ticker) == []
  {
    if rows != [] {
      JoinNone(entry, rows[..|rows| - 1], ticker);
    }
  }

  lemma JoinFund(entry: Entry, fund: (Ticker, seq<Cell>), ticker: Ticker)
    requires entry.run.Some?
    ensures JoinRows(entry, FundRows(fund.0, fund.1), ticker)
         == if fund.0 == ticker then Shown(entry.run.value, entry.id, fund) else []
  {
    if fund.0 == ticker {
      JoinAll(entry, FundRows(fund.0, fund.1), ticker);
    } else {
      JoinNone(entry, FundRows(fund.0, fund.1), ticker);
    }
  }

  // Every fund of that ticker in turn, and every cell of it at its rank.
  ghost predicate ListsFund(rows: seq<Joined>, fields: RunFields, id: Id, funds: seq<(Ticker, seq<Cell>)>, ticker: Ticker) {
    && |rows| == CellsOf(funds, ticker, |funds|)
    && forall i, r: nat | 0 <= i < |funds| && funds[i].0 == ticker && r < |funds[i].1| ::
      JoinedAt(rows, CellsOf(funds, ticker, i) + r, Joined(IndexRow(ticker, funds[i].1[r], r), fields, id))
  }

  ghost predicate JoinedAt(rows: seq<Joined>, at: nat, row: Joined) {
    at < |rows| && rows[at] == row
  }

  lemma {:induction false} ReportListsFund(entry: Entry, funds: seq<(Ticker, seq<Cell>)>, ticker: Ticker)
    requires entry.run.Some?
    ensures ListsFund(JoinRows(entry, ReportRows(funds), ticker), entry.run.value, entry.id, funds, ticker)
  {
    if funds != [] {
      var first, rest := FundRows(funds[0].0, funds[0].1), ReportRows(funds[1..]);
      ReportListsFund(entry, funds[1..], ticker);
      JoinRowsBoth(entry, first, rest, ticker);
      JoinFund(entry, funds[0], ticker);
      FirstFundThenRest(entry.run.value, entry.id, funds, ticker, JoinRows(entry, rest, ticker));
    }
  }

  lemma FirstFundThenRest(fields: RunFields, id: Id, funds: seq<(Ticker, seq<Cell>)>, ticker: Ticker, rest: seq<Joined>)
    requires funds != [] && ListsFund(rest, fields, id, funds[1..], ticker)
    ensures ListsFund((if funds[0].0 == ticker then Shown(fields, id, funds[0]) else []) + rest, fields, id, funds, ticker)
  {
    var first := if funds[0].0 == ticker then Shown(fields, id, funds[0]) else [];
    forall i, r: nat | 0 <= i < |funds| && funds[i].0 == ticker && r < |funds[i].1|
      ensures JoinedAt(first + rest, CellsOf(funds, ticker, i) + r, Joined(IndexRow(ticker, funds[i].1[r], r), fields, id)) {
      if i > 0 {
        assert JoinedAt(rest, CellsOf(funds[1..], ticker, i - 1) + r, Joined(IndexRow(ticker, funds[1..][i - 1].1[r], r), fields, id));
      }
    }
  }

  ghost predicate AllReported(s: State, index: seq<Entry>) {
    forall k | 0 <= k < |index| :: Reported(s, index[k].id)
  }

  ghost predicate AllExact(s: State, index: seq<Entry>) {
    AllReported(s, index) && forall k | 0 <= k < |index| :: Exact(s, index[k])
  }

  // How many rows of a fund come of the first entries of the index.
  function RowsAhead(s: State, index: seq<Entry>, ticker: Ticker, n: nat): nat
    requires n <= |index| && AllReported(s, index)
  {
    if n == 0 then 0
    else RowsAhead(s, index, ticker, n - 1) + CellsOf(FundsOf(s, index[n - 1].id), ticker, |FundsOf(s, index[n - 1].id)|)
  }

  // The first n entries, one after another, each fund of that ticker in turn, and
  // every cell of it at its rank, with the fields of its own archive.
  ghost predicate ListsRuns(s: State, rows: seq<Joined>, index: seq<Entry>, ticker: Ticker, n: nat)
    requires n <= |index| && AllReported(s, index)
  {
    && |rows| == RowsAhead(s, index, ticker, n)
    && forall k: nat, i: nat, r: nat | k < n && HasCell(s, index[k].id, ticker, i, r) ::
      JoinedAt(rows, RowsAhead(s, index, ticker, k) + CellsOf(FundsOf(s, index[k].id), ticker, i) + r,
               CellRow(s, index[k].id, i, r))
  }

  predicate HasCell(s: State, id: Id, ticker: Ticker, i: nat, r: nat)
    requires Reported(s, id)
  {
    i < |FundsOf(s, id)| && FundsOf(s, id)[i].0 == ticker && r < |FundsOf(s, id)[i].1|
  }

  function CellRow(s: State, id: Id, i: nat, r: nat): Joined
    requires Reported(s, id) && i < |FundsOf(s, id)| && r < |FundsOf(s, id)[i].1|
  {
    Joined(IndexRow(FundsOf(s, id)[i].0, FundsOf(s, id)[i].1[r], r),
           RunFields(s.archives[id].run.value.report.value.meta, SavedAt(s, id)), id)
  }

  lemma {:induction false} JoinListsRuns(s: State, index: seq<Entry>, ticker: Ticker, n: nat)
    requires n <= |index| && AllExact(s, index)
    ensures ListsRuns(s, Join(index[..n], ticker), index, ticker, n)
  {
    if n > 0 {
      var e := index[n - 1];
      JoinListsRuns(s, index, ticker, n - 1);
      assert index[..n][..n - 1] == index[..n - 1] && e in index;
      ReportListsFund(e, FundsOf(s, e.id), ticker);
      OneMoreRun(s, Join(index[..n - 1], ticker), JoinRows(e, e.rows, ticker), index, ticker, n);
      assert Join(index[..n], ticker) == Join(index[..n - 1], ticker) + JoinRows(e, e.rows, ticker);
    }
  }

  lemma OneMoreRun(s: State, rows: seq<Joined>, more: seq<Joined>, index: seq<Entry>, ticker: Ticker, n: nat)
    requires 0 < n <= |index| && AllExact(s, index)
    requires ListsRuns(s, rows, index, ticker, n - 1)
    requires ListsFund(more, index[n - 1].run.value, index[n - 1].id, FundsOf(s, index[n - 1].id), ticker)
    ensures ListsRuns(s, rows + more, index, ticker, n)
  {
    forall k: nat, i: nat, r: nat | k < n && HasCell(s, index[k].id, ticker, i, r)
      ensures JoinedAt(rows + more, RowsAhead(s, index, ticker, k) + CellsOf(FundsOf(s, index[k].id), ticker, i) + r,
                       CellRow(s, index[k].id, i, r)) {
      if k < n - 1 {
        assert JoinedAt(rows, RowsAhead(s, index, ticker, k) + CellsOf(FundsOf(s, index[k].id), ticker, i) + r,
                        CellRow(s, index[k].id, i, r));
      } else {
        assert index[k] in index;
        assert JoinedAt(more, CellsOf(FundsOf(s, index[k].id), ticker, i) + r, CellRow(s, index[k].id, i, r));
      }
    }
  }

  ghost predicate Serves(s: State, names: seq<Id>, ticker: Ticker, rows: seq<Joined>) {
    exists index :: Indexes(s, names, index) && AllReported(s, index) && ListsRuns(s, rows, index, ticker, |index|)
  }

  // The rows of a fund against the archives, position by position: run by run as
  // they are indexed, fund by fund, cell by cell at its rank, with the run's own
  // fields, and nothing else.
  lemma FundRowsSay(s: State, ticker: Ticker, names: seq<Id>, now: nat)
    requires Coherent(s, names)
    ensures var index := IndexEntries(s, names, now);
            Indexes(s, names, index) && AllReported(s, index)
            && ListsRuns(s, FundRowsState(s, ticker, names, now).1, index, ticker, |index|)
    ensures Serves(s, names, ticker, FundRowsState(s, ticker, names, now).1)
  {
    var index := IndexEntries(s, names, now);
    IndexIsRederived(s, names, now);
    IndexIsExact(s, names, now);
    IndexSays(s, names, now);
    FundRowsAreTheJoin(s, ticker, names, now);
    JoinListsRuns(s, index, ticker, |index|);
    assert index[..|index|] == index;
  }

  // A row of a fund as an archive has it.
  ghost predicate InArchives(s: State, names: seq<Id>, ticker: Ticker, j: Joined) {
    j.run in names && Reported(s, j.run) && exists i: nat :: HasCell(s, j.run, ticker, i, j.row.rank) && j == CellRow(s, j.run, i, j.row.rank)
  }

  lemma IndexIsExact(s: State, names: seq<Id>, now: nat)
    requires Honest(s) && CacheHonest(s)
    ensures AllExact(s, IndexEntries(s, names, now))
  {
    IndexIsRederived(s, names, now);
    RederiveAllSays(s, names);
    SortedSays(s, names, RederiveAll(s, names));
  }

  lemma ServedIsArchived(s: State, e: Entry, names: seq<Id>, ticker: Ticker, j: Joined)
    requires Exact(s, e) && e.id in names && e.run == Some(j.fields) && e.id == j.run && j.row in e.rows && j.row.ticker == ticker
    ensures InArchives(s, names, ticker, j)
  {
    ReportRowsExactly(FundsOf(s, j.run), j.row);
    var i :| 0 <= i < |FundsOf(s, j.run)| && FundsOf(s, j.run)[i].0 == j.row.ticker
             && j.row.rank < |FundsOf(s, j.run)[i].1| && FundsOf(s, j.run)[i].1[j.row.rank] == j.row.cell;
    assert HasCell(s, j.run, ticker, i, j.row.rank) && j == CellRow(s, j.run, i, j.row.rank);
  }

  lemma ArchivedIsListed(s: State, e: Entry, names: seq<Id>, ticker: Ticker, j: Joined)
    requires Exact(s, e) && e.id == j.run && InArchives(s, names, ticker, j)
    ensures e.run == Some(j.fields) && j.row in e.rows && j.row.ticker == ticker
  {
    var i: nat :| HasCell(s, j.run, ticker, i, j.row.rank) && j == CellRow(s, j.run, i, j.row.rank);
    ReportRowsExactly(FundsOf(s, j.run), j.row);
  }

  lemma IndexHas(s: State, names: seq<Id>, now: nat, id: Id) returns (k: nat)
    requires Honest(s) && CacheHonest(s) && Reported(s, id) && id in names
    ensures k < |IndexEntries(s, names, now)| && IndexEntries(s, names, now)[k].id == id
  {
    IndexSays(s, names, now);
    var ids := IdsIn(IndexEntries(s, names, now));
    assert multiset(names)[id] > 0;
    assert multiset(ids)[id] > 0;
    k :| 0 <= k < |ids| && ids[k] == id;
  }

  // A row is served for a fund if and only if a listed archive with a report has a
  // fund of that ticker with that cell at that rank, and those are its own fields.
  lemma FundRowsExactly(s: State, ticker: Ticker, names: seq<Id>, now: nat, j: Joined)
    requires Coherent(s, names)
    ensures j in FundRowsState(s, ticker, names, now).1 <==> InArchives(s, names, ticker, j)
  {
    var index := IndexEntries(s, names, now);
    FundRowsAreTheJoin(s, ticker, names, now);
    IndexIsRederived(s, names, now);
    IndexIsExact(s, names, now);
    JoinExactly(index, ticker, j);
    if j in FundRowsState(s, ticker, names, now).1 {
      var k :| 0 <= k < |index| && index[k].run == Some(j.fields) && index[k].id == j.run && j.row in index[k].rows && j.row.ticker == ticker;
      EntryIsListed(s, names, now, k);
      ServedIsArchived(s, index[k], names, ticker, j);
    }
    if InArchives(s, names, ticker, j) {
      var k := IndexHas(s, names, now, j.run);
      ArchivedIsListed(s, index[k], names, ticker, j);
    }
  }

  lemma EntryIsListed(s: State, names: seq<Id>, now: nat, k: nat)
    requires Honest(s) && CacheHonest(s) && k < |IndexEntries(s, names, now)|
    ensures IndexEntries(s, names, now)[k].id in names
  {
    IndexSays(s, names, now);
    assert IndexEntries(s, names, now)[k] in IndexEntries(s, names, now);
  }

  // At any moment of any life: what is asked of the caches is what is in the archives.
  lemma EveryLifeServesItsArchives(trace: seq<State>, steps: seq<Step>, names: seq<Id>, k: nat, ticker: Ticker, now: nat, j: Joined)
    requires IsLife(trace, steps, names) && k < |trace|
    ensures Indexes(trace[k], names, IndexEntries(trace[k], names, now))
    ensures Serves(trace[k], names, ticker, FundRowsState(trace[k], ticker, names, now).1)
    ensures j in FundRowsState(trace[k], ticker, names, now).1 <==> InArchives(trace[k], names, ticker, j)
  {
    LifeCoherent(trace, steps, names, k);
    IndexSays(trace[k], names, now);
    FundRowsSay(trace[k], ticker, names, now);
    FundRowsExactly(trace[k], ticker, names, now, j);
  }

  // Derived files are written anew exactly when one of them is missing, older than the
  // archive or of another layout; otherwise nothing at all is touched.
  lemma EnsureRenewsIff(s: State, id: Id, now: nat)
    requires id in s.archives && s.archives[id].run.Some?
    ensures var d, a := DerivedOf(s, id), s.archives[id];
            var t := Ensure(s, id, now).0;
            if d.summaryAt == None || d.indexAt == None || d.summaryAt.value < a.mtime || d.indexAt.value < a.mtime || d.version != 1
            then DerivedOf(t, id) == Derived(Some(now), Some(now), 1, Derive(id, a.run.value, a.mtime))
            else t == s
    ensures forall x | x != id :: DerivedOf(Ensure(s, id, now).0, x) == DerivedOf(s, x)
  {
  }

  // A save that gets all the way leaves files of the new archive; one that gets half
  // the way or less leaves an index of the old one, which passes for fresh only if it
  // is stamped no earlier than the new archive.
  lemma SaveLeaves(s: State, id: Id, run: Run, now: nat, derivedAt: nat, reach: Reach)
    ensures var next, was := Save(s, id, run, now, derivedAt, reach), DerivedOf(s, id);
            var left := DerivedOf(next, id);
            && id in next.archives && next.archives[id] == Archive(now, Some(run)) && next.archives - {id} == s.archives - {id}
            && (reach == Both ==>
                  && left.entry.id == id && (run.report.Some? ==> Exact(next, left.entry)) && (run.report == None ==> left.entry.run == None)
                  && (Fresh(left, now) <==> derivedAt >= now))
            && (reach != Both ==>
                  && left.entry == was.entry && left.indexAt == was.indexAt
                  && (Fresh(left, now) <==>
                        && was.indexAt.Some? && was.indexAt.value >= now && was.version == 1
                        && if reach == SummaryOnly then derivedAt >= now else was.summaryAt.Some? && was.summaryAt.value >= now))
  {
    var next := Save(s, id, run, now, derivedAt, reach);
    if run.report.Some? {
      RederivedSays(next, id);
    }
  }
}
