/**
 The run history's caches (server/history.py, server/history_query.py): files
 derived from each archive, an index entry per run kept in memory, and the rows
 of a fund joined from them.
 */
module History {
  import opened Seqs

  // Run ids, tickers, report fields and cells are only ever compared.
  type Id = int
  type Ticker = int
  type Meta = int
  type Cell = int

  // An archived run: its report's own fields, and each fund's cells in rank
  // order; None for one without a report.
  datatype Report = Report(meta: Meta, funds: seq<(Ticker, seq<Cell>)>)
  datatype Run = Run(savedAt: Option<nat>, report: Option<Report>)

  // `run` is None when the file is not a JSON object.
  datatype Archive = Archive(mtime: nat, run: Option<Run>)

  datatype IndexRow = IndexRow(ticker: Ticker, cell: Cell, rank: nat)
  datatype RunFields = RunFields(meta: Meta, savedAt: nat)
  datatype Entry = Entry(id: Id, run: Option<RunFields>, rows: seq<IndexRow>)

  const DERIVED_VERSION: nat := 1

  // <id>.summary.json and <id>.index.json, as far as anybody looks: when each
  // was written, and what the second says.
  datatype Derived = Derived(summaryAt: Option<nat>, indexAt: Option<nat>, version: nat, entry: Entry)

  const NothingDerived := Derived(None, None, 0, Entry(0, None, []))

  // ---- deriving -------------------------------------------------------------

  function FundRows(ticker: Ticker, cells: seq<Cell>): seq<IndexRow> {
    seq(|cells|, k requires 0 <= k < |cells| => IndexRow(ticker, cells[k], k))
  }

  function ReportRows(funds: seq<(Ticker, seq<Cell>)>): seq<IndexRow> {
    if funds == [] then [] else FundRows(funds[0].0, funds[0].1) + ReportRows(funds[1..])
  }

  // What the index says of an archive.
  function Derive(id: Id, run: Run, mtime: nat): Entry {
    var savedAt := if run.savedAt.Some? then run.savedAt.value else mtime;
    match run.report
    case None => Entry(id, None, [])
    case Some(report) => Entry(id, Some(RunFields(report.meta, savedAt)), ReportRows(report.funds))
  }

  // ---- the state ------------------------------------------------------------

  datatype State = State(
    archives: map<Id, Archive>,
    derived: map<Id, Derived>,
    cache: map<Id, (nat, Entry)>,
    generation: nat,
    rowsCache: map<Ticker, (nat, seq<Joined>)>)

  datatype Joined = Joined(row: IndexRow, fields: RunFields, run: Id)

  function DerivedOf(s: State, id: Id): Derived {
    if id in s.derived then s.derived[id] else NothingDerived
  }

  // _derived_fresh: neither file older than the archive, and the right layout.
  predicate Fresh(d: Derived, mtime: nat) {
    && d.summaryAt.Some? && d.summaryAt.value >= mtime
    && d.indexAt.Some? && d.indexAt.value >= mtime
    && d.version == DERIVED_VERSION
  }

  // How far _write_derived gets.
  datatype Reach = Both | SummaryOnly | Neither

  function WriteDerived(d: Derived, entry: Entry, now: nat, reach: Reach): Derived {
    match reach
    case Neither => d
    case SummaryOnly => d.(summaryAt := Some(now))
    case Both => Derived(Some(now), Some(now), DERIVED_VERSION, entry)
  }

  // save: the archive, then what is derived from it.
  function Save(s: State, id: Id, run: Run, now: nat, derivedAt: nat, reach: Reach): State {
    s.(archives := s.archives[id := Archive(now, Some(run))],
       derived := s.derived[id := WriteDerived(DerivedOf(s, id), Derive(id, run, now), derivedAt, reach)])
  }

  // Somebody else puts a file there.
  function Rewrite(s: State, id: Id, archive: Archive): State {
    s.(archives := s.archives[id := archive])
  }

  function Delete(s: State, id: Id): State {
    s.(archives := s.archives - {id})
  }

  // Deleting a derived file is always safe.
  function DeleteDerived(s: State, id: Id): State {
    s.(derived := s.derived - {id})
  }

  function Ensure(s: State, id: Id, now: nat): (State, bool) {
    if id !in s.archives then (s, false)
    else
      var a := s.archives[id];
      if Fresh(DerivedOf(s, id), a.mtime) then (s, true)
      else if a.run == None then (s, false)
      else (s.(derived := s.derived[id := WriteDerived(DerivedOf(s, id), Derive(id, a.run.value, a.mtime), now, Both)]), true)
  }

  // ---- index_entries --------------------------------------------------------

  // Out of the cache goes every run whose archive is gone.
  function DropGone(s: State): State {
    var gone := s.cache.Keys - s.archives.Keys;
    s.(cache := s.cache - gone, generation := s.generation + if gone == {} then 0 else 1)
  }

  // One archive: its entry from the cache, or re-read.
  function Visit(s: State, id: Id, now: nat): State {
    if id !in s.archives then s
    else
      var mtime := s.archives[id].mtime;
      if id in s.cache && s.cache[id].0 == mtime then s
      else
        var (s1, ok) := Ensure(s, id, now);
        if !ok then s1
        else s1.(cache := s1.cache[id := (mtime, DerivedOf(s1, id).entry)], generation := s1.generation + 1)
  }

  // `names` is the directory in the order it is listed in.
  function VisitAll(s: State, names: seq<Id>, now: nat): State {
    if names == [] then s else Visit(VisitAll(s, names[..|names| - 1], now), names[|names| - 1], now)
  }

  // What a listed run contributes, once it has been visited.
  function Listed(s: State, id: Id): seq<(nat, Entry)> {
    if id in s.archives && id in s.cache && s.cache[id].0 == s.archives[id].mtime && s.cache[id].1.run.Some?
    then [s.cache[id]] else []
  }

  function ListAll(s: State, names: seq<Id>): seq<(nat, Entry)> {
    if names == [] then [] else ListAll(s, names[..|names| - 1]) + Listed(s, names[|names| - 1])
  }

  // sort(key=mtime, reverse=True): newest first, equal ones as they were.
  function InsertNewest(sorted: seq<(nat, Entry)>, item: (nat, Entry)): seq<(nat, Entry)> {
    if sorted == [] || sorted[|sorted| - 1].0 >= item.0 then sorted + [item]
    else InsertNewest(sorted[..|sorted| - 1], item) + [sorted[|sorted| - 1]]
  }

  function NewestFirst(items: seq<(nat, Entry)>): seq<(nat, Entry)> {
    if items == [] then [] else InsertNewest(NewestFirst(items[..|items| - 1]), items[|items| - 1])
  }

  function EntriesIn(items: seq<(nat, Entry)>): seq<Entry> {
    seq(|items|, i requires 0 <= i < |items| => items[i].1)
  }

  function IndexState(s: State, names: seq<Id>, now: nat): State {
    VisitAll(DropGone(s), names, now)
  }

  function IndexEntries(s: State, names: seq<Id>, now: nat): seq<Entry> {
    EntriesIn(NewestFirst(ListAll(IndexState(s, names, now), names)))
  }

  // The same, deriving every entry anew from its archive.
  function Rederived(s: State, id: Id): seq<(nat, Entry)> {
    if id in s.archives && s.archives[id].run.Some? && s.archives[id].run.value.report.Some?
    then [(s.archives[id].mtime, Derive(id, s.archives[id].run.value, s.archives[id].mtime))] else []
  }

  function RederiveAll(s: State, names: seq<Id>): seq<(nat, Entry)> {
    if names == [] then [] else RederiveAll(s, names[..|names| - 1]) + Rederived(s, names[|names| - 1])
  }

  // ---- fund_rows ------------------------------------------------------------

  function JoinRows(entry: Entry, rows: seq<IndexRow>, ticker: Ticker): seq<Joined>
    requires entry.run.Some?
  {
    if rows == [] then []
    else
      var row := rows[|rows| - 1];
      JoinRows(entry, rows[..|rows| - 1], ticker)
      + if row.ticker == ticker then [Joined(row, entry.run.value, entry.id)] else []
  }

  function Join(entries: seq<Entry>, ticker: Ticker): seq<Joined> {
    if entries == [] then []
    else
      var entry := entries[|entries| - 1];
      Join(entries[..|entries| - 1], ticker)
      + if entry.run.Some? then JoinRows(entry, entry.rows, ticker) else []
  }

  function FundRowsState(s: State, ticker: Ticker, names: seq<Id>, now: nat): (State, seq<Joined>) {
    var s1 := IndexState(s, names, now);
    if ticker in s1.rowsCache && s1.rowsCache[ticker].0 == s1.generation then (s1, s1.rowsCache[ticker].1)
    else
      var rows := Join(IndexEntries(s, names, now), ticker);
      (s1.(rowsCache := s1.rowsCache[ticker := (s1.generation, rows)]), rows)
  }

  // ---- what those come to -----------------------------------------------------

  // A row for every cell of every fund, at its rank, and no other.
  lemma {:induction false} ReportRowsExactly(funds: seq<(Ticker, seq<Cell>)>, row: IndexRow)
    ensures row in ReportRows(funds) <==>
              exists i :: 0 <= i < |funds| && funds[i].0 == row.ticker && row.rank < |funds[i].1| && funds[i].1[row.rank] == row.cell
  {
    if funds != [] {
      ReportRowsExactly(funds[1..], row);
      FundRowsExactly(funds[0].0, funds[0].1, row);
      if row in ReportRows(funds[1..]) {
        var i :| 0 <= i < |funds[1..]| && funds[1..][i].0 == row.ticker
                 && row.rank < |funds[1..][i].1| && funds[1..][i].1[row.rank] == row.cell;
        assert funds[i + 1] == funds[1..][i];
      }
      if exists i :: 0 <= i < |funds| && funds[i].0 == row.ticker && row.rank < |funds[i].1| && funds[i].1[row.rank] == row.cell {
        var i :| 0 <= i < |funds| && funds[i].0 == row.ticker && row.rank < |funds[i].1| && funds[i].1[row.rank] == row.cell;
        if i > 0 {
          assert funds[1..][i - 1] == funds[i];
        }
      }
    }
  }

  lemma FundRowsExactly(ticker: Ticker, cells: seq<Cell>, row: IndexRow)
    ensures row in FundRows(ticker, cells) <==> row.ticker == ticker && row.rank < |cells| && cells[row.rank] == row.cell
  {
    if row.ticker == ticker && row.rank < |cells| && cells[row.rank] == row.cell {
      assert FundRows(ticker, cells)[row.rank] == row;
    }
  }

  ghost predicate NewestLead(items: seq<(nat, Entry)>) {
    forall i, j | 0 <= i < j < |items| :: items[i].0 >= items[j].0
  }

  function WrittenAt(items: seq<(nat, Entry)>, mtime: nat): seq<(nat, Entry)> {
    if items == [] then []
    else WrittenAt(items[..|items| - 1], mtime) + if items[|items| - 1].0 == mtime then [items[|items| - 1]] else []
  }

  lemma WrittenAtMore(items: seq<(nat, Entry)>, item: (nat, Entry), mtime: nat)
    ensures WrittenAt(items + [item], mtime) == if item.0 == mtime then WrittenAt(items, mtime) + [item] else WrittenAt(items, mtime)
  {
    assert (items + [item])[..|items|] == items;
  }

  ghost predicate AllSince(items: seq<(nat, Entry)>, mtime: nat) {
    forall i | 0 <= i < |items| :: items[i].0 >= mtime
  }

  lemma {:induction false} InsertNewestSince(sorted: seq<(nat, Entry)>, item: (nat, Entry), mtime: nat)
    requires AllSince(sorted, mtime) && item.0 >= mtime
    ensures AllSince(InsertNewest(sorted, item), mtime)
  {
    if !(sorted == [] || sorted[|sorted| - 1].0 >= item.0) {
      InsertNewestSince(sorted[..|sorted| - 1], item, mtime);
    }
  }

  lemma {:induction false} InsertNewestLeads(sorted: seq<(nat, Entry)>, item: (nat, Entry))
    requires NewestLead(sorted)
    ensures NewestLead(InsertNewest(sorted, item))
  {
    if !(sorted == [] || sorted[|sorted| - 1].0 >= item.0) {
      var front, last := sorted[..|sorted| - 1], sorted[|sorted| - 1];
      InsertNewestLeads(front, item);
      InsertNewestSince(front, item, last.0);
    }
  }

  lemma {:induction false} InsertNewestKeeps(sorted: seq<(nat, Entry)>, item: (nat, Entry), mtime: nat)
    ensures WrittenAt(InsertNewest(sorted, item), mtime) == WrittenAt(sorted + [item], mtime)
  {
    WrittenAtMore(sorted, item, mtime);
    if !(sorted == [] || sorted[|sorted| - 1].0 >= item.0) {
      var front, last := sorted[..|sorted| - 1], sorted[|sorted| - 1];
      assert sorted == front + [last];
      InsertNewestKeeps(front, item, mtime);
      WrittenAtMore(front, item, mtime);
      WrittenAtMore(front, last, mtime);
      WrittenAtMore(InsertNewest(front, item), last, mtime);
    }
  }

  // Newest first, and the entries written at any one time are those listed,
  // in the order they were listed in: so nothing is lost or repeated.
  lemma {:induction false} NewestFirstSorts(items: seq<(nat, Entry)>, mtime: nat)
    ensures NewestLead(NewestFirst(items))
    ensures WrittenAt(NewestFirst(items), mtime) == WrittenAt(items, mtime)
  {
    if items != [] {
      var front, item := items[..|items| - 1], items[|items| - 1];
      assert items == front + [item];
      NewestFirstSorts(front, mtime);
      InsertNewestLeads(NewestFirst(front), item);
      InsertNewestKeeps(NewestFirst(front), item, mtime);
      WrittenAtMore(front, item, mtime);
      WrittenAtMore(NewestFirst(front), item, mtime);
    }
  }

  // A joined row is a row of that fund with its own run's fields.
  lemma {:induction false} JoinExactly(entries: seq<Entry>, ticker: Ticker, j: Joined)
    ensures j in Join(entries, ticker) <==>
              exists i :: 0 <= i < |entries| && entries[i].run == Some(j.fields) && entries[i].id == j.run
                          && j.row in entries[i].rows && j.row.ticker == ticker
  {
    if entries != [] {
      var front, entry := entries[..|entries| - 1], entries[|entries| - 1];
      JoinExactly(front, ticker, j);
      if entry.run.Some? {
        JoinRowsExactly(entry, entry.rows, ticker, j);
      }
      if j in Join(front, ticker) {
        var i :| 0 <= i < |front| && front[i].run == Some(j.fields) && front[i].id == j.run
                 && j.row in front[i].rows && j.row.ticker == ticker;
        assert entries[i] == front[i];
      }
    }
  }

  lemma {:induction false} JoinRowsExactly(entry: Entry, rows: seq<IndexRow>, ticker: Ticker, j: Joined)
    requires entry.run.Some?
    ensures j in JoinRows(entry, rows, ticker) <==>
              j.fields == entry.run.value && j.run == entry.id && j.row in rows && j.row.ticker == ticker
  {
    if rows != [] {
      JoinRowsExactly(entry, rows[..|rows| - 1], ticker, j);
      assert rows == rows[..|rows| - 1] + [rows[|rows| - 1]];
    }
  }

  // ---- what is true in between ----------------------------------------------

  // Derived files that pass for fresh are those of the archive as it is.
  ghost predicate Honest(s: State) {
    forall id | id in s.archives && Fresh(DerivedOf(s, id), s.archives[id].mtime) ::
      s.archives[id].run.Some?
      && DerivedOf(s, id).entry == Derive(id, s.archives[id].run.value, s.archives[id].mtime)
  }

  // A cached entry of an archive's present mtime is that archive's.
  ghost predicate CacheHonest(s: State) {
    forall id | id in s.archives && id in s.cache && s.cache[id].0 == s.archives[id].mtime ::
      s.archives[id].run.Some?
      && s.cache[id].1 == Derive(id, s.archives[id].run.value, s.archives[id].mtime)
  }

  // What the cache alone would list.
  function FromCache(cache: map<Id, (nat, Entry)>, names: seq<Id>): seq<(nat, Entry)> {
    if names == [] then []
    else
      var id := names[|names| - 1];
      FromCache(cache, names[..|names| - 1]) + if id in cache && cache[id].1.run.Some? then [cache[id]] else []
  }

  // Rows kept under the present generation are the join of the present cache.
  ghost predicate RowsHonest(s: State, names: seq<Id>) {
    forall t | t in s.rowsCache ::
      s.rowsCache[t].0 <= s.generation
      && (s.rowsCache[t].0 == s.generation ==>
            s.rowsCache[t].1 == Join(EntriesIn(NewestFirst(FromCache(s.cache, names))), t))
  }

  ghost predicate AllReadable(s: State) {
    forall id | id in s.archives :: s.archives[id].run.Some?
  }

  ghost predicate Coherent(s: State, names: seq<Id>) {
    && Honest(s) && CacheHonest(s) && RowsHonest(s, names) && AllReadable(s)
    && forall id | id in s.archives :: id in names
  }

  // Every write is later than the files it outdates.
  ghost predicate Later(s: State, id: Id, mtime: nat) {
    && (DerivedOf(s, id).summaryAt.Some? ==> DerivedOf(s, id).summaryAt.value < mtime)
    && (DerivedOf(s, id).indexAt.Some? ==> DerivedOf(s, id).indexAt.value < mtime)
    && (id in s.cache ==> s.cache[id].0 < mtime)
  }

  datatype Step =
    | SaveStep(id: Id, run: Run, now: nat, derivedAt: nat, reach: Reach)
    | RewriteStep(id: Id, archive: Archive)
    | DeleteStep(id: Id)
    | DeleteDerivedStep(id: Id)
    | EnsureStep(id: Id, now: nat)
    | IndexStep(now: nat)
    | FundRowsStep(ticker: Ticker, now: nat)
    | RestartStep

  function Next(s: State, names: seq<Id>, step: Step): State {
    match step
    case SaveStep(id, run, now, derivedAt, reach) => Save(s, id, run, now, derivedAt, reach)
    case RewriteStep(id, archive) => Rewrite(s, id, archive)
    case DeleteStep(id) => Delete(s, id)
    case DeleteDerivedStep(id) => DeleteDerived(s, id)
    case EnsureStep(id, now) => Ensure(s, id, now).0
    case IndexStep(now) => IndexState(s, names, now)
    case FundRowsStep(ticker, now) => FundRowsState(s, ticker, names, now).0
    case RestartStep => s.(cache := map[], generation := 0, rowsCache := map[])
  }

  // Files are written later than what they outdate, readable, and under names
  // the directory lists.
  ghost predicate Orderly(s: State, names: seq<Id>, step: Step) {
    match step
    case SaveStep(id, _, now, derivedAt, _) => Later(s, id, now) && now <= derivedAt && id in names
    case RewriteStep(id, archive) => Later(s, id, archive.mtime) && archive.run.Some? && id in names
    case _ => true
  }

  // ---- proofs ---------------------------------------------------------------

  lemma EnsureHonest(s: State, id: Id, now: nat)
    requires Honest(s)
    ensures var (s1, ok) := Ensure(s, id, now);
            && Honest(s1) && s1.archives == s.archives && s1.cache == s.cache && s1.generation == s.generation
            && s1.rowsCache == s.rowsCache
            && (id in s.archives && s.archives[id].run.Some? ==> ok)
            && (ok ==> id in s.archives && s.archives[id].run.Some?
                       && DerivedOf(s1, id).entry == Derive(id, s.archives[id].run.value, s.archives[id].mtime))
  {
  }

  // What visiting leaves alone.
  ghost predicate Steady(s: State, t: State) {
    t.archives == s.archives && t.rowsCache == s.rowsCache && t.generation >= s.generation
    && (t.generation == s.generation ==> t.cache == s.cache)
  }

  lemma VisitCoherent(s: State, id: Id, now: nat)
    requires Honest(s) && CacheHonest(s)
    ensures var t := Visit(s, id, now);
            && Honest(t) && CacheHonest(t) && Steady(s, t)
            && t.cache.Keys <= s.cache.Keys + {id} && s.cache.Keys <= t.cache.Keys
            && (forall x | x in s.cache && x != id :: t.cache[x] == s.cache[x])
            && (id in s.archives && s.archives[id].run.Some? ==> id in t.cache && t.cache[id].0 == s.archives[id].mtime)
  {
    EnsureHonest(s, id, now);
  }

  // Once visited, a run stays visited.
  ghost predicate Visited(s: State, id: Id) {
    id in s.archives && s.archives[id].run.Some? ==> id in s.cache && s.cache[id].0 == s.archives[id].mtime
  }

  lemma {:induction false} VisitAllCoherent(s: State, names: seq<Id>, now: nat)
    requires Honest(s) && CacheHonest(s)
    ensures var t := VisitAll(s, names, now);
            && Honest(t) && CacheHonest(t) && Steady(s, t)
            && t.cache.Keys <= s.cache.Keys + Elems(names)
            && forall id | id in names :: Visited(t, id)
    decreases |names|
  {
    if names != [] {
      var front, last := names[..|names| - 1], names[|names| - 1];
      VisitAllCoherent(s, front, now);
      VisitCoherent(VisitAll(s, front, now), last, now);
      assert names == front + [last];
      var m, t := VisitAll(s, front, now), VisitAll(s, names, now);
      forall id | id in names ensures Visited(t, id) {
        if id != last {
          assert Visited(m, id);
        }
      }
    }
  }

  lemma DropGoneCoherent(s: State)
    requires Honest(s) && CacheHonest(s)
    ensures var t := DropGone(s);
            Honest(t) && CacheHonest(t) && Steady(s, t) && t.cache.Keys <= t.archives.Keys
  {
    if s.cache.Keys - s.archives.Keys == {} {
      assert s.cache - (s.cache.Keys - s.archives.Keys) == s.cache;
    }
  }

  lemma IndexCoherent(s: State, names: seq<Id>, now: nat)
    requires Honest(s) && CacheHonest(s)
    ensures var t := IndexState(s, names, now);
            Honest(t) && CacheHonest(t) && Steady(s, t) && forall id | id in names :: Visited(t, id)
  {
    DropGoneCoherent(s);
    VisitAllCoherent(DropGone(s), names, now);
  }

  lemma {:induction false} ListedIsRederived(t: State, names: seq<Id>)
    requires CacheHonest(t) && forall id | id in names :: Visited(t, id)
    ensures ListAll(t, names) == RederiveAll(t, names)
    decreases |names|
  {
    if names != [] {
      var front, last := names[..|names| - 1], names[|names| - 1];
      assert forall id | id in front :: id in names;
      ListedIsRederived(t, front);
      assert last in names && Visited(t, last);
    }
  }

  // index_entries, whatever it had cached, is what re-deriving every entry from
  // the archives as they are gives; archives that cannot be read are left out.
  lemma IndexIsRederived(s: State, names: seq<Id>, now: nat)
    requires Honest(s) && CacheHonest(s)
    ensures IndexEntries(s, names, now) == EntriesIn(NewestFirst(RederiveAll(s, names)))
  {
    IndexCoherent(s, names, now);
    ListedIsRederived(IndexState(s, names, now), names);
    SameArchives(s, IndexState(s, names, now), names);
  }

  lemma {:induction false} SameArchives(s: State, t: State, names: seq<Id>)
    requires t.archives == s.archives
    ensures RederiveAll(t, names) == RederiveAll(s, names)
    decreases |names|
  {
    if names != [] {
      SameArchives(s, t, names[..|names| - 1]);
    }
  }

  // With everything readable, what is listed is the cache.
  lemma {:induction false} ListedIsCache(t: State, names: seq<Id>)
    requires AllReadable(t) && (forall id | id in names :: Visited(t, id)) && t.cache.Keys <= t.archives.Keys
    ensures ListAll(t, names) == FromCache(t.cache, names)
    decreases |names|
  {
    if names != [] {
      var front, last := names[..|names| - 1], names[|names| - 1];
      assert forall id | id in front :: id in names;
      ListedIsCache(t, front);
      assert last in names && Visited(t, last);
    }
  }

  lemma VisitKeepsKeys(s: State, id: Id, now: nat)
    requires s.cache.Keys <= s.archives.Keys
    ensures Visit(s, id, now).cache.Keys <= Visit(s, id, now).archives.Keys
  {
  }

  lemma {:induction false} VisitAllKeepsKeys(s: State, names: seq<Id>, now: nat)
    requires s.cache.Keys <= s.archives.Keys
    ensures VisitAll(s, names, now).cache.Keys <= VisitAll(s, names, now).archives.Keys
    decreases |names|
  {
    if names != [] {
      VisitAllKeepsKeys(s, names[..|names| - 1], now);
      VisitKeepsKeys(VisitAll(s, names[..|names| - 1], now), names[|names| - 1], now);
    }
  }

  lemma IndexFromCache(s: State, names: seq<Id>, now: nat)
    requires Honest(s) && CacheHonest(s) && AllReadable(s)
    ensures IndexEntries(s, names, now) == EntriesIn(NewestFirst(FromCache(IndexState(s, names, now).cache, names)))
  {
    IndexCoherent(s, names, now);
    DropGoneCoherent(s);
    VisitAllKeepsKeys(DropGone(s), names, now);
    ListedIsCache(IndexState(s, names, now), names);
  }

  // The rows of a fund, cached or not, are the join over entries derived anew.
  lemma FundRowsAreTheJoin(s: State, ticker: Ticker, names: seq<Id>, now: nat)
    requires Coherent(s, names)
    ensures FundRowsState(s, ticker, names, now).1 == Join(EntriesIn(NewestFirst(RederiveAll(s, names))), ticker)
  {
    IndexIsRederived(s, names, now);
    IndexFromCache(s, names, now);
    IndexCoherent(s, names, now);
  }

  lemma FilesCoherent(s: State, names: seq<Id>, step: Step)
    requires Coherent(s, names) && Orderly(s, names, step)
    requires step.SaveStep? || step.RewriteStep? || step.DeleteStep? || step.DeleteDerivedStep?
    ensures Coherent(Next(s, names, step), names)
  {
  }

  lemma QueriesCoherent(s: State, names: seq<Id>, step: Step)
    requires Coherent(s, names)
    requires step.EnsureStep? || step.IndexStep? || step.FundRowsStep? || step.RestartStep?
    ensures Coherent(Next(s, names, step), names)
  {
    if step.EnsureStep? {
      EnsureHonest(s, step.id, step.now);
    } else if step.IndexStep? {
      IndexCoherent(s, names, step.now);
    } else if step.FundRowsStep? {
      IndexCoherent(s, names, step.now);
      IndexFromCache(s, names, step.now);
    }
  }

  lemma StepCoherent(s: State, names: seq<Id>, step: Step)
    requires Coherent(s, names) && Orderly(s, names, step)
    ensures Coherent(Next(s, names, step), names)
  {
    if step.SaveStep? || step.RewriteStep? || step.DeleteStep? || step.DeleteDerivedStep? {
      FilesCoherent(s, names, step);
    } else {
      QueriesCoherent(s, names, step);
    }
  }

  const Nothing := State(map[], map[], map[], 0, map[])

  // Any sequence of saves, rewrites, deletions, queries and restarts.
  ghost predicate IsLife(trace: seq<State>, steps: seq<Step>, names: seq<Id>) {
    && |trace| == |steps| + 1 && trace[0] == Nothing
    && forall k | 0 <= k < |steps| :: Orderly(trace[k], names, steps[k]) && trace[k + 1] == Next(trace[k], names, steps[k])
  }

  lemma {:induction false} LifeCoherent(trace: seq<State>, steps: seq<Step>, names: seq<Id>, k: nat)
    requires IsLife(trace, steps, names) && k < |trace|
    ensures Coherent(trace[k], names)
  {
    if k > 0 {
      LifeCoherent(trace, steps, names, k - 1);
      StepCoherent(trace[k - 1], names, steps[k - 1]);
    }
  }

  // At any moment of any life: the index is every archive derived anew, and a
  // fund's rows are their join.
  lemma CachesAreInvisible(trace: seq<State>, steps: seq<Step>, names: seq<Id>, k: nat, ticker: Ticker, now: nat)
    requires IsLife(trace, steps, names) && k < |trace|
    ensures IndexEntries(trace[k], names, now) == EntriesIn(NewestFirst(RederiveAll(trace[k], names)))
    ensures FundRowsState(trace[k], ticker, names, now).1
         == Join(EntriesIn(NewestFirst(RederiveAll(trace[k], names))), ticker)
  {
    LifeCoherent(trace, steps, names, k);
    IndexIsRederived(trace[k], names, now);
    FundRowsAreTheJoin(trace[k], ticker, names, now);
  }

  // The generation never goes back, and while it stands still so does the cache.
  ghost predicate Follows(s: State, t: State) {
    t.generation >= s.generation && (t.generation == s.generation ==> t.cache == s.cache)
  }

  lemma StepFollows(s: State, names: seq<Id>, step: Step)
    requires Coherent(s, names) && !step.RestartStep?
    ensures Follows(s, Next(s, names, step))
  {
    if step.EnsureStep? {
      EnsureHonest(s, step.id, step.now);
    } else if step.IndexStep? {
      IndexCoherent(s, names, step.now);
    } else if step.FundRowsStep? {
      IndexCoherent(s, names, step.now);
    }
  }

  lemma {:induction false} LifeFollows(trace: seq<State>, steps: seq<Step>, names: seq<Id>, i: nat, j: nat)
    requires IsLife(trace, steps, names) && i <= j < |trace| && forall k | i <= k < j :: !steps[k].RestartStep?
    ensures Follows(trace[i], trace[j])
    decreases j
  {
    if i < j {
      LifeFollows(trace, steps, names, i, j - 1);
      LifeCoherent(trace, steps, names, j - 1);
      StepFollows(trace[j - 1], names, steps[j - 1]);
    }
  }

  // A generation seen again means the same entries, so whatever was computed from
  // them under it still stands.
  lemma SameGenerationSameEntries(trace: seq<State>, steps: seq<Step>, names: seq<Id>, i: nat, j: nat, now: nat)
    requires IsLife(trace, steps, names) && i < |steps| && steps[i].IndexStep? && i < j < |trace|
    requires forall k | i <= k < j :: !steps[k].RestartStep?
    requires IndexState(trace[j], names, now).generation == trace[i + 1].generation
    ensures IndexEntries(trace[j], names, now) == IndexEntries(trace[i], names, steps[i].now)
  {
    LifeCoherent(trace, steps, names, i);
    LifeCoherent(trace, steps, names, j);
    LifeFollows(trace, steps, names, i + 1, j);
    IndexCoherent(trace[j], names, now);
    SameCacheSameEntries(trace[i], trace[j], names, steps[i].now, now);
  }

  lemma SameCacheSameEntries(s: State, t: State, names: seq<Id>, now: nat, later: nat)
    requires Coherent(s, names) && Coherent(t, names)
    requires IndexState(t, names, later).cache == IndexState(s, names, now).cache
    ensures IndexEntries(t, names, later) == IndexEntries(s, names, now)
  {
    IndexFromCache(s, names, now);
    IndexFromCache(t, names, later);
  }
}
