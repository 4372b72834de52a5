/**
 The module-level caches of server/history.py and server/history_query.py,
 updated in place; History.dfy says what each call comes to.
 */
module HistoryStore {
  import opened Seqs
  import opened History
  import opened HistoryRows

  class HistoryStore {
    // The directory in the order it is listed in.
    const names: seq<Id>
    var archives: map<Id, Archive>
    var derived: map<Id, Derived>
    var indexCache: map<Id, (nat, Entry)>
    var generation: nat
    var rowsCache: map<Ticker, (nat, seq<Joined>)>

    function View(): State
      reads this
    {
      State(archives, derived, indexCache, generation, rowsCache)
    }

    constructor (names: seq<Id>)
      ensures View() == Nothing && this.names == names && Coherent(View(), names)
    {
      this.names := names;
      archives, derived, indexCache, generation, rowsCache := map[], map[], map[], 0, map[];
    }

    method Save(id: Id, run: Run, now: nat, derivedAt: nat, reach: Reach)
      requires Coherent(View(), names) && Orderly(View(), names, SaveStep(id, run, now, derivedAt, reach))
      modifies this
      ensures View() == History.Save(old(View()), id, run, now, derivedAt, reach) && Coherent(View(), names)
    {
      StepCoherent(View(), names, SaveStep(id, run, now, derivedAt, reach));
      archives := archives[id := Archive(now, Some(run))];
      derived := derived[id := WriteDerived(DerivedOf(View(), id), Derive(id, run, now), derivedAt, reach)];
    }

    method EnsureDerived(id: Id, now: nat) returns (ok: bool)
      modifies this`derived
      ensures (View(), ok) == Ensure(old(View()), id, now)
      ensures ok <==> id in archives && (archives[id].run.Some? || old(Fresh(DerivedOf(View(), id), archives[id].mtime)))
      ensures old(Honest(View())) ==>
                Honest(View()) && (ok <==> id in archives && archives[id].run.Some?)
                && (ok ==> DerivedOf(View(), id).entry == Derive(id, archives[id].run.value, archives[id].mtime))
    {
      if Honest(View()) {
        EnsureHonest(View(), id, now);
      }
      if id !in archives {
        return false;
      }
      var mtime := archives[id].mtime;
      if Fresh(DerivedOf(View(), id), mtime) {
        return true;
      }
      var raw := archives[id].run;
      if raw == None {
        return false;
      }
      derived := derived[id := WriteDerived(DerivedOf(View(), id), Derive(id, raw.value, mtime), now, Both)];
      return true;
    }

    method ForgetGone()
      modifies this`indexCache, this`generation
      ensures View() == DropGone(old(View()))
    {
      var stale := indexCache.Keys - archives.Keys;
      indexCache := indexCache - stale;
      if stale != {} {
        generation := generation + 1;
      }
    }

    // The body of the loop over the listed archives.
    method IndexOne(id: Id, now: nat)
      modifies this`derived, this`indexCache, this`generation
      ensures View() == Visit(old(View()), id, now)
    {
      if id !in archives {
        return;
      }
      var mtime := archives[id].mtime;
      if id in indexCache && indexCache[id].0 == mtime {
        return;
      }
      var ok := EnsureDerived(id, now);
      if !ok {
        return;
      }
      indexCache := indexCache[id := (mtime, DerivedOf(View(), id).entry)];
      generation := generation + 1;
    }

    method IndexAll(now: nat)
      modifies this`derived, this`indexCache, this`generation
      ensures View() == VisitAll(old(View()), names, now)
    {
      for k := 0 to |names|
        invariant View() == VisitAll(old(View()), names[..k], now)
      {
        assert names[..k + 1][..k] == names[..k];
        IndexOne(names[k], now);
      }
      assert names[..|names|] == names;
    }

    method Collect() returns (out: seq<(nat, Entry)>)
      ensures out == ListAll(View(), names)
    {
      out := [];
      for k := 0 to |names|
        invariant out == ListAll(View(), names[..k])
      {
        assert names[..k + 1][..k] == names[..k];
        out := out + Listed(View(), names[k]);
      }
      assert names[..|names|] == names;
    }

    // Whatever was cached, what comes back is every archive derived anew.
    method IndexEntries(now: nat) returns (entries: seq<Entry>)
      requires Coherent(View(), names)
      modifies this
      ensures View() == IndexState(old(View()), names, now) && Coherent(View(), names)
      ensures entries == History.IndexEntries(old(View()), names, now)
      ensures entries == EntriesIn(NewestFirst(RederiveAll(old(View()), names)))
      ensures Indexes(old(View()), names, entries)
    {
      IndexSays(View(), names, now);
      StepCoherent(View(), names, IndexStep(now));
      IndexIsRederived(View(), names, now);
      ForgetGone();
      IndexAll(now);
      var out := Collect();
      entries := EntriesIn(NewestFirst(out));
    }

    static method JoinEntry(entry: Entry, ticker: Ticker) returns (out: seq<Joined>)
      requires entry.run.Some?
      ensures out == JoinRows(entry, entry.rows, ticker)
    {
      out := [];
      for k := 0 to |entry.rows|
        invariant out == JoinRows(entry, entry.rows[..k], ticker)
      {
        assert entry.rows[..k + 1][..k] == entry.rows[..k];
        if entry.rows[k].ticker == ticker {
          out := out + [Joined(entry.rows[k], entry.run.value, entry.id)];
        }
      }
      assert entry.rows[..|entry.rows|] == entry.rows;
    }

    static method JoinAll(entries: seq<Entry>, ticker: Ticker) returns (out: seq<Joined>)
      ensures out == Join(entries, ticker)
    {
      out := [];
      for k := 0 to |entries|
        invariant out == Join(entries[..k], ticker)
      {
        assert entries[..k + 1][..k] == entries[..k];
        if entries[k].run.Some? {
          var rows := JoinEntry(entries[k], ticker);
          out := out + rows;
        }
      }
      assert entries[..|entries|] == entries;
    }

    // From the cache or joined again: the same rows.
    method FundRows(ticker: Ticker, now: nat) returns (rows: seq<Joined>)
      requires Coherent(View(), names)
      modifies this
      ensures (View(), rows) == FundRowsState(old(View()), ticker, names, now) && Coherent(View(), names)
      ensures rows == Join(EntriesIn(NewestFirst(RederiveAll(old(View()), names))), ticker)
      ensures Serves(old(View()), names, ticker, rows)
    {
      FundRowsSay(View(), ticker, names, now);
      StepCoherent(View(), names, FundRowsStep(ticker, now));
      FundRowsAreTheJoin(View(), ticker, names, now);
      var entries := IndexEntries(now);
      if ticker in rowsCache && rowsCache[ticker].0 == generation {
        return rowsCache[ticker].1;
      }
      rows := JoinAll(entries, ticker);
      rowsCache := rowsCache[ticker := (generation, rows)];
    }
  }
}
