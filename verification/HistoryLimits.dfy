/**
 Where the history's caches do not keep up: an archive overwritten with something
 that cannot be read leaves the index, but not the rows already joined; and one
 rewritten under a clock that stood still is not noticed.
 */
module HistoryLimits {
  import opened Seqs
  import opened History

  // An archive overwritten with something that is not JSON leaves the index, but
  // neither the cache nor the generation: rows already joined are served on.
  lemma UnreadableArchiveLingers(id: Id, ticker: Ticker, meta: Meta, cell: Cell)
    ensures var run := Run(None, Some(Report(meta, [(ticker, [cell])])));
            var s := FundRowsState(Save(Nothing, id, run, 1, 1, Both), ticker, [id], 2).0;
            var t := Rewrite(s, id, Archive(3, None));
            IndexEntries(t, [id], 4) == [] && FundRowsState(t, ticker, [id], 4).1 != []
  {
    var run := Run(None, Some(Report(meta, [(ticker, [cell])])));
    var saved := Save(Nothing, id, run, 1, 1, Both);
    var entry := Derive(id, run, 1);
    assert ReportRows(run.report.value.funds) == FundRows(ticker, [cell]) + ReportRows([]);
    assert entry.rows == [IndexRow(ticker, cell, 0)];
    var indexed := IndexState(saved, [id], 2);
    VisitsOne(saved, id, 2);
    assert ListAll(indexed, [id]) == [(1, entry)];
    assert NewestFirst([(1, entry)]) == [(1, entry)];
    var rows := Join([entry], ticker);
    assert JoinRows(entry, entry.rows, ticker) == [Joined(IndexRow(ticker, cell, 0), entry.run.value, id)];
    var s := FundRowsState(saved, ticker, [id], 2).0;
    var t := Rewrite(s, id, Archive(3, None));
    VisitsOne(t, id, 4);
    assert ListAll(IndexState(t, [id], 4), [id]) == [];
  }

  lemma VisitsOne(s: State, id: Id, now: nat)
    ensures IndexState(s, [id], now) == Visit(DropGone(s), id, now)
    ensures ListAll(IndexState(s, [id], now), [id]) == Listed(IndexState(s, [id], now), id)
  {
    assert VisitAll(DropGone(s), [id], now) == Visit(VisitAll(DropGone(s), [], now), id, now);
    assert ListAll(IndexState(s, [id], now), [id]) == ListAll(IndexState(s, [id], now), []) + Listed(IndexState(s, [id], now), id);
  }

  // ---- exactly when ---------------------------------------------------------

  // What a listed run contributes to the rows of a fund.
  function Part(item: (nat, Entry), ticker: Ticker): seq<Joined> {
    if item.1.run.Some? then JoinRows(item.1, item.1.rows, ticker) else []
  }

  lemma PartHas(item: (nat, Entry), ticker: Ticker)
    ensures Part(item, ticker) != [] <==>
              item.1.run.Some? && exists k :: 0 <= k < |item.1.rows| && item.1.rows[k].ticker == ticker
  {
    if item.1.run.Some? {
      if Part(item, ticker) != [] {
        var j := Part(item, ticker)[0];
        JoinRowsExactly(item.1, item.1.rows, ticker, j);
        var k :| 0 <= k < |item.1.rows| && item.1.rows[k] == j.row;
      }
      forall k | 0 <= k < |item.1.rows| && item.1.rows[k].ticker == ticker ensures Part(item, ticker) != [] {
        JoinRowsExactly(item.1, item.1.rows, ticker, Joined(item.1.rows[k], item.1.run.value, item.1.id));
      }
    }
  }

  // The runs that contribute something.
  function Relevant(items: seq<(nat, Entry)>, ticker: Ticker): seq<(nat, Entry)> {
    if items == [] then []
    else
      var last := items[|items| - 1];
      Relevant(items[..|items| - 1], ticker) + if Part(last, ticker) != [] then [last] else []
  }

  lemma RelevantMore(items: seq<(nat, Entry)>, item: (nat, Entry), ticker: Ticker)
    ensures Relevant(items + [item], ticker)
         == if Part(item, ticker) != [] then Relevant(items, ticker) + [item] else Relevant(items, ticker)
  {
    assert (items + [item])[..|items|] == items;
  }

  lemma {:induction false} RelevantSince(items: seq<(nat, Entry)>, ticker: Ticker, mtime: nat)
    requires AllSince(items, mtime)
    ensures AllSince(Relevant(items, ticker), mtime)
  {
    if items != [] {
      RelevantSince(items[..|items| - 1], ticker, mtime);
    }
  }

  // Only they make rows.
  lemma {:induction false} JoinRelevant(items: seq<(nat, Entry)>, ticker: Ticker)
    ensures Join(EntriesIn(items), ticker) == Join(EntriesIn(Relevant(items, ticker)), ticker)
  {
    if items != [] {
      var front, last := items[..|items| - 1], items[|items| - 1];
      assert items == front + [last];
      JoinRelevant(front, ticker);
      JoinMore(front, last, ticker);
      RelevantMore(front, last, ticker);
      JoinMore(Relevant(front, ticker), last, ticker);
    }
  }

  lemma JoinMore(items: seq<(nat, Entry)>, item: (nat, Entry), ticker: Ticker)
    ensures Join(EntriesIn(items + [item]), ticker) == Join(EntriesIn(items), ticker) + Part(item, ticker)
  {
    var all := EntriesIn(items + [item]);
    assert all[..|all| - 1] == EntriesIn(items);
  }

  lemma InsertLast(items: seq<(nat, Entry)>, item: (nat, Entry))
    requires AllSince(items, item.0)
    ensures InsertNewest(items, item) == items + [item]
  {
  }

  lemma {:induction false} RelevantInsert(sorted: seq<(nat, Entry)>, item: (nat, Entry), ticker: Ticker)
    requires NewestLead(sorted)
    ensures Relevant(InsertNewest(sorted, item), ticker)
         == if Part(item, ticker) != [] then InsertNewest(Relevant(sorted, ticker), item) else Relevant(sorted, ticker)
  {
    if sorted == [] || sorted[|sorted| - 1].0 >= item.0 {
      assert AllSince(sorted, item.0);
      InsertLast(sorted, item);
      RelevantMore(sorted, item, ticker);
      RelevantSince(sorted, ticker, item.0);
      InsertLast(Relevant(sorted, ticker), item);
    } else {
      var front, last := sorted[..|sorted| - 1], sorted[|sorted| - 1];
      assert sorted == front + [last];
      RelevantInsert(front, item, ticker);
      RelevantUnder(front, last, item, ticker);
    }
  }

  lemma RelevantUnder(front: seq<(nat, Entry)>, last: (nat, Entry), item: (nat, Entry), ticker: Ticker)
    requires last.0 < item.0
    requires Relevant(InsertNewest(front, item), ticker)
          == if Part(item, ticker) != [] then InsertNewest(Relevant(front, ticker), item) else Relevant(front, ticker)
    ensures var sorted := front + [last];
            Relevant(InsertNewest(sorted, item), ticker)
            == if Part(item, ticker) != [] then InsertNewest(Relevant(sorted, ticker), item) else Relevant(sorted, ticker)
  {
    InsertUnder(front, last, item);
    RelevantMore(front, last, ticker);
    RelevantMore(InsertNewest(front, item), last, ticker);
    InsertUnder(Relevant(front, ticker), last, item);
  }

  lemma InsertUnder(items: seq<(nat, Entry)>, last: (nat, Entry), item: (nat, Entry))
    requires last.0 < item.0
    ensures InsertNewest(items + [last], item) == InsertNewest(items, item) + [last]
  {
    assert (items + [last])[..|items|] == items;
  }

  // Sorting and leaving out the others can be done in either order.
  lemma {:induction false} RelevantSorted(items: seq<(nat, Entry)>, ticker: Ticker)
    ensures Relevant(NewestFirst(items), ticker) == NewestFirst(Relevant(items, ticker))
  {
    if items != [] {
      var front, last := items[..|items| - 1], items[|items| - 1];
      assert items == front + [last];
      RelevantSorted(front, ticker);
      NewestFirstSorts(front, 0);
      RelevantInsert(NewestFirst(front), last, ticker);
      RelevantMore(front, last, ticker);
      NewestFirstMore(Relevant(front, ticker), last);
    }
  }

  lemma NewestFirstMore(items: seq<(nat, Entry)>, last: (nat, Entry))
    ensures NewestFirst(items + [last]) == InsertNewest(NewestFirst(items), last)
  {
    assert (items + [last])[..|items|] == items;
  }

  function Weight(items: seq<(nat, Entry)>, ticker: Ticker): nat {
    if items == [] then 0 else Weight(items[..|items| - 1], ticker) + |Part(items[|items| - 1], ticker)|
  }

  lemma WeightMore(items: seq<(nat, Entry)>, item: (nat, Entry), ticker: Ticker)
    ensures Weight(items + [item], ticker) == Weight(items, ticker) + |Part(item, ticker)|
  {
    assert (items + [item])[..|items|] == items;
  }

  lemma {:induction false} WeightInsert(sorted: seq<(nat, Entry)>, item: (nat, Entry), ticker: Ticker)
    ensures Weight(InsertNewest(sorted, item), ticker) == Weight(sorted, ticker) + |Part(item, ticker)|
  {
    if sorted == [] || sorted[|sorted| - 1].0 >= item.0 {
      WeightMore(sorted, item, ticker);
    } else {
      var front, last := sorted[..|sorted| - 1], sorted[|sorted| - 1];
      WeightInsert(front, item, ticker);
      WeightMore(InsertNewest(front, item), last, ticker);
    }
  }

  lemma {:induction false} WeightSorted(items: seq<(nat, Entry)>, ticker: Ticker)
    ensures Weight(NewestFirst(items), ticker) == Weight(items, ticker)
  {
    if items != [] {
      WeightSorted(items[..|items| - 1], ticker);
      WeightInsert(NewestFirst(items[..|items| - 1]), items[|items| - 1], ticker);
    }
  }

  lemma {:induction false} WeightIsLength(items: seq<(nat, Entry)>, ticker: Ticker)
    ensures |Join(EntriesIn(items), ticker)| == Weight(items, ticker)
  {
    if items != [] {
      var front, last := items[..|items| - 1], items[|items| - 1];
      WeightIsLength(front, ticker);
      JoinMore(front, last, ticker);
      assert items == front + [last];
    }
  }

  // The entry that is still cached of an archive that cannot be read has rows of
  // the fund.
  ghost predicate Lingers(s: State, id: Id, ticker: Ticker) {
    id in s.cache && s.cache[id].1.run.Some?
    && exists k :: 0 <= k < |s.cache[id].1.rows| && s.cache[id].1.rows[k].ticker == ticker
  }

  // A state in which everything but one archive has been visited.
  ghost predicate AllBut(u: State, id: Id, names: seq<Id>) {
    && id in u.archives && (id in u.cache ==> u.cache[id].0 != u.archives[id].mtime) && u.cache.Keys <= u.archives.Keys
    && (forall x | x in names && x != id && x in u.archives :: u.archives[x].run.Some?)
    && forall x | x in names :: Visited(u, x)
  }

  // What comes of what is kept and of what is listed, if one more is kept.
  ghost predicate KeptMore(kept: seq<(nat, Entry)>, listed: seq<(nat, Entry)>, more: bool, ticker: Ticker) {
    if more then Weight(kept, ticker) > Weight(listed, ticker)
    else Relevant(kept, ticker) == Relevant(listed, ticker) && Weight(kept, ticker) == Weight(listed, ticker)
  }

  lemma BothMore(kept: seq<(nat, Entry)>, listed: seq<(nat, Entry)>, more: bool, ticker: Ticker, item: (nat, Entry))
    requires KeptMore(kept, listed, more, ticker)
    ensures KeptMore(kept + [item], listed + [item], more, ticker)
  {
    RelevantMore(kept, item, ticker);
    RelevantMore(listed, item, ticker);
    WeightMore(kept, item, ticker);
    WeightMore(listed, item, ticker);
  }

  lemma OneMore(kept: seq<(nat, Entry)>, listed: seq<(nat, Entry)>, more: bool, ticker: Ticker, item: (nat, Entry))
    requires KeptMore(kept, listed, more, ticker)
    ensures KeptMore(kept + [item], listed, more || Part(item, ticker) != [], ticker)
  {
    RelevantMore(kept, item, ticker);
    WeightMore(kept, item, ticker);
  }

  lemma AllButFront(u: State, id: Id, front: seq<Id>, x: Id)
    requires AllBut(u, id, front + [x])
    ensures AllBut(u, id, front)
  {
    assert forall y | y in front :: y in front + [x];
  }

  lemma {:induction false} ListedBut(u: State, id: Id, names: seq<Id>, ticker: Ticker)
    requires AllBut(u, id, names)
    ensures KeptMore(FromCache(u.cache, names), ListAll(u, names),
                     id in names && id in u.cache && Part(u.cache[id], ticker) != [], ticker)
    decreases |names|
  {
    if names != [] {
      var front, x := names[..|names| - 1], names[|names| - 1];
      assert names == front + [x];
      AllButFront(u, id, front, x);
      ListedBut(u, id, front, ticker);
      ListedMore(u, id, front, x);
      var kept, listed := FromCache(u.cache, front), ListAll(u, front);
      var more := id in front && id in u.cache && Part(u.cache[id], ticker) != [];
      if x in u.cache && u.cache[x].1.run.Some? {
        if x == id {
          OneMore(kept, listed, more, ticker, u.cache[x]);
        } else {
          BothMore(kept, listed, more, ticker, u.cache[x]);
        }
      }
    }
  }

  lemma ListedMore(u: State, id: Id, front: seq<Id>, x: Id)
    requires AllBut(u, id, front + [x])
    ensures var before, after := FromCache(u.cache, front), ListAll(u, front);
            var cached := x in u.cache && u.cache[x].1.run.Some?;
            && FromCache(u.cache, front + [x]) == (if cached then before + [u.cache[x]] else before)
            && ListAll(u, front + [x]) == (if cached && x != id then after + [u.cache[x]] else after)
  {
    assert (front + [x])[..|front|] == front;
    assert x in front + [x] && Visited(u, x);
  }

  lemma IndexedBut(s: State, id: Id, mtime: nat, names: seq<Id>, now: nat)
    requires Coherent(s, names) && Later(s, id, mtime)
    ensures var t := Rewrite(s, id, Archive(mtime, None));
            Honest(t) && CacheHonest(t) && Steady(t, IndexState(t, names, now))
    ensures var u := IndexState(Rewrite(s, id, Archive(mtime, None)), names, now);
            u.generation == s.generation ==> AllBut(u, id, names)
  {
    var t := Rewrite(s, id, Archive(mtime, None));
    IndexCoherent(t, names, now);
    DropGoneCoherent(t);
    VisitAllKeepsKeys(DropGone(t), names, now);
  }

  // After an archive was overwritten with something that cannot be read, the
  // index is that of the others; the rows of a fund are still their join if and
  // only if they are not served from the cache under the present generation, or
  // the entry left over has none of that fund's.
  lemma LingersIff(s: State, id: Id, mtime: nat, names: seq<Id>, ticker: Ticker, now: nat)
    requires Coherent(s, names) && Later(s, id, mtime) && id in names
    ensures var t := Rewrite(s, id, Archive(mtime, None));
            var index, generation := IndexEntries(t, names, now), IndexState(t, names, now).generation;
            && index == EntriesIn(NewestFirst(RederiveAll(t, names)))
            && (FundRowsState(t, ticker, names, now).1 == Join(index, ticker)
                <==> !(ticker in s.rowsCache && s.rowsCache[ticker].0 == generation) || !Lingers(s, id, ticker))
  {
    var t := Rewrite(s, id, Archive(mtime, None));
    var u := IndexState(t, names, now);
    IndexedBut(s, id, mtime, names, now);
    IndexIsRederived(t, names, now);
    if ticker in s.rowsCache && s.rowsCache[ticker].0 == u.generation {
      assert u.generation == s.generation && u.cache == s.cache;
      var kept, listed := FromCache(s.cache, names), ListAll(u, names);
      ListedBut(u, id, names, ticker);
      if id in u.cache {
        PartHas(u.cache[id], ticker);
      }
      ServedIff(kept, listed, ticker);
    }
  }

  // Joined newest first, two lists come to the same if what contributes is the
  // same, and only if it weighs the same.
  lemma ServedIff(kept: seq<(nat, Entry)>, listed: seq<(nat, Entry)>, ticker: Ticker)
    ensures var a, b := Join(EntriesIn(NewestFirst(kept)), ticker), Join(EntriesIn(NewestFirst(listed)), ticker);
            && (Relevant(kept, ticker) == Relevant(listed, ticker) ==> a == b)
            && (a == b ==> Weight(kept, ticker) == Weight(listed, ticker))
  {
    JoinRelevant(NewestFirst(kept), ticker);
    JoinRelevant(NewestFirst(listed), ticker);
    RelevantSorted(kept, ticker);
    RelevantSorted(listed, ticker);
    WeightIsLength(NewestFirst(kept), ticker);
    WeightIsLength(NewestFirst(listed), ticker);
    WeightSorted(kept, ticker);
    WeightSorted(listed, ticker);
  }

  // ---- a rewrite in place -----------------------------------------------------

  // What visiting an archive leaves in the cache, honest or not.
  function Entered(s: State, id: Id): Entry
    requires id in s.archives && s.archives[id].run.Some?
  {
    var a := s.archives[id];
    if id in s.cache && s.cache[id].0 == a.mtime then s.cache[id].1
    else if Fresh(DerivedOf(s, id), a.mtime) then DerivedOf(s, id).entry
    else Derive(id, a.run.value, a.mtime)
  }

  // Visiting some archives, or none, changes no entry that is still to be made.
  ghost predicate SameEntered(s: State, t: State) {
    && t.archives == s.archives
    && forall id | id in s.archives && s.archives[id].run.Some? :: Entered(t, id) == Entered(s, id)
  }

  ghost predicate HasEntered(s: State, id: Id) {
    id in s.archives && s.archives[id].run.Some? ==> id in s.cache && s.cache[id] == (s.archives[id].mtime, Entered(s, id))
  }

  lemma VisitEnters(s: State, id: Id, now: nat)
    requires AllReadable(s)
    ensures SameEntered(s, Visit(s, id, now)) && HasEntered(Visit(s, id, now), id)
    ensures forall x | HasEntered(s, x) :: HasEntered(Visit(s, id, now), x)
  {
  }

  lemma {:induction false} VisitAllEnters(s: State, names: seq<Id>, now: nat)
    requires AllReadable(s)
    ensures SameEntered(s, VisitAll(s, names, now)) && forall id | id in names :: HasEntered(VisitAll(s, names, now), id)
    decreases |names|
  {
    if names != [] {
      var front, last := names[..|names| - 1], names[|names| - 1];
      VisitAllEnters(s, front, now);
      VisitEnters(VisitAll(s, front, now), last, now);
      assert names == front + [last];
    }
  }

  // The item an archive is listed as, if its entry has a report.
  function Item(mtime: nat, entry: Entry): seq<(nat, Entry)> {
    if entry.run.Some? then [(mtime, entry)] else []
  }

  predicate SaysTheSame(entry: Entry, anew: Entry) {
    entry == anew || (entry.run.None? && anew.run.None?)
  }

  // Two listings that differ at most in one archive, listed so many times.
  ghost predicate ListedAs(listed: seq<(nat, Entry)>, rederived: seq<(nat, Entry)>, times: nat, entry: Entry, anew: Entry) {
    && (SaysTheSame(entry, anew) ==> listed == rederived)
    && forall e :: multiset(EntriesIn(listed))[e] + (if anew.run.Some? && e == anew then times else 0)
                == multiset(EntriesIn(rederived))[e] + (if entry.run.Some? && e == entry then times else 0)
  }

  lemma EntriesMore(items: seq<(nat, Entry)>, more: seq<(nat, Entry)>)
    ensures EntriesIn(items + more) == EntriesIn(items) + EntriesIn(more)
  {
  }

  lemma ListedAsMore(listed: seq<(nat, Entry)>, rederived: seq<(nat, Entry)>, times: nat, entry: Entry, anew: Entry, more: seq<(nat, Entry)>)
    requires ListedAs(listed, rederived, times, entry, anew)
    ensures ListedAs(listed + more, rederived + more, times, entry, anew)
  {
    EntriesMore(listed, more);
    EntriesMore(rederived, more);
  }

  lemma EntriesOfItem(items: seq<(nat, Entry)>, mtime: nat, entry: Entry, e: Entry)
    ensures multiset(EntriesIn(items + Item(mtime, entry)))[e]
         == multiset(EntriesIn(items))[e] + if entry.run.Some? && e == entry then 1 else 0
  {
    EntriesMore(items, Item(mtime, entry));
    assert EntriesIn(Item(mtime, entry)) == if entry.run.Some? then [entry] else [];
  }

  lemma ListedAsOnce(listed: seq<(nat, Entry)>, rederived: seq<(nat, Entry)>, times: nat, entry: Entry, anew: Entry, mtime: nat)
    requires ListedAs(listed, rederived, times, entry, anew)
    ensures ListedAs(listed + Item(mtime, entry), rederived + Item(mtime, anew), times + 1, entry, anew)
  {
    var more, anewMore := listed + Item(mtime, entry), rederived + Item(mtime, anew);
    forall e
      ensures multiset(EntriesIn(more))[e] + (if anew.run.Some? && e == anew then times + 1 else 0)
           == multiset(EntriesIn(anewMore))[e] + (if entry.run.Some? && e == entry then times + 1 else 0) {
      EntriesOfItem(listed, mtime, entry, e);
      EntriesOfItem(rederived, mtime, anew, e);
      assert multiset(EntriesIn(listed))[e] + (if anew.run.Some? && e == anew then times else 0)
          == multiset(EntriesIn(rederived))[e] + (if entry.run.Some? && e == entry then times else 0);
    }
  }

  lemma ListedItem(s: State, t: State, id: Id)
    requires AllReadable(s) && t.archives == s.archives && HasEntered(t, id)
    ensures Listed(t, id) == if id in s.archives then Item(s.archives[id].mtime, Entered(t, id)) else []
    ensures Rederived(s, id)
         == if id in s.archives then Item(s.archives[id].mtime, Derive(id, s.archives[id].run.value, s.archives[id].mtime)) else []
  {
  }

  lemma {:induction false} ListedAsEntered(s: State, t: State, names: seq<Id>, id: Id, entry: Entry, anew: Entry)
    requires AllReadable(s) && t.archives == s.archives && forall x | x in names :: HasEntered(t, x)
    requires id in s.archives && entry == Entered(t, id) && anew == Derive(id, s.archives[id].run.value, s.archives[id].mtime)
    requires forall x | x in s.archives && x != id :: Entered(t, x) == Derive(x, s.archives[x].run.value, s.archives[x].mtime)
    ensures ListedAs(ListAll(t, names), RederiveAll(s, names), multiset(names)[id], entry, anew)
    decreases |names|
  {
    if names != [] {
      var front, x := names[..|names| - 1], names[|names| - 1];
      assert names == front + [x];
      ListedAsEntered(s, t, front, id, entry, anew);
      ListedItem(s, t, x);
      if x == id {
        ListedAsOnce(ListAll(t, front), RederiveAll(s, front), multiset(front)[id], entry, anew, s.archives[id].mtime);
      } else {
        ListedAsMore(ListAll(t, front), RederiveAll(s, front), multiset(front)[id], entry, anew, Listed(t, x));
      }
    }
  }

  lemma {:induction false} InsertNewestEntries(sorted: seq<(nat, Entry)>, item: (nat, Entry))
    ensures multiset(EntriesIn(InsertNewest(sorted, item))) == multiset(EntriesIn(sorted)) + multiset{item.1}
  {
    if sorted == [] || sorted[|sorted| - 1].0 >= item.0 {
      EntriesMore(sorted, [item]);
    } else {
      var front, last := sorted[..|sorted| - 1], sorted[|sorted| - 1];
      assert sorted == front + [last];
      InsertNewestEntries(front, item);
      EntriesMore(InsertNewest(front, item), [last]);
      EntriesMore(front, [last]);
    }
  }

  lemma {:induction false} NewestFirstEntries(items: seq<(nat, Entry)>)
    ensures multiset(EntriesIn(NewestFirst(items))) == multiset(EntriesIn(items))
  {
    if items != [] {
      var front, last := items[..|items| - 1], items[|items| - 1];
      assert items == front + [last];
      NewestFirstEntries(front);
      InsertNewestEntries(NewestFirst(front), last);
      EntriesMore(front, [last]);
    }
  }

  lemma SeenIff(listed: seq<(nat, Entry)>, rederived: seq<(nat, Entry)>, times: nat, entry: Entry, anew: Entry)
    requires times > 0 && ListedAs(listed, rederived, times, entry, anew)
    ensures EntriesIn(NewestFirst(listed)) == EntriesIn(NewestFirst(rederived)) <==> SaysTheSame(entry, anew)
  {
    NewestFirstEntries(listed);
    NewestFirstEntries(rederived);
    if !SaysTheSame(entry, anew) {
      var e := if anew.run.Some? then anew else entry;
      assert multiset(EntriesIn(listed))[e] != multiset(EntriesIn(rederived))[e];
    }
  }

  // A rewrite at any clock whatever: the index is what re-deriving every archive
  // gives if and only if the entry already there for that mtime -- in the cache,
  // or else in derived files that pass for fresh -- says the same, or neither it
  // nor the new archive has a report.
  lemma RewriteSeenIff(s: State, names: seq<Id>, id: Id, run: Run, mtime: nat, now: nat)
    requires Coherent(s, names) && id in names
    ensures var t := Rewrite(s, id, Archive(mtime, Some(run)));
            IndexEntries(t, names, now) == EntriesIn(NewestFirst(RederiveAll(t, names)))
            <==> SaysTheSame(Entered(t, id), Derive(id, run, mtime))
  {
    var t := Rewrite(s, id, Archive(mtime, Some(run)));
    var u := IndexState(t, names, now);
    VisitAllEnters(DropGone(t), names, now);
    assert SameEntered(t, DropGone(t));
    ListedAsEntered(t, u, names, id, Entered(t, id), Derive(id, run, mtime));
    SeenIff(ListAll(u, names), RederiveAll(t, names), multiset(names)[id], Entered(t, id), Derive(id, run, mtime));
  }
}
