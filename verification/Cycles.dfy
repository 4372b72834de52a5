/**
 The trade log's cycles and pages (FundFills.cycles, _cycle_row and query in
 server/fills.py): the vectorised way, and what it comes to.
 */
module Cycles {
  import opened Seqs
  import opened Fills

  // ---- what a cycle is ----------------------------------------------------

  // Of the selected fills: those of one side, those of one lot.
  function OnSide(c: Columns, selected: seq<nat>, which: Side): seq<nat>
    requires Aligned(c)
  {
    if selected == [] then []
    else
      var k := selected[|selected| - 1];
      OnSide(c, selected[..|selected| - 1], which) + if k < |c.side| && c.side[k] == which then [k] else []
  }

  function OfLot(c: Columns, selected: seq<nat>, lot: nat): seq<nat>
    requires Aligned(c)
  {
    if selected == [] then []
    else
      var k := selected[|selected| - 1];
      OfLot(c, selected[..|selected| - 1], lot) + if k < |c.lotId| && c.lotId[k] == lot then [k] else []
  }

  function Sells(c: Columns, selected: seq<nat>, lot: nat): seq<nat>
    requires Aligned(c)
  {
    OfLot(c, OnSide(c, selected, Sell), lot)
  }

  // The first buy of a lot opens its cycle, later ones are ignored.
  function Opening(c: Columns, selected: seq<nat>, seen: set<nat>): seq<nat>
    requires Aligned(c)
  {
    if selected == [] then []
    else
      var k := selected[0];
      if k < |c.side| && c.side[k].Buy? && c.lotId[k] !in seen
      then [k] + Opening(c, selected[1..], seen + {c.lotId[k]})
      else Opening(c, selected[1..], seen)
  }

  function PnlSum(c: Columns, positions: seq<nat>): real
    requires Aligned(c)
  {
    if positions == [] then 0.0
    else
      var k := positions[|positions| - 1];
      PnlSum(c, positions[..|positions| - 1]) + if k < |c.pnl| && c.pnl[k].Some? then c.pnl[k].value else 0.0
  }

  predicate AnyPnl(c: Columns, positions: seq<nat>)
    requires Aligned(c)
  {
    exists i | 0 <= i < |positions| :: positions[i] < |c.pnl| && c.pnl[positions[i]].Some?
  }

  datatype Row = Row(lot: Text, buy: Fill, sells: seq<Fill>, realized: Option<real>, open: bool)

  function DecodeAll(c: Columns, positions: seq<nat>): seq<Fill>
    requires Aligned(c) && forall i | 0 <= i < |positions| :: positions[i] < |c.side|
  {
    seq(|positions|, i requires 0 <= i < |positions| => Decode(c, positions[i]))
  }

  lemma {:induction false} OnSideHas(c: Columns, selected: seq<nat>, which: Side)
    requires Aligned(c)
    ensures forall k: nat :: Has(OnSide(c, selected, which), k) <==> Has(selected, k) && k < |c.side| && c.side[k] == which
  {
    if selected != [] {
      var front, last := selected[..|selected| - 1], selected[|selected| - 1];
      OnSideHas(c, front, which);
      HasSnoc(front, last);
      HasSnoc(OnSide(c, front, which), last);
      assert selected == front + [last];
      var before, after := OnSide(c, front, which), OnSide(c, selected, which);
      assert after == if last < |c.side| && c.side[last] == which then before + [last] else before;
      forall k: nat ensures Has(after, k) <==> Has(selected, k) && k < |c.side| && c.side[k] == which {
        assert Has(selected, k) <==> Has(front, k) || k == last;
      }
    }
  }

  lemma SnocAscending(s: seq<nat>, x: nat, n: nat)
    requires Ascending(s, n) && x < n && forall k: nat | Has(s, k) :: k < x
    ensures Ascending(s + [x], n)
  {
    forall i | 0 <= i < |s| ensures s[i] < x {
      assert Has(s, s[i]);
    }
  }

  lemma {:induction false} OnSideAscending(c: Columns, selected: seq<nat>, which: Side)
    requires Aligned(c) && Ascending(selected, |c.side|)
    ensures Ascending(OnSide(c, selected, which), |c.side|)
  {
    if selected != [] {
      var front, last := selected[..|selected| - 1], selected[|selected| - 1];
      NotInFront(selected, |c.side|);
      OnSideAscending(c, front, which);
      OnSideHas(c, front, which);
      forall k: nat | Has(OnSide(c, front, which), k) ensures k < last {
        var j :| 0 <= j < |front| && front[j] == k;
        assert selected[j] < selected[|selected| - 1];
      }
      if c.side[last] == which {
        SnocAscending(OnSide(c, front, which), last, |c.side|);
      }
    }
  }

  lemma HasSnoc(s: seq<nat>, x: nat)
    ensures forall k: nat :: Has(s + [x], k) <==> Has(s, k) || k == x
  {
    forall k: nat ensures Has(s + [x], k) <==> Has(s, k) || k == x {
      if Has(s, k) {
        var i :| 0 <= i < |s| && s[i] == k;
        assert (s + [x])[i] == k;
      }
      if k == x {
        assert (s + [x])[|s|] == k;
      }
      if Has(s + [x], k) && k != x {
        var i :| 0 <= i < |s + [x]| && (s + [x])[i] == k;
        assert s[i] == k;
      }
    }
  }

  // Two strictly ascending sequences of the same numbers are the same.
  lemma {:induction false} SameNumbers(a: seq<nat>, b: seq<nat>, n: nat)
    requires Ascending(a, n) && Ascending(b, n) && forall k: nat :: Has(a, k) <==> Has(b, k)
    ensures a == b
    decreases |a|
  {
    if a == [] {
      if b != [] {
        assert Has(b, b[0]);
      }
    } else {
      var x := a[|a| - 1];
      assert Has(a, x);
      assert b != [];
      var y := b[|b| - 1];
      assert Has(b, y);
      TopIsMost(a, n, y);
      TopIsMost(b, n, x);
      var frontA, frontB := a[..|a| - 1], b[..|b| - 1];
      assert a == frontA + [x] && b == frontB + [y];
      HasSnoc(frontA, x);
      HasSnoc(frontB, y);
      NotInFront(a, n);
      NotInFront(b, n);
      SameNumbers(frontA, frontB, n);
    }
  }

  lemma TopIsMost(s: seq<nat>, n: nat, k: nat)
    requires Ascending(s, n) && Has(s, k)
    ensures k <= s[|s| - 1]
  {
    var i :| 0 <= i < |s| && s[i] == k;
  }

  lemma NotInFront(s: seq<nat>, n: nat)
    requires Ascending(s, n) && s != []
    ensures !Has(s[..|s| - 1], s[|s| - 1]) && Ascending(s[..|s| - 1], n)
  {
    var front := s[..|s| - 1];
    forall i | 0 <= i < |front| ensures front[i] != s[|s| - 1] {
      assert s[i] < s[|s| - 1];
    }
  }

  // ---- unique first, sorted -----------------------------------------------

  function LotsAt(c: Columns, positions: seq<nat>): seq<nat>
    requires Aligned(c) && forall i | 0 <= i < |positions| :: positions[i] < |c.lotId|
  {
    seq(|positions|, i requires 0 <= i < |positions| => c.lotId[positions[i]])
  }

  function FirstAt(ids: seq<nat>, id: nat): nat {
    if ids == [] || ids[0] == id then 0 else 1 + FirstAt(ids[1..], id)
  }

  lemma {:induction false} FirstAtFirst(ids: seq<nat>, id: nat)
    ensures FirstAt(ids, id) <= |ids|
    ensures forall i | 0 <= i < FirstAt(ids, id) :: ids[i] != id
    ensures FirstAt(ids, id) < |ids| ==> ids[FirstAt(ids, id)] == id
  {
    if ids != [] && ids[0] != id {
      FirstAtFirst(ids[1..], id);
      forall i | 0 <= i < FirstAt(ids, id) ensures ids[i] != id {
        if i > 0 {
          assert ids[i] == ids[1..][i - 1];
        }
      }
    }
  }

  // np.unique(ids, return_index=True)[1]: the distinct ids ascending, where each
  // occurs first; already indexed into `buys`.
  function FirstBuys(ids: seq<nat>, buys: seq<nat>, size: nat): seq<nat>
    requires |ids| == |buys|
  {
    if size == 0 then []
    else
      var at := FirstAt(ids, size - 1);
      FirstBuys(ids, buys, size - 1) + if at < |ids| then [buys[at]] else []
  }

  // np.sort
  function Insert(s: seq<nat>, x: nat): seq<nat> {
    if s == [] || s[|s| - 1] <= x then s + [x] else Insert(s[..|s| - 1], x) + [s[|s| - 1]]
  }

  function Sort(s: seq<nat>): seq<nat> {
    if s == [] then [] else Insert(Sort(s[..|s| - 1]), s[|s| - 1])
  }

  lemma AscendingSnoc(s: seq<nat>, x: nat, n: nat)
    requires Ascending(s, n) && x < n && forall k: nat | Has(s, k) :: k < x
    ensures Ascending(s + [x], n)
  {
    forall i | 0 <= i < |s| ensures s[i] < x {
      assert Has(s, s[i]);
    }
  }

  lemma BelowTop(front: seq<nat>, top: nat, n: nat)
    requires Ascending(front + [top], n)
    ensures Ascending(front, n) && top < n && forall k: nat | Has(front, k) :: k < top
  {
    var s := front + [top];
    forall i | 0 <= i < |front| ensures front[i] == s[i] && s[i] < s[|front|] {
    }
  }

  lemma {:induction false} InsertFacts(s: seq<nat>, x: nat, n: nat)
    requires Ascending(s, n) && x < n && !Has(s, x)
    ensures Ascending(Insert(s, x), n)
    ensures forall k: nat :: Has(Insert(s, x), k) <==> Has(s, k) || k == x
  {
    if s == [] || s[|s| - 1] <= x {
      HasSnoc(s, x);
      if s != [] {
        assert Has(s, s[|s| - 1]);
      }
      AscendingSnoc(s, x, n);
    } else {
      var front, top := s[..|s| - 1], s[|s| - 1];
      assert s == front + [top];
      BelowTop(front, top, n);
      HasSnoc(front, top);
      InsertFacts(front, x, n);
      HasSnoc(Insert(front, x), top);
      AscendingSnoc(Insert(front, x), top, n);
    }
  }

  ghost predicate Distinct(s: seq<nat>, n: nat) {
    (forall i | 0 <= i < |s| :: s[i] < n) && forall i, j | 0 <= i < j < |s| :: s[i] != s[j]
  }

  lemma {:induction false} SortFacts(s: seq<nat>, n: nat)
    requires Distinct(s, n)
    ensures Ascending(Sort(s), n)
    ensures forall k: nat :: Has(Sort(s), k) <==> Has(s, k)
  {
    if s != [] {
      var front, last := s[..|s| - 1], s[|s| - 1];
      assert s == front + [last];
      SortFacts(front, n);
      HasSnoc(front, last);
      InsertFacts(Sort(front), last, n);
    }
  }

  // The first selected buy of its lot.
  ghost predicate Opens(c: Columns, selected: seq<nat>, k: nat)
    requires Aligned(c)
  {
    Has(selected, k) && k < |c.side| && c.side[k].Buy?
    && forall j: nat | Has(selected, j) && j < k :: !(c.side[j].Buy? && c.lotId[j] == c.lotId[k])
  }

  ghost predicate FirstOfItsId(ids: seq<nat>, i: nat, size: nat) {
    i < |ids| && ids[i] < size && i == FirstAt(ids, ids[i])
  }

  // Exactly the buys that are the first of their lot.
  lemma {:induction false} FirstBuysFacts(ids: seq<nat>, buys: seq<nat>, size: nat)
    requires |ids| == |buys|
    ensures forall k: nat :: Has(FirstBuys(ids, buys, size), k)
              <==> exists i: nat :: FirstOfItsId(ids, i, size) && buys[i] == k
  {
    if size > 0 {
      FirstBuysFacts(ids, buys, size - 1);
      var at := FirstAt(ids, size - 1);
      FirstAtFirst(ids, size - 1);
      var before, after := FirstBuys(ids, buys, size - 1), FirstBuys(ids, buys, size);
      if at < |ids| {
        HasSnoc(before, buys[at]);
      }
      assert after == if at < |ids| then before + [buys[at]] else before;
      assert forall i: nat :: FirstOfItsId(ids, i, size) <==> FirstOfItsId(ids, i, size - 1) || (i == at && at < |ids|);
    }
  }

  // ---- the buys that open cycles ------------------------------------------

  // np.sort(buys[first])
  function OpeningBuys(c: Columns, selected: seq<nat>): seq<nat>
    requires Aligned(c) && Ascending(selected, |c.side|)
  {
    OnSideAscending(c, selected, Buy);
    var buys := OnSide(c, selected, Buy);
    Sort(FirstBuys(LotsAt(c, buys), buys, |c.lots|))
  }

  lemma {:induction false} FirstBuysDistinct(ids: seq<nat>, buys: seq<nat>, size: nat, n: nat)
    requires |ids| == |buys| && Ascending(buys, n)
    ensures Distinct(FirstBuys(ids, buys, size), n)
  {
    if size > 0 {
      FirstBuysDistinct(ids, buys, size - 1, n);
      FirstBuysFacts(ids, buys, size - 1);
      var at, before := FirstAt(ids, size - 1), FirstBuys(ids, buys, size - 1);
      FirstAtFirst(ids, size - 1);
      if at < |ids| {
        forall x | 0 <= x < |before| ensures before[x] != buys[at] {
          assert Has(before, before[x]);
          var i: nat :| FirstOfItsId(ids, i, size - 1) && buys[i] == before[x];
          assert i < at || at < i;
        }
      }
    }
  }

  lemma FirstOpens(c: Columns, selected: seq<nat>, buys: seq<nat>, i: nat)
    requires Aligned(c) && Ascending(selected, |c.side|) && buys == OnSide(c, selected, Buy) && Ascending(buys, |c.side|)
    requires i < |buys| && FirstOfItsId(LotsAt(c, buys), i, |c.lots|)
    ensures Opens(c, selected, buys[i])
  {
    OnSideHas(c, selected, Buy);
    var ids, k := LotsAt(c, buys), buys[i];
    assert Has(buys, k);
    FirstAtFirst(ids, ids[i]);
    forall j: nat | Has(selected, j) && j < k && c.side[j].Buy? ensures c.lotId[j] != c.lotId[k] {
      assert Has(buys, j);
      var x :| 0 <= x < |buys| && buys[x] == j;
      assert x < i;
      assert ids[x] != ids[i];
    }
  }

  lemma OpensIsFirst(c: Columns, selected: seq<nat>, buys: seq<nat>, i: nat)
    requires Aligned(c) && Ascending(selected, |c.side|) && buys == OnSide(c, selected, Buy) && Ascending(buys, |c.side|)
    requires i < |buys| && Opens(c, selected, buys[i])
    ensures FirstOfItsId(LotsAt(c, buys), i, |c.lots|)
  {
    OnSideHas(c, selected, Buy);
    var ids, k := LotsAt(c, buys), buys[i];
    FirstAtFirst(ids, ids[i]);
    var x := FirstAt(ids, ids[i]);
    assert x <= i;
    assert Has(buys, buys[x]);
    assert c.lotId[buys[x]] == c.lotId[k];
    assert !(buys[x] < k);
  }

  lemma FirstBuysOpen(c: Columns, selected: seq<nat>, k: nat)
    requires Aligned(c) && Ascending(selected, |c.side|)
    ensures var buys := OnSide(c, selected, Buy);
            Ascending(buys, |c.side|)
            && (Has(FirstBuys(LotsAt(c, buys), buys, |c.lots|), k) <==> Opens(c, selected, k))
  {
    OnSideAscending(c, selected, Buy);
    var buys := OnSide(c, selected, Buy);
    var ids := LotsAt(c, buys);
    FirstBuysFacts(ids, buys, |c.lots|);
    if Has(FirstBuys(ids, buys, |c.lots|), k) {
      var i: nat :| FirstOfItsId(ids, i, |c.lots|) && buys[i] == k;
      FirstOpens(c, selected, buys, i);
    }
    if Opens(c, selected, k) {
      OnSideHas(c, selected, Buy);
      assert Has(buys, k);
      var i :| 0 <= i < |buys| && buys[i] == k;
      OpensIsFirst(c, selected, buys, i);
    }
  }

  ghost predicate OpensUnseen(c: Columns, selected: seq<nat>, seen: set<nat>, k: nat)
    requires Aligned(c)
  {
    Opens(c, selected, k) && c.lotId[k] !in seen
  }

  lemma HasCons(x: nat, s: seq<nat>)
    ensures forall k: nat :: Has([x] + s, k) <==> k == x || Has(s, k)
  {
    forall k: nat ensures Has([x] + s, k) <==> k == x || Has(s, k) {
      if k == x {
        assert ([x] + s)[0] == k;
      }
      if Has(s, k) {
        var i :| 0 <= i < |s| && s[i] == k;
        assert ([x] + s)[i + 1] == k;
      }
      if Has([x] + s, k) && k != x {
        var i :| 0 <= i < |[x] + s| && ([x] + s)[i] == k;
        assert s[i - 1] == k;
      }
    }
  }

  lemma TailAscending(s: seq<nat>, n: nat)
    requires Ascending(s, n) && s != []
    ensures Ascending(s[1..], n) && forall k: nat | Has(s[1..], k) :: k > s[0]
  {
    var tail := s[1..];
    forall i, j | 0 <= i < j < |tail| ensures tail[i] < tail[j] {
      assert s[i + 1] < s[j + 1];
    }
    forall k: nat | Has(tail, k) ensures k > s[0] {
      var i :| 0 <= i < |tail| && tail[i] == k;
      assert s[0] < s[i + 1];
    }
  }

  lemma {:induction false} OpeningFacts(c: Columns, selected: seq<nat>, seen: set<nat>)
    requires Aligned(c) && Ascending(selected, |c.side|)
    ensures forall k: nat :: Has(Opening(c, selected, seen), k) <==> OpensUnseen(c, selected, seen, k)
    ensures Ascending(Opening(c, selected, seen), |c.side|)
    decreases |selected|
  {
    if selected != [] {
      var x, tail := selected[0], selected[1..];
      TailAscending(selected, |c.side|);
      assert selected == [x] + tail;
      HasCons(x, tail);
      if c.side[x].Buy? && c.lotId[x] !in seen {
        var rest := Opening(c, tail, seen + {c.lotId[x]});
        OpeningFacts(c, tail, seen + {c.lotId[x]});
        HasCons(x, rest);
        forall k: nat ensures Has([x] + rest, k) <==> OpensUnseen(c, selected, seen, k) {
          OpensFromTail(c, x, tail, k);
        }
        ConsAscending(x, rest, |c.side|);
      } else {
        OpeningFacts(c, tail, seen);
        forall k: nat ensures Has(Opening(c, tail, seen), k) <==> OpensUnseen(c, selected, seen, k) {
          OpensFromTail(c, x, tail, k);
        }
      }
    }
  }

  lemma ConsAscending(x: nat, s: seq<nat>, n: nat)
    requires Ascending(s, n) && x < n && forall k: nat | Has(s, k) :: x < k
    ensures Ascending([x] + s, n)
  {
    var whole := [x] + s;
    forall i, j | 0 <= i < j < |whole| ensures whole[i] < whole[j] {
      assert Has(s, s[j - 1]);
    }
  }

  lemma OpensFromTail(c: Columns, x: nat, tail: seq<nat>, k: nat)
    requires Aligned(c) && x < |c.side| && Ascending([x] + tail, |c.side|)
    ensures Opens(c, [x] + tail, k)
            <==> (k == x && c.side[x].Buy?)
                 || (Opens(c, tail, k) && k != x && !(c.side[x].Buy? && c.lotId[x] == c.lotId[k]))
  {
    HasCons(x, tail);
    TailAscending([x] + tail, |c.side|);
    assert ([x] + tail)[1..] == tail && ([x] + tail)[0] == x;
  }

  // One cycle for each lot with a selected buy, in the order of those buys.
  lemma OpeningBuysAreOpening(c: Columns, selected: seq<nat>)
    requires Aligned(c) && Ascending(selected, |c.side|)
    ensures OpeningBuys(c, selected) == Opening(c, selected, {})
  {
    OnSideAscending(c, selected, Buy);
    var buys := OnSide(c, selected, Buy);
    var first := FirstBuys(LotsAt(c, buys), buys, |c.lots|);
    FirstBuysDistinct(LotsAt(c, buys), buys, |c.lots|, |c.side|);
    SortFacts(first, |c.side|);
    OpeningFacts(c, selected, {});
    forall k: nat ensures Has(Sort(first), k) <==> Has(Opening(c, selected, {}), k) {
      FirstBuysOpen(c, selected, k);
    }
    SameNumbers(Sort(first), Opening(c, selected, {}), |c.side|);
  }

  // ---- closed and realized, by bincount -----------------------------------

  function WithPnl(c: Columns, positions: seq<nat>): seq<nat>
    requires Aligned(c)
  {
    if positions == [] then []
    else
      var k := positions[|positions| - 1];
      WithPnl(c, positions[..|positions| - 1]) + if k < |c.pnl| && c.pnl[k].Some? then [k] else []
  }

  function Pnls(c: Columns, positions: seq<nat>): seq<real>
    requires Aligned(c)
  {
    seq(|positions|, i requires 0 <= i < |positions| =>
      if positions[i] < |c.pnl| && c.pnl[positions[i]].Some? then c.pnl[positions[i]].value else 0.0)
  }

  ghost predicate Within(positions: seq<nat>, n: nat) {
    forall i | 0 <= i < |positions| :: positions[i] < n
  }

  lemma {:induction false} WithPnlWithin(c: Columns, positions: seq<nat>)
    requires Aligned(c) && Within(positions, |c.side|)
    ensures Within(WithPnl(c, positions), |c.side|)
  {
    if positions != [] {
      WithPnlWithin(c, positions[..|positions| - 1]);
    }
  }

  function SumOf(ids: seq<nat>, weights: seq<real>, id: nat): real
    requires |ids| == |weights|
  {
    if ids == [] then 0.0
    else
      var last := |ids| - 1;
      SumOf(ids[..last], weights[..last], id) + if ids[last] == id then weights[last] else 0.0
  }

  lemma {:induction false} BincountSums(ids: seq<nat>, weights: seq<real>, size: nat, id: nat)
    requires |ids| == |weights| && id < size && forall i | 0 <= i < |ids| :: ids[i] < size
    ensures Bincount(ids, weights, size)[id] == SumOf(ids, weights, id)
  {
    if ids != [] {
      BincountSums(ids[..|ids| - 1], weights[..|ids| - 1], size, id);
    }
  }

  lemma SumMore(ids: seq<nat>, weights: seq<real>, newId: nat, weight: real, id: nat)
    requires |ids| == |weights|
    ensures SumOf(ids + [newId], weights + [weight], id) == SumOf(ids, weights, id) + if newId == id then weight else 0.0
  {
    assert (ids + [newId])[..|ids|] == ids && (weights + [weight])[..|weights|] == weights;
  }

  lemma {:induction false} CountIsLength(c: Columns, positions: seq<nat>, lot: nat)
    requires Aligned(c) && Within(positions, |c.side|)
    ensures SumOf(LotsAt(c, positions), Ones(|positions|), lot) == |OfLot(c, positions, lot)| as real
  {
    if positions != [] {
      var front, k := positions[..|positions| - 1], positions[|positions| - 1];
      CountIsLength(c, front, lot);
      assert LotsAt(c, positions) == LotsAt(c, front) + [c.lotId[k]];
      assert Ones(|positions|) == Ones(|front|) + [1.0];
      SumMore(LotsAt(c, front), Ones(|front|), c.lotId[k], 1.0, lot);
    }
  }

  lemma WithPnlMore(c: Columns, s: seq<nat>, k: nat)
    requires Aligned(c) && k < |c.side|
    ensures WithPnl(c, s + [k]) == if c.pnl[k].Some? then WithPnl(c, s) + [k] else WithPnl(c, s)
  {
    assert (s + [k])[..|s|] == s;
  }

  // One more of the sells that carry a pnl, and what the two sums make of it.
  lemma WeightsMore(c: Columns, s: seq<nat>, k: nat, lot: nat)
    requires Aligned(c) && Within(s, |c.side|) && k < |c.side| && c.pnl[k].Some?
    ensures Within(s + [k], |c.side|)
    ensures SumOf(LotsAt(c, s + [k]), Pnls(c, s + [k]), lot)
         == SumOf(LotsAt(c, s), Pnls(c, s), lot) + if c.lotId[k] == lot then c.pnl[k].value else 0.0
    ensures SumOf(LotsAt(c, s + [k]), Ones(|s + [k]|), lot)
         == SumOf(LotsAt(c, s), Ones(|s|), lot) + if c.lotId[k] == lot then 1.0 else 0.0
  {
    assert LotsAt(c, s + [k]) == LotsAt(c, s) + [c.lotId[k]];
    assert Pnls(c, s + [k]) == Pnls(c, s) + [c.pnl[k].value];
    assert Ones(|s| + 1) == Ones(|s|) + [1.0];
    SumMore(LotsAt(c, s), Pnls(c, s), c.lotId[k], c.pnl[k].value, lot);
    SumMore(LotsAt(c, s), Ones(|s|), c.lotId[k], 1.0, lot);
  }

  lemma PnlOneMore(c: Columns, front: seq<nat>, k: nat, lot: nat)
    requires Aligned(c) && Within(front, |c.side|) && Within(WithPnl(c, front), |c.side|) && k < |c.side|
    ensures Within(WithPnl(c, front + [k]), |c.side|)
    ensures var more := if c.pnl[k].Some? && c.lotId[k] == lot then c.pnl[k].value else 0.0;
            && SumOf(LotsAt(c, WithPnl(c, front + [k])), Pnls(c, WithPnl(c, front + [k])), lot)
               == SumOf(LotsAt(c, WithPnl(c, front)), Pnls(c, WithPnl(c, front)), lot) + more
            && PnlSum(c, OfLot(c, front + [k], lot)) == PnlSum(c, OfLot(c, front, lot)) + more
  {
    WithPnlMore(c, front, k);
    OfLotMore(c, front, k, lot);
    PnlSumMore(c, OfLot(c, front, lot), k);
    if c.pnl[k].Some? {
      WeightsMore(c, WithPnl(c, front), k, lot);
    }
  }

  lemma {:induction false} PnlByLot(c: Columns, positions: seq<nat>, lot: nat)
    requires Aligned(c) && Within(positions, |c.side|)
    ensures Within(WithPnl(c, positions), |c.side|)
    ensures SumOf(LotsAt(c, WithPnl(c, positions)), Pnls(c, WithPnl(c, positions)), lot) == PnlSum(c, OfLot(c, positions, lot))
  {
    WithPnlWithin(c, positions);
    if positions != [] {
      var front, k := positions[..|positions| - 1], positions[|positions| - 1];
      assert positions == front + [k];
      PnlByLot(c, front, lot);
      PnlOneMore(c, front, k, lot);
    }
  }

  lemma PnlSumMore(c: Columns, positions: seq<nat>, k: nat)
    requires Aligned(c) && k < |c.side|
    ensures PnlSum(c, positions + [k]) == PnlSum(c, positions) + if c.pnl[k].Some? then c.pnl[k].value else 0.0
  {
    assert (positions + [k])[..|positions|] == positions;
  }

  lemma {:induction false} PnlCountByLot(c: Columns, positions: seq<nat>, lot: nat)
    requires Aligned(c) && Within(positions, |c.side|)
    ensures Within(WithPnl(c, positions), |c.side|)
    ensures var count := SumOf(LotsAt(c, WithPnl(c, positions)), Ones(|WithPnl(c, positions)|), lot);
            count >= 0.0 && (count > 0.0 <==> AnyPnl(c, OfLot(c, positions, lot)))
  {
    WithPnlWithin(c, positions);
    if positions != [] {
      var front, k := positions[..|positions| - 1], positions[|positions| - 1];
      assert positions == front + [k];
      PnlCountByLot(c, front, lot);
      WithPnlMore(c, front, k);
      OfLotMore(c, front, k, lot);
      AnyPnlMore(c, OfLot(c, front, lot), k);
      if c.pnl[k].Some? {
        WeightsMore(c, WithPnl(c, front), k, lot);
      }
    }
  }

  lemma AnyPnlMore(c: Columns, positions: seq<nat>, k: nat)
    requires Aligned(c) && k < |c.side|
    ensures AnyPnl(c, positions + [k]) <==> AnyPnl(c, positions) || c.pnl[k].Some?
  {
    var more := positions + [k];
    if AnyPnl(c, positions) {
      var i :| 0 <= i < |positions| && positions[i] < |c.pnl| && c.pnl[positions[i]].Some?;
      assert more[i] == positions[i];
    }
    if c.pnl[k].Some? {
      assert more[|positions|] == k;
    }
  }

  // ---- sells grouped by lot -----------------------------------------------

  // np.argsort(lots, kind="stable"), applied to the sells.
  function InsertByLot(c: Columns, s: seq<nat>, k: nat): seq<nat>
    requires Aligned(c) && Within(s, |c.side|) && k < |c.side|
  {
    if s == [] || c.lotId[s[|s| - 1]] <= c.lotId[k] then s + [k]
    else InsertByLot(c, s[..|s| - 1], k) + [s[|s| - 1]]
  }

  lemma {:induction false} InsertByLotWithin(c: Columns, s: seq<nat>, k: nat)
    requires Aligned(c) && Within(s, |c.side|) && k < |c.side|
    ensures Within(InsertByLot(c, s, k), |c.side|)
  {
    if s != [] && c.lotId[s[|s| - 1]] > c.lotId[k] {
      InsertByLotWithin(c, s[..|s| - 1], k);
    }
  }

  function ByLot(c: Columns, s: seq<nat>): (sorted: seq<nat>)
    requires Aligned(c) && Within(s, |c.side|)
    ensures Within(sorted, |c.side|)
  {
    if s == [] then []
    else
      InsertByLotWithin(c, ByLot(c, s[..|s| - 1]), s[|s| - 1]);
      InsertByLot(c, ByLot(c, s[..|s| - 1]), s[|s| - 1])
  }

  ghost predicate LotsRise(c: Columns, s: seq<nat>)
    requires Aligned(c) && Within(s, |c.side|)
  {
    forall i, j | 0 <= i < j < |s| :: c.lotId[s[i]] <= c.lotId[s[j]]
  }

  lemma OfLotMore(c: Columns, s: seq<nat>, k: nat, lot: nat)
    requires Aligned(c) && k < |c.side|
    ensures OfLot(c, s + [k], lot) == if c.lotId[k] == lot then OfLot(c, s, lot) + [k] else OfLot(c, s, lot)
  {
    assert (s + [k])[..|s|] == s;
  }

  lemma {:induction false} InsertByLotMembers(c: Columns, s: seq<nat>, k: nat)
    requires Aligned(c) && Within(s, |c.side|) && k < |c.side|
    ensures forall x: nat :: Has(InsertByLot(c, s, k), x) ==> Has(s, x) || x == k
  {
    if s == [] || c.lotId[s[|s| - 1]] <= c.lotId[k] {
      HasSnoc(s, k);
    } else {
      var front, top := s[..|s| - 1], s[|s| - 1];
      assert s == front + [top];
      InsertByLotMembers(c, front, k);
      HasSnoc(front, top);
      HasSnoc(InsertByLot(c, front, k), top);
    }
  }

  lemma {:induction false} InsertByLotRises(c: Columns, s: seq<nat>, k: nat)
    requires Aligned(c) && Within(s, |c.side|) && k < |c.side| && LotsRise(c, s)
    ensures Within(InsertByLot(c, s, k), |c.side|) && LotsRise(c, InsertByLot(c, s, k))
  {
    InsertByLotWithin(c, s, k);
    if !(s == [] || c.lotId[s[|s| - 1]] <= c.lotId[k]) {
      var front, top := s[..|s| - 1], s[|s| - 1];
      InsertByLotRises(c, front, k);
      InsertByLotMembers(c, front, k);
      var less := InsertByLot(c, front, k);
      forall i | 0 <= i < |less| ensures c.lotId[less[i]] <= c.lotId[top] {
        assert Has(less, less[i]);
        if less[i] != k {
          var j :| 0 <= j < |front| && front[j] == less[i];
          assert s[j] == less[i];
        }
      }
    }
  }

  // Within a lot, the order they came in.
  lemma {:induction false} InsertByLotKeeps(c: Columns, s: seq<nat>, k: nat, lot: nat)
    requires Aligned(c) && Within(s, |c.side|) && k < |c.side|
    ensures OfLot(c, InsertByLot(c, s, k), lot) == if c.lotId[k] == lot then OfLot(c, s, lot) + [k] else OfLot(c, s, lot)
  {
    if s == [] || c.lotId[s[|s| - 1]] <= c.lotId[k] {
      OfLotMore(c, s, k, lot);
    } else {
      var front, top := s[..|s| - 1], s[|s| - 1];
      assert s == front + [top];
      InsertByLotKeeps(c, front, k, lot);
      OfLotMore(c, front, top, lot);
      OfLotMore(c, InsertByLot(c, front, k), top, lot);
    }
  }

  lemma {:induction false} ByLotFacts(c: Columns, s: seq<nat>, lot: nat)
    requires Aligned(c) && Within(s, |c.side|)
    ensures LotsRise(c, ByLot(c, s)) && OfLot(c, ByLot(c, s), lot) == OfLot(c, s, lot)
  {
    if s != [] {
      ByLotFacts(c, s[..|s| - 1], lot);
      InsertByLotRises(c, ByLot(c, s[..|s| - 1]), s[|s| - 1]);
      InsertByLotKeeps(c, ByLot(c, s[..|s| - 1]), s[|s| - 1], lot);
    }
  }

  // np.searchsorted: the first place whose id is at least (left) or above (right)
  // the one looked for.
  method SearchSorted(ids: seq<nat>, id: nat, right: bool) returns (at: nat)
    requires forall i, j | 0 <= i < j < |ids| :: ids[i] <= ids[j]
    ensures at <= |ids|
    ensures forall i | 0 <= i < at :: ids[i] < id || (right && ids[i] == id)
    ensures forall i | at <= i < |ids| :: !(ids[i] < id || (right && ids[i] == id))
  {
    var lo, hi: nat := 0, |ids|;
    while lo < hi
      invariant lo <= hi <= |ids|
      invariant forall i | 0 <= i < lo :: ids[i] < id || (right && ids[i] == id)
      invariant forall i | hi <= i < |ids| :: !(ids[i] < id || (right && ids[i] == id))
    {
      var mid := (lo + hi) / 2;
      if ids[mid] < id || (right && ids[mid] == id) {
        lo := mid + 1;
      } else {
        hi := mid;
      }
    }
    at := lo;
  }

  // Of positions with rising lots, those of one lot are one slice.
  lemma {:induction false} SliceIsLot(c: Columns, s: seq<nat>, lot: nat, lo: nat, hi: nat)
    requires Aligned(c) && Within(s, |c.side|) && lo <= hi <= |s|
    requires forall i | 0 <= i < |s| :: lo <= i < hi <==> c.lotId[s[i]] == lot
    ensures OfLot(c, s, lot) == s[lo..hi]
    decreases |s|
  {
    if s != [] {
      var front, last := s[..|s| - 1], s[|s| - 1];
      if hi == |s| && lo < hi {
        SliceIsLot(c, front, lot, lo, hi - 1);
        assert s[lo..hi] == front[lo..hi - 1] + [last];
      } else if hi == |s| {
        SliceIsLot(c, front, lot, lo - 1, hi - 1);
      } else {
        SliceIsLot(c, front, lot, lo, hi);
        assert s[lo..hi] == front[lo..hi];
      }
    }
  }

  // ---- cycles, and one row of them ----------------------------------------

  datatype Built = Built(
    buy: seq<nat>,
    lot: seq<nat>,
    closed: seq<bool>,
    realized: seq<real>,
    realizedHas: seq<bool>,
    sellsSorted: seq<nat>,
    sellsSortedLots: seq<nat>)

  function LotSums(c: Columns, positions: seq<nat>, weights: seq<real>): (sums: seq<real>)
    requires Aligned(c) && Within(positions, |c.side|) && |weights| == |positions|
    ensures |sums| == |c.lots|
  {
    Bincount(LotsAt(c, positions), weights, |c.lots|)
  }

  function CycleColumns(c: Columns, buys: seq<nat>, sells: seq<nat>, valid: seq<nat>): Built
    requires Aligned(c) && Within(buys, |c.side|) && Within(sells, |c.side|) && Within(valid, |c.side|)
  {
    var cycleLot := LotsAt(c, buys);
    var sellCount := LotSums(c, sells, Ones(|sells|));
    var realizedSum := LotSums(c, valid, Pnls(c, valid));
    var realizedCount := LotSums(c, valid, Ones(|valid|));
    Built(buys, cycleLot,
          seq(|cycleLot|, i requires 0 <= i < |cycleLot| => sellCount[cycleLot[i]] > 0.0),
          seq(|cycleLot|, i requires 0 <= i < |cycleLot| => realizedSum[cycleLot[i]]),
          seq(|cycleLot|, i requires 0 <= i < |cycleLot| => realizedCount[cycleLot[i]] > 0.0),
          ByLot(c, sells), LotsAt(c, ByLot(c, sells)))
  }

  function BuildCycles(c: Columns, selected: seq<nat>): Built
    requires Aligned(c) && Ascending(selected, |c.side|)
  {
    OpeningBuysAreOpening(c, selected);
    OpeningFacts(c, selected, {});
    OnSideAscending(c, selected, Sell);
    WithPnlWithin(c, OnSide(c, selected, Sell));
    CycleColumns(c, OpeningBuys(c, selected), OnSide(c, selected, Sell), WithPnl(c, OnSide(c, selected, Sell)))
  }

  // What is looked up in the sums for one cycle.
  lemma BuiltAt(c: Columns, selected: seq<nat>, i: nat)
    requires Aligned(c) && Ascending(selected, |c.side|) && i < |BuildCycles(c, selected).buy|
    ensures var b, sells := BuildCycles(c, selected), OnSide(c, selected, Sell);
            && Within(sells, |c.side|) && Within(WithPnl(c, sells), |c.side|)
            && b.buy == OpeningBuys(c, selected) && b.buy[i] < |c.side| && b.lot[i] == c.lotId[b.buy[i]] < |c.lots|
            && (b.closed[i] <==> LotSums(c, sells, Ones(|sells|))[b.lot[i]] > 0.0)
            && b.realized[i] == LotSums(c, WithPnl(c, sells), Pnls(c, WithPnl(c, sells)))[b.lot[i]]
            && (b.realizedHas[i] <==> LotSums(c, WithPnl(c, sells), Ones(|WithPnl(c, sells)|))[b.lot[i]] > 0.0)
  {
    OpeningBuysAreOpening(c, selected);
    OpeningFacts(c, selected, {});
    OnSideAscending(c, selected, Sell);
    WithPnlWithin(c, OnSide(c, selected, Sell));
  }

  // Grouped, counted and summed over all lots at once, each cycle is what the
  // definition says of its own lot: its buy is the first selected one, it is
  // closed when a sell of it is selected, and its realized sum is over those.
  lemma CyclesAreCycles(c: Columns, selected: seq<nat>, i: nat)
    requires Aligned(c) && Ascending(selected, |c.side|) && i < |BuildCycles(c, selected).buy|
    ensures var b := BuildCycles(c, selected);
            var sells := Sells(c, selected, b.lot[i]);
            && b.buy == Opening(c, selected, {})
            && b.buy[i] < |c.side| && b.lot[i] == c.lotId[b.buy[i]]
            && (b.closed[i] <==> sells != [])
            && b.realized[i] == PnlSum(c, sells)
            && (b.realizedHas[i] <==> AnyPnl(c, sells))
  {
    BuiltAt(c, selected, i);
    OpeningBuysAreOpening(c, selected);
    var sells := OnSide(c, selected, Sell);
    var valid, lot := WithPnl(c, sells), BuildCycles(c, selected).lot[i];
    BincountSums(LotsAt(c, sells), Ones(|sells|), |c.lots|, lot);
    BincountSums(LotsAt(c, valid), Pnls(c, valid), |c.lots|, lot);
    BincountSums(LotsAt(c, valid), Ones(|valid|), |c.lots|, lot);
    CountIsLength(c, sells, lot);
    PnlByLot(c, sells, lot);
    PnlCountByLot(c, sells, lot);
  }

  // The row of one cycle, straight from the definition.
  function PlainRow(c: Columns, selected: seq<nat>, buy: nat): Row
    requires Aligned(c) && Ascending(selected, |c.side|) && buy < |c.side|
  {
    OnSideAscending(c, selected, Sell);
    OfLotWithin(c, OnSide(c, selected, Sell), c.lotId[buy]);
    var sells := Sells(c, selected, c.lotId[buy]);
    Row(c.lots[c.lotId[buy]], Decode(c, buy), DecodeAll(c, sells),
        if AnyPnl(c, sells) then Some(PnlSum(c, sells)) else None, sells == [])
  }

  lemma {:induction false} OfLotWithin(c: Columns, s: seq<nat>, lot: nat)
    requires Aligned(c) && Within(s, |c.side|)
    ensures Within(OfLot(c, s, lot), |c.side|)
  {
    if s != [] {
      OfLotWithin(c, s[..|s| - 1], lot);
    }
  }

  lemma SellsSlice(c: Columns, selected: seq<nat>, sorted: seq<nat>, lot: nat, lo: nat, hi: nat)
    requires Aligned(c) && Ascending(selected, |c.side|) && Within(OnSide(c, selected, Sell), |c.side|)
    requires sorted == ByLot(c, OnSide(c, selected, Sell)) && lo <= hi <= |sorted|
    requires forall i | 0 <= i < |sorted| :: lo <= i < hi <==> c.lotId[sorted[i]] == lot
    ensures sorted[lo..hi] == Sells(c, selected, lot)
  {
    ByLotFacts(c, OnSide(c, selected, Sell), lot);
    SliceIsLot(c, sorted, lot, lo, hi);
  }

  // The positions between the two searches are those of the lot.
  method LotSlice(c: Columns, sorted: seq<nat>, lots: seq<nat>, lot: nat) returns (lo: nat, hi: nat)
    requires Aligned(c) && Within(sorted, |c.side|) && LotsRise(c, sorted) && lots == LotsAt(c, sorted)
    ensures lo <= hi <= |sorted| && forall i | 0 <= i < |sorted| :: lo <= i < hi <==> c.lotId[sorted[i]] == lot
  {
    lo := SearchSorted(lots, lot, false);
    hi := SearchSorted(lots, lot, true);
    assert hi < |lots| ==> !(lots[hi] < lot);
    forall i | 0 <= i < |sorted| ensures lo <= i < hi <==> c.lotId[sorted[i]] == lot {
      assert lots[i] == c.lotId[sorted[i]];
    }
  }

  // The sells of a cycle by binary search in the sorted ones.
  method CycleRow(c: Columns, selected: seq<nat>, b: Built, at: nat) returns (row: Row)
    requires Aligned(c) && Ascending(selected, |c.side|) && b == BuildCycles(c, selected) && at < |b.buy|
    ensures b.buy[at] < |c.side| && row == PlainRow(c, selected, b.buy[at])
  {
    CyclesAreCycles(c, selected, at);
    OnSideAscending(c, selected, Sell);
    var lot := b.lot[at];
    ByLotFacts(c, OnSide(c, selected, Sell), lot);
    OfLotWithin(c, OnSide(c, selected, Sell), lot);
    var lo, hi := LotSlice(c, b.sellsSorted, b.sellsSortedLots, lot);
    SellsSlice(c, selected, b.sellsSorted, lot, lo, hi);
    row := Row(c.lots[lot], Decode(c, b.buy[at]), DecodeAll(c, b.sellsSorted[lo..hi]),
               if b.realizedHas[at] then Some(b.realized[at]) else None, !b.closed[at]);
  }

  // ---- pages --------------------------------------------------------------

  const MAX_LIMIT: int := 5000

  function Least(a: int, b: int): int {
    if a < b then a else b
  }

  function Most(a: int, b: int): int {
    if a < b then b else a
  }

  // xs[offset : offset + limit], with the bounds query gives them.
  function Page<T>(xs: seq<T>, offset: int, limit: int): seq<T> {
    var from := Least(Most(0, offset), |xs|);
    var size := Most(0, Least(limit, MAX_LIMIT));
    xs[from..Least(from + size, |xs|)]
  }

  function AllPages<T>(xs: seq<T>, offset: nat, limit: nat): seq<T>
    requires 0 < limit <= MAX_LIMIT
    decreases |xs| - offset
  {
    if offset >= |xs| then [] else Page(xs, offset, limit) + AllPages(xs, offset + limit, limit)
  }

  // Asked for one after another, the pages are the whole view.
  lemma {:induction false} PagesAreTheView<T>(xs: seq<T>, offset: nat, limit: nat)
    requires 0 < limit <= MAX_LIMIT
    ensures AllPages(xs, offset, limit) == if offset >= |xs| then [] else xs[offset..]
    decreases |xs| - offset
  {
    if offset < |xs| {
      PagesAreTheView(xs, offset + limit, limit);
      var next := Least(offset + limit, |xs|);
      assert xs[offset..] == xs[offset..next] + xs[next..];
    }
  }

  // ---- the summary --------------------------------------------------------

  function CountTrue(flags: seq<bool>): nat {
    if flags == [] then 0 else CountTrue(flags[..|flags| - 1]) + if flags[|flags| - 1] then 1 else 0
  }

  function Flipped(flags: seq<bool>): seq<bool> {
    seq(|flags|, i requires 0 <= i < |flags| => !flags[i])
  }

  lemma {:induction false} ClosedAndOpen(flags: seq<bool>)
    ensures CountTrue(flags) + CountTrue(Flipped(flags)) == |flags|
  {
    if flags != [] {
      ClosedAndOpen(flags[..|flags| - 1]);
      assert Flipped(flags)[..|flags| - 1] == Flipped(flags[..|flags| - 1]);
    }
  }

  // np.sum(np.where(realized_has & closed, realized, 0.0))
  function RealizedTotal(b: Built, n: nat): real
    requires n <= |b.closed| && |b.closed| == |b.realized| == |b.realizedHas|
  {
    if n == 0 then 0.0
    else RealizedTotal(b, n - 1) + if b.realizedHas[n - 1] && b.closed[n - 1] then b.realized[n - 1] else 0.0
  }

  // Over the rows of the closed cycles, what each realized if it realized anything.
  function RealizedOfRows(rows: seq<Row>): real {
    if rows == [] then 0.0
    else
      var row := rows[|rows| - 1];
      RealizedOfRows(rows[..|rows| - 1]) + if !row.open && row.realized.Some? then row.realized.value else 0.0
  }

  function PlainRows(c: Columns, selected: seq<nat>, buys: seq<nat>): seq<Row>
    requires Aligned(c) && Ascending(selected, |c.side|) && Within(buys, |c.side|)
  {
    seq(|buys|, i requires 0 <= i < |buys| => PlainRow(c, selected, buys[i]))
  }

  lemma BuiltShape(c: Columns, selected: seq<nat>)
    requires Aligned(c) && Ascending(selected, |c.side|)
    ensures var b := BuildCycles(c, selected);
            && Within(b.buy, |c.side|) && b.buy == Opening(c, selected, {})
            && |b.closed| == |b.realized| == |b.realizedHas| == |b.lot| == |b.buy|
  {
    OpeningBuysAreOpening(c, selected);
    OpeningFacts(c, selected, {});
  }

  // What the columns of b say of cycle i its row says.
  ghost predicate RowAgrees(b: Built, i: nat, row: Row) {
    i < |b.closed| && |b.closed| == |b.realized| == |b.realizedHas|
    && b.closed[i] == !row.open
    && row.realized == if b.realizedHas[i] then Some(b.realized[i]) else None
  }

  lemma {:induction false} RealizedByRows(b: Built, rows: seq<Row>, n: nat)
    requires n <= |rows| == |b.closed| && |b.closed| == |b.realized| == |b.realizedHas|
    requires forall i | 0 <= i < |rows| :: RowAgrees(b, i, rows[i])
    ensures RealizedTotal(b, n) == RealizedOfRows(rows[..n])
  {
    if n > 0 {
      RealizedByRows(b, rows, n - 1);
      assert rows[..n][..n - 1] == rows[..n - 1];
      assert RowAgrees(b, n - 1, rows[n - 1]);
    }
  }

  lemma RowsAgree(c: Columns, selected: seq<nat>, i: nat)
    requires Aligned(c) && Ascending(selected, |c.side|) && i < |BuildCycles(c, selected).buy|
    ensures var b := BuildCycles(c, selected);
            b.buy[i] < |c.side| && RowAgrees(b, i, PlainRow(c, selected, b.buy[i]))
  {
    CyclesAreCycles(c, selected, i);
    OnSideAscending(c, selected, Sell);
    OfLotWithin(c, OnSide(c, selected, Sell), BuildCycles(c, selected).lot[i]);
  }

  datatype Summary = Summary(fills: nat, unfiltered: nat, closed: nat, open: nat, realized: real)

  // The summary query returns with every page.
  method Summarise(c: Columns, selected: seq<nat>) returns (summary: Summary)
    requires Aligned(c) && Ascending(selected, |c.side|)
    ensures summary.fills == |selected| && summary.unfiltered == |c.side|
    ensures summary.closed + summary.open == |Opening(c, selected, {})|
    ensures Within(Opening(c, selected, {}), |c.side|)
    ensures summary.closed == CountTrue(Flipped(OpenFlags(PlainRows(c, selected, Opening(c, selected, {})))))
    ensures summary.realized == RealizedOfRows(PlainRows(c, selected, Opening(c, selected, {})))
  {
    var b := BuildCycles(c, selected);
    BuiltShape(c, selected);
    ClosedAndOpen(b.closed);
    ghost var rows := PlainRows(c, selected, b.buy);
    forall i | 0 <= i < |rows| ensures RowAgrees(b, i, rows[i]) {
      RowsAgree(c, selected, i);
    }
    RealizedByRows(b, rows, |rows|);
    assert rows[..|rows|] == rows;
    assert Flipped(OpenFlags(rows)) == b.closed;
    summary := Summary(|selected|, |c.side|, CountTrue(b.closed), CountTrue(Flipped(b.closed)), RealizedTotal(b, |b.buy|));
  }

  function OpenFlags(rows: seq<Row>): seq<bool> {
    seq(|rows|, i requires 0 <= i < |rows| => rows[i].open)
  }

  // ---- query --------------------------------------------------------------

  datatype CycleView = AnyCycle | ClosedCycle | OpenCycle

  function Keep(closed: seq<bool>, view: CycleView): seq<bool> {
    match view
    case AnyCycle => seq(|closed|, _ => true)
    case ClosedCycle => closed
    case OpenCycle => Flipped(closed)
  }

  predicate Shown(row: Row, view: CycleView) {
    match view
    case AnyCycle => true
    case ClosedCycle => !row.open
    case OpenCycle => row.open
  }

  // The rows of a view, in order.
  function Viewed(rows: seq<Row>, view: CycleView): seq<Row> {
    if rows == [] then []
    else Viewed(rows[..|rows| - 1], view) + if Shown(rows[|rows| - 1], view) then [rows[|rows| - 1]] else []
  }

  function RowsAt(rows: seq<Row>, at: seq<nat>): seq<Row>
    requires Within(at, |rows|)
  {
    seq(|at|, i requires 0 <= i < |at| => rows[at[i]])
  }

  lemma {:induction false} ViewedIsChosen(rows: seq<Row>, keep: seq<bool>, view: CycleView, n: nat)
    requires |keep| == |rows| && n <= |rows| && forall i | 0 <= i < |rows| :: keep[i] == Shown(rows[i], view)
    ensures Within(TrueAt(keep, n), n) && RowsAt(rows, TrueAt(keep, n)) == Viewed(rows[..n], view)
  {
    if n > 0 {
      ViewedIsChosen(rows, keep, view, n - 1);
      assert rows[..n][..n - 1] == rows[..n - 1];
      var before := TrueAt(keep, n - 1);
      assert RowsAt(rows, before + [n - 1]) == RowsAt(rows, before) + [rows[n - 1]];
    }
  }

  lemma PageOfRows(rows: seq<Row>, at: seq<nat>, offset: int, limit: int)
    requires Within(at, |rows|)
    ensures Within(Page(at, offset, limit), |rows|)
    ensures RowsAt(rows, Page(at, offset, limit)) == Page(RowsAt(rows, at), offset, limit)
  {
  }

  method CycleRows(c: Columns, selected: seq<nat>, b: Built, at: seq<nat>) returns (page: seq<Row>)
    requires Aligned(c) && Ascending(selected, |c.side|) && b == BuildCycles(c, selected) && Within(at, |b.buy|)
    ensures Within(b.buy, |c.side|) && page == RowsAt(PlainRows(c, selected, b.buy), at)
  {
    BuiltShape(c, selected);
    ghost var rows := PlainRows(c, selected, b.buy);
    page := [];
    for i := 0 to |at|
      invariant |page| == i && forall j | 0 <= j < i :: page[j] == rows[at[j]]
    {
      var row := CycleRow(c, selected, b, at[i]);
      page := page + [row];
    }
  }

  lemma ChosenRows(c: Columns, selected: seq<nat>, view: CycleView)
    requires Aligned(c) && Ascending(selected, |c.side|)
    ensures var b := BuildCycles(c, selected);
            var chosen := TrueAt(Keep(b.closed, view), |b.closed|);
            && Within(b.buy, |c.side|) && Within(chosen, |b.buy|)
            && RowsAt(PlainRows(c, selected, b.buy), chosen) == Viewed(PlainRows(c, selected, b.buy), view)
  {
    BuiltShape(c, selected);
    var b := BuildCycles(c, selected);
    var rows, keep := PlainRows(c, selected, b.buy), Keep(b.closed, view);
    forall i | 0 <= i < |rows| ensures keep[i] == Shown(rows[i], view) {
      RowsAgree(c, selected, i);
    }
    ViewedIsChosen(rows, keep, view, |rows|);
    assert rows[..|rows|] == rows;
  }

  // One page of the cycles of a selection: of all of them, the closed or the
  // open ones.
  method QueryCycles(c: Columns, selected: seq<nat>, view: CycleView, offset: int, limit: int)
    returns (total: nat, page: seq<Row>)
    requires Aligned(c) && Ascending(selected, |c.side|)
    ensures Within(Opening(c, selected, {}), |c.side|)
    ensures var rows := Viewed(PlainRows(c, selected, Opening(c, selected, {})), view);
            total == |rows| && page == Page(rows, offset, limit)
  {
    var b := BuildCycles(c, selected);
    BuiltShape(c, selected);
    ChosenRows(c, selected, view);
    var chosen := FlatNonzero(Keep(b.closed, view));
    total := |chosen|;
    PageOfRows(PlainRows(c, selected, b.buy), chosen, offset, limit);
    page := CycleRows(c, selected, b, Page(chosen, offset, limit));
  }

  // One page of the selected fills.
  method QueryFills(c: Columns, selected: seq<nat>, offset: int, limit: int) returns (total: nat, page: seq<Fill>)
    requires Aligned(c) && Ascending(selected, |c.side|)
    ensures total == |selected| && page == Page(DecodeAll(c, selected), offset, limit)
  {
    total := |selected|;
    page := DecodeAll(c, Page(selected, offset, limit));
    assert page == Page(DecodeAll(c, selected), offset, limit);
  }
}
