/**
 A fund's fills as columns (FundFills in server/fills.py): encoding a list of
 fills, decoding one, which lots are open, which fills pass a filter.
 */
module Fills {
  import opened Seqs

  // Lot names and sell reasons are only ever compared; EMPTY is the empty one.
  type Text = int

  const EMPTY: Text := 0
  const MICROS: int := 1000000
  const DAY: int := 86400

  // The column types of `lot_id` and `why`: a bigger index does not fit.
  const LOT_IDS: nat := 0x8000_0000
  const WHY_IDS: nat := 0x8000

  datatype Side = Buy | Sell

  // A fill on the wire. `micros` is its instant, microseconds since the epoch; a
  // missing bar is 0; anything whose side is not BUY in some case is a sell.
  datatype Fill = Fill(
    lot: Text,
    side: Side,
    bar: Option<int>,
    px: real,
    qty: real,
    micros: int,
    rsi: Option<real>,
    pnl: Option<real>,
    why: Option<Text>)

  // int(): towards zero.
  function Epoch(micros: int): int {
    if micros >= 0 then micros / MICROS else -(-micros / MICROS)
  }

  // Less than a second is lost, never across zero.
  lemma EpochTruncates(micros: int)
    ensures micros >= 0 ==> 0 <= Epoch(micros) * 1000000 <= micros < (Epoch(micros) + 1) * 1000000
    ensures micros < 0 ==> (Epoch(micros) - 1) * 1000000 < micros <= Epoch(micros) * 1000000 <= 0
  {
  }

  // A fill as it comes back.
  function Normal(f: Fill): Fill {
    f.(bar := Some(if f.bar.Some? then f.bar.value else 0),
       micros := Epoch(f.micros) * MICROS,
       why := if f.why == Some(EMPTY) then None else f.why)
  }

  // What a fill loses by being stored: the fraction of its second, towards zero, a
  // missing bar, which comes back as bar 0, and an empty reason, which comes back as
  // none. Everything else comes back.
  lemma NormalKeeps(f: Fill)
    ensures var n := Normal(f);
            && n.lot == f.lot && n.side == f.side && n.px == f.px && n.qty == f.qty && n.rsi == f.rsi && n.pnl == f.pnl
            && n.bar == (if f.bar == None then Some(0) else f.bar)
            && (n.why == f.why || (n.why == None && f.why == Some(EMPTY))) && n.why != Some(EMPTY)
            && n.micros % 1000000 == 0 && -1000000 < n.micros - f.micros < 1000000
            && (f.micros >= 0 ==> 0 <= n.micros <= f.micros) && (f.micros <= 0 ==> f.micros <= n.micros <= 0)
  {
    EpochTruncates(f.micros);
  }

  // Normalising is done once and for all.
  lemma NormalTwice(f: Fill)
    ensures Normal(Normal(f)) == Normal(f)
  {
    if f.micros < 0 {
      assert -(Epoch(f.micros) * MICROS) / MICROS == -Epoch(f.micros);
    }
  }

  // Absent rsi and pnl are None, an absent reason is -1.
  datatype Columns = Columns(
    lots: seq<Text>,
    lotId: seq<nat>,
    side: seq<Side>,
    bar: seq<int>,
    px: seq<real>,
    qty: seq<real>,
    ts: seq<int>,
    rsi: seq<Option<real>>,
    pnl: seq<Option<real>>,
    whyValues: seq<Text>,
    why: seq<int>)

  ghost predicate Aligned(c: Columns) {
    && |c.side| == |c.lotId| == |c.bar| == |c.px| == |c.qty| == |c.ts| == |c.rsi| == |c.pnl| == |c.why|
    && (forall k | 0 <= k < |c.lotId| :: c.lotId[k] < |c.lots|)
    && (forall k | 0 <= k < |c.why| :: -1 <= c.why[k] < |c.whyValues|)
  }

  // fill(k): one position back in the wire shape.
  function Decode(c: Columns, k: nat): Fill
    requires Aligned(c) && k < |c.side|
  {
    Fill(c.lots[c.lotId[k]], c.side[k], Some(c.bar[k]), c.px[k], c.qty[k], c.ts[k] * MICROS, c.rsi[k], c.pnl[k],
         if c.why[k] >= 0 then Some(c.whyValues[c.why[k]]) else None)
  }

  // ---- encoding -----------------------------------------------------------

  // dict.setdefault(value, len(dict)), the dict being the list of its keys.
  function IndexIn(values: seq<Text>, value: Text): nat {
    if values == [] || values[0] == value then 0 else 1 + IndexIn(values[1..], value)
  }

  function Added(values: seq<Text>, value: Text): seq<Text> {
    if value in values then values else values + [value]
  }

  lemma {:induction false} IndexInFinds(values: seq<Text>, value: Text)
    ensures IndexIn(values, value) <= |values|
    ensures value in values <==> IndexIn(values, value) < |values|
    ensures value in values ==> values[IndexIn(values, value)] == value
  {
    if values != [] && values[0] != value {
      IndexInFinds(values[1..], value);
    }
  }

  // A code never changes as the dictionary grows.
  lemma SetDefault(values: seq<Text>, value: Text)
    requires NoDup(values)
    ensures var next := Added(values, value);
            && values <= next && NoDup(next)
            && IndexIn(values, value) < |next| && next[IndexIn(values, value)] == value
            && (value !in values ==> IndexIn(values, value) == |values|)
  {
    IndexInFinds(values, value);
  }

  // The distinct texts of the first n fills, in order of first appearance.
  function LotsOf(fills: seq<Fill>): seq<Text> {
    if fills == [] then [] else Added(LotsOf(fills[..|fills| - 1]), fills[|fills| - 1].lot)
  }

  function WhysOf(fills: seq<Fill>): seq<Text> {
    if fills == [] then []
    else
      var before, f := WhysOf(fills[..|fills| - 1]), fills[|fills| - 1];
      if Normal(f).why.Some? then Added(before, Normal(f).why.value) else before
  }

  // Row k of the two coded columns decodes to fill k.
  ghost predicate Coded(f: Fill, lots: seq<Text>, lotId: nat, whyValues: seq<Text>, why: int) {
    && lotId < |lots| && lots[lotId] == f.lot
    && -1 <= why < |whyValues|
    && Normal(f).why == if why >= 0 then Some(whyValues[why]) else None
  }

  lemma StaysCoded(f: Fill, lots: seq<Text>, more: seq<Text>, lotId: nat, whyValues: seq<Text>, moreWhys: seq<Text>, why: int)
    requires Coded(f, lots, lotId, whyValues, why) && lots <= more && whyValues <= moreWhys
    ensures Coded(f, more, lotId, moreWhys, why)
  {
  }

  // One row of the loop: the dictionaries after it, and its two codes. None when
  // a code does not fit its column.
  function Code(f: Fill, lots: seq<Text>, whyValues: seq<Text>): Option<(seq<Text>, nat, seq<Text>, int)> {
    if IndexIn(lots, f.lot) >= LOT_IDS then None
    else if f.why == None || f.why == Some(EMPTY) then Some((Added(lots, f.lot), IndexIn(lots, f.lot), whyValues, -1))
    else if IndexIn(whyValues, f.why.value) >= WHY_IDS then None
    else
      Some((Added(lots, f.lot), IndexIn(lots, f.lot), Added(whyValues, f.why.value), IndexIn(whyValues, f.why.value)))
  }

  lemma CodeFacts(f: Fill, lots: seq<Text>, whyValues: seq<Text>)
    requires NoDup(lots) && NoDup(whyValues) && |lots| <= LOT_IDS && |whyValues| <= WHY_IDS
    ensures var moreLots := Added(lots, f.lot);
            var moreWhys := if Normal(f).why.Some? then Added(whyValues, Normal(f).why.value) else whyValues;
            match Code(f, lots, whyValues)
            case None => |moreLots| > LOT_IDS || |moreWhys| > WHY_IDS
            case Some(r) =>
              && r.0 == moreLots && lots <= r.0 && NoDup(r.0) && |r.0| <= LOT_IDS
              && r.2 == moreWhys && whyValues <= r.2 && NoDup(r.2) && |r.2| <= WHY_IDS
              && Coded(f, r.0, r.1, r.2, r.3)
  {
    SetDefault(lots, f.lot);
    if Normal(f).why.Some? {
      SetDefault(whyValues, f.why.value);
    }
  }

  ghost predicate AllCoded(fills: seq<Fill>, lots: seq<Text>, ids: seq<nat>, whyValues: seq<Text>, whys: seq<int>) {
    |ids| == |whys| == |fills| && forall k | 0 <= k < |fills| :: Coded(fills[k], lots, ids[k], whyValues, whys[k])
  }

  lemma CodedMore(fills: seq<Fill>, f: Fill, lots: seq<Text>, ids: seq<nat>, whyValues: seq<Text>, whys: seq<int>,
                  r: (seq<Text>, nat, seq<Text>, int))
    requires AllCoded(fills, lots, ids, whyValues, whys) && lots <= r.0 && whyValues <= r.2 && Coded(f, r.0, r.1, r.2, r.3)
    ensures AllCoded(fills + [f], r.0, ids + [r.1], r.2, whys + [r.3])
  {
    forall j | 0 <= j < |fills| ensures Coded(fills[j], r.0, ids[j], r.2, whys[j]) {
      StaysCoded(fills[j], lots, r.0, ids[j], whyValues, r.2, whys[j]);
    }
  }

  // The two coded columns, filled a row at a time.
  method CodeAll(fills: seq<Fill>) returns (r: Option<(seq<Text>, seq<nat>, seq<Text>, seq<int>)>)
    ensures r.Some? <==> |LotsOf(fills)| <= LOT_IDS && |WhysOf(fills)| <= WHY_IDS
    ensures r.Some? ==>
              && r.value.0 == LotsOf(fills) && r.value.2 == WhysOf(fills) && NoDup(r.value.0) && NoDup(r.value.2)
              && |r.value.1| == |r.value.3| == |fills|
              && forall k | 0 <= k < |fills| :: Coded(fills[k], r.value.0, r.value.1[k], r.value.2, r.value.3[k])
  {
    var n := |fills|;
    var lots: seq<Text>, whyValues: seq<Text> := [], [];
    var lotId, why := new nat[n], new int[n];
    for k := 0 to n
      invariant lots == LotsOf(fills[..k]) && whyValues == WhysOf(fills[..k])
      invariant NoDup(lots) && NoDup(whyValues) && |lots| <= LOT_IDS && |whyValues| <= WHY_IDS
      invariant AllCoded(fills[..k], lots, lotId[..k], whyValues, why[..k])
    {
      assert fills[..k + 1][..k] == fills[..k] && fills[..k + 1] == fills[..k] + [fills[k]];
      CodeFacts(fills[k], lots, whyValues);
      var code := Code(fills[k], lots, whyValues);
      if code == None {
        MoreLots(fills, k + 1);
        return None;
      }
      CodedMore(fills[..k], fills[k], lots, lotId[..k], whyValues, why[..k], code.value);
      lots, lotId[k], whyValues, why[k] := code.value.0, code.value.1, code.value.2, code.value.3;
      assert lotId[..k + 1] == lotId[..k] + [lotId[k]] && why[..k + 1] == why[..k] + [why[k]];
    }
    assert fills[..n] == fills && lotId[..n] == lotId[..] && why[..n] == why[..];
    r := Some((lots, lotId[..], whyValues, why[..]));
  }

  // Every column. A code that does not fit its column is an error to numpy.
  method FromFills(fills: seq<Fill>) returns (r: Option<Columns>)
    ensures r.Some? <==> |LotsOf(fills)| <= 0x8000_0000 && |WhysOf(fills)| <= 0x8000
    ensures r.Some? ==>
              Aligned(r.value) && |r.value.side| == |fills|
              && r.value.lots == LotsOf(fills) && r.value.whyValues == WhysOf(fills)
              && NoDup(r.value.lots) && NoDup(r.value.whyValues)
              && forall k | 0 <= k < |fills| :: Decode(r.value, k) == Normal(fills[k])
  {
    var codes := CodeAll(fills);
    if codes == None {
      return None;
    }
    var (lots, lotId, whyValues, why) := codes.value;
    var n := |fills|;
    r := Some(Columns(lots, lotId,
                      seq(n, k requires 0 <= k < n => fills[k].side),
                      seq(n, k requires 0 <= k < n => if fills[k].bar.Some? then fills[k].bar.value else 0),
                      seq(n, k requires 0 <= k < n => fills[k].px),
                      seq(n, k requires 0 <= k < n => fills[k].qty),
                      seq(n, k requires 0 <= k < n => Epoch(fills[k].micros)),
                      seq(n, k requires 0 <= k < n => fills[k].rsi),
                      seq(n, k requires 0 <= k < n => fills[k].pnl),
                      whyValues, why));
  }

  // The dictionaries only grow.
  lemma {:induction false} MoreLots(fills: seq<Fill>, k: nat)
    requires k <= |fills|
    ensures |LotsOf(fills[..k])| <= |LotsOf(fills)| && |WhysOf(fills[..k])| <= |WhysOf(fills)|
    decreases |fills|
  {
    if k < |fills| {
      var front := fills[..|fills| - 1];
      MoreLots(front, k);
      assert front[..k] == fills[..k];
    } else {
      assert fills[..k] == fills;
    }
  }

  // The columns of these fills.
  ghost predicate Encodes(c: Columns, fills: seq<Fill>) {
    Aligned(c) && |c.side| == |fills| && NoDup(c.lots)
    && forall k | 0 <= k < |fills| :: Decode(c, k) == Normal(fills[k])
  }

  // ---- which lots are open ------------------------------------------------

  // values[side == which], over the first n.
  function Masked<T>(values: seq<T>, side: seq<Side>, which: Side, n: nat): seq<T>
    requires n <= |side| && n <= |values|
  {
    if n == 0 then []
    else Masked<T>(values, side, which, n - 1) + if side[n - 1] == which then [values[n - 1]] else []
  }

  lemma {:induction false} MaskedTogether(ids: seq<nat>, weights: seq<real>, side: seq<Side>, which: Side, n: nat, size: nat)
    requires n <= |side| && n <= |ids| && n <= |weights| && forall i | 0 <= i < |ids| :: ids[i] < size
    ensures |Masked<nat>(ids, side, which, n)| == |Masked<real>(weights, side, which, n)|
    ensures forall i | 0 <= i < |Masked<nat>(ids, side, which, n)| :: Masked<nat>(ids, side, which, n)[i] < size
  {
    if n > 0 {
      MaskedTogether(ids, weights, side, which, n - 1, size);
    }
  }

  // np.bincount(ids, weights, minlength=size)
  function Bincount(ids: seq<nat>, weights: seq<real>, size: nat): (sums: seq<real>)
    requires |ids| == |weights| && forall i | 0 <= i < |ids| :: ids[i] < size
    ensures |sums| == size
  {
    if ids == [] then seq(size, _ => 0.0)
    else
      var last := |ids| - 1;
      var before := Bincount(ids[..last], weights[..last], size);
      before[ids[last] := before[ids[last]] + weights[last]]
  }

  function Ones(n: nat): seq<real> {
    seq(n, _ => 1.0)
  }

  // has_buy & (sold < bought * (1 - 1e-9) - 1e-9)
  predicate StillOpen(buys: real, bought: real, sold: real) {
    buys > 0.0 && sold < bought * (1.0 - 0.000000001) - 0.000000001
  }

  // The weights of one side, summed by lot.
  function Grouped(c: Columns, weights: seq<real>, which: Side, n: nat): (sums: seq<real>)
    requires Aligned(c) && |weights| == |c.side| && n <= |c.side|
    ensures |sums| == |c.lots|
  {
    MaskedTogether(c.lotId, weights, c.side, which, n, |c.lots|);
    Bincount(Masked<nat>(c.lotId, c.side, which, n), Masked<real>(weights, c.side, which, n), |c.lots|)
  }

  function OpenLots(c: Columns): (open: seq<bool>)
    requires Aligned(c)
    ensures |open| == |c.lots|
  {
    var n := |c.side|;
    var count, bought, sold := Grouped(c, Ones(n), Buy, n), Grouped(c, c.qty, Buy, n), Grouped(c, c.qty, Sell, n);
    seq(|c.lots|, l requires 0 <= l < |c.lots| => StillOpen(count[l], bought[l], sold[l]))
  }

  // Over the fills themselves: how much of a lot was traded on one side, and how
  // often.
  function Traded(fills: seq<Fill>, lot: Text, which: Side): real {
    if fills == [] then 0.0
    else
      var f := fills[|fills| - 1];
      Traded(fills[..|fills| - 1], lot, which) + if f.lot == lot && f.side == which then f.qty else 0.0
  }

  function Times(fills: seq<Fill>, lot: Text, which: Side): real {
    if fills == [] then 0.0
    else
      var f := fills[|fills| - 1];
      Times(fills[..|fills| - 1], lot, which) + if f.lot == lot && f.side == which then 1.0 else 0.0
  }

  // A lot is open when it was bought and less of it was sold than bought, over
  // all fills of the fund.
  predicate IsOpen(fills: seq<Fill>, lot: Text) {
    StillOpen(Times(fills, lot, Buy), Traded(fills, lot, Buy), Traded(fills, lot, Sell))
  }

  // What the module's own description says: a buy, and no sell anywhere.
  predicate WasTraded(fills: seq<Fill>, lot: Text, which: Side) {
    exists k :: 0 <= k < |fills| && fills[k].lot == lot && fills[k].side == which
  }

  predicate NeverSold(fills: seq<Fill>, lot: Text) {
    WasTraded(fills, lot, Buy) && !WasTraded(fills, lot, Sell)
  }

  lemma {:induction false} TimesCount(fills: seq<Fill>, lot: Text, which: Side)
    ensures Times(fills, lot, which) >= 0.0 && (Times(fills, lot, which) > 0.0 <==> WasTraded(fills, lot, which))
    ensures !WasTraded(fills, lot, which) ==> Traded(fills, lot, which) == 0.0
  {
    if fills != [] {
      var front, last := fills[..|fills| - 1], fills[|fills| - 1];
      TimesCount(front, lot, which);
      assert WasTraded(front, lot, which) ==> WasTraded(fills, lot, which) by {
        if WasTraded(front, lot, which) {
          var k :| 0 <= k < |front| && front[k].lot == lot && front[k].side == which;
          assert fills[k] == front[k];
        }
      }
      assert WasTraded(fills, lot, which) && !(last.lot == lot && last.side == which) ==> WasTraded(front, lot, which) by {
        if WasTraded(fills, lot, which) && !(last.lot == lot && last.side == which) {
          var k :| 0 <= k < |fills| && fills[k].lot == lot && fills[k].side == which;
          assert front[k] == fills[k];
        }
      }
    }
  }

  // Bought and never sold is open, and nothing else is, if and only if what was
  // bought of a lot never sold is over the tolerance, and what was sold of any
  // other is within it of what was bought.
  lemma OpenAsDescribedIff(fills: seq<Fill>, lot: Text)
    ensures var bought, sold := Traded(fills, lot, Buy), Traded(fills, lot, Sell);
            (IsOpen(fills, lot) <==> NeverSold(fills, lot))
            <==> (WasTraded(fills, lot, Buy) ==>
                    if WasTraded(fills, lot, Sell) then sold >= bought * (1.0 - 0.000000001) - 0.000000001
                    else bought * (1.0 - 0.000000001) > 0.000000001)
  {
    TimesCount(fills, lot, Buy);
    TimesCount(fills, lot, Sell);
  }

  // Ten bought and four sold: open, with a sell.
  lemma PartlySoldIsOpen(buy: Fill, sell: Fill)
    requires buy.side == Buy && sell.side == Sell && buy.lot == sell.lot && buy.qty == 10.0 && sell.qty == 4.0
    ensures IsOpen([buy, sell], buy.lot) && !NeverSold([buy, sell], buy.lot)
  {
    var fills := [buy, sell];
    for n := 0 to 2
      invariant Times(fills[..n], buy.lot, Buy) == (if n == 0 then 0.0 else 1.0)
      invariant Traded(fills[..n], buy.lot, Buy) == (if n == 0 then 0.0 else 10.0)
      invariant Traded(fills[..n], buy.lot, Sell) == (if n < 2 then 0.0 else 4.0)
    {
      TradedMore(fills, buy.lot, Buy, n);
      TradedMore(fills, buy.lot, Sell, n);
    }
    assert fills[..2] == fills && fills[1] == sell;
  }

  // A billionth bought and none sold: closed, with no sell.
  lemma NextToNothingIsClosed(buy: Fill)
    requires buy.side == Buy && buy.qty == 0.000000001
    ensures !IsOpen([buy], buy.lot) && NeverSold([buy], buy.lot)
  {
    var fills := [buy];
    TradedMore(fills, buy.lot, Buy, 0);
    TradedMore(fills, buy.lot, Sell, 0);
    assert fills[..1] == fills && fills[0] == buy;
  }

  lemma BincountMore(ids: seq<nat>, weights: seq<real>, id: nat, weight: real, size: nat)
    requires |ids| == |weights| && id < size && forall i | 0 <= i < |ids| :: ids[i] < size
    ensures var before := Bincount(ids, weights, size);
            Bincount(ids + [id], weights + [weight], size) == before[id := before[id] + weight]
  {
    assert (ids + [id])[..|ids|] == ids && (weights + [weight])[..|weights|] == weights;
  }

  lemma GroupedMore(c: Columns, weights: seq<real>, which: Side, n: nat)
    requires Aligned(c) && |weights| == |c.side| && n < |c.side|
    ensures var before, l := Grouped(c, weights, which, n), c.lotId[n];
            Grouped(c, weights, which, n + 1) == if c.side[n] == which then before[l := before[l] + weights[n]] else before
  {
    MaskedTogether(c.lotId, weights, c.side, which, n, |c.lots|);
    if c.side[n] == which {
      BincountMore(Masked<nat>(c.lotId, c.side, which, n), Masked<real>(weights, c.side, which, n), c.lotId[n], weights[n], |c.lots|);
    } else {
      assert Masked<nat>(c.lotId, c.side, which, n + 1) == Masked<nat>(c.lotId, c.side, which, n);
      assert Masked<real>(weights, c.side, which, n + 1) == Masked<real>(weights, c.side, which, n);
    }
  }

  lemma GroupedAt(c: Columns, weights: seq<real>, which: Side, n: nat, l: nat)
    requires Aligned(c) && |weights| == |c.side| && n < |c.side| && l < |c.lots|
    ensures Grouped(c, weights, which, n + 1)[l]
         == Grouped(c, weights, which, n)[l] + if c.side[n] == which && c.lotId[n] == l then weights[n] else 0.0
  {
    GroupedMore(c, weights, which, n);
  }

  lemma TradedMore(fills: seq<Fill>, lot: Text, which: Side, n: nat)
    requires n < |fills|
    ensures var counts := fills[n].lot == lot && fills[n].side == which;
            && Traded(fills[..n + 1], lot, which) == Traded(fills[..n], lot, which) + (if counts then fills[n].qty else 0.0)
            && Times(fills[..n + 1], lot, which) == Times(fills[..n], lot, which) + (if counts then 1.0 else 0.0)
  {
    assert fills[..n + 1][..n] == fills[..n];
  }

  lemma RowDecodes(c: Columns, fills: seq<Fill>, k: nat, l: nat)
    requires Encodes(c, fills) && k < |fills| && l < |c.lots|
    ensures c.side[k] == fills[k].side && c.qty[k] == fills[k].qty
    ensures c.lotId[k] == l <==> fills[k].lot == c.lots[l]
  {
    assert Decode(c, k) == Normal(fills[k]);
  }

  lemma {:induction false} GroupedIsTraded(c: Columns, fills: seq<Fill>, which: Side, n: nat, l: nat)
    requires Encodes(c, fills) && n <= |fills| && l < |c.lots|
    ensures Grouped(c, c.qty, which, n)[l] == Traded(fills[..n], c.lots[l], which)
  {
    if n > 0 {
      GroupedIsTraded(c, fills, which, n - 1, l);
      GroupedAt(c, c.qty, which, n - 1, l);
      TradedMore(fills, c.lots[l], which, n - 1);
      RowDecodes(c, fills, n - 1, l);
    }
  }

  lemma {:induction false} GroupedIsTimes(c: Columns, fills: seq<Fill>, which: Side, n: nat, l: nat)
    requires Encodes(c, fills) && n <= |fills| && l < |c.lots|
    ensures Grouped(c, Ones(|c.side|), which, n)[l] == Times(fills[..n], c.lots[l], which)
  {
    if n > 0 {
      GroupedIsTimes(c, fills, which, n - 1, l);
      GroupedAt(c, Ones(|c.side|), which, n - 1, l);
      TradedMore(fills, c.lots[l], which, n - 1);
      RowDecodes(c, fills, n - 1, l);
    }
  }

  // Summed by lot in one pass over the columns, or over the fills of one lot: the
  // columns say of every fill's lot what the fills themselves say.
  lemma OpenLotRule(c: Columns, fills: seq<Fill>, k: nat)
    requires Encodes(c, fills) && k < |fills|
    ensures OpenLots(c)[c.lotId[k]] == IsOpen(fills, fills[k].lot)
  {
    GroupedIsTraded(c, fills, Buy, |fills|, c.lotId[k]);
    GroupedIsTraded(c, fills, Sell, |fills|, c.lotId[k]);
    GroupedIsTimes(c, fills, Buy, |fills|, c.lotId[k]);
    assert fills[..|fills|] == fills;
    assert Decode(c, k) == Normal(fills[k]);
  }

  // ---- selecting ----------------------------------------------------------

  datatype Status = All | Stuck | Closed

  // `start` in seconds; `end` names a day, counted from the epoch.
  datatype Filter = Filter(start: Option<int>, end: Option<int>, status: Status, rsiMin: Option<real>, rsiMax: Option<real>)

  function EndBound(day: int): int {
    (day + 1) * DAY
  }

  // The whole of the day a range ends on is in it.
  lemma EndDayIsWhole(ts: int, day: int)
    ensures ts < EndBound(day) <==> ts / 86400 <= day
  {
  }

  predicate Passes(c: Columns, open: seq<bool>, f: Filter, k: nat)
    requires Aligned(c) && |open| == |c.lots| && k < |c.side|
  {
    && (f.start.Some? ==> c.ts[k] >= f.start.value)
    && (f.end.Some? ==> c.ts[k] < EndBound(f.end.value))
    && (f.status.Stuck? ==> open[c.lotId[k]])
    && (f.status.Closed? ==> !open[c.lotId[k]])
    && (f.rsiMin.Some? || f.rsiMax.Some? ==> c.rsi[k].Some?)
    && (f.rsiMin.Some? ==> c.rsi[k].value >= f.rsiMin.value)
    && (f.rsiMax.Some? ==> c.rsi[k].value <= f.rsiMax.value)
  }

  // A filter, said of a fill among all the fund's: its second is not before the
  // start, its day not after the end, its lot is open or not as asked, and as soon as
  // there is a bound on the rsi it has one, and within them.
  ghost predicate Wanted(fills: seq<Fill>, k: nat, f: Filter)
    requires k < |fills|
  {
    var fill := fills[k];
    && (f.start == None || f.start.value <= Epoch(fill.micros))
    && (f.end == None || Epoch(fill.micros) / 86400 <= f.end.value)
    && (f.status == Stuck ==> IsOpen(fills, fill.lot)) && (f.status == Closed ==> !IsOpen(fills, fill.lot))
    && (fill.rsi == None ==> f.rsiMin == None && f.rsiMax == None)
    && (fill.rsi.Some? && f.rsiMin.Some? ==> f.rsiMin.value <= fill.rsi.value)
    && (fill.rsi.Some? && f.rsiMax.Some? ==> fill.rsi.value <= f.rsiMax.value)
  }

  lemma PassesIsWanted(c: Columns, fills: seq<Fill>, f: Filter, k: nat)
    requires Encodes(c, fills) && k < |fills|
    ensures Passes(c, OpenLots(c), f, k) <==> Wanted(fills, k, f)
  {
    OpenLotRule(c, fills, k);
    assert Decode(c, k) == Normal(fills[k]);
    if f.end.Some? {
      EndDayIsWhole(c.ts[k], f.end.value);
    }
  }

  function TrueAt(mask: seq<bool>, n: nat): seq<nat>
    requires n <= |mask|
  {
    if n == 0 then [] else TrueAt(mask, n - 1) + if mask[n - 1] then [n - 1] else []
  }

  function Mask(c: Columns, f: Filter): seq<bool>
    requires Aligned(c)
  {
    seq(|c.side|, k requires 0 <= k < |c.side| => Passes(c, OpenLots(c), f, k))
  }

  function Selected(c: Columns, f: Filter): seq<nat>
    requires Aligned(c)
  {
    TrueAt(Mask(c, f), |c.side|)
  }

  // mask &= keep
  method And(mask: array<bool>, keep: seq<bool>)
    requires mask.Length == |keep|
    modifies mask
    ensures forall k | 0 <= k < mask.Length :: mask[k] == (old(mask[k]) && keep[k])
  {
    for k := 0 to mask.Length
      invariant forall j | 0 <= j < k :: mask[j] == (old(mask[j]) && keep[j])
      invariant forall j | k <= j < mask.Length :: mask[j] == old(mask[j])
    {
      mask[k] := mask[k] && keep[k];
    }
  }

  method FlatNonzero(mask: seq<bool>) returns (at: seq<nat>)
    ensures at == TrueAt(mask, |mask|)
  {
    at := [];
    for k := 0 to |mask|
      invariant at == TrueAt(mask, k)
    {
      if mask[k] {
        at := at + [k];
      }
    }
  }

  // The positions of the fills passing every filter.
  method Select(c: Columns, open: seq<bool>, f: Filter) returns (selected: seq<nat>)
    requires Aligned(c) && open == OpenLots(c)
    ensures selected == Selected(c, f)
    ensures forall fills | Encodes(c, fills) :: SelectsWanted(selected, fills, f)
  {
    AlwaysSelectsWanted(c, f);
    var mask := Narrowed(c, open, f);
    selected := FlatNonzero(mask);
  }

  // The mask narrowed filter by filter.
  method Narrowed(c: Columns, open: seq<bool>, f: Filter) returns (kept: seq<bool>)
    requires Aligned(c) && open == OpenLots(c)
    ensures kept == Mask(c, f)
  {
    var n := |c.side|;
    var mask := new bool[n](_ => true);
    if f.start.Some? {
      And(mask, seq(n, k requires 0 <= k < n => c.ts[k] >= f.start.value));
    }
    if f.end.Some? {
      And(mask, seq(n, k requires 0 <= k < n => c.ts[k] < EndBound(f.end.value)));
    }
    if f.status.Stuck? {
      And(mask, seq(n, k requires 0 <= k < n => open[c.lotId[k]]));
    } else if f.status.Closed? {
      And(mask, seq(n, k requires 0 <= k < n => !open[c.lotId[k]]));
    }
    if f.rsiMin.Some? || f.rsiMax.Some? {
      And(mask, seq(n, k requires 0 <= k < n => c.rsi[k].Some?));
      if f.rsiMin.Some? {
        And(mask, seq(n, k requires 0 <= k < n => c.rsi[k].Some? && c.rsi[k].value >= f.rsiMin.value));
      }
      if f.rsiMax.Some? {
        And(mask, seq(n, k requires 0 <= k < n => c.rsi[k].Some? && c.rsi[k].value <= f.rsiMax.value));
      }
    }
    kept := mask[..];
  }

  ghost predicate Ascending(at: seq<nat>, n: nat) {
    (forall i | 0 <= i < |at| :: at[i] < n) && forall i, j | 0 <= i < j < |at| :: at[i] < at[j]
  }

  ghost predicate Has(at: seq<nat>, k: nat) {
    exists i :: 0 <= i < |at| && at[i] == k
  }

  lemma {:induction false} TrueAtFacts(mask: seq<bool>, n: nat)
    requires n <= |mask|
    ensures Ascending(TrueAt(mask, n), n)
    ensures forall k: nat :: Has(TrueAt(mask, n), k) <==> k < n && mask[k]
  {
    if n > 0 {
      TrueAtFacts(mask, n - 1);
      var before, after := TrueAt(mask, n - 1), TrueAt(mask, n);
      forall k: nat ensures Has(after, k) <==> k < n && mask[k] {
        if Has(before, k) {
          var i :| 0 <= i < |before| && before[i] == k;
          assert after[i] == k;
        }
        if k == n - 1 && mask[k] {
          assert after[|before|] == k;
        }
        if Has(after, k) && !(k == n - 1 && mask[k]) {
          var i :| 0 <= i < |after| && after[i] == k;
          assert i < |before| ==> before[i] == k;
        }
      }
    }
  }

  // Selection keeps recorded order, and takes exactly what passes.
  lemma SelectedExactly(c: Columns, f: Filter)
    requires Aligned(c)
    ensures Ascending(Selected(c, f), |c.side|)
    ensures forall k: nat :: Has(Selected(c, f), k) <==> k < |c.side| && Passes(c, OpenLots(c), f, k)
  {
    TrueAtFacts(Mask(c, f), |c.side|);
  }

  ghost predicate SelectsWanted(selected: seq<nat>, fills: seq<Fill>, f: Filter) {
    Ascending(selected, |fills|) && forall k: nat :: Has(selected, k) <==> k < |fills| && Wanted(fills, k, f)
  }

  // And what passes is what the filter says of the fills, in recorded order.
  lemma SelectedIsWanted(c: Columns, fills: seq<Fill>, f: Filter)
    requires Encodes(c, fills)
    ensures SelectsWanted(Selected(c, f), fills, f)
  {
    SelectedExactly(c, f);
    forall k: nat | k < |fills| ensures Passes(c, OpenLots(c), f, k) <==> Wanted(fills, k, f) {
      PassesIsWanted(c, fills, f, k);
    }
  }

  lemma AlwaysSelectsWanted(c: Columns, f: Filter)
    requires Aligned(c)
    ensures forall fills | Encodes(c, fills) :: SelectsWanted(Selected(c, f), fills, f)
  {
    forall fills | Encodes(c, fills) ensures SelectsWanted(Selected(c, f), fills, f) {
      SelectedIsWanted(c, fills, f);
    }
  }

  // "Stuck" and "closed" split any selection, and by what the fund's fills say of
  // the lot as a whole: the other filters have no say in it.
  lemma StuckAndClosedPartition(c: Columns, fills: seq<Fill>, f: Filter, k: nat)
    requires Encodes(c, fills) && k < |fills|
    ensures Has(Selected(c, f.(status := Stuck)), k) <==> Has(Selected(c, f.(status := All)), k) && IsOpen(fills, fills[k].lot)
    ensures Has(Selected(c, f.(status := Closed)), k) <==> Has(Selected(c, f.(status := All)), k) && !IsOpen(fills, fills[k].lot)
  {
    SelectedExactly(c, f.(status := Stuck));
    SelectedExactly(c, f.(status := Closed));
    SelectedExactly(c, f.(status := All));
    OpenLotRule(c, fills, k);
  }
}
