/**
 Splitting an oversized sweep into chunks (server/backtest.py), and the product
 a sweep's parameters stand for (expand_strategy_params in
 engine/core/config.py).
 */
module Bisect {
  import opened Seqs

  // Parameter values are only ever compared, so numbers stand for them.
  type Value = int
  type Key = string

  datatype Setting = Scalar(value: Value) | Axis(values: seq<Value>)

  // strategy_params, a Python dict: ordered, with distinct keys.
  type Space = seq<(Key, Setting)>
  type Combo = map<Key, Value>

  ghost predicate DistinctKeys(space: Space) {
    forall i, j | 0 <= i < j < |space| :: space[i].0 != space[j].0
  }

  function Choices(setting: Setting): seq<Value> {
    if setting.Axis? then setting.values else [setting.value]
  }

  // ---- the product ------------------------------------------------------

  function WithKey(key: Key, value: Value, combos: seq<Combo>): seq<Combo> {
    seq(|combos|, i requires 0 <= i < |combos| => combos[i][key := value])
  }

  function Spread(key: Key, values: seq<Value>, combos: seq<Combo>): seq<Combo> {
    if values == [] then [] else WithKey(key, values[0], combos) + Spread(key, values[1..], combos)
  }

  // itertools.product over the swept keys, the rest held fixed.
  function Expand(space: Space): seq<Combo> {
    if space == [] then [map[]] else Spread(space[0].0, Choices(space[0].1), Expand(space[1..]))
  }

  function Keys(space: Space): set<Key> {
    set entry | entry in space :: entry.0
  }

  // ---- _combos, _split_axis, _bisect_params ------------------------------

  function Combos(space: Space): nat {
    if space == [] then 1 else |Choices(space[0].1)| * Combos(space[1..])
  }

  function Width(setting: Setting): nat {
    if setting.Axis? then |setting.values| else 0
  }

  // The first of the widest axes with more than one value.
  function SplitAxis(space: Space): (at: Option<nat>)
    ensures at.Some? ==> at.value < |space| && Width(space[at.value].1) > 1
  {
    if space == [] then None
    else
      var rest := SplitAxis(space[1..]);
      if Width(space[0].1) > 1 && (rest.None? || Width(space[0].1) >= Width(space[1..][rest.value].1)) then Some(0)
      else if rest.None? then None
      else Some(rest.value + 1)
  }

  // It is the widest, the first of several as wide, and there is one whenever
  // anything can be halved at all.
  lemma {:induction false} SplitAxisIsWidest(space: Space)
    ensures match SplitAxis(space)
            case None => forall i | 0 <= i < |space| :: Width(space[i].1) <= 1
            case Some(at) =>
              (forall i | 0 <= i < |space| :: Width(space[i].1) <= Width(space[at].1))
              && forall i | 0 <= i < at :: Width(space[i].1) < Width(space[at].1)
  {
    if space != [] {
      SplitAxisIsWidest(space[1..]);
      assert forall i | 1 <= i < |space| :: space[i] == space[1..][i - 1];
    }
  }

  function WithAxis(space: Space, at: nat, values: seq<Value>): Space
    requires at < |space|
  {
    space[at := (space[at].0, Axis(values))]
  }

  function Size(space: Space): nat {
    if space == [] then 0 else Width(space[0].1) + Size(space[1..])
  }

  lemma {:induction false} WithAxisSize(space: Space, at: nat, values: seq<Value>)
    requires at < |space|
    ensures Size(WithAxis(space, at, values)) + Width(space[at].1) == Size(space) + |values|
  {
    if at == 0 {
      assert WithAxis(space, at, values)[1..] == space[1..];
    } else {
      WithAxisSize(space[1..], at - 1, values);
      assert WithAxis(space, at, values)[1..] == WithAxis(space[1..], at - 1, values);
    }
  }

  function BisectParams(space: Space, cap: nat): seq<Space>
    decreases Size(space)
  {
    if Combos(space) <= cap then [space]
    else
      match SplitAxis(space)
      case None => [space]
      case Some(at) =>
        var values := space[at].1.values;
        var mid := |values| / 2;
        WithAxisSize(space, at, values[..mid]);
        WithAxisSize(space, at, values[mid..]);
        BisectParams(WithAxis(space, at, values[..mid]), cap)
        + BisectParams(WithAxis(space, at, values[mid..]), cap)
  }

  // ---- what a split keeps -------------------------------------------------

  lemma ConcatAssociates<T>(a: seq<T>, b: seq<T>, c: seq<T>)
    ensures a + (b + c) == (a + b) + c
  {
  }

  lemma {:induction false} SpreadConcat(key: Key, values: seq<Value>, more: seq<Value>, combos: seq<Combo>)
    ensures Spread(key, values + more, combos) == Spread(key, values, combos) + Spread(key, more, combos)
  {
    if values == [] {
      assert values + more == more;
    } else {
      SpreadConcat(key, values[1..], more, combos);
      assert (values + more)[1..] == values[1..] + more;
      ConcatAssociates(WithKey(key, values[0], combos), Spread(key, values[1..], combos), Spread(key, more, combos));
    }
  }

  // How often a combination occurs once a key has been given a value.
  lemma {:induction false} WithKeyCount(key: Key, value: Value, combos: seq<Combo>, c: Combo)
    requires forall x | x in combos :: key !in x
    ensures multiset(WithKey(key, value, combos))[c]
         == if key in c && c[key] == value then multiset(combos)[c - {key}] else 0
  {
    if combos == [] {
      assert WithKey(key, value, combos) == [];
    } else {
      WithKeyCount(key, value, combos[1..], c);
      assert combos == [combos[0]] + combos[1..];
      assert WithKey(key, value, combos) == [combos[0][key := value]] + WithKey(key, value, combos[1..]);
      assert combos[0] in combos;
      assert combos[0][key := value] - {key} == combos[0];
      assert key in c && c[key] == value ==> (c - {key})[key := value] == c;
    }
  }

  lemma SplitWithKey(key: Key, value: Value, whole: seq<Combo>, left: seq<Combo>, right: seq<Combo>)
    requires multiset(whole) == multiset(left) + multiset(right)
    requires forall x | x in whole :: key !in x
    ensures multiset(WithKey(key, value, whole)) == multiset(WithKey(key, value, left)) + multiset(WithKey(key, value, right))
  {
    forall x | x in left || x in right ensures key !in x {
      assert x in multiset(whole);
    }
    forall c: Combo
      ensures multiset(WithKey(key, value, whole))[c]
           == (multiset(WithKey(key, value, left)) + multiset(WithKey(key, value, right)))[c]
    {
      WithKeyCount(key, value, whole, c);
      WithKeyCount(key, value, left, c);
      WithKeyCount(key, value, right, c);
    }
  }

  lemma {:induction false} SplitSpread(key: Key, values: seq<Value>, whole: seq<Combo>, left: seq<Combo>, right: seq<Combo>)
    requires multiset(whole) == multiset(left) + multiset(right)
    requires forall x | x in whole :: key !in x
    ensures multiset(Spread(key, values, whole)) == multiset(Spread(key, values, left)) + multiset(Spread(key, values, right))
  {
    if values != [] {
      SplitWithKey(key, values[0], whole, left, right);
      SplitSpread(key, values[1..], whole, left, right);
    }
  }

  lemma {:induction false} SpreadKeys(key: Key, values: seq<Value>, combos: seq<Combo>, keys: set<Key>)
    requires forall x | x in combos :: x.Keys == keys
    ensures forall x | x in Spread(key, values, combos) :: x.Keys == keys + {key}
  {
    if values != [] {
      SpreadKeys(key, values[1..], combos, keys);
      forall x | x in WithKey(key, values[0], combos) ensures x.Keys == keys + {key} {
        var i :| 0 <= i < |combos| && x == combos[i][key := values[0]];
        assert combos[i] in combos;
      }
    }
  }

  // Every combination gives a value to exactly the parameters of the space.
  lemma {:induction false} ExpandKeys(space: Space)
    ensures forall x | x in Expand(space) :: x.Keys == Keys(space)
  {
    if space != [] {
      ExpandKeys(space[1..]);
      SpreadKeys(space[0].0, Choices(space[0].1), Expand(space[1..]), Keys(space[1..]));
      assert space == [space[0]] + space[1..];
      assert Keys(space) == Keys(space[1..]) + {space[0].0};
    }
  }

  lemma {:induction false} SpreadLength(key: Key, values: seq<Value>, combos: seq<Combo>)
    ensures |Spread(key, values, combos)| == |values| * |combos|
  {
    if values != [] {
      SpreadLength(key, values[1..], combos);
      assert |values| * |combos| == |combos| + (|values| - 1) * |combos|;
    }
  }

  // _combos counts the product without building it.
  lemma {:induction false} CombosCounts(space: Space)
    ensures Combos(space) == |Expand(space)|
  {
    if space != [] {
      CombosCounts(space[1..]);
      SpreadLength(space[0].0, Choices(space[0].1), Expand(space[1..]));
    }
  }

  // Halving an axis deals the product out to the two halves.
  lemma {:induction false} HalvesPartition(space: Space, at: nat, mid: nat)
    requires DistinctKeys(space) && at < |space| && space[at].1.Axis? && mid <= |space[at].1.values|
    ensures var values := space[at].1.values;
            multiset(Expand(space))
            == multiset(Expand(WithAxis(space, at, values[..mid]))) + multiset(Expand(WithAxis(space, at, values[mid..])))
  {
    var values := space[at].1.values;
    var left, right := WithAxis(space, at, values[..mid]), WithAxis(space, at, values[mid..]);
    if at == 0 {
      assert left[1..] == space[1..] && right[1..] == space[1..];
      assert values == values[..mid] + values[mid..];
      SpreadConcat(space[0].0, values[..mid], values[mid..], Expand(space[1..]));
    } else {
      HalvesPartition(space[1..], at - 1, mid);
      assert left[1..] == WithAxis(space[1..], at - 1, values[..mid]);
      assert right[1..] == WithAxis(space[1..], at - 1, values[mid..]);
      ExpandKeys(space[1..]);
      FirstKeyIsNew(space);
      SplitSpread(space[0].0, Choices(space[0].1), Expand(space[1..]), Expand(left[1..]), Expand(right[1..]));
    }
  }

  lemma FirstKeyIsNew(space: Space)
    requires DistinctKeys(space) && space != []
    ensures space[0].0 !in Keys(space[1..]) && DistinctKeys(space[1..])
  {
    var rest := space[1..];
    forall entry | entry in rest ensures entry.0 != space[0].0 {
      var i :| 0 <= i < |rest| && rest[i] == entry;
      assert space[i + 1] == entry;
    }
    forall i, j | 0 <= i < j < |rest| ensures rest[i].0 != rest[j].0 {
      assert space[i + 1] == rest[i] && space[j + 1] == rest[j];
    }
  }

  function ExpandAll(chunks: seq<Space>): seq<Combo> {
    if chunks == [] then [] else Expand(chunks[0]) + ExpandAll(chunks[1..])
  }

  lemma {:induction false} ExpandAllConcat(a: seq<Space>, b: seq<Space>)
    ensures ExpandAll(a + b) == ExpandAll(a) + ExpandAll(b)
  {
    if a == [] {
      assert a + b == b;
    } else {
      ExpandAllConcat(a[1..], b);
      assert (a + b)[1..] == a[1..] + b;
      ConcatAssociates(Expand(a[0]), ExpandAll(a[1..]), ExpandAll(b));
    }
  }

  lemma WithAxisKeys(space: Space, at: nat, values: seq<Value>)
    requires DistinctKeys(space) && at < |space|
    ensures DistinctKeys(WithAxis(space, at, values))
    ensures Keys(WithAxis(space, at, values)) == Keys(space)
  {
    var other := WithAxis(space, at, values);
    forall k ensures k in Keys(other) <==> k in Keys(space) {
      if k in Keys(other) {
        var i :| 0 <= i < |other| && other[i].0 == k;
        assert space[i] in space;
      }
      if k in Keys(space) {
        var i :| 0 <= i < |space| && space[i].0 == k;
        assert other[i] in other;
      }
    }
  }

  // Every combination of the space is in exactly one chunk, as often as it was
  // in the space.
  lemma {:induction false} ChunksPartition(space: Space, cap: nat)
    requires DistinctKeys(space)
    ensures multiset(ExpandAll(BisectParams(space, cap))) == multiset(Expand(space))
    decreases Size(space)
  {
    if Combos(space) > cap && SplitAxis(space).Some? {
      var at := SplitAxis(space).value;
      var values := space[at].1.values;
      var mid := |values| / 2;
      var left, right := WithAxis(space, at, values[..mid]), WithAxis(space, at, values[mid..]);
      WithAxisSize(space, at, values[..mid]);
      WithAxisSize(space, at, values[mid..]);
      WithAxisKeys(space, at, values[..mid]);
      WithAxisKeys(space, at, values[mid..]);
      ChunksPartition(left, cap);
      ChunksPartition(right, cap);
      ExpandAllConcat(BisectParams(left, cap), BisectParams(right, cap));
      HalvesPartition(space, at, mid);
    } else {
      assert BisectParams(space, cap)[1..] == [];
      assert Expand(space) + [] == Expand(space);
    }
  }

  lemma {:induction false} NothingToSplit(space: Space)
    requires SplitAxis(space) == None
    ensures Combos(space) <= 1
  {
    if space != [] {
      NothingToSplit(space[1..]);
      assert |Choices(space[0].1)| <= 1;
    }
  }

  // No chunk is over the cap, but for the one combination a cap of 0 cannot hold.
  lemma {:induction false} ChunksFit(space: Space, cap: nat)
    ensures forall chunk | chunk in BisectParams(space, cap) :: Combos(chunk) <= if cap == 0 then 1 else cap
    decreases Size(space)
  {
    if Combos(space) > cap {
      if SplitAxis(space).None? {
        NothingToSplit(space);
      } else {
        var at := SplitAxis(space).value;
        var values := space[at].1.values;
        var mid := |values| / 2;
        WithAxisSize(space, at, values[..mid]);
        WithAxisSize(space, at, values[mid..]);
        ChunksFit(WithAxis(space, at, values[..mid]), cap);
        ChunksFit(WithAxis(space, at, values[mid..]), cap);
      }
    }
  }

  ghost predicate NothingEmpty(space: Space) {
    forall entry | entry in space :: Choices(entry.1) != []
  }

  // The first combination: every axis at its first value.
  function First(space: Space): Combo
    requires NothingEmpty(space)
  {
    if space == [] then map[]
    else
      assert space == [space[0]] + space[1..];
      First(space[1..])[space[0].0 := Choices(space[0].1)[0]]
  }

  lemma {:induction false} FirstIsFirst(space: Space)
    requires NothingEmpty(space)
    ensures Expand(space) != [] && Expand(space)[0] == First(space)
  {
    if space != [] {
      assert space == [space[0]] + space[1..];
      FirstIsFirst(space[1..]);
    }
  }

  lemma {:induction false} FrontKeepsFirst(space: Space, at: nat, values: seq<Value>)
    requires NothingEmpty(space) && at < |space| && values != [] && Choices(space[at].1)[0] == values[0]
    ensures NothingEmpty(WithAxis(space, at, values)) && First(WithAxis(space, at, values)) == First(space)
  {
    var other := WithAxis(space, at, values);
    assert space == [space[0]] + space[1..];
    if at == 0 {
      assert other[1..] == space[1..];
    } else {
      FrontKeepsFirst(space[1..], at - 1, values);
      assert other[1..] == WithAxis(space[1..], at - 1, values);
    }
    assert other == [other[0]] + other[1..];
  }

  // The first chunk starts where the whole sweep did.
  lemma {:induction false} FirstChunkKeepsFirst(space: Space, cap: nat)
    requires NothingEmpty(space)
    ensures var chunks := BisectParams(space, cap);
            chunks != [] && NothingEmpty(chunks[0]) && First(chunks[0]) == First(space)
    decreases Size(space)
  {
    if Combos(space) > cap && SplitAxis(space).Some? {
      var at := SplitAxis(space).value;
      var values := space[at].1.values;
      var mid := |values| / 2;
      WithAxisSize(space, at, values[..mid]);
      WithAxisSize(space, at, values[mid..]);
      FrontKeepsFirst(space, at, values[..mid]);
      FirstChunkKeepsFirst(WithAxis(space, at, values[..mid]), cap);
    }
  }

  // ---- bisect_request -----------------------------------------------------

  datatype Config = Config(step: real, target: real, params: Combo)

  datatype Request = Request(steps: seq<real>, targets: seq<real>, params: Space)

  function Tagged(step: real, target: real, combos: seq<Combo>): seq<Config> {
    seq(|combos|, i requires 0 <= i < |combos| => Config(step, target, combos[i]))
  }

  function OverTargets(step: real, targets: seq<real>, combos: seq<Combo>): seq<Config> {
    if targets == [] then [] else Tagged(step, targets[0], combos) + OverTargets(step, targets[1..], combos)
  }

  function OverSteps(steps: seq<real>, targets: seq<real>, combos: seq<Combo>): seq<Config> {
    if steps == [] then [] else OverTargets(steps[0], targets, combos) + OverSteps(steps[1..], targets, combos)
  }

  // What a request sweeps, in the order GridSearch suggests it.
  function Grid(r: Request): seq<Config> {
    OverSteps(r.steps, r.targets, Expand(r.params))
  }

  function GridAxes(r: Request): nat {
    |r.steps| * |r.targets|
  }

  // steps and targets are never empty: the request model refuses them.
  function ChunkCap(r: Request, cap: nat): nat
    requires r.steps != [] && r.targets != []
  {
    if cap / GridAxes(r) < 1 then 1 else cap / GridAxes(r)
  }

  function BisectRequest(r: Request, cap: nat): seq<Request>
    requires r.steps != [] && r.targets != []
  {
    var chunks := BisectParams(r.params, ChunkCap(r, cap));
    if |chunks| == 1 then [r]
    else seq(|chunks|, i requires 0 <= i < |chunks| => r.(params := chunks[i]))
  }

  lemma {:induction false} TaggedCount(step: real, target: real, combos: seq<Combo>, c: Config)
    ensures multiset(Tagged(step, target, combos))[c]
         == if c.step == step && c.target == target then multiset(combos)[c.params] else 0
  {
    if combos == [] {
      assert Tagged(step, target, combos) == [];
    } else {
      TaggedCount(step, target, combos[1..], c);
      assert combos == [combos[0]] + combos[1..];
      assert Tagged(step, target, combos) == [Config(step, target, combos[0])] + Tagged(step, target, combos[1..]);
    }
  }

  lemma SplitTagged(step: real, target: real, whole: seq<Combo>, left: seq<Combo>, right: seq<Combo>)
    requires multiset(whole) == multiset(left) + multiset(right)
    ensures multiset(Tagged(step, target, whole)) == multiset(Tagged(step, target, left)) + multiset(Tagged(step, target, right))
  {
    forall c: Config
      ensures multiset(Tagged(step, target, whole))[c]
           == (multiset(Tagged(step, target, left)) + multiset(Tagged(step, target, right)))[c]
    {
      TaggedCount(step, target, whole, c);
      TaggedCount(step, target, left, c);
      TaggedCount(step, target, right, c);
    }
  }

  lemma {:induction false} SplitTargets(step: real, targets: seq<real>, whole: seq<Combo>, left: seq<Combo>, right: seq<Combo>)
    requires multiset(whole) == multiset(left) + multiset(right)
    ensures multiset(OverTargets(step, targets, whole))
         == multiset(OverTargets(step, targets, left)) + multiset(OverTargets(step, targets, right))
  {
    if targets != [] {
      SplitTagged(step, targets[0], whole, left, right);
      SplitTargets(step, targets[1..], whole, left, right);
    }
  }

  lemma {:induction false} SplitSteps(steps: seq<real>, targets: seq<real>, whole: seq<Combo>, left: seq<Combo>, right: seq<Combo>)
    requires multiset(whole) == multiset(left) + multiset(right)
    ensures multiset(OverSteps(steps, targets, whole))
         == multiset(OverSteps(steps, targets, left)) + multiset(OverSteps(steps, targets, right))
  {
    if steps != [] {
      SplitTargets(steps[0], targets, whole, left, right);
      SplitSteps(steps[1..], targets, whole, left, right);
    }
  }

  function GridAll(requests: seq<Request>): seq<Config> {
    if requests == [] then [] else Grid(requests[0]) + GridAll(requests[1..])
  }

  lemma {:induction false} GridOfChunks(r: Request, chunks: seq<Space>)
    ensures multiset(GridAll(seq(|chunks|, i requires 0 <= i < |chunks| => r.(params := chunks[i]))))
         == multiset(OverSteps(r.steps, r.targets, ExpandAll(chunks)))
  {
    var requests := seq(|chunks|, i requires 0 <= i < |chunks| => r.(params := chunks[i]));
    if chunks == [] {
      EmptyGrid(r.steps, r.targets);
    } else {
      GridOfChunks(r, chunks[1..]);
      assert requests[1..] == seq(|chunks[1..]|, i requires 0 <= i < |chunks[1..]| => r.(params := chunks[1..][i]));
      SplitSteps(r.steps, r.targets, ExpandAll(chunks), Expand(chunks[0]), ExpandAll(chunks[1..]));
    }
  }

  lemma EmptyGrid(steps: seq<real>, targets: seq<real>)
    ensures OverSteps(steps, targets, []) == []
  {
    if steps != [] {
      EmptyTargets(steps[0], targets);
      EmptyGrid(steps[1..], targets);
    }
  }

  lemma EmptyTargets(step: real, targets: seq<real>)
    ensures OverTargets(step, targets, []) == []
  {
  }

  lemma {:induction false} SameSteps(steps: seq<real>, targets: seq<real>, a: seq<Combo>, b: seq<Combo>)
    requires multiset(a) == multiset(b)
    ensures multiset(OverSteps(steps, targets, a)) == multiset(OverSteps(steps, targets, b))
  {
    EmptyGrid(steps, targets);
    SplitSteps(steps, targets, a, b, []);
  }

  // Bisecting changes nothing about what is swept: together the chunks sweep
  // exactly the configurations of the request, each as often; none of them is
  // larger than the cap allows; and the first starts with the first.
  lemma BisectingKeepsTheSweep(r: Request, cap: nat)
    requires r.steps != [] && r.targets != [] && DistinctKeys(r.params)
    ensures multiset(GridAll(BisectRequest(r, cap))) == multiset(Grid(r))
    ensures forall chunk | chunk in BisectRequest(r, cap) ::
              Combos(chunk.params) * GridAxes(chunk) <= (if cap < GridAxes(r) then GridAxes(r) else cap)
    ensures NothingEmpty(r.params) ==>
              var chunks := BisectRequest(r, cap);
              chunks != [] && Grid(chunks[0]) != [] && Grid(r) != [] && Grid(chunks[0])[0] == Grid(r)[0]
  {
    var chunkCap := ChunkCap(r, cap);
    var chunks := BisectParams(r.params, chunkCap);
    ChunksPartition(r.params, chunkCap);
    ChunksFit(r.params, chunkCap);
    if |chunks| == 1 {
      assert GridAll([r]) == Grid(r) + GridAll([r][1..]);
      AloneIsWhole(r.params, chunkCap);
    } else {
      GridOfChunks(r, chunks);
      SameSteps(r.steps, r.targets, ExpandAll(chunks), Expand(r.params));
    }
    CapHolds(r, cap);
    if NothingEmpty(r.params) {
      FirstChunkKeepsFirst(r.params, chunkCap);
      GridStarts(r);
      GridStarts(BisectRequest(r, cap)[0]);
    }
  }

  lemma GridStarts(r: Request)
    requires r.steps != [] && r.targets != [] && NothingEmpty(r.params)
    ensures Grid(r) != [] && Grid(r)[0] == Config(r.steps[0], r.targets[0], First(r.params))
  {
    FirstIsFirst(r.params);
  }

  // One chunk is the space itself.
  lemma AloneIsWhole(space: Space, cap: nat)
    requires |BisectParams(space, cap)| == 1
    ensures BisectParams(space, cap) == [space]
  {
    if Combos(space) > cap && SplitAxis(space).Some? {
      var at := SplitAxis(space).value;
      var values := space[at].1.values;
      WithAxisSize(space, at, values[..|values| / 2]);
      WithAxisSize(space, at, values[|values| / 2..]);
      SomeChunk(WithAxis(space, at, values[..|values| / 2]), cap);
      SomeChunk(WithAxis(space, at, values[|values| / 2..]), cap);
    }
  }

  lemma {:induction false} SomeChunk(space: Space, cap: nat)
    ensures |BisectParams(space, cap)| >= 1
    decreases Size(space)
  {
    if Combos(space) > cap && SplitAxis(space).Some? {
      var at := SplitAxis(space).value;
      var values := space[at].1.values;
      WithAxisSize(space, at, values[..|values| / 2]);
      WithAxisSize(space, at, values[|values| / 2..]);
      SomeChunk(WithAxis(space, at, values[..|values| / 2]), cap);
    }
  }

  lemma CapHolds(r: Request, cap: nat)
    requires r.steps != [] && r.targets != []
    ensures forall chunk | chunk in BisectRequest(r, cap) ::
              Combos(chunk.params) * GridAxes(chunk) <= (if cap < GridAxes(r) then GridAxes(r) else cap)
  {
    var chunkCap := ChunkCap(r, cap);
    var chunks := BisectParams(r.params, chunkCap);
    ChunksFit(r.params, chunkCap);
    forall chunk | chunk in BisectRequest(r, cap)
      ensures Combos(chunk.params) * GridAxes(chunk) <= (if cap < GridAxes(r) then GridAxes(r) else cap)
    {
      if |chunks| == 1 {
        AloneIsWhole(r.params, chunkCap);
        assert r.params in chunks;
      } else {
        var i :| 0 <= i < |chunks| && chunk == r.(params := chunks[i]);
        assert chunks[i] in chunks;
      }
      assert Combos(chunk.params) <= chunkCap;
      Scales(Combos(chunk.params), chunkCap, cap, GridAxes(r));
    }
  }

  lemma Scales(count: nat, chunkCap: nat, cap: nat, axes: nat)
    requires axes >= 1 && count <= chunkCap && chunkCap == if cap / axes < 1 then 1 else cap / axes
    ensures count * axes <= if cap < axes then axes else cap
  {
    assert count * axes <= chunkCap * axes;
    assert cap / axes * axes <= cap;
    if cap < axes {
      assert cap / axes == 0;
    }
  }

  // ---- no further than needed --------------------------------------------

  lemma Regroups(a: nat, b: nat, c: nat)
    ensures a * (b * c) == a * b * c == c * (a * b) == a * c * b
  {
  }

  lemma GridCounts(r: Request)
    ensures |Grid(r)| == Combos(r.params) * GridAxes(r)
  {
    var combos := Expand(r.params);
    CombosCounts(r.params);
    StepsCount(r.steps, r.targets, combos);
    Regroups(|r.steps|, |r.targets|, |combos|);
  }

  lemma {:induction false} TargetsCount(targets: seq<real>, combos: seq<Combo>)
    ensures forall step :: |OverTargets(step, targets, combos)| == |targets| * |combos|
  {
    if targets != [] {
      TargetsCount(targets[1..], combos);
      assert |targets| * |combos| == |combos| + |targets[1..]| * |combos|;
    }
  }

  lemma {:induction false} StepsCount(steps: seq<real>, targets: seq<real>, combos: seq<Combo>)
    ensures |OverSteps(steps, targets, combos)| == |steps| * (|targets| * |combos|)
  {
    if steps != [] {
      TargetsCount(targets, combos);
      StepsCount(steps[1..], targets, combos);
      assert |steps| * (|targets| * |combos|) == |targets| * |combos| + |steps[1..]| * (|targets| * |combos|);
    }
  }

  // An axis cut down to some of its values leaves that share of the product.
  lemma {:induction false} WithAxisCombos(space: Space, at: nat, values: seq<Value>)
    requires at < |space| && space[at].1.Axis?
    ensures Combos(WithAxis(space, at, values)) * Width(space[at].1) == Combos(space) * |values|
  {
    var cut, rest := WithAxis(space, at, values), Combos(space[1..]);
    if at == 0 {
      assert cut[1..] == space[1..];
      Regroups(|values|, rest, Width(space[0].1));
    } else {
      WithAxisCombos(space[1..], at - 1, values);
      assert cut[1..] == WithAxis(space[1..], at - 1, values);
      Regroups(|Choices(space[0].1)|, Combos(cut[1..]), Width(space[at].1));
      Regroups(|Choices(space[0].1)|, rest, |values|);
    }
  }

  // Half of an axis is at least a third of it.
  lemma HalfIsAThird(space: Space, at: nat, values: seq<Value>)
    requires at < |space| && Width(space[at].1) > 1 && |values| >= Width(space[at].1) / 2
    ensures 3 * Combos(WithAxis(space, at, values)) >= Combos(space)
  {
    WithAxisCombos(space, at, values);
    Thirds(Combos(WithAxis(space, at, values)), Combos(space), |values|, Width(space[at].1));
  }

  lemma Thirds(part: nat, whole: nat, some: nat, wide: nat)
    requires wide > 1 && some >= wide / 2 && part * wide == whole * some
    ensures 3 * part >= whole
  {
    Regroups(whole, 3, some);
    Regroups(3, part, wide);
    Cancels(3 * part, whole, 3 * some, wide);
  }

  lemma Cancels(a: nat, b: nat, some: nat, wide: nat)
    requires wide > 0 && some >= wide && a * wide == b * some
    ensures a >= b
  {
    assert b * some == b * wide + b * (some - wide);
    assert (a - b) * wide == b * (some - wide);
  }

  // Nothing within the cap is ever halved, so every part keeps more than a
  // third of the cap.
  lemma {:induction false} PartsAreNotSmall(space: Space, cap: nat)
    ensures forall chunk | chunk in BisectParams(space, cap) :: chunk == space || 3 * Combos(chunk) > cap
    decreases Size(space)
  {
    if Combos(space) > cap && SplitAxis(space).Some? {
      var at := SplitAxis(space).value;
      var values := space[at].1.values;
      var mid := |values| / 2;
      var left, right := WithAxis(space, at, values[..mid]), WithAxis(space, at, values[mid..]);
      WithAxisSize(space, at, values[..mid]);
      WithAxisSize(space, at, values[mid..]);
      HalfIsAThird(space, at, values[..mid]);
      HalfIsAThird(space, at, values[mid..]);
      PartsAreNotSmall(left, cap);
      PartsAreNotSmall(right, cap);
    }
  }

  // One chunk exactly when the space fits or cannot be halved.
  lemma AloneIff(space: Space, cap: nat)
    requires cap >= 1
    ensures |BisectParams(space, cap)| == 1 <==> Combos(space) <= cap
  {
    if Combos(space) > cap {
      if SplitAxis(space).None? {
        NothingToSplit(space);
      } else {
        var at := SplitAxis(space).value;
        var values := space[at].1.values;
        WithAxisSize(space, at, values[..|values| / 2]);
        WithAxisSize(space, at, values[|values| / 2..]);
        SomeChunk(WithAxis(space, at, values[..|values| / 2]), cap);
        SomeChunk(WithAxis(space, at, values[|values| / 2..]), cap);
      }
    }
  }

  lemma WithinTheCap(count: nat, cap: nat, axes: nat)
    requires axes >= 1
    ensures count <= cap / axes <==> count * axes <= cap
  {
    var quotient, left := cap / axes, cap % axes;
    assert cap == quotient * axes + left;
    if count <= quotient {
      assert count * axes <= quotient * axes;
    } else {
      assert count * axes >= (quotient + 1) * axes;
    }
  }

  lemma PartIsLarge(r: Request, cap: nat, part: Space)
    requires r.steps != [] && r.targets != [] && 3 * Combos(part) > ChunkCap(r, cap)
    ensures 3 * |Grid(r.(params := part))| > cap
  {
    var axes := GridAxes(r);
    assert ChunkCap(r, cap) >= cap / axes;
    OverTheCap(Combos(part), cap, axes);
    GridCounts(r.(params := part));
    assert GridAxes(r.(params := part)) == axes;
  }

  lemma OverTheCap(count: nat, cap: nat, axes: nat)
    requires axes >= 1 && 3 * count > cap / axes
    ensures 3 * (count * axes) > cap
  {
    WithinTheCap(3 * count, cap, axes);
    Regroups(3, count, axes);
  }

  lemma EachIsALargePart(r: Request, cap: nat)
    requires r.steps != [] && r.targets != [] && |BisectParams(r.params, ChunkCap(r, cap))| != 1
    ensures forall chunk | chunk in BisectRequest(r, cap) ::
              chunk.steps == r.steps && chunk.targets == r.targets && 3 * |Grid(chunk)| > cap
  {
    var chunkCap := ChunkCap(r, cap);
    var chunks := BisectParams(r.params, chunkCap);
    AloneIff(r.params, chunkCap);
    PartsAreNotSmall(r.params, chunkCap);
    ChunksFit(r.params, chunkCap);
    forall chunk | chunk in BisectRequest(r, cap)
      ensures chunk.steps == r.steps && chunk.targets == r.targets && 3 * |Grid(chunk)| > cap
    {
      var i :| 0 <= i < |chunks| && chunk == r.(params := chunks[i]);
      assert chunks[i] in chunks;
      PartIsLarge(r, cap, chunks[i]);
    }
  }

  // A request is returned unchanged exactly when it is within the cap or has a
  // single combination; of one that is not, every part is more than a third of
  // the cap.
  lemma OnlyWhatMustBeSplit(r: Request, cap: nat)
    requires r.steps != [] && r.targets != []
    ensures BisectRequest(r, cap) == [r] <==> |Grid(r)| <= cap || |Expand(r.params)| <= 1
    ensures BisectRequest(r, cap) != [r] ==> forall chunk | chunk in BisectRequest(r, cap) ::
              chunk.steps == r.steps && chunk.targets == r.targets && 3 * |Grid(chunk)| > cap
  {
    var chunkCap := ChunkCap(r, cap);
    var chunks := BisectParams(r.params, chunkCap);
    GridCounts(r);
    CombosCounts(r.params);
    AloneIff(r.params, chunkCap);
    WithinTheCap(Combos(r.params), cap, GridAxes(r));
    if |chunks| != 1 {
      EachIsALargePart(r, cap);
      SomeChunk(r.params, chunkCap);
      assert |BisectRequest(r, cap)| > 1;
    }
  }
}
