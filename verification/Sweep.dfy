/**
 A grid sweep stopped and resumed (server/backtest.py): which finished rows are
 kept, which configurations are suggested again, and what all attempts together
 have computed at the end.
 */
module Sweep {
  import opened Seqs
  import opened Bisect

  // None, which is also what a row gives for a column it does not have.
  const NONE: Value := 0

  // A full SimulationResult, only ever passed on.
  type Result = int

  // `failed` says that the row has an error text.
  datatype Row = Row(step: real, target: real, columns: map<Key, Value>, metrics: map<string, Option<real>>, failed: bool)

  // What the engine makes of a configuration.
  datatype Outcome = Ran(metrics: map<string, Option<real>>, result: Result) | CouldNotRun

  // A configuration that could not be run has a row, with no metrics in it.
  function RowOf(c: Config, o: Outcome): Row {
    Row(c.step, c.target, c.params, if o.Ran? then o.metrics else map[], o.CouldNotRun?)
  }

  function ResultOf(o: Outcome): Option<Result> {
    if o.Ran? then Some(o.result) else None
  }

  function RowsFor(configs: seq<Config>, eval: Config -> Outcome): seq<Row> {
    seq(|configs|, i requires 0 <= i < |configs| => RowOf(configs[i], eval(configs[i])))
  }

  // _combination_key of a finished row, over the parameters this sweep has.
  function KeyOf(row: Row, keys: set<Key>): Config {
    Config(row.step, row.target, map k | k in keys :: if k in row.columns then row.columns[k] else NONE)
  }

  function KeysOf(rows: seq<Row>, keys: set<Key>): seq<Config> {
    seq(|rows|, i requires 0 <= i < |rows| => KeyOf(rows[i], keys))
  }

  // Every combination of a grid has a value for the same parameters.
  ghost predicate Uniform(grid: seq<Config>, keys: set<Key>) {
    forall c | c in grid :: c.params.Keys == keys
  }

  lemma {:induction false} GridIsUniform(steps: seq<real>, targets: seq<real>, combos: seq<Combo>, keys: set<Key>)
    requires forall x | x in combos :: x.Keys == keys
    ensures Uniform(OverSteps(steps, targets, combos), keys)
  {
    if steps != [] {
      TargetsAreUniform(steps[0], targets, combos, keys);
      GridIsUniform(steps[1..], targets, combos, keys);
    }
  }

  lemma {:induction false} TargetsAreUniform(step: real, targets: seq<real>, combos: seq<Combo>, keys: set<Key>)
    requires forall x | x in combos :: x.Keys == keys
    ensures Uniform(OverTargets(step, targets, combos), keys)
  {
    if targets != [] {
      TargetsAreUniform(step, targets[1..], combos, keys);
    }
  }

  // A request's own grid is uniform.
  lemma RequestIsUniform(r: Request)
    ensures Uniform(Grid(r), Keys(r.params))
  {
    ExpandKeys(r.params);
    GridIsUniform(r.steps, r.targets, Expand(r.params), Keys(r.params));
  }

  lemma KeyOfRow(c: Config, o: Outcome, keys: set<Key>)
    requires c.params.Keys == keys
    ensures KeyOf(RowOf(c, o), keys) == c
  {
    assert KeyOf(RowOf(c, o), keys).params == c.params;
  }

  // ---- what is kept of a checkpoint -------------------------------------

  // Rows of this grid, each configuration once, the first of its rows.
  function KeepOnce(prior: seq<Row>, grid: set<Config>, keys: set<Key>, skip: set<Config>): seq<Row> {
    if prior == [] then []
    else
      var key := KeyOf(prior[0], keys);
      if key in grid && key !in skip then [prior[0]] + KeepOnce(prior[1..], grid, keys, skip + {key})
      else KeepOnce(prior[1..], grid, keys, skip)
  }

  function Kept(prior: seq<Row>, grid: seq<Config>, keys: set<Key>): seq<Row> {
    KeepOnce(prior, Elems(grid), keys, {})
  }

  function Skip(prior: seq<Row>, grid: seq<Config>, keys: set<Key>): set<Config> {
    Elems(KeysOf(Kept(prior, grid, keys), keys))
  }

  // Whatever duplicates and foreign rows the checkpoint holds: exactly the
  // configurations of the grid that it has a row of, once each.
  lemma {:induction false} KeepOnceFacts(prior: seq<Row>, grid: set<Config>, keys: set<Key>, skip: set<Config>)
    ensures var kept := KeepOnce(prior, grid, keys, skip);
            && NoDup(KeysOf(kept, keys))
            && (forall row | row in kept :: row in prior)
            && (forall c :: c in KeysOf(kept, keys) <==> c in KeysOf(prior, keys) && c in grid && c !in skip)
  {
    if prior != [] {
      var key := KeyOf(prior[0], keys);
      var more := if key in grid && key !in skip then skip + {key} else skip;
      var rest := KeepOnce(prior[1..], grid, keys, more);
      KeepOnceFacts(prior[1..], grid, keys, more);
      assert prior == [prior[0]] + prior[1..];
      assert KeysOf(prior, keys) == [key] + KeysOf(prior[1..], keys);
      if key in grid && key !in skip {
        assert KeysOf([prior[0]] + rest, keys) == [key] + KeysOf(rest, keys);
      }
    }
  }

  lemma OneMoreKey(rows: seq<Row>, row: Row, keys: set<Key>)
    ensures Elems(KeysOf(rows + [row], keys)) == Elems(KeysOf(rows, keys)) + {KeyOf(row, keys)}
  {
    assert KeysOf(rows + [row], keys) == KeysOf(rows, keys) + [KeyOf(row, keys)];
  }

  lemma KeepStep(prior: seq<Row>, i: nat, grid: set<Config>, keys: set<Key>, skip: set<Config>, kept: seq<Row>)
    requires i < |prior|
    ensures var key := KeyOf(prior[i], keys);
            kept + KeepOnce(prior[i..], grid, keys, skip)
            == if key in grid && key !in skip then (kept + [prior[i]]) + KeepOnce(prior[i + 1..], grid, keys, skip + {key})
               else kept + KeepOnce(prior[i + 1..], grid, keys, skip)
  {
    var key := KeyOf(prior[i], keys);
    assert prior[i..][1..] == prior[i + 1..];
    if key in grid && key !in skip {
      var rest := KeepOnce(prior[i + 1..], grid, keys, skip + {key});
      assert kept + ([prior[i]] + rest) == (kept + [prior[i]]) + rest;
    }
  }

  method KeepPrior(prior: seq<Row>, grid: seq<Config>, keys: set<Key>) returns (kept: seq<Row>, skip: set<Config>)
    ensures kept == Kept(prior, grid, keys)
    ensures skip == Skip(prior, grid, keys)
  {
    kept, skip := [], {};
    var i: nat := 0;
    while i < |prior|
      invariant i <= |prior| && skip == Elems(KeysOf(kept, keys))
      invariant Kept(prior, grid, keys) == kept + KeepOnce(prior[i..], Elems(grid), keys, skip)
    {
      var key := KeyOf(prior[i], keys);
      KeepStep(prior, i, Elems(grid), keys, skip, kept);
      if key in grid && key !in skip {
        OneMoreKey(kept, prior[i], keys);
        skip := skip + {key};
        kept := kept + [prior[i]];
      }
      i := i + 1;
    }
  }

  // ---- what is suggested again --------------------------------------------

  function Todo(grid: seq<Config>, skip: set<Config>): seq<Config> {
    if grid == [] then []
    else (if grid[0] in skip then [] else [grid[0]]) + Todo(grid[1..], skip)
  }

  // The exhaustive search: the grid in order.
  class GridSearch {
    const combinations: seq<Config>
    var position: nat

    predicate Valid()
      reads this
    {
      position <= |combinations|
    }

    constructor (combinations: seq<Config>)
      ensures Valid() && this.combinations == combinations && position == 0
    {
      this.combinations := combinations;
      position := 0;
    }

    method Suggest() returns (next: Option<Config>)
      requires Valid()
      modifies this
      ensures Valid()
      ensures next == if old(position) < |combinations| then Some(combinations[old(position)]) else None
      ensures position == if old(position) < |combinations| then old(position) + 1 else old(position)
    {
      if position == |combinations| {
        return None;
      }
      next := Some(combinations[position]);
      position := position + 1;
    }
  }

  // _ResumableSearch around it. `stop` is what should_stop says at the moment.
  class ResumableSearch {
    const inner: GridSearch
    const skip: set<Config>
    var stopped: bool

    predicate Valid()
      reads this, inner
    {
      inner.Valid()
    }

    // What is still to be suggested.
    function Ahead(): seq<Config>
      requires Valid()
      reads this, inner
    {
      Todo(inner.combinations[inner.position..], skip)
    }

    constructor (inner: GridSearch, skip: set<Config>)
      requires inner.Valid()
      ensures Valid() && this.inner == inner && this.skip == skip && !stopped
      ensures Ahead() == Todo(inner.combinations[inner.position..], skip)
    {
      this.inner, this.skip, stopped := inner, skip, false;
    }

    // Every configuration that is not finished is suggested, in the grid's
    // order, each once; a stop takes none.
    method Suggest(stop: bool) returns (next: Option<Config>)
      requires Valid()
      modifies this, inner
      ensures Valid() && stopped == (old(stopped) || stop)
      ensures next == if stop || old(Ahead()) == [] then None else Some(old(Ahead())[0])
      ensures Ahead() == if next.Some? then old(Ahead())[1..] else old(Ahead())
    {
      if stop {
        stopped := true;
        return None;
      }
      ghost var before := Ahead();
      while true
        invariant Valid() && Ahead() == before && stopped == old(stopped)
        decreases |inner.combinations| - inner.position
      {
        assert inner.position < |inner.combinations| ==>
            inner.combinations[inner.position..][1..] == inner.combinations[inner.position + 1..];
        next := inner.Suggest();
        if next.None? || skip == {} || next.value !in skip {
          break;
        }
      }
    }
  }

  // ---- one attempt ----------------------------------------------------------

  // A row of this grid is what the engine makes of its configuration: it was
  // recorded by an earlier attempt, whatever else is in the checkpoint.
  ghost predicate Honest(checkpoint: seq<Row>, grid: seq<Config>, keys: set<Key>, eval: Config -> Outcome) {
    forall row | row in checkpoint && KeyOf(row, keys) in grid ::
      row == RowOf(KeyOf(row, keys), eval(KeyOf(row, keys)))
  }

  function Ahead(prior: seq<Row>, grid: seq<Config>, keys: set<Key>): seq<Config> {
    Todo(grid, Skip(prior, grid, keys))
  }

  // The configurations an attempt finished, in the order they landed: of those
  // suggested, as many as it got to before it was stopped or died.
  ghost predicate Attempt(prior: seq<Row>, done: seq<Config>, grid: seq<Config>, keys: set<Key>) {
    multiset(done) <= multiset(Ahead(prior, grid, keys))
  }

  // It ran out of suggestions, or had every row when it was stopped.
  ghost predicate Complete(prior: seq<Row>, done: seq<Config>, grid: seq<Config>, keys: set<Key>) {
    multiset(done) == multiset(Ahead(prior, grid, keys))
    || |Kept(prior, grid, keys)| + |done| >= |grid|
  }

  function AllRows(prior: seq<Row>, done: seq<Config>, grid: seq<Config>, keys: set<Key>, eval: Config -> Outcome): seq<Row> {
    Kept(prior, grid, keys) + RowsFor(done, eval)
  }

  lemma {:induction false} TodoCounts(grid: seq<Config>, skip: set<Config>, c: Config)
    ensures multiset(Todo(grid, skip))[c] == if c in skip then 0 else multiset(grid)[c]
  {
    if grid != [] {
      TodoCounts(grid[1..], skip, c);
      assert grid == [grid[0]] + grid[1..];
    }
  }

  // What is kept and what is still ahead make up the grid exactly when no
  // configuration that was finished stands in it twice.
  lemma KeptAndAheadIff(prior: seq<Row>, grid: seq<Config>, keys: set<Key>)
    ensures multiset(KeysOf(Kept(prior, grid, keys), keys)) + multiset(Ahead(prior, grid, keys)) == multiset(grid)
            <==> forall c | c in Skip(prior, grid, keys) :: multiset(grid)[c] == 1
  {
    var kept := KeysOf(Kept(prior, grid, keys), keys);
    KeepOnceFacts(prior, Elems(grid), keys, {});
    var both := multiset(kept) + multiset(Ahead(prior, grid, keys));
    forall c: Config ensures both[c] == if c in Skip(prior, grid, keys) then 1 else multiset(grid)[c] {
      NoDupCount(kept, c);
      TodoCounts(grid, Skip(prior, grid, keys), c);
    }
    if forall c | c in Skip(prior, grid, keys) :: multiset(grid)[c] == 1 {
      assert forall c: Config :: both[c] == multiset(grid)[c];
    }
  }

  lemma {:induction false} RowsForCount(configs: seq<Config>, eval: Config -> Outcome, row: Row)
    ensures var c := Config(row.step, row.target, row.columns);
            multiset(RowsFor(configs, eval))[row] == if row == RowOf(c, eval(c)) then multiset(configs)[c] else 0
  {
    if configs == [] {
      assert RowsFor(configs, eval) == [];
    } else {
      RowsForCount(configs[1..], eval, row);
      assert configs == [configs[0]] + configs[1..];
      assert RowsFor(configs, eval) == [RowOf(configs[0], eval(configs[0]))] + RowsFor(configs[1..], eval);
    }
  }

  // The image of a sequence depends on its multiset alone.
  lemma RowsForSame(a: seq<Config>, b: seq<Config>, eval: Config -> Outcome)
    requires multiset(a) == multiset(b)
    ensures multiset(RowsFor(a, eval)) == multiset(RowsFor(b, eval))
  {
    forall row: Row ensures multiset(RowsFor(a, eval))[row] == multiset(RowsFor(b, eval))[row] {
      RowsForCount(a, eval, row);
      RowsForCount(b, eval, row);
    }
  }

  // Honest rows are the rows of their configurations.
  lemma KeptAreRows(prior: seq<Row>, grid: seq<Config>, keys: set<Key>, eval: Config -> Outcome)
    requires Honest(prior, grid, keys, eval)
    ensures Kept(prior, grid, keys) == RowsFor(KeysOf(Kept(prior, grid, keys), keys), eval)
  {
    var kept := Kept(prior, grid, keys);
    KeepOnceFacts(prior, Elems(grid), keys, {});
    forall i | 0 <= i < |kept| ensures kept[i] == RowsFor(KeysOf(kept, keys), eval)[i] {
      assert kept[i] in kept;
      assert KeysOf(kept, keys)[i] in KeysOf(kept, keys);
    }
  }

  lemma CompleteTakesAll(prior: seq<Row>, done: seq<Config>, grid: seq<Config>, keys: set<Key>)
    requires NoDup(grid) && Attempt(prior, done, grid, keys) && Complete(prior, done, grid, keys)
    ensures multiset(done) == multiset(Ahead(prior, grid, keys))
    ensures multiset(KeysOf(Kept(prior, grid, keys), keys)) + multiset(done) == multiset(grid)
  {
    var kept, ahead := Kept(prior, grid, keys), Ahead(prior, grid, keys);
    KeepOnceFacts(prior, Elems(grid), keys, {});
    forall c | c in Skip(prior, grid, keys) ensures multiset(grid)[c] == 1 {
      NoDupCount(grid, c);
    }
    KeptAndAheadIff(prior, grid, keys);
    assert |multiset(KeysOf(kept, keys))| + |multiset(ahead)| == |multiset(grid)|;
    assert |multiset(done)| >= |multiset(ahead)|;
    SameSizeSame(multiset(done), multiset(ahead));
  }

  lemma SameSizeSame(a: multiset<Config>, b: multiset<Config>)
    requires a <= b && |a| >= |b|
    ensures a == b
  {
    assert b == a + (b - a);
    assert |b - a| == 0;
  }

  // A sweep that ends, after any attempts before and with anything in its
  // checkpoint that is not of this grid or there twice, has the rows one
  // uninterrupted attempt would have had, every configuration once.
  lemma ResumedSweepIsWhole(prior: seq<Row>, done: seq<Config>, grid: seq<Config>, keys: set<Key>, eval: Config -> Outcome)
    requires NoDup(grid) && Uniform(grid, keys) && Honest(prior, grid, keys, eval)
    requires Attempt(prior, done, grid, keys) && Complete(prior, done, grid, keys)
    ensures multiset(AllRows(prior, done, grid, keys, eval)) == multiset(RowsFor(grid, eval))
    ensures forall c | c in grid :: multiset(KeysOf(AllRows(prior, done, grid, keys, eval), keys))[c] == 1
  {
    var kept := KeysOf(Kept(prior, grid, keys), keys);
    CompleteTakesAll(prior, done, grid, keys);
    KeptAreRows(prior, grid, keys, eval);
    RowsForSame(kept + done, grid, eval);
    assert RowsFor(kept + done, eval) == RowsFor(kept, eval) + RowsFor(done, eval);
    EachOnce(prior, done, grid, keys, eval);
  }

  lemma EachOnce(prior: seq<Row>, done: seq<Config>, grid: seq<Config>, keys: set<Key>, eval: Config -> Outcome)
    requires NoDup(grid) && Uniform(grid, keys) && Honest(prior, grid, keys, eval)
    requires Attempt(prior, done, grid, keys) && Complete(prior, done, grid, keys)
    ensures forall c | c in grid :: multiset(KeysOf(AllRows(prior, done, grid, keys, eval), keys))[c] == 1
  {
    CompleteTakesAll(prior, done, grid, keys);
    DoneInGrid(prior, done, grid, keys);
    KeysOfRows(KeysOf(Kept(prior, grid, keys), keys), done, keys, prior, grid, eval);
    forall c | c in grid ensures multiset(KeysOf(AllRows(prior, done, grid, keys, eval), keys))[c] == 1 {
      NoDupCount(grid, c);
    }
  }

  lemma DoneInGrid(prior: seq<Row>, done: seq<Config>, grid: seq<Config>, keys: set<Key>)
    requires Attempt(prior, done, grid, keys)
    ensures forall c | c in done :: c in grid && c !in Skip(prior, grid, keys)
  {
    forall c | c in done ensures c in grid && c !in Skip(prior, grid, keys) {
      assert c in multiset(done);
      assert multiset(done)[c] <= multiset(Ahead(prior, grid, keys))[c];
      TodoCounts(grid, Skip(prior, grid, keys), c);
      assert multiset(grid)[c] > 0;
    }
  }

  lemma KeysOfRows(kept: seq<Config>, done: seq<Config>, keys: set<Key>, prior: seq<Row>, grid: seq<Config>, eval: Config -> Outcome)
    requires kept == KeysOf(Kept(prior, grid, keys), keys) && Uniform(grid, keys) && forall c | c in done :: c in grid
    ensures KeysOf(AllRows(prior, done, grid, keys, eval), keys) == kept + done
  {
    forall i | 0 <= i < |done| ensures KeyOf(RowsFor(done, eval)[i], keys) == done[i] {
      assert done[i] in done;
      KeyOfRow(done[i], eval(done[i]), keys);
    }
  }

  // ---- progress -------------------------------------------------------------

  function Finished(checkpoint: seq<Row>, grid: seq<Config>, keys: set<Key>): set<Config> {
    set c | c in grid && c in KeysOf(checkpoint, keys)
  }

  // What an attempt finds left to do.
  function Remaining(checkpoint: seq<Row>, grid: seq<Config>, keys: set<Key>): nat {
    |Elems(grid) - Finished(checkpoint, grid, keys)|
  }

  lemma InKeys(rows: seq<Row>, row: Row, keys: set<Key>)
    requires row in rows
    ensures KeyOf(row, keys) in KeysOf(rows, keys)
  {
    var i :| 0 <= i < |rows| && rows[i] == row;
    assert KeysOf(rows, keys)[i] == KeyOf(row, keys);
  }

  lemma DoneOnce(prior: seq<Row>, done: seq<Config>, grid: seq<Config>, keys: set<Key>)
    requires NoDup(grid) && Attempt(prior, done, grid, keys)
    ensures NoDup(done)
  {
    forall i, j | 0 <= i < j < |done| ensures done[i] != done[j] {
      NoDupCount(grid, done[i]);
      TodoCounts(grid, Skip(prior, grid, keys), done[i]);
      assert multiset(done)[done[i]] <= multiset(Ahead(prior, grid, keys))[done[i]];
      if done[i] == done[j] {
        Twice(done, i, j);
      }
    }
  }

  lemma Twice(s: seq<Config>, i: nat, j: nat)
    requires i < j < |s| && s[i] == s[j]
    ensures multiset(s)[s[i]] >= 2
  {
    assert s == s[..i] + [s[i]] + s[i + 1..j] + [s[j]] + s[j + 1..];
  }

  lemma {:induction false} NoDupSize(s: seq<Config>)
    requires NoDup(s)
    ensures |Elems(s)| == |s|
  {
    if s != [] {
      var front := s[..|s| - 1];
      NoDupSize(front);
      assert s == front + [s[|s| - 1]];
      assert Elems(s) == Elems(front) + {s[|s| - 1]};
    }
  }
}
