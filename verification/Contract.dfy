/**
 The request half of server/contract.py: a stored request is translated from
 its old field names once, at the read boundary. A request is a Python dict, so
 an ordered list of key/value pairs with distinct keys.
 */
module Contract {
  datatype Value =
    | Null
    | Truth(b: bool)
    | Number(r: real)
    | Text(s: string)
    | List(items: seq<Value>)
    | Nested(entries: seq<(string, Value)>)

  type Dict = seq<(string, Value)>

  ghost predicate Distinct(d: Dict) {
    forall i, j | 0 <= i < j < |d| :: d[i].0 != d[j].0
  }

  function Keys(d: Dict): set<string> {
    set pair | pair in d :: pair.0
  }

  // dict.get(key), with None for a missing key.
  function Get(d: Dict, key: string): Value {
    if d == [] then Null
    else if d[0].0 == key then d[0].1
    else Get(d[1..], key)
  }

  // d[key] = value: an existing key keeps its place, a new one goes last.
  function Put(d: Dict, key: string, value: Value): Dict {
    if d == [] then [(key, value)]
    else if d[0].0 == key then [(key, value)] + d[1..]
    else [d[0]] + Put(d[1..], key, value)
  }

  // d.pop(key, None), without the value.
  function Pop(d: Dict, key: string): Dict {
    if d == [] then []
    else if d[0].0 == key then d[1..]
    else [d[0]] + Pop(d[1..], key)
  }

  const RENAMES: map<string, string> := map[
    "sizing_model" := "model",
    "strategy_params" := "params",
    "fill_model" := "fill",
    "enforce_no_loss" := "no_loss",
    "profit_targets" := "targets",
    "n_jobs" := "jobs"
  ]

  const FOLDED: set<string> := {"search_strategy", "n_trials", "search_seed", "search_direction"}

  function NewName(key: string): string {
    if key in RENAMES then RENAMES[key] else key
  }

  // {RENAMES.get(key, key): value for key, value in raw.items()}
  function Renamed(raw: Dict, out: Dict): Dict {
    if raw == [] then out
    else Renamed(raw[1..], Put(out, NewName(raw[0].0), raw[0].1))
  }

  // {"trials": trials}, and "seed" if there is one.
  function Bayes(trials: Value, seed: Value): Value {
    Nested([("trials", trials)] + if seed == Null then [] else [("seed", seed)])
  }

  // search_strategy, n_trials and search_seed become `bayes`.
  function FoldBayes(out: Dict): Dict {
    var strategy := Get(out, "search_strategy");
    var trials := Get(out, "n_trials");
    var seed := Get(out, "search_seed");
    var popped := Pop(Pop(Pop(out, "search_strategy"), "n_trials"), "search_seed");
    if strategy == Text("bayesian") && "bayes" !in Keys(popped)
    then Put(popped, "bayes", Bayes(trials, seed))
    else popped
  }

  // search_direction becomes `minimize`.
  function FoldDirection(out: Dict): Dict {
    var direction := Get(out, "search_direction");
    var popped := Pop(out, "search_direction");
    if direction == Text("minimize") && "minimize" !in Keys(popped)
    then Put(popped, "minimize", Truth(true))
    else popped
  }

  // contract.request: idempotent by RequestIdempotent.
  function Request(raw: Dict): Dict {
    FoldDirection(FoldBayes(Renamed(raw, [])))
  }

  // Nothing in it is named the old way.
  ghost predicate Condensed(d: Dict) {
    Distinct(d) && Keys(d) !! RENAMES.Keys && Keys(d) !! FOLDED
  }

  lemma KeysCons(d: Dict)
    requires d != []
    ensures Keys(d) == {d[0].0} + Keys(d[1..])
    ensures Distinct(d) <==> Distinct(d[1..]) && d[0].0 !in Keys(d[1..])
  {
    var rest := d[1..];
    assert d == [d[0]] + rest;
    if Distinct(rest) && d[0].0 !in Keys(rest) {
      forall i, j | 0 <= i < j < |d| ensures d[i].0 != d[j].0 {
        assert d[j] == rest[j - 1] && rest[j - 1] in rest;
        if i > 0 {
          assert rest[i - 1] == d[i];
        }
      }
    }
    if Distinct(d) {
      forall i, j | 0 <= i < j < |rest| ensures rest[i].0 != rest[j].0 {
        assert d[i + 1] == rest[i] && d[j + 1] == rest[j];
      }
      forall pair | pair in rest ensures pair.0 != d[0].0 {
        var i :| 0 <= i < |rest| && rest[i] == pair;
        assert d[i + 1] == pair;
      }
    }
  }

  lemma {:induction false} PutKeys(d: Dict, key: string, value: Value)
    requires Distinct(d)
    ensures Distinct(Put(d, key, value)) && Keys(Put(d, key, value)) == Keys(d) + {key}
  {
    if d != [] {
      var put := Put(d, key, value);
      KeysCons(d);
      KeysCons(put);
      if d[0].0 != key {
        PutKeys(d[1..], key, value);
        assert put[1..] == Put(d[1..], key, value);
      } else {
        assert put[1..] == d[1..];
      }
    }
  }

  lemma {:induction false} PutNew(d: Dict, key: string, value: Value)
    requires key !in Keys(d)
    ensures Put(d, key, value) == d + [(key, value)]
  {
    if d != [] {
      assert d == [d[0]] + d[1..];
      PutNew(d[1..], key, value);
    }
  }

  lemma {:induction false} PopKeys(d: Dict, key: string)
    requires Distinct(d)
    ensures Distinct(Pop(d, key)) && Keys(Pop(d, key)) == Keys(d) - {key}
    ensures key !in Keys(d) ==> Pop(d, key) == d
  {
    if d != [] {
      KeysCons(d);
      if d[0].0 != key {
        PopKeys(d[1..], key);
        var popped := Pop(d, key);
        assert popped[1..] == Pop(d[1..], key);
        KeysCons(popped);
      }
    }
  }

  lemma {:induction false} GetAbsent(d: Dict, key: string)
    requires key !in Keys(d)
    ensures Get(d, key) == Null
  {
    if d != [] {
      assert d == [d[0]] + d[1..];
      GetAbsent(d[1..], key);
    }
  }

  // No new name is an old one.
  lemma NewNameIsNew(key: string)
    ensures NewName(key) !in RENAMES
  {
    var olds := RENAMES.Keys;
    assert RENAMES.Values !! olds by {
      assert |"model"| == 5 && |"params"| == 6 && |"fill"| == 4 && |"no_loss"| == 7 && |"targets"| == 7 && |"jobs"| == 4;
      assert |"sizing_model"| == 12 && |"strategy_params"| == 15 && |"fill_model"| == 10 && |"enforce_no_loss"| == 15
          && |"profit_targets"| == 14 && |"n_jobs"| == 6;
      assert "params"[0] != "n_jobs"[0];
    }
  }

  lemma {:induction false} RenamedKeys(raw: Dict, out: Dict)
    requires Distinct(out) && Keys(out) !! RENAMES.Keys
    ensures Distinct(Renamed(raw, out)) && Keys(Renamed(raw, out)) !! RENAMES.Keys
  {
    if raw != [] {
      PutKeys(out, NewName(raw[0].0), raw[0].1);
      NewNameIsNew(raw[0].0);
      RenamedKeys(raw[1..], Put(out, NewName(raw[0].0), raw[0].1));
    }
  }

  lemma {:induction false} RenamedCondensed(raw: Dict, out: Dict)
    requires Distinct(raw) && Distinct(out) && Keys(raw) !! Keys(out) && Keys(raw) !! RENAMES.Keys
    ensures Renamed(raw, out) == out + raw
  {
    if raw == [] {
      assert out + raw == out;
    } else {
      KeysCons(raw);
      PutKeys(out, raw[0].0, raw[0].1);
      PutNew(out, raw[0].0, raw[0].1);
      assert out + [raw[0]] + raw[1..] == out + raw;
      RenamedCondensed(raw[1..], out + [raw[0]]);
    }
  }

  lemma FoldBayesKeys(out: Dict)
    requires Distinct(out)
    ensures Distinct(FoldBayes(out))
    ensures Keys(FoldBayes(out)) <= Keys(out) - {"search_strategy", "n_trials", "search_seed"} + {"bayes"}
  {
    PopKeys(out, "search_strategy");
    var d1 := Pop(out, "search_strategy");
    PopKeys(d1, "n_trials");
    var d2 := Pop(d1, "n_trials");
    PopKeys(d2, "search_seed");
    var d3 := Pop(d2, "search_seed");
    PutKeys(d3, "bayes", Bayes(Get(out, "n_trials"), Get(out, "search_seed")));
  }

  lemma FoldDirectionKeys(out: Dict)
    requires Distinct(out)
    ensures Distinct(FoldDirection(out))
    ensures Keys(FoldDirection(out)) <= Keys(out) - {"search_direction"} + {"minimize"}
  {
    PopKeys(out, "search_direction");
    PutKeys(Pop(out, "search_direction"), "minimize", Truth(true));
  }

  lemma NewKeysAreNew()
    ensures {"bayes", "minimize"} !! RENAMES.Keys
    ensures {"bayes", "minimize"} !! FOLDED
  {
    assert |"bayes"| == 5 && |"minimize"| == 8;
  }

  // Translation always leaves the new shape behind.
  lemma RequestCondensed(raw: Dict)
    ensures Condensed(Request(raw))
  {
    RenamedKeys(raw, []);
    var d0 := Renamed(raw, []);
    FoldBayesKeys(d0);
    FoldDirectionKeys(FoldBayes(d0));
    NewKeysAreNew();
  }

  // A request already in the new shape is returned unchanged.
  lemma RequestFixesCondensed(d: Dict)
    requires Condensed(d)
    ensures Request(d) == d
  {
    assert [] + d == d;
    RenamedCondensed(d, []);
    assert forall key | key in FOLDED :: key !in Keys(d);
    GetAbsent(d, "search_strategy");
    GetAbsent(d, "search_direction");
    PopKeys(d, "search_strategy");
    PopKeys(d, "n_trials");
    PopKeys(d, "search_seed");
    PopKeys(d, "search_direction");
  }

  lemma RequestIdempotent(raw: Dict)
    ensures Request(Request(raw)) == Request(raw)
  {
    RequestCondensed(raw);
    RequestFixesCondensed(Request(raw));
  }

  // ---- what the translation says -----------------------------------------

  // The field that an entry written under `written` is about.
  predicate Named(written: string, key: string) {
    if written == "sizing_model" then key == "model"
    else if written == "strategy_params" then key == "params"
    else if written == "fill_model" then key == "fill"
    else if written == "enforce_no_loss" then key == "no_loss"
    else if written == "profit_targets" then key == "targets"
    else if written == "n_jobs" then key == "jobs"
    else key == written
  }

  // What was submitted for a field, under either name: the later entry stands
  // where there are two.
  predicate Given(raw: Dict, key: string, value: Value) {
    exists i | 0 <= i < |raw| ::
      raw[i].1 == value && Named(raw[i].0, key) && forall j | i < j < |raw| :: !Named(raw[j].0, key)
  }

  predicate Mentions(raw: Dict, key: string) {
    exists i | 0 <= i < |raw| :: Named(raw[i].0, key)
  }

  predicate GivenOrNone(raw: Dict, key: string, value: Value) {
    if Mentions(raw, key) then Given(raw, key, value) else value == Null
  }

  // The trials as they were given, None included, and the seed only if there
  // was one.
  predicate IsBayes(raw: Dict, value: Value) {
    && value.Nested? && 1 <= |value.entries| <= 2
    && value.entries[0].0 == "trials" && GivenOrNone(raw, "n_trials", value.entries[0].1)
    && (|value.entries| == 1 ==> GivenOrNone(raw, "search_seed", Null))
    && (|value.entries| == 2 ==>
          value.entries[1].0 == "seed" && value.entries[1].1 != Null && Given(raw, "search_seed", value.entries[1].1))
  }

  // One entry of the translated request.
  predicate Translated(raw: Dict, key: string, value: Value) {
    if key == "search_strategy" || key == "n_trials" || key == "search_seed" || key == "search_direction" then false
    else if key == "bayes" && !Mentions(raw, "bayes") then
      Given(raw, "search_strategy", Text("bayesian")) && IsBayes(raw, value)
    else if key == "minimize" && !Mentions(raw, "minimize") then
      Given(raw, "search_direction", Text("minimize")) && value == Truth(true)
    else Given(raw, key, value)
  }

  lemma NamedIsNewName(written: string, key: string)
    ensures Named(written, key) <==> NewName(written) == key
  {
    assert |"sizing_model"| == 12 && |"strategy_params"| == 15 && |"fill_model"| == 10 && |"enforce_no_loss"| == 15
        && |"profit_targets"| == 14 && |"n_jobs"| == 6;
    assert "strategy_params"[0] != "enforce_no_loss"[0];
  }

  lemma {:induction false} PutHas(d: Dict, key: string, value: Value, entry: (string, Value))
    requires Distinct(d)
    ensures entry in Put(d, key, value) <==> entry == (key, value) || (entry in d && entry.0 != key)
  {
    if d != [] {
      KeysCons(d);
      assert d == [d[0]] + d[1..];
      if d[0].0 != key {
        PutHas(d[1..], key, value, entry);
      } else {
        assert entry in d[1..] ==> entry.0 in Keys(d[1..]);
      }
    }
  }

  lemma {:induction false} PopHas(d: Dict, key: string, entry: (string, Value))
    requires Distinct(d)
    ensures entry in Pop(d, key) <==> entry in d && entry.0 != key
  {
    if d != [] {
      KeysCons(d);
      assert d == [d[0]] + d[1..];
      if d[0].0 != key {
        PopHas(d[1..], key, entry);
      } else {
        assert entry in d[1..] ==> entry.0 in Keys(d[1..]);
      }
    }
  }

  lemma {:induction false} GetHas(d: Dict, key: string)
    requires Distinct(d)
    ensures forall value :: (key, value) in d <==> key in Keys(d) && Get(d, key) == value
  {
    if d != [] {
      KeysCons(d);
      assert d == [d[0]] + d[1..];
      GetHas(d[1..], key);
      assert forall value :: (key, value) in d[1..] ==> key in Keys(d[1..]);
    }
  }

  lemma {:induction false} RenamedHas(raw: Dict, out: Dict, entry: (string, Value))
    requires Distinct(out)
    ensures Distinct(Renamed(raw, out))
    ensures entry in Renamed(raw, out) <==> Given(raw, entry.0, entry.1) || (entry in out && !Mentions(raw, entry.0))
  {
    if raw != [] {
      var first, rest := raw[0], raw[1..];
      var put := Put(out, NewName(first.0), first.1);
      NamedIsNewName(first.0, entry.0);
      PutKeys(out, NewName(first.0), first.1);
      PutHas(out, NewName(first.0), first.1, entry);
      RenamedHas(rest, put, entry);
      GivenCons(raw, entry.0, entry.1);
    }
  }

  lemma GivenCons(raw: Dict, key: string, value: Value)
    requires raw != []
    ensures Mentions(raw, key) <==> Named(raw[0].0, key) || Mentions(raw[1..], key)
    ensures Given(raw, key, value)
       <==> Given(raw[1..], key, value) || (!Mentions(raw[1..], key) && Named(raw[0].0, key) && raw[0].1 == value)
  {
    var rest := raw[1..];
    assert forall j | 1 <= j < |raw| :: raw[j] == rest[j - 1];
    assert forall j | 0 <= j < |rest| :: rest[j] == raw[j + 1];
  }

  lemma {:induction false} MentionedIsGiven(raw: Dict, key: string) returns (value: Value)
    ensures Mentions(raw, key) ==> Given(raw, key, value)
    ensures !Mentions(raw, key) ==> value == Null && forall v :: !Given(raw, key, v)
  {
    if raw == [] {
      value := Null;
    } else {
      value := MentionedIsGiven(raw[1..], key);
      GivenCons(raw, key, value);
      if !Mentions(raw[1..], key) && Named(raw[0].0, key) {
        value := raw[0].1;
        GivenCons(raw, key, value);
      }
    }
  }

  // What the fields of the request hold once they are renamed.
  lemma RenamedGet(raw: Dict, key: string)
    ensures Distinct(Renamed(raw, []))
    ensures key in Keys(Renamed(raw, [])) <==> Mentions(raw, key)
    ensures forall value :: GivenOrNone(raw, key, value) <==> Get(Renamed(raw, []), key) == value
    ensures forall value :: (key, value) in Renamed(raw, []) <==> Given(raw, key, value)
  {
    var d := Renamed(raw, []);
    var given := MentionedIsGiven(raw, key);
    RenamedHas(raw, [], (key, given));
    GetHas(d, key);
    forall value ensures (key, value) in d <==> Given(raw, key, value) {
      RenamedHas(raw, [], (key, value));
    }
    if key in Keys(d) {
      var entry :| entry in d && entry.0 == key;
      RenamedHas(raw, [], entry);
    } else {
      GetAbsent(d, key);
    }
  }

  lemma BayesSays(raw: Dict, trials: Value, seed: Value, value: Value)
    requires forall v :: GivenOrNone(raw, "n_trials", v) <==> trials == v
    requires forall v :: GivenOrNone(raw, "search_seed", v) <==> seed == v
    ensures IsBayes(raw, value) <==> value == Bayes(trials, seed)
  {
    assert GivenOrNone(raw, "search_seed", seed) && GivenOrNone(raw, "n_trials", trials);
    if IsBayes(raw, value) {
      var given := MentionedIsGiven(raw, "search_seed");
      if |value.entries| == 1 {
        assert value.entries == [("trials", trials)];
      } else {
        assert GivenOrNone(raw, "search_seed", value.entries[1].1);
        assert value.entries == [("trials", trials), ("seed", seed)];
      }
    }
  }

  lemma FoldBayesHas(raw: Dict, entry: (string, Value))
    ensures Distinct(FoldBayes(Renamed(raw, [])))
    ensures entry in FoldBayes(Renamed(raw, []))
       <==> if entry.0 == "search_strategy" || entry.0 == "n_trials" || entry.0 == "search_seed" then false
            else if entry.0 == "bayes" && !Mentions(raw, "bayes") then
              Given(raw, "search_strategy", Text("bayesian")) && IsBayes(raw, entry.1)
            else Given(raw, entry.0, entry.1)
  {
    var d0 := Renamed(raw, []);
    RenamedGet(raw, entry.0);
    RenamedGet(raw, "search_strategy");
    RenamedGet(raw, "n_trials");
    RenamedGet(raw, "search_seed");
    RenamedGet(raw, "bayes");
    var trials, seed := Get(d0, "n_trials"), Get(d0, "search_seed");
    var d1 := Pop(d0, "search_strategy");
    var d2 := Pop(d1, "n_trials");
    var d3 := Pop(d2, "search_seed");
    PopKeys(d0, "search_strategy");
    PopKeys(d1, "n_trials");
    PopKeys(d2, "search_seed");
    PopHas(d0, "search_strategy", entry);
    PopHas(d1, "n_trials", entry);
    PopHas(d2, "search_seed", entry);
    PutKeys(d3, "bayes", Bayes(trials, seed));
    PutHas(d3, "bayes", Bayes(trials, seed), entry);
    BayesSays(raw, trials, seed, entry.1);
    NewKeysAreNew();
    assert Get(d0, "search_strategy") == Text("bayesian") <==> GivenOrNone(raw, "search_strategy", Text("bayesian"));
  }

  lemma FoldedSays(raw: Dict, entry: (string, Value))
    ensures entry in Request(raw) <==> Translated(raw, entry.0, entry.1)
  {
    var d0 := Renamed(raw, []);
    var d := FoldBayes(d0);
    FoldBayesHas(raw, entry);
    FoldDirectionHas(raw, d);
    RenamedGet(raw, "minimize");
    PopKeys(d, "search_direction");
    PopHas(d, "search_direction", entry);
    PutHas(Pop(d, "search_direction"), "minimize", Truth(true), entry);
    assert "minimize" != "search_direction" && "bayes" != "search_direction" && "bayes" != "minimize" by {
      assert |"minimize"| == 8 && |"search_direction"| == 16 && |"bayes"| == 5;
    }
  }

  // The search fields leave the direction alone.
  lemma FoldDirectionHas(raw: Dict, d: Dict)
    requires d == FoldBayes(Renamed(raw, []))
    ensures Distinct(d)
    ensures Get(d, "search_direction") == Text("minimize") <==> Given(raw, "search_direction", Text("minimize"))
    ensures "minimize" in Keys(d) <==> Mentions(raw, "minimize")
  {
    assert |"minimize"| == 8 && |"search_direction"| == 16 && |"bayes"| == 5 && |"search_strategy"| == 15
        && |"n_trials"| == 8 && |"search_seed"| == 11;
    assert "minimize"[0] != "n_trials"[0];
    FoldBayesHas(raw, ("search_direction", Text("minimize")));
    GetAbsentOrHas(d, "search_direction", Text("minimize"));
    var given := MentionedIsGiven(raw, "minimize");
    FoldBayesHas(raw, ("minimize", given));
    if "minimize" in Keys(d) {
      var entry :| entry in d && entry.0 == "minimize";
      FoldBayesHas(raw, entry);
    }
  }

  lemma GetAbsentOrHas(d: Dict, key: string, value: Value)
    requires Distinct(d) && value != Null
    ensures Get(d, key) == value <==> (key, value) in d
  {
    GetHas(d, key);
    if key !in Keys(d) {
      GetAbsent(d, key);
    }
  }

  // Every field of the translated request, and nothing besides: each is what
  // was submitted under its own old or new name, with the search folded.
  lemma RequestSays(raw: Dict)
    ensures forall key, value :: (key, value) in Request(raw) <==> Translated(raw, key, value)
  {
    forall key, value ensures (key, value) in Request(raw) <==> Translated(raw, key, value) {
      FoldedSays(raw, (key, value));
    }
  }
}
