/**
 The evaluation loop of research/run_hf_sweep.py: suggestions evaluated in
 batches, answers remembered, a combination suggested twice in one batch held
 back until its answer lands.
 */
module Memo {
  import opened Seqs
  import opened Bisect

  // A row and a result, as the simulation of one combination gives them.
  type Answer = int

  // One line of the output: a suggestion, the answer recorded for it, and
  // whether that came from the memo.
  datatype Record = Record(suggestion: Config, answer: Answer, cached: bool)

  function Suggestions(records: seq<Record>): seq<Config> {
    seq(|records|, i requires 0 <= i < |records| => records[i].suggestion)
  }

  function CachedCount(records: seq<Record>): nat {
    if records == [] then 0
    else CachedCount(records[..|records| - 1]) + if records[|records| - 1].cached then 1 else 0
  }

  // Everything recorded is the answer of its own combination.
  ghost predicate Truthful(records: seq<Record>, eval: Config -> Answer) {
    forall i | 0 <= i < |records| :: records[i].answer == eval(records[i].suggestion)
  }

  ghost predicate Remembers(memo: map<Config, Answer>, eval: Config -> Answer) {
    forall c | c in memo :: memo[c] == eval(c)
  }

  // After the first n suggestions, with some of them still under way: each is
  // recorded or under way, and what is in the memo was simulated once.
  ghost predicate Account(records: seq<Record>, underWay: multiset<Config>, memo: map<Config, Answer>, simulated: seq<Config>,
                          asked: seq<Config>, eval: Config -> Answer) {
    && multiset(Suggestions(records)) + underWay == multiset(asked)
    && Truthful(records, eval) && Remembers(memo, eval)
    && NoDup(simulated) && (forall c :: c in simulated <==> c in memo)
    && CachedCount(records) + |simulated| == |records|
  }

  lemma RecordMore(records: seq<Record>, r: Record)
    ensures Suggestions(records + [r]) == Suggestions(records) + [r.suggestion]
    ensures CachedCount(records + [r]) == CachedCount(records) + if r.cached then 1 else 0
  {
    assert (records + [r])[..|records|] == records;
  }

  // An answer from the memo.
  lemma CachedAccount(records: seq<Record>, underWay: multiset<Config>, memo: map<Config, Answer>, simulated: seq<Config>,
                      asked: seq<Config>, eval: Config -> Answer, c: Config)
    requires Account(records, underWay, memo, simulated, asked, eval) && c in memo && c in underWay
    ensures Account(records + [Record(c, memo[c], true)], underWay - multiset{c}, memo, simulated, asked, eval)
  {
    RecordMore(records, Record(c, memo[c], true));
  }

  // An answer that has just been simulated.
  lemma LandedAccount(records: seq<Record>, underWay: multiset<Config>, memo: map<Config, Answer>, simulated: seq<Config>,
                      asked: seq<Config>, eval: Config -> Answer, c: Config)
    requires Account(records, underWay, memo, simulated, asked, eval) && c !in memo && c in underWay
    ensures Account(records + [Record(c, eval(c), false)], underWay - multiset{c}, memo[c := eval(c)], simulated + [c], asked, eval)
  {
    RecordMore(records, Record(c, eval(c), false));
  }

  lemma AskedAccount(records: seq<Record>, underWay: multiset<Config>, memo: map<Config, Answer>, simulated: seq<Config>,
                     asked: seq<Config>, eval: Config -> Answer, c: Config)
    requires Account(records, underWay, memo, simulated, asked, eval)
    ensures Account(records, underWay + multiset{c}, memo, simulated, asked + [c], eval)
  {
  }

  // A suggestion that is answered from the memo there and then.
  lemma AskedAndCached(records: seq<Record>, underWay: multiset<Config>, memo: map<Config, Answer>, simulated: seq<Config>,
                       asked: seq<Config>, eval: Config -> Answer, c: Config)
    requires Account(records, underWay, memo, simulated, asked, eval) && c in memo
    ensures Account(records + [Record(c, memo[c], true)], underWay, memo, simulated, asked + [c], eval)
  {
    RecordMore(records, Record(c, memo[c], true));
  }

  // ---- one worker -----------------------------------------------------------

  // n_jobs == 1. `suggestions` are what the search answers, one call after
  // another, before it has no more.
  method RunAlone(suggestions: seq<Config>, eval: Config -> Answer) returns (records: seq<Record>, simulated: seq<Config>)
    ensures Suggestions(records) == suggestions && Truthful(records, eval)
    ensures NoDup(simulated) && forall c :: c in simulated <==> c in suggestions
    ensures CachedCount(records) + |simulated| == |suggestions|
  {
    records, simulated := [], [];
    var memo: map<Config, Answer> := map[];
    for k := 0 to |suggestions|
      invariant Account(records, multiset{}, memo, simulated, suggestions[..k], eval)
      invariant Suggestions(records) == suggestions[..k] && forall c :: c in memo <==> c in suggestions[..k]
    {
      var c := suggestions[k];
      assert suggestions[..k + 1] == suggestions[..k] + [c];
      if c in memo {
        AskedAndCached(records, multiset{}, memo, simulated, suggestions[..k], eval, c);
        RecordMore(records, Record(c, memo[c], true));
        records := records + [Record(c, memo[c], true)];
      } else {
        AskedAccount(records, multiset{}, memo, simulated, suggestions[..k], eval, c);
        LandedAccount(records, multiset{} + multiset{c}, memo, simulated, suggestions[..k + 1], eval, c);
        RecordMore(records, Record(c, eval(c), false));
        memo, simulated := memo[c := eval(c)], simulated + [c];
        records := records + [Record(c, eval(c), false)];
        assert multiset{} + multiset{c} - multiset{c} == multiset{};
      }
    }
    assert suggestions[..|suggestions|] == suggestions;
  }

  // ---- a pool of workers ----------------------------------------------------

  // The state between two batches.
  datatype State = State(records: seq<Record>, memo: map<Config, Answer>, simulated: seq<Config>, next: nat)

  ghost predicate Between(s: State, suggestions: seq<Config>, eval: Config -> Answer) {
    && s.next <= |suggestions|
    && Account(s.records, multiset{}, s.memo, s.simulated, suggestions[..s.next], eval)
    && forall c :: c in s.memo <==> c in suggestions[..s.next]
  }

  // While a batch is being filled.
  ghost predicate Filling(s: State, batch: seq<Config>, deferred: seq<Config>, suggestions: seq<Config>, eval: Config -> Answer) {
    && s.next <= |suggestions|
    && Account(s.records, multiset(batch) + multiset(deferred), s.memo, s.simulated, suggestions[..s.next], eval)
    && NoDup(batch) && (forall c | c in batch :: c !in s.memo) && (forall c | c in deferred :: c in batch)
    && forall c :: c in s.memo || c in batch <==> c in suggestions[..s.next]
  }

  lemma AskedPrefix(suggestions: seq<Config>, n: nat)
    requires n < |suggestions|
    ensures suggestions[..n + 1] == suggestions[..n] + [suggestions[n]]
    ensures forall c :: c in suggestions[..n + 1] <==> c in suggestions[..n] || c == suggestions[n]
  {
  }

  // A suggestion answered on the spot.
  lemma FillFromMemo(s: State, batch: seq<Config>, deferred: seq<Config>, suggestions: seq<Config>, eval: Config -> Answer)
    requires Filling(s, batch, deferred, suggestions, eval) && s.next < |suggestions| && suggestions[s.next] in s.memo
    ensures var c := suggestions[s.next];
            Filling(s.(records := s.records + [Record(c, s.memo[c], true)], next := s.next + 1), batch, deferred, suggestions, eval)
  {
    AskedPrefix(suggestions, s.next);
    AskedAndCached(s.records, multiset(batch) + multiset(deferred), s.memo, s.simulated, suggestions[..s.next], eval, suggestions[s.next]);
  }

  lemma FillHeldBack(s: State, batch: seq<Config>, deferred: seq<Config>, suggestions: seq<Config>, eval: Config -> Answer)
    requires Filling(s, batch, deferred, suggestions, eval) && s.next < |suggestions| && suggestions[s.next] in batch
    ensures Filling(s.(next := s.next + 1), batch, deferred + [suggestions[s.next]], suggestions, eval)
  {
    var c := suggestions[s.next];
    AskedPrefix(suggestions, s.next);
    AskedAccount(s.records, multiset(batch) + multiset(deferred), s.memo, s.simulated, suggestions[..s.next], eval, c);
    assert multiset(batch) + multiset(deferred) + multiset{c} == multiset(batch) + multiset(deferred + [c]);
  }

  lemma FillNew(s: State, batch: seq<Config>, deferred: seq<Config>, suggestions: seq<Config>, eval: Config -> Answer)
    requires Filling(s, batch, deferred, suggestions, eval) && s.next < |suggestions|
    requires suggestions[s.next] !in s.memo && suggestions[s.next] !in batch
    ensures Filling(s.(next := s.next + 1), batch + [suggestions[s.next]], deferred, suggestions, eval)
  {
    var c := suggestions[s.next];
    AskedPrefix(suggestions, s.next);
    AskedAccount(s.records, multiset(batch) + multiset(deferred), s.memo, s.simulated, suggestions[..s.next], eval, c);
    assert multiset(batch) + multiset(deferred) + multiset{c} == multiset(batch + [c]) + multiset(deferred);
    NoDupConcat(batch, [c]);
  }

  // Suggestions are taken until `jobs` of them need a worker. One that is in the
  // memo is answered on the spot, one that is in the batch already is held back.
  method FillBatch(s: State, jobs: nat, suggestions: seq<Config>, eval: Config -> Answer)
    returns (t: State, batch: seq<Config>, deferred: seq<Config>, exhausted: bool)
    requires Between(s, suggestions, eval)
    ensures Filling(t, batch, deferred, suggestions, eval)
    ensures t.memo == s.memo && t.simulated == s.simulated
    ensures exhausted ==> t.next == |suggestions|
    ensures !exhausted ==> |batch| >= jobs
    ensures batch != [] ==> t.next > s.next
  {
    t, batch, deferred, exhausted := s, [], [], false;
    assert multiset(batch) + multiset(deferred) == multiset{};
    while |batch| < jobs
      invariant Filling(t, batch, deferred, suggestions, eval)
      invariant t.memo == s.memo && t.simulated == s.simulated && t.next >= s.next
      invariant batch != [] ==> t.next > s.next
      decreases |suggestions| - t.next
    {
      if t.next == |suggestions| {
        exhausted := true;
        break;
      }
      var c := suggestions[t.next];
      if c in t.memo {
        FillFromMemo(t, batch, deferred, suggestions, eval);
        t := t.(records := t.records + [Record(c, t.memo[c], true)], next := t.next + 1);
      } else if c in batch {
        FillHeldBack(t, batch, deferred, suggestions, eval);
        deferred := deferred + [c];
        t := t.(next := t.next + 1);
      } else {
        FillNew(t, batch, deferred, suggestions, eval);
        batch := batch + [c];
        t := t.(next := t.next + 1);
      }
    }
  }

  lemma HeldBackIsInBatch(batch: seq<Config>, deferred: seq<Config>)
    requires forall c | c in deferred :: c in batch
    ensures batch == [] ==> deferred == []
  {
    if deferred != [] {
      assert deferred[0] in deferred;
    }
  }

  // What is held back is in the batch, so an empty batch holds nothing back.
  lemma NothingHeldBack(s: State, deferred: seq<Config>, suggestions: seq<Config>, eval: Config -> Answer)
    requires Filling(s, [], deferred, suggestions, eval)
    ensures deferred == [] && Between(s, suggestions, eval)
  {
    HeldBackIsInBatch([], deferred);
    var none: seq<Config> := [];
    assert multiset(none) + multiset(none) == multiset{};
  }

  // The answers of a batch, in whatever order they land.
  method Land(s: State, batch: seq<Config>, deferred: seq<Config>, suggestions: seq<Config>, eval: Config -> Answer) returns (t: State)
    requires Filling(s, batch, deferred, suggestions, eval)
    ensures t.next == s.next && t.next <= |suggestions|
    ensures Account(t.records, multiset(deferred), t.memo, t.simulated, suggestions[..t.next], eval)
    ensures forall c :: c in t.memo <==> c in suggestions[..t.next]
  {
    t := s;
    var waiting := batch;
    while waiting != []
      invariant t.next == s.next && NoDup(waiting)
      invariant Account(t.records, multiset(waiting) + multiset(deferred), t.memo, t.simulated, suggestions[..t.next], eval)
      invariant forall c | c in waiting :: c !in t.memo
      invariant forall c :: c in t.memo || c in waiting <==> c in suggestions[..t.next]
      decreases |waiting|
    {
      var i :| 0 <= i < |waiting|;
      var c := waiting[i];
      ghost var rest := waiting[..i] + waiting[i + 1..];
      TakeOut(waiting, i);
      LandedAccount(t.records, multiset(waiting) + multiset(deferred), t.memo, t.simulated, suggestions[..t.next], eval, c);
      assert multiset(waiting) + multiset(deferred) - multiset{c} == multiset(rest) + multiset(deferred);
      t := t.(records := t.records + [Record(c, eval(c), false)], memo := t.memo[c := eval(c)], simulated := t.simulated + [c]);
      waiting := waiting[..i] + waiting[i + 1..];
    }
  }

  lemma TakeOut(s: seq<Config>, i: nat)
    requires NoDup(s) && i < |s|
    ensures var rest := s[..i] + s[i + 1..];
            NoDup(rest) && multiset(s) == multiset(rest) + multiset{s[i]}
            && forall c :: c in rest <==> c in s && c != s[i]
  {
    assert s == s[..i] + [s[i]] + s[i + 1..];
  }

  // What was held back is answered from the memo.
  method ServeDeferred(s: State, deferred: seq<Config>, suggestions: seq<Config>, eval: Config -> Answer) returns (t: State)
    requires s.next <= |suggestions|
    requires Account(s.records, multiset(deferred), s.memo, s.simulated, suggestions[..s.next], eval)
    requires (forall c | c in deferred :: c in s.memo) && forall c :: c in s.memo <==> c in suggestions[..s.next]
    ensures Between(t, suggestions, eval) && t.next == s.next
  {
    t := s;
    for k := 0 to |deferred|
      invariant t.next == s.next && t.memo == s.memo
      invariant Account(t.records, multiset(deferred[k..]), t.memo, t.simulated, suggestions[..t.next], eval)
    {
      var c := deferred[k];
      assert deferred[k..] == [c] + deferred[k + 1..];
      CachedAccount(t.records, multiset(deferred[k..]), t.memo, t.simulated, suggestions[..t.next], eval, c);
      assert multiset(deferred[k..]) - multiset{c} == multiset(deferred[k + 1..]);
      t := t.(records := t.records + [Record(c, t.memo[c], true)]);
    }
  }

  // However suggestions repeat, within a batch or across batches, and in whatever
  // order answers land: every suggestion is recorded exactly once with the answer
  // of its own combination, every combination is simulated exactly once, and the
  // loop ends with nothing held back.
  method RunPool(suggestions: seq<Config>, jobs: nat, eval: Config -> Answer) returns (records: seq<Record>, simulated: seq<Config>)
    requires jobs >= 1
    ensures multiset(Suggestions(records)) == multiset(suggestions) && Truthful(records, eval)
    ensures NoDup(simulated) && forall c :: c in simulated <==> c in suggestions
    ensures CachedCount(records) + |simulated| == |records|
  {
    var s := State([], map[], [], 0);
    var exhausted := false;
    while !exhausted
      invariant Between(s, suggestions, eval) && (exhausted ==> s.next == |suggestions|)
      decreases if exhausted then 0 else 1, |suggestions| - s.next
    {
      var t, batch, deferred, done := FillBatch(s, jobs, suggestions, eval);
      exhausted := done;
      if batch == [] {
        NothingHeldBack(t, deferred, suggestions, eval);
        s := t;
        if deferred != [] {
          continue;
        }
        break;
      }
      t := Land(t, batch, deferred, suggestions, eval);
      s := ServeDeferred(t, deferred, suggestions, eval);
    }
    assert suggestions[..|suggestions|] == suggestions;
    return s.records, s.simulated;
  }

  // With one worker or many, the same lines come out.
  lemma SameLines(a: seq<Record>, b: seq<Record>, eval: Config -> Answer)
    requires Truthful(a, eval) && Truthful(b, eval) && multiset(Suggestions(a)) == multiset(Suggestions(b))
    ensures multiset(Lines(a)) == multiset(Lines(b))
  {
    LinesOf(a, eval);
    LinesOf(b, eval);
    AnsweredSame(Suggestions(a), Suggestions(b), eval);
  }

  function Lines(records: seq<Record>): seq<(Config, Answer)> {
    seq(|records|, i requires 0 <= i < |records| => (records[i].suggestion, records[i].answer))
  }

  function Answered(asked: seq<Config>, eval: Config -> Answer): seq<(Config, Answer)> {
    seq(|asked|, i requires 0 <= i < |asked| => (asked[i], eval(asked[i])))
  }

  lemma LinesOf(records: seq<Record>, eval: Config -> Answer)
    requires Truthful(records, eval)
    ensures Lines(records) == Answered(Suggestions(records), eval)
  {
  }

  lemma {:induction false} AnsweredCount(asked: seq<Config>, eval: Config -> Answer, c: Config, answer: Answer)
    ensures multiset(Answered(asked, eval))[(c, answer)] == if answer == eval(c) then multiset(asked)[c] else 0
  {
    if asked == [] {
      assert Answered(asked, eval) == [];
    } else {
      AnsweredCount(asked[1..], eval, c, answer);
      assert asked == [asked[0]] + asked[1..];
      assert Answered(asked, eval) == [(asked[0], eval(asked[0]))] + Answered(asked[1..], eval);
    }
  }

  lemma AnsweredSame(a: seq<Config>, b: seq<Config>, eval: Config -> Answer)
    requires multiset(a) == multiset(b)
    ensures multiset(Answered(a, eval)) == multiset(Answered(b, eval))
  {
    forall line: (Config, Answer) ensures multiset(Answered(a, eval))[line] == multiset(Answered(b, eval))[line] {
      AnsweredCount(a, eval, line.0, line.1);
      AnsweredCount(b, eval, line.0, line.1);
    }
  }
}
