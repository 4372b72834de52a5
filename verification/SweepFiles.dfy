/**
 A sweep and the file its rows are kept in: what each attempt finds there, what it
 leaves, and how much nearer to its end the sweep is -- with attempts dying in the
 middle of an append and going on behind what they left.
 */
module SweepFiles {
  import opened Seqs
  import opened Chains
  import opened Bisect
  import opened Sweep
  import Checkpoint

  // One fund's sweep. `body` is what is written of a configuration's row, `read`
  // what is made of a line read back.
  datatype Fund = Fund(ticker: string, grid: seq<Config>, keys: set<Key>, eval: Config -> Outcome,
                       body: Config -> string, read: string -> Row)

  ghost predicate Proper(s: Fund) {
    NoDup(s.grid) && Uniform(s.grid, s.keys) && forall c | c in s.grid :: s.read(s.body(c)) == RowOf(c, s.eval(c))
  }

  // completed_rows: the fund's rows of a checkpoint, in the order they finished.
  function Completed(s: Fund, rows: seq<Checkpoint.Row>): seq<Row> {
    if rows == [] then []
    else
      var last := rows[|rows| - 1];
      Completed(s, rows[..|rows| - 1]) + if last.ticker == s.ticker then [s.read(last.body)] else []
  }

  function Prior(s: Fund, f: Checkpoint.File): seq<Row> {
    Completed(s, Checkpoint.LoadRows(f))
  }

  function Left(s: Fund, f: Checkpoint.File): nat {
    Remaining(Prior(s, f), s.grid, s.keys)
  }

  function ConfigOf(s: Fund, row: Checkpoint.Row): Config {
    KeyOf(s.read(row.body), s.keys)
  }

  // A row of this fund and this grid.
  predicate Counts(s: Fund, row: Checkpoint.Row) {
    row.ticker == s.ticker && ConfigOf(s, row) in s.grid
  }

  function DoneIn(s: Fund, rows: seq<Checkpoint.Row>): set<Config> {
    set row | row in rows && Counts(s, row) :: ConfigOf(s, row)
  }

  lemma {:induction false} CompletedMembers(s: Fund, rows: seq<Checkpoint.Row>, r: Row)
    ensures r in Completed(s, rows) <==> exists row :: row in rows && row.ticker == s.ticker && s.read(row.body) == r
  {
    if rows != [] {
      var front, last := rows[..|rows| - 1], rows[|rows| - 1];
      CompletedMembers(s, front, r);
      assert rows == front + [last];
    }
  }

  lemma FinishedIsDoneIn(s: Fund, rows: seq<Checkpoint.Row>)
    ensures Finished(Completed(s, rows), s.grid, s.keys) == DoneIn(s, rows)
  {
    var completed := Completed(s, rows);
    forall c: Config | c in KeysOf(completed, s.keys) && c in s.grid ensures c in DoneIn(s, rows) {
      var i :| 0 <= i < |completed| && KeysOf(completed, s.keys)[i] == c;
      assert completed[i] in completed;
      CompletedMembers(s, rows, completed[i]);
      var row :| row in rows && row.ticker == s.ticker && s.read(row.body) == completed[i];
      assert Counts(s, row);
    }
    forall c: Config | c in DoneIn(s, rows) ensures c in KeysOf(completed, s.keys) && c in s.grid {
      var row :| row in rows && Counts(s, row) && ConfigOf(s, row) == c;
      CompletedMembers(s, rows, s.read(row.body));
      InKeys(completed, s.read(row.body), s.keys);
    }
  }

  lemma DoneInBoth(s: Fund, a: seq<Checkpoint.Row>, b: seq<Checkpoint.Row>)
    ensures DoneIn(s, a + b) == DoneIn(s, a) + DoneIn(s, b)
  {
    forall c | c in DoneIn(s, a) + DoneIn(s, b) ensures c in DoneIn(s, a + b) {
      if c in DoneIn(s, a) {
        var row :| row in a && Counts(s, row) && ConfigOf(s, row) == c;
        assert row in a + b;
      } else {
        var row :| row in b && Counts(s, row) && ConfigOf(s, row) == c;
        assert row in a + b;
      }
    }
  }

  // ---- whatever was written is what the engine makes -------------------------

  ghost predicate Genuine(s: Fund, row: Checkpoint.Row) {
    Counts(s, row) ==> s.read(row.body) == RowOf(ConfigOf(s, row), s.eval(ConfigOf(s, row)))
  }

  ghost predicate GenuineFile(s: Fund, f: Checkpoint.File) {
    forall line | line in Checkpoint.AllLines(f) && line.Entry? :: Genuine(s, line.row)
  }

  lemma {:induction false} LoadedIsEntry(lines: seq<Checkpoint.Line>, row: Checkpoint.Row)
    ensures row in Checkpoint.LoadLines(lines) <==> Checkpoint.Entry(row) in lines
  {
    if lines != [] {
      LoadedIsEntry(lines[..|lines| - 1], row);
      assert lines == lines[..|lines| - 1] + [lines[|lines| - 1]];
    }
  }

  lemma GenuineIsHonest(s: Fund, f: Checkpoint.File)
    requires GenuineFile(s, f)
    ensures Honest(Prior(s, f), s.grid, s.keys, s.eval)
  {
    Checkpoint.LoadAll(f);
    forall r | r in Prior(s, f) && KeyOf(r, s.keys) in s.grid ensures r == RowOf(KeyOf(r, s.keys), s.eval(KeyOf(r, s.keys))) {
      CompletedMembers(s, Checkpoint.LoadRows(f), r);
      var row :| row in Checkpoint.LoadRows(f) && row.ticker == s.ticker && s.read(row.body) == r;
      LoadedIsEntry(Checkpoint.AllLines(f), row);
      assert Genuine(s, Checkpoint.Entry(row).row);
    }
  }

  lemma AppendGenuine(s: Fund, f: Checkpoint.File, rows: seq<Checkpoint.Row>)
    requires GenuineFile(s, f) && forall row | row in rows :: Genuine(s, row)
    ensures GenuineFile(s, Checkpoint.AppendRows(f, rows))
  {
    var g := Checkpoint.AppendRows(f, rows);
    if rows != [] {
      var entries := Checkpoint.Entries(rows[1..]);
      forall line | line in Checkpoint.AllLines(g) && line.Entry? ensures Genuine(s, line.row) {
        if line in entries {
          var i :| 0 <= i < |entries| && entries[i] == line;
          assert rows[i + 1] in rows;
        } else if line !in f.lines {
          assert line == Checkpoint.Entry(rows[0]) && rows[0] in rows;
        } else {
          assert line in Checkpoint.AllLines(f);
        }
      }
    }
  }

  lemma CrashGenuine(s: Fund, f: Checkpoint.File, rows: seq<Checkpoint.Row>, written: nat, cut: Checkpoint.Cut)
    requires GenuineFile(s, f) && written < |rows| && forall row | row in rows :: Genuine(s, row)
    ensures GenuineFile(s, Checkpoint.CrashAppending(f, rows, written, cut))
  {
    forall row | row in rows[..written] ensures Genuine(s, row) {
      assert row in rows;
    }
    AppendGenuine(s, f, rows[..written]);
    assert rows[written] in rows;
  }

  // Whatever rows were lost, torn or written twice before: the attempt that ends
  // the sweep has the rows one uninterrupted attempt would have had.
  lemma EndIsWhole(s: Fund, f: Checkpoint.File, done: seq<Config>)
    requires Proper(s) && GenuineFile(s, f)
    requires Attempt(Prior(s, f), done, s.grid, s.keys) && Complete(Prior(s, f), done, s.grid, s.keys)
    ensures multiset(AllRows(Prior(s, f), done, s.grid, s.keys, s.eval)) == multiset(RowsFor(s.grid, s.eval))
    ensures forall c | c in s.grid :: multiset(KeysOf(AllRows(Prior(s, f), done, s.grid, s.keys, s.eval), s.keys))[c] == 1
  {
    GenuineIsHonest(s, f);
    ResumedSweepIsWhole(Prior(s, f), done, s.grid, s.keys, s.eval);
  }

  // ---- one attempt ----------------------------------------------------------

  // The configurations whose rows it wrote, and the one whose row was going out
  // when it died, if it died writing.
  datatype Try = Try(done: seq<Config>, torn: Option<(Config, Checkpoint.Cut)>)

  function Written(s: Fund, c: Config): Checkpoint.Row {
    Checkpoint.Row(s.ticker, s.body(c))
  }

  function WrittenAll(s: Fund, done: seq<Config>): seq<Checkpoint.Row> {
    seq(|done|, i requires 0 <= i < |done| => Written(s, done[i]))
  }

  function Begun(t: Try): seq<Config> {
    if t.torn.Some? then t.done + [t.torn.value.0] else t.done
  }

  ghost predicate Tries(s: Fund, f: Checkpoint.File, t: Try) {
    Attempt(Prior(s, f), Begun(t), s.grid, s.keys)
  }

  function After(s: Fund, f: Checkpoint.File, t: Try): Checkpoint.File {
    match t.torn
    case None => Checkpoint.AppendRows(f, WrittenAll(s, t.done))
    case Some((c, cut)) => Checkpoint.CrashAppending(f, WrittenAll(s, t.done) + [Written(s, c)], |t.done|, cut)
  }

  // It got a byte out.
  predicate Wrote(t: Try) {
    t.done != [] || (t.torn.Some? && !t.torn.value.1.BetweenLines?)
  }

  // The configurations whose rows load afterwards: all of them, but for one that
  // was written onto an unfinished line.
  function Lasting(f: Checkpoint.File, t: Try): seq<Config> {
    Whole(f, t.done)
    + if t.torn.Some? && t.torn.value.1.BeforeNewline? && (f.tail == None || t.done != []) then [t.torn.value.0] else []
  }

  // The unfinished line is the only row of a configuration of the grid.
  ghost predicate OnlyLoose(s: Fund, f: Checkpoint.File) {
    Checkpoint.Loose(f) && Counts(s, f.tail.value.row)
    && ConfigOf(s, f.tail.value.row) !in DoneIn(s, Checkpoint.LoadLines(f.lines))
  }

  lemma AfterTail(s: Fund, f: Checkpoint.File, t: Try)
    ensures After(s, f, t).tail ==
              if t.torn.Some? && t.torn.value.1.InsideLine? then Some(Checkpoint.Junk)
              else if t.torn.Some? && t.torn.value.1.BeforeNewline?
              then Some(if f.tail == None || t.done != [] then Checkpoint.Entry(Written(s, t.torn.value.0)) else Checkpoint.Junk)
              else if t.done != [] then None else f.tail
  {
    if t.torn.Some? {
      var rows := WrittenAll(s, t.done) + [Written(s, t.torn.value.0)];
      assert rows[..|t.done|] == WrittenAll(s, t.done) && rows[|t.done|] == Written(s, t.torn.value.0);
    }
  }

  lemma AppendedLoads(f: Checkpoint.File, rows: seq<Checkpoint.Row>)
    requires rows != []
    ensures Checkpoint.LoadLines(Checkpoint.AppendRows(f, rows).lines)
         == Checkpoint.LoadLines(f.lines) + if f.tail == None then rows else rows[1..]
  {
    var g := Checkpoint.AppendRows(f, rows);
    Checkpoint.AppendLoads(f, rows);
    assert Checkpoint.LoadRows(g) == Checkpoint.LoadLines(g.lines);
    if f.tail == None {
      assert Checkpoint.LoadRows(f) == Checkpoint.LoadLines(f.lines);
    }
  }

  // The rows that get onto whole lines.
  function Whole(f: Checkpoint.File, done: seq<Config>): seq<Config> {
    if done != [] && f.tail != None then done[1..] else done
  }

  lemma AfterLines(s: Fund, f: Checkpoint.File, t: Try)
    ensures Checkpoint.LoadLines(After(s, f, t).lines) == Checkpoint.LoadLines(f.lines) + WrittenAll(s, Whole(f, t.done))
  {
    var all := WrittenAll(s, t.done);
    if t.torn.Some? {
      var rows := all + [Written(s, t.torn.value.0)];
      assert rows[..|t.done|] == all;
    }
    assert After(s, f, t).lines == Checkpoint.AppendRows(f, all).lines;
    if t.done == [] {
      assert WrittenAll(s, Whole(f, t.done)) == [];
    } else {
      AppendedLoads(f, all);
      assert f.tail != None ==> all[1..] == WrittenAll(s, t.done[1..]);
    }
  }

  lemma WrittenBoth(s: Fund, a: seq<Config>, b: seq<Config>)
    ensures WrittenAll(s, a + b) == WrittenAll(s, a) + WrittenAll(s, b)
  {
  }

  // What was there on whole lines, and what lasts.
  lemma AfterLoads(s: Fund, f: Checkpoint.File, t: Try)
    requires Wrote(t)
    ensures Checkpoint.LoadRows(After(s, f, t)) == Checkpoint.LoadLines(f.lines) + WrittenAll(s, Lasting(f, t))
  {
    AfterLines(s, f, t);
    AfterTail(s, f, t);
    var g, whole, last := After(s, f, t), Whole(f, t.done), Lasting(f, t)[|Whole(f, t.done)|..];
    assert Lasting(f, t) == whole + last;
    WrittenBoth(s, whole, last);
    var tail := if g.tail == None then [] else Checkpoint.Parsed(g.tail.value);
    assert tail == WrittenAll(s, last);
    var solid, rows := Checkpoint.LoadLines(f.lines), WrittenAll(s, whole);
    assert (solid + rows) + tail == solid + (rows + tail);
  }

  lemma WrittenIsDone(s: Fund, done: seq<Config>)
    requires Proper(s) && forall c | c in done :: c in s.grid
    ensures DoneIn(s, WrittenAll(s, done)) == Elems(done)
  {
    var rows := WrittenAll(s, done);
    forall c | c in done ensures ConfigOf(s, Written(s, c)) == c {
      KeyOfRow(c, s.eval(c), s.keys);
    }
    forall c | c in DoneIn(s, rows) ensures c in done {
      var row :| row in rows && Counts(s, row) && ConfigOf(s, row) == c;
      var i :| 0 <= i < |rows| && rows[i] == row;
      assert done[i] in done;
    }
    forall c | c in done ensures c in DoneIn(s, rows) {
      var i :| 0 <= i < |done| && done[i] == c;
      assert rows[i] in rows && Counts(s, rows[i]);
    }
  }

  // What it began is of the grid, once each, and not done before.
  lemma BegunIsNew(s: Fund, f: Checkpoint.File, t: Try)
    requires Proper(s) && Tries(s, f, t)
    ensures NoDup(Begun(t))
    ensures forall c | c in Begun(t) :: c in s.grid && c !in DoneIn(s, Checkpoint.LoadRows(f))
  {
    var prior := Prior(s, f);
    DoneOnce(prior, Begun(t), s.grid, s.keys);
    DoneInGrid(prior, Begun(t), s.grid, s.keys);
    KeepOnceFacts(prior, Elems(s.grid), s.keys, {});
    FinishedIsDoneIn(s, Checkpoint.LoadRows(f));
  }

  lemma LastingIsBegun(f: Checkpoint.File, t: Try)
    requires NoDup(Begun(t))
    ensures NoDup(Lasting(f, t)) && forall c | c in Lasting(f, t) :: c in Begun(t)
  {
    var from := if t.done != [] && f.tail != None then 1 else 0;
    var lasting := Lasting(f, t);
    forall i | 0 <= i < |lasting| ensures lasting[i] == Begun(t)[i + from] {
    }
  }

  lemma LooseLoads(s: Fund, f: Checkpoint.File)
    ensures var solid := DoneIn(s, Checkpoint.LoadLines(f.lines));
            DoneIn(s, Checkpoint.LoadRows(f))
            == solid + if OnlyLoose(s, f) then {ConfigOf(s, f.tail.value.row)} else {}
  {
    var solid := Checkpoint.LoadLines(f.lines);
    var tail := if f.tail == None then [] else Checkpoint.Parsed(f.tail.value);
    DoneInBoth(s, solid, tail);
    if Checkpoint.Loose(f) {
      var row := f.tail.value.row;
      assert tail == [row];
      assert DoneIn(s, [row]) == if Counts(s, row) then {ConfigOf(s, row)} else {} by {
        assert row in [row];
      }
    } else {
      assert tail == [];
    }
  }

  lemma LeftIs(s: Fund, rows: seq<Checkpoint.Row>)
    requires NoDup(s.grid)
    ensures Remaining(Completed(s, rows), s.grid, s.keys) + |DoneIn(s, rows)| == |s.grid|
  {
    FinishedIsDoneIn(s, rows);
    NoDupSize(s.grid);
    assert DoneIn(s, rows) <= Elems(s.grid);
    assert Elems(s.grid) == (Elems(s.grid) - DoneIn(s, rows)) + DoneIn(s, rows);
  }

  // How much less there is to do after an attempt.
  ghost function Fall(s: Fund, f: Checkpoint.File, t: Try): int {
    |Lasting(f, t)| - if Wrote(t) && OnlyLoose(s, f) then 1 else 0
  }

  // Exactly that much: each row that lasts is one configuration less, and an
  // attempt that writes onto a row without its newline has that one to do again
  // if there is no other of it. One that is not torn takes off what it finished if
  // and only if the file ended in a whole line, or it finished nothing.
  lemma AttemptFalls(s: Fund, f: Checkpoint.File, t: Try)
    requires Proper(s) && Tries(s, f, t)
    ensures Left(s, After(s, f, t)) + Fall(s, f, t) == Left(s, f)
    ensures t.torn == None ==>
              (Fall(s, f, t) == |t.done| <==> f.tail == None || t.done == [])
              && (f.tail != None && t.done != [] ==> Fall(s, f, t) == |t.done| - 1 - if OnlyLoose(s, f) then 1 else 0)
  {
    LeftIs(s, Checkpoint.LoadRows(f));
    LeftIs(s, Checkpoint.LoadRows(After(s, f, t)));
    if Wrote(t) {
      var solid := DoneIn(s, Checkpoint.LoadLines(f.lines));
      BegunIsNew(s, f, t);
      LastingIsBegun(f, t);
      AfterLoads(s, f, t);
      DoneInBoth(s, Checkpoint.LoadLines(f.lines), WrittenAll(s, Lasting(f, t)));
      WrittenIsDone(s, Lasting(f, t));
      LooseLoads(s, f);
      NoDupSize(Lasting(f, t));
      assert solid !! Elems(Lasting(f, t));
      assert |solid + Elems(Lasting(f, t))| == |solid| + |Lasting(f, t)|;
    } else {
      NothingWritten(s, f, t);
    }
  }

  lemma NothingWritten(s: Fund, f: Checkpoint.File, t: Try)
    requires !Wrote(t)
    ensures After(s, f, t) == f && Lasting(f, t) == []
  {
    if t.torn.Some? {
      var rows := WrittenAll(s, t.done) + [Written(s, t.torn.value.0)];
      assert rows[..0] == [];
    }
  }

  // ---- all attempts -----------------------------------------------------------

  ghost predicate Onward(s: Fund, f: Checkpoint.File, t: Try, next: Checkpoint.File) {
    Tries(s, f, t) && next == After(s, f, t)
  }

  ghost function Onwards(s: Fund): (Checkpoint.File, Try, Checkpoint.File) -> bool {
    (f, t, next) => Onward(s, f, t, next)
  }

  // A sweep stopped, killed and resumed any number of times.
  ghost predicate IsSweep(s: Fund, files: seq<Checkpoint.File>, tries: seq<Try>) {
    Proper(s) && Chained(Onwards(s), files, tries) && files[0] == Checkpoint.NoFile
  }

  lemma SweepStep(s: Fund, files: seq<Checkpoint.File>, tries: seq<Try>, k: nat)
    requires IsSweep(s, files, tries) && k < |tries|
    ensures |files| == |tries| + 1 && Tries(s, files[k], tries[k]) && files[k + 1] == After(s, files[k], tries[k])
  {
    assert Onwards(s)(files[k], tries[k], files[k + 1]);
  }

  ghost function Falls(s: Fund, files: seq<Checkpoint.File>, tries: seq<Try>): seq<int>
    requires |files| == |tries| + 1
  {
    seq(|tries|, k requires 0 <= k < |tries| => Fall(s, files[k], tries[k]))
  }

  function Total(falls: seq<int>): int {
    if falls == [] then 0 else Total(falls[..|falls| - 1]) + falls[|falls| - 1]
  }

  lemma {:induction false} Telescope(lefts: seq<int>, falls: seq<int>, k: nat)
    requires |lefts| == |falls| + 1 && k <= |falls|
    requires forall j | 0 <= j < |falls| :: lefts[j + 1] == lefts[j] - falls[j]
    ensures lefts[k] == lefts[0] - Total(falls[..k])
  {
    if k > 0 {
      Telescope(lefts, falls, k - 1);
      assert falls[..k][..k - 1] == falls[..k - 1];
      assert lefts[(k - 1) + 1] == lefts[k - 1] - falls[k - 1];
    }
  }

  lemma AllLeft(s: Fund)
    requires NoDup(s.grid)
    ensures Left(s, Checkpoint.NoFile) == |s.grid|
  {
    LeftIs(s, Checkpoint.LoadRows(Checkpoint.NoFile));
  }

  lemma StepFalls(s: Fund, files: seq<Checkpoint.File>, tries: seq<Try>, k: nat)
    requires IsSweep(s, files, tries) && k < |tries|
    ensures |files| == |tries| + 1 && Left(s, files[k + 1]) + Fall(s, files[k], tries[k]) == Left(s, files[k])
  {
    SweepStep(s, files, tries, k);
    AttemptFalls(s, files[k], tries[k]);
  }

  // What is left is the grid less everything that lasted.
  lemma SweepAccount(s: Fund, files: seq<Checkpoint.File>, tries: seq<Try>, k: nat)
    requires IsSweep(s, files, tries) && k <= |tries|
    ensures |files| == |tries| + 1 && Left(s, files[k]) + Total(Falls(s, files, tries)[..k]) == |s.grid|
  {
    AllLeft(s);
    var falls := Falls(s, files, tries);
    var lefts := seq(|files|, j requires 0 <= j < |files| => Left(s, files[j]));
    forall j | 0 <= j < |falls| ensures lefts[j + 1] == lefts[j] - falls[j] {
      StepFalls(s, files, tries, j);
    }
    Telescope(lefts, falls, k);
  }

  // An attempt leaves less to do than it found if and only if more of its rows
  // last than it spoils.
  lemma AttemptAdvancesIff(s: Fund, f: Checkpoint.File, t: Try)
    requires Proper(s) && Tries(s, f, t)
    ensures Left(s, After(s, f, t)) < Left(s, f) <==> |Lasting(f, t)| > if Wrote(t) && OnlyLoose(s, f) then 1 else 0
  {
    AttemptFalls(s, f, t);
  }

  // If every attempt does, there are no more of them than configurations.
  lemma {:induction false} SweepEnds(s: Fund, files: seq<Checkpoint.File>, tries: seq<Try>, k: nat)
    requires IsSweep(s, files, tries) && k <= |tries|
    requires forall j | 0 <= j < k :: |Lasting(files[j], tries[j])| > if Wrote(tries[j]) && OnlyLoose(s, files[j]) then 1 else 0
    ensures Left(s, files[k]) + k <= |s.grid|
  {
    if k == 0 {
      AllLeft(s);
    } else {
      SweepEnds(s, files, tries, k - 1);
      StepFalls(s, files, tries, k - 1);
    }
  }

  // As long as nothing dies inside a line, what an attempt finishes stays finished.
  lemma {:induction false} UntornFalls(s: Fund, files: seq<Checkpoint.File>, tries: seq<Try>, k: nat)
    requires IsSweep(s, files, tries) && k < |tries|
    requires forall j | 0 <= j <= k && tries[j].torn.Some? :: tries[j].torn.value.1.BetweenLines?
    ensures files[k].tail == None && Fall(s, files[k], tries[k]) == |tries[k].done|
  {
    if k > 0 {
      UntornFalls(s, files, tries, k - 1);
      SweepStep(s, files, tries, k - 1);
      AfterTail(s, files[k - 1], tries[k - 1]);
    }
  }

  // ---- where it does not get nearer -------------------------------------------

  // A row had been saved without its newline. The next attempt finishes another
  // configuration, and there is more to do than before.
  lemma FinishingCanSetBack(s: Fund, c: Config, d: Config)
    requires Proper(s) && c in s.grid && d in s.grid && c != d
    ensures var saved := After(s, Checkpoint.NoFile, Try([], Some((d, Checkpoint.BeforeNewline))));
            var t := Try([c], None);
            && Tries(s, Checkpoint.NoFile, Try([], Some((d, Checkpoint.BeforeNewline)))) && Tries(s, saved, t)
            && Left(s, saved) == |s.grid| - 1 && Left(s, After(s, saved, t)) == |s.grid|
  {
    var first, t := Try([], Some((d, Checkpoint.BeforeNewline))), Try([c], None);
    var saved := After(s, Checkpoint.NoFile, first);
    assert Begun(first) == [d] && Begun(t) == [c];
    AfterLoads(s, Checkpoint.NoFile, first);
    AfterTail(s, Checkpoint.NoFile, first);
    assert Lasting(Checkpoint.NoFile, first) == [d];
    WrittenIsDone(s, [d]);
    assert Checkpoint.LoadRows(saved) == WrittenAll(s, [d]);
    CanTry(s, Checkpoint.NoFile, d);
    CanTry(s, saved, c);
    AttemptFalls(s, Checkpoint.NoFile, first);
    LeftIs(s, []);
    KeyOfRow(d, s.eval(d), s.keys);
    assert OnlyLoose(s, saved);
    AttemptFalls(s, saved, t);
  }

  // Nothing loads, and what is written next is written onto a piece of a line.
  ghost predicate Spoilt(f: Checkpoint.File) {
    f.tail == Some(Checkpoint.Junk) && Checkpoint.LoadRows(f) == []
  }

  lemma SpoiltLeft(s: Fund, f: Checkpoint.File)
    requires NoDup(s.grid) && Spoilt(f)
    ensures Left(s, f) == |s.grid|
  {
    LeftIs(s, []);
  }

  lemma SpoiltAgain(s: Fund, f: Checkpoint.File, c: Config, d: Config)
    requires Proper(s) && Spoilt(f) && c in s.grid && d in s.grid && c != d
    ensures var t := Try([c], Some((d, Checkpoint.InsideLine))); Tries(s, f, t) && Spoilt(After(s, f, t))
  {
    var t := Try([c], Some((d, Checkpoint.InsideLine)));
    assert Begun(t) == [c, d];
    CanTryBoth(s, f, c, d);
    AfterLoads(s, f, t);
    AfterTail(s, f, t);
    assert Lasting(f, t) == [] && WrittenAll(s, Lasting(f, t)) == [];
    assert Checkpoint.LoadRows(f) == Checkpoint.LoadLines(f.lines) + [];
  }

  lemma SpoiltFirst(s: Fund, d: Config) returns (files: seq<Checkpoint.File>, tries: seq<Try>)
    requires Proper(s) && d in s.grid
    ensures IsSweep(s, files, tries) && |tries| == 1 && Spoilt(files[1])
  {
    var t := Try([], Some((d, Checkpoint.InsideLine)));
    assert Begun(t) == [d];
    CanTry(s, Checkpoint.NoFile, d);
    AfterLoads(s, Checkpoint.NoFile, t);
    AfterTail(s, Checkpoint.NoFile, t);
    assert Lasting(Checkpoint.NoFile, t) == [] && WrittenAll(s, []) == [];
    files, tries := [Checkpoint.NoFile, After(s, Checkpoint.NoFile, t)], [t];
  }

  lemma SpoiltOnceMore(s: Fund, before: seq<Checkpoint.File>, tries: seq<Try>, c: Config, d: Config)
    returns (files: seq<Checkpoint.File>, more: seq<Try>)
    requires IsSweep(s, before, tries) && Spoilt(before[|tries|]) && c in s.grid && d in s.grid && c != d
    ensures IsSweep(s, files, more) && more == tries + [Try([c], Some((d, Checkpoint.InsideLine)))] && Spoilt(files[|more|])
  {
    var t := Try([c], Some((d, Checkpoint.InsideLine)));
    SpoiltAgain(s, before[|tries|], c, d);
    var next := After(s, before[|tries|], t);
    ChainedMore(Onwards(s), before, tries, t, next);
    files, more := before + [next], tries + [t];
  }

  // Dying inside a line again and again: every attempt but the first finishes a
  // configuration, for as long as one likes, and nothing is ever done.
  lemma {:induction false} SweepNeedNotEnd(s: Fund, c: Config, d: Config, n: nat) returns (files: seq<Checkpoint.File>, tries: seq<Try>)
    requires Proper(s) && c in s.grid && d in s.grid && c != d
    ensures IsSweep(s, files, tries) && |tries| == n + 1 && forall k | 1 <= k <= n :: tries[k].done == [c]
    ensures Spoilt(files[n + 1]) && Left(s, files[n + 1]) == |s.grid|
  {
    if n == 0 {
      files, tries := SpoiltFirst(s, d);
    } else {
      var before, done := SweepNeedNotEnd(s, c, d, n - 1);
      files, tries := SpoiltOnceMore(s, before, done, c, d);
    }
    SpoiltLeft(s, files[n + 1]);
  }

  lemma StillAhead(s: Fund, f: Checkpoint.File, c: Config)
    requires Proper(s) && c in s.grid && Checkpoint.LoadRows(f) == []
    ensures multiset(Ahead(Prior(s, f), s.grid, s.keys))[c] > 0
  {
    TodoCounts(s.grid, Skip(Prior(s, f), s.grid, s.keys), c);
    assert multiset(s.grid)[c] > 0;
  }

  lemma CanTryBoth(s: Fund, f: Checkpoint.File, c: Config, d: Config)
    requires Proper(s) && c in s.grid && d in s.grid && c != d && Checkpoint.LoadRows(f) == []
    ensures Attempt(Prior(s, f), [c, d], s.grid, s.keys)
  {
    StillAhead(s, f, c);
    StillAhead(s, f, d);
    assert multiset([c, d]) == multiset{c, d};
  }

  // Anything that is not done can be begun.
  lemma CanTry(s: Fund, f: Checkpoint.File, c: Config)
    requires Proper(s) && c in s.grid && c !in DoneIn(s, Checkpoint.LoadRows(f))
    ensures Attempt(Prior(s, f), [c], s.grid, s.keys)
  {
    FinishedIsDoneIn(s, Checkpoint.LoadRows(f));
    KeepOnceFacts(Prior(s, f), Elems(s.grid), s.keys, {});
    TodoCounts(s.grid, Skip(Prior(s, f), s.grid, s.keys), c);
    assert multiset(s.grid)[c] > 0;
  }
}
