/**
 One run's `<run_id>.rows.jsonl` (QueueStore in server/jobs.py): finished
 configurations appended a batch at a time, read back line by line, with a line
 that is not JSON skipped.
 */
module Checkpoint {
  import opened Seqs

  // One finished configuration of one ticker, as written.
  datatype Row = Row(ticker: string, body: string)

  datatype Line = Entry(row: Row) | Junk

  // `tail` is whatever follows the last newline: a crash in the middle of an
  // append leaves a piece of a line there, or a whole one without its newline.
  datatype File = File(lines: seq<Line>, tail: Option<Line>)

  datatype Cut = BetweenLines | InsideLine | BeforeNewline

  function Entries(rows: seq<Row>): seq<Line> {
    seq(|rows|, i requires 0 <= i < |rows| => Entry(rows[i]))
  }

  // The first new line is written straight after the tail: a fragment and an
  // object on one line are not JSON.
  function AppendRows(f: File, rows: seq<Row>): File {
    if rows == [] then f
    else
      var first := if f.tail == None then Entry(rows[0]) else Junk;
      File(f.lines + [first] + Entries(rows[1..]), None)
  }

  // The process dies while rows[written] is going out, rows[..written] before it.
  function CrashAppending(f: File, rows: seq<Row>, written: nat, cut: Cut): File
    requires written < |rows|
  {
    var done := AppendRows(f, rows[..written]);
    match cut
    case BetweenLines => done
    case InsideLine => done.(tail := Some(Junk))
    case BeforeNewline => done.(tail := Some(if done.tail == None then Entry(rows[written]) else Junk))
  }

  function Parsed(line: Line): seq<Row> {
    if line.Entry? then [line.row] else []
  }

  function LoadLines(lines: seq<Line>): seq<Row> {
    if lines == [] then [] else LoadLines(lines[..|lines| - 1]) + Parsed(lines[|lines| - 1])
  }

  function LoadRows(f: File): seq<Row> {
    LoadLines(f.lines) + if f.tail == None then [] else Parsed(f.tail.value)
  }

  lemma {:induction false} LoadEntries(lines: seq<Line>, rows: seq<Row>)
    ensures LoadLines(lines + Entries(rows)) == LoadLines(lines) + rows
  {
    if rows == [] {
      assert lines + Entries(rows) == lines;
    } else {
      var n := |rows| - 1;
      var all := lines + Entries(rows);
      assert all[..|all| - 1] == lines + Entries(rows[..n]);
      assert rows == rows[..n] + [rows[n]];
      LoadEntries(lines, rows[..n]);
    }
  }

  lemma AppendToWhole(f: File, rows: seq<Row>)
    requires f.tail == None
    ensures LoadRows(AppendRows(f, rows)) == LoadRows(f) + rows
  {
    if rows == [] {
      assert LoadRows(f) + rows == LoadRows(f);
    } else {
      assert f.lines + [Entry(rows[0])] + Entries(rows[1..]) == f.lines + Entries(rows);
      LoadEntries(f.lines, rows);
    }
  }

  lemma AppendToTorn(f: File, rows: seq<Row>)
    requires f.tail != None && rows != []
    ensures LoadRows(AppendRows(f, rows)) == LoadLines(f.lines) + rows[1..]
  {
    LoadEntries(f.lines + [Junk], rows[1..]);
    assert (f.lines + [Junk])[..|f.lines|] == f.lines;
  }

  // Appending to a whole file adds exactly the rows appended. Appending after
  // a torn line always loses the first of them, and what the tail still held.
  lemma AppendLoads(f: File, rows: seq<Row>)
    ensures f.tail == None ==> LoadRows(AppendRows(f, rows)) == LoadRows(f) + rows
    ensures f.tail != None && rows != [] ==>
              LoadRows(AppendRows(f, rows)) == LoadLines(f.lines) + rows[1..]
    ensures LoadRows(AppendRows(f, rows)) == LoadRows(f) + rows <==> f.tail == None || rows == []
  {
    if f.tail == None {
      AppendToWhole(f, rows);
    } else if rows == [] {
      assert LoadRows(f) + rows == LoadRows(f);
    } else {
      AppendToTorn(f, rows);
      assert |LoadRows(f)| >= |LoadLines(f.lines)|;
    }
  }

  // A crash in the middle of an append to a whole file costs only rows of that
  // append: what loads afterwards is what was there and a prefix of the batch.
  lemma CrashLosesOnlyItsOwnBatch(f: File, rows: seq<Row>, written: nat, cut: Cut)
    requires f.tail == None && written < |rows|
    ensures var kept := if cut.BeforeNewline? then written + 1 else written;
            LoadRows(CrashAppending(f, rows, written, cut)) == LoadRows(f) + rows[..kept]
  {
    AppendLoads(f, rows[..written]);
    assert LoadRows(f) + rows[..written] + [rows[written]] == LoadRows(f) + rows[..written + 1];
    assert LoadRows(f) + rows[..written] + [] == LoadRows(f) + rows[..written];
  }

  // But the next append after such a crash writes onto the torn line, so a
  // second configuration -- one whose append succeeded -- is lost with it, and
  // with a whole line torn off its newline, the row that had survived as well.
  // Exactly the torn cuts do this.
  lemma CrashCostsTheNextRowToo(f: File, rows: seq<Row>, written: nat, cut: Cut, next: seq<Row>)
    requires f.tail == None && written < |rows| && next != []
    ensures LoadRows(AppendRows(CrashAppending(f, rows, written, cut), next))
            == LoadRows(f) + rows[..written] + (if cut == BetweenLines then next else next[1..])
  {
    AppendLoads(f, rows[..written]);
    AppendLoads(CrashAppending(f, rows, written, cut), next);
  }

  // ---- what a file becomes --------------------------------------------

  const NoFile := File([], None)

  // The unfinished line, if there is one, among the others.
  function AllLines(f: File): seq<Line> {
    f.lines + if f.tail == None then [] else [f.tail.value]
  }

  // What appends, whole ones and torn ones, make of a file: whole lines stay,
  // and an unfinished one is spoilt by whatever is written next.
  ghost predicate Extends(f: File, g: File) {
    f == g || if f.tail == None then f.lines <= g.lines else f.lines + [Junk] <= AllLines(g)
  }

  lemma ExtendsTrans(f: File, g: File, h: File)
    requires Extends(f, g) && Extends(g, h)
    ensures Extends(f, h)
  {
    if f != g && g != h {
      if g.tail != None {
        assert AllLines(h)[..|g.lines|] == g.lines;
        assert g.lines <= h.lines;
        if f.tail != None && |f.lines| == |g.lines| {
          assert AllLines(g)[|f.lines|] == Junk;
        }
      }
    }
  }

  lemma AppendExtends(f: File, rows: seq<Row>)
    ensures Extends(f, AppendRows(f, rows))
  {
  }

  lemma CrashExtends(f: File, rows: seq<Row>, written: nat, cut: Cut)
    requires written < |rows|
    ensures Extends(f, CrashAppending(f, rows, written, cut))
  {
    var done := AppendRows(f, rows[..written]);
    AppendExtends(f, rows[..written]);
    assert Extends(done, CrashAppending(f, rows, written, cut));
    ExtendsTrans(f, done, CrashAppending(f, rows, written, cut));
  }

  lemma {:induction false} LoadConcat(a: seq<Line>, b: seq<Line>)
    ensures LoadLines(a + b) == LoadLines(a) + LoadLines(b)
  {
    if b == [] {
      assert a + b == a;
    } else {
      assert (a + b)[..|a + b| - 1] == a + b[..|b| - 1];
      LoadConcat(a, b[..|b| - 1]);
    }
  }

  lemma LoadAll(f: File)
    ensures LoadRows(f) == LoadLines(AllLines(f))
  {
    if f.tail == None {
      assert AllLines(f) == f.lines;
    } else {
      assert AllLines(f)[..|f.lines|] == f.lines;
    }
  }

  lemma LoadPrefix(a: seq<Line>, b: seq<Line>)
    requires a <= b
    ensures LoadLines(a) <= LoadLines(b)
  {
    LoadConcat(a, b[|a|..]);
    assert b == a + b[|a|..];
  }

  // A row without its newline is all that what follows can cost.
  predicate Loose(f: File) {
    f.tail != None && f.tail.value.Entry?
  }

  lemma LinesStay(f: File, g: File)
    requires Extends(f, g)
    ensures AllLines(f) <= AllLines(g) <==> !Loose(f) || f == g
  {
    if f != g && f.tail != None {
      assert AllLines(f)[|f.lines|] == f.tail.value && AllLines(g)[|f.lines|] == Junk;
    }
  }

  lemma LooseIsGone(f: File, g: File)
    requires Extends(f, g) && Loose(f) && f != g
    ensures |AllLines(g)| > |f.lines|
    ensures LoadRows(g) == LoadLines(f.lines) + LoadLines(AllLines(g)[|f.lines| + 1..])
  {
    LoadAll(g);
    LoadAfterJunk(f.lines, AllLines(g));
  }

  lemma JunkLoadsNothing(lines: seq<Line>)
    ensures LoadLines(lines + [Junk]) == LoadLines(lines)
  {
    assert (lines + [Junk])[..|lines|] == lines;
  }

  lemma LoadAfterJunk(lines: seq<Line>, all: seq<Line>)
    requires lines + [Junk] <= all
    ensures LoadLines(all) == LoadLines(lines) + LoadLines(all[|lines| + 1..])
  {
    var rest := all[|lines| + 1..];
    assert all == (lines + [Junk]) + rest;
    LoadConcat(lines + [Junk], rest);
    JunkLoadsNothing(lines);
  }

  // Every line stays if and only if nothing follows a row without its newline;
  // and then the rows that load only grow. Otherwise that row is gone, and
  // nothing else.
  lemma LinesStayIff(f: File, g: File)
    requires Extends(f, g)
    ensures AllLines(f) <= AllLines(g) <==> !Loose(f) || f == g
    ensures !Loose(f) || f == g ==> LoadRows(f) <= LoadRows(g)
    ensures Loose(f) && f != g ==>
              |AllLines(g)| > |f.lines|
              && LoadRows(g) == LoadLines(f.lines) + LoadLines(AllLines(g)[|f.lines| + 1..])
  {
    LinesStay(f, g);
    LoadAll(f);
    LoadAll(g);
    if !Loose(f) || f == g {
      LoadPrefix(AllLines(f), AllLines(g));
    } else {
      LooseIsGone(f, g);
    }
  }
}
