/**
 Placing a real order (fidelity_gateway/placing_broker.py over broker.py):
 preview mints an id, the id is journalled, only then is anything committed --
 with the process dying, the journal failing and answers being lost anywhere.
 */
module Placing {
  import opened Seqs
  import opened Orders

  // One journalled order, as far as it is read back.
  datatype Entry = Entry(account: Id, decision: Id, conf: Id)

  datatype Line = Whole(entry: Entry) | Junk

  // A JSON-lines file; `tail` is what follows the last newline.
  datatype Journal = Journal(lines: seq<Line>, tail: Option<Line>)

  // What becomes of one write: all of it, nothing, a piece, all but the newline,
  // or all of it and an error nevertheless.
  datatype Write = Written | NothingWritten | Torn | Unended | WrittenButFailed

  // What follows an unfinished line is on the same line, and then neither is
  // JSON.
  function NewLine(j: Journal, e: Entry): Line {
    if j.tail == None then Whole(e) else Junk
  }

  function WriteLine(j: Journal, e: Entry, w: Write): Journal {
    match w
    case NothingWritten => j
    case Torn => j.(tail := Some(Junk))
    case Unended => j.(tail := Some(NewLine(j, e)))
    case _ => Journal(j.lines + [NewLine(j, e)], None)
  }

  function AllLines(j: Journal): seq<Line> {
    j.lines + if j.tail == None then [] else [j.tail.value]
  }

  // read_all: one unreadable line and the journal is refused.
  function Entries(lines: seq<Line>): Option<seq<Entry>> {
    if lines == [] then Some([])
    else
      var last := |lines| - 1;
      var before := Entries(lines[..last]);
      if before == None || lines[last].Junk? then None else Some(before.value + [lines[last].entry])
  }

  function ReadAll(j: Journal): Option<seq<Entry>> {
    Entries(AllLines(j))
  }

  // decision -> confNum, a dict in insertion order.
  type Book = seq<(Id, Id)>

  function Get(book: Book, decision: Id): Option<Id> {
    if book == [] then None
    else if book[0].0 == decision then Some(book[0].1)
    else Get(book[1..], decision)
  }

  function Put(book: Book, decision: Id, conf: Id): Book {
    if book == [] then [(decision, conf)]
    else if book[0].0 == decision then [(decision, conf)] + book[1..]
    else [book[0]] + Put(book[1..], decision, conf)
  }

  lemma {:induction false} PutGet(book: Book, decision: Id, conf: Id)
    ensures forall d :: Get(Put(book, decision, conf), d) == if d == decision then Some(conf) else Get(book, d)
  {
    if book != [] {
      PutGet(book[1..], decision, conf);
      assert ([book[0]] + Put(book[1..], decision, conf))[1..] == Put(book[1..], decision, conf);
      assert ([(decision, conf)] + book[1..])[1..] == book[1..];
    }
  }

  // _rehydrate: this account's entries, the later one of a decision winning.
  function Rehydrate(entries: seq<Entry>, account: Id): Book {
    if entries == [] then []
    else
      var last := |entries| - 1;
      var book := Rehydrate(entries[..last], account);
      if entries[last].account != account then book else Put(book, entries[last].decision, entries[last].conf)
  }

  // ---- place --------------------------------------------------------------

  datatype Committed = Committed(order: Order, conf: Id)

  // What becomes of the commit request. Unless the transport refuses to send it,
  // it may be carried out whether or not a clean answer comes back.
  datatype Fate = NotSent | Sent(carriedOut: bool, clean: bool)

  datatype Outcome =
    | Placed(conf: Id)
    | Refused(why: Refusal)
    | PreviewFailed
    | JournalFailed
    | NeverSent
    | Ambiguous(conf: Id)

  // The process (None when it is not running), the file, and the venue.
  datatype World = World(book: Option<Book>, journal: Journal, minted: set<Id>, committed: seq<Committed>)

  function Place(w: World, account: Id, limits: Limits, o: Order, preview: Option<Id>, write: Write, fate: Fate): (World, Outcome)
    requires w.book.Some?
  {
    if Gates(limits, o).Some? then (w, Refused(Gates(limits, o).value))
    else if Get(w.book.value, o.decision).Some? then (w, Refused(AlreadyPlaced))
    else if preview == None then (w, PreviewFailed)
    else
      var conf := preview.value;
      var w1 := w.(minted := w.minted + {conf}, journal := WriteLine(w.journal, Entry(account, o.decision, conf), write));
      if !write.Written? then (w1, JournalFailed)
      else
        var w2 := w1.(book := Some(Put(w.book.value, o.decision, conf)));
        match fate
        case NotSent => (w2, NeverSent)
        case Sent(carriedOut, clean) =>
          (if carriedOut then w2.(committed := w2.committed + [Committed(o, conf)]) else w2,
           if clean then Placed(conf) else Ambiguous(conf))
  }

  // ---- whole runs ---------------------------------------------------------

  // A journal file may be shared: other accounts' adapters write to it too.
  datatype Step =
    | PlaceStep(order: Order, preview: Option<Id>, write: Write, fate: Fate)
    | DieStep
    | StartStep
    | ForeignStep(entry: Entry, write: Write)

  function Next(w: World, account: Id, limits: Limits, step: Step): World {
    match step
    case PlaceStep(order, preview, write, fate) =>
      if w.book.Some? then Place(w, account, limits, order, preview, write, fate).0 else w
    case DieStep => w.(book := None)
    case StartStep =>
      if w.book.None? && ReadAll(w.journal).Some?
      then w.(book := Some(Rehydrate(ReadAll(w.journal).value, account)))
      else w
    case ForeignStep(entry, write) => w.(journal := WriteLine(w.journal, entry, write))
  }

  // The venue mints an id once; another account's entry is another account's.
  ghost predicate Fair(w: World, account: Id, step: Step) {
    match step
    case PlaceStep(_, preview, _, _) => preview.Some? ==> preview.value !in w.minted
    case ForeignStep(entry, _) => entry.account != account
    case _ => true
  }

  ghost predicate Mine(j: Journal, account: Id, e: Entry) {
    Whole(e) in AllLines(j) && e.account == account
  }

  // A confNum belongs to one decision, in the file and in memory.
  ghost predicate OneOwner(w: World, account: Id) {
    && (forall e | Mine(w.journal, account, e) :: e.conf in w.minted)
    && (forall e, f | Mine(w.journal, account, e) && Mine(w.journal, account, f) && e.conf == f.conf :: e.decision == f.decision)
    && (w.book.Some? ==>
          (forall d | Get(w.book.value, d).Some? :: Get(w.book.value, d).value in w.minted)
          && (forall d, e | Get(w.book.value, d).Some? && Get(w.book.value, d) == Get(w.book.value, e) :: d == e))
  }

  // Everything committed is known to the process, and to any process that can
  // read the journal.
  ghost predicate Recoverable(w: World, account: Id) {
    forall i | 0 <= i < |w.committed| ::
      && (w.book.Some? ==> Get(w.book.value, w.committed[i].order.decision) == Some(w.committed[i].conf))
      && (ReadAll(w.journal).Some? ==>
            Get(Rehydrate(ReadAll(w.journal).value, account), w.committed[i].order.decision) == Some(w.committed[i].conf))
  }

  ghost predicate Once(w: World, limits: Limits) {
    && (forall i, j | 0 <= i < j < |w.committed| ::
          w.committed[i].order.decision != w.committed[j].order.decision && w.committed[i].conf != w.committed[j].conf)
    && (forall i | 0 <= i < |w.committed| :: w.committed[i].conf in w.minted && Gates(limits, w.committed[i].order) == None)
  }

  ghost predicate Safe(w: World, account: Id, limits: Limits) {
    OneOwner(w, account) && Recoverable(w, account) && Once(w, limits)
  }

  // ---- one write ----------------------------------------------------------

  lemma {:induction false} ReadableLines(lines: seq<Line>)
    ensures Entries(lines).Some? <==> forall i | 0 <= i < |lines| :: lines[i].Whole?
    ensures Entries(lines).Some? ==>
              |Entries(lines).value| == |lines| && forall i | 0 <= i < |lines| :: lines[i] == Whole(Entries(lines).value[i])
  {
    if lines != [] {
      ReadableLines(lines[..|lines| - 1]);
    }
  }

  lemma EntriesMore(lines: seq<Line>, e: Entry)
    requires Entries(lines).Some?
    ensures Entries(lines + [Whole(e)]) == Some(Entries(lines).value + [e])
  {
    assert (lines + [Whole(e)])[..|lines|] == lines;
  }

  // After a write the journal can be read if and only if it could be before and
  // nothing was written, or it ended in a whole line and what was written is no
  // piece of one.
  lemma WriteReadsIff(j: Journal, e: Entry, w: Write)
    ensures ReadAll(WriteLine(j, e, w)).Some? <==> ReadAll(j).Some? && (w.NothingWritten? || (j.tail == None && !w.Torn?))
  {
    ReadableLines(AllLines(j));
    var next := AllLines(WriteLine(j, e, w));
    ReadableLines(next);
    if !w.NothingWritten? {
      assert next[|j.lines|] == if w.Torn? then Junk else NewLine(j, e);
      if j.tail == None && !w.Torn? {
        assert next == AllLines(j) + [Whole(e)];
      }
    }
  }

  // And then with what was written added, or with nothing added.
  lemma WriteReads(j: Journal, e: Entry, w: Write)
    requires ReadAll(WriteLine(j, e, w)).Some?
    ensures ReadAll(j).Some?
    ensures var before, after := ReadAll(j).value, ReadAll(WriteLine(j, e, w)).value;
            if w.NothingWritten? then after == before else after == before + [e]
  {
    var next := WriteLine(j, e, w);
    ReadableLines(AllLines(next));
    if !w.NothingWritten? {
      assert AllLines(next)[|j.lines|].Whole?;
      assert AllLines(next) == AllLines(j) + [Whole(e)];
      ReadableLines(AllLines(j));
      forall i | 0 <= i < |AllLines(j)| ensures AllLines(j)[i].Whole? {
        assert AllLines(next)[i] == AllLines(j)[i];
      }
      EntriesMore(AllLines(j), e);
    }
  }

  lemma WriteMine(j: Journal, e: Entry, w: Write, account: Id, f: Entry)
    requires Mine(WriteLine(j, e, w), account, f)
    ensures Mine(j, account, f) || f == e
  {
  }

  lemma RehydrateMore(entries: seq<Entry>, e: Entry, account: Id)
    ensures Rehydrate(entries + [e], account)
         == if e.account != account then Rehydrate(entries, account) else Put(Rehydrate(entries, account), e.decision, e.conf)
  {
    assert (entries + [e])[..|entries|] == entries;
  }

  // What a process of this account would read out of the journal after a write.
  lemma WriteRehydrates(j: Journal, e: Entry, w: Write, account: Id, d: Id)
    requires ReadAll(WriteLine(j, e, w)).Some?
    ensures ReadAll(j).Some?
    ensures var before, after := Rehydrate(ReadAll(j).value, account), Rehydrate(ReadAll(WriteLine(j, e, w)).value, account);
            Get(after, d) == Get(before, d) || (e.account == account && e.decision == d && Get(after, d) == Some(e.conf))
    ensures var after := Rehydrate(ReadAll(WriteLine(j, e, w)).value, account);
            e.account == account && e.decision == d && !w.NothingWritten? ==> Get(after, d) == Some(e.conf)
  {
    WriteReads(j, e, w);
    var entries := ReadAll(j).value;
    RehydrateMore(entries, e, account);
    PutGet(Rehydrate(entries, account), e.decision, e.conf);
  }

  // ---- every step is safe -------------------------------------------------

  lemma PlaceOneOwner(w: World, account: Id, limits: Limits, o: Order, preview: Option<Id>, write: Write, fate: Fate)
    requires w.book.Some? && OneOwner(w, account) && (preview.Some? ==> preview.value !in w.minted)
    ensures OneOwner(Place(w, account, limits, o, preview, write, fate).0, account)
  {
    var w1 := Place(w, account, limits, o, preview, write, fate).0;
    if w1 != w {
      var e := Entry(account, o.decision, preview.value);
      forall f | Mine(w1.journal, account, f) ensures Mine(w.journal, account, f) || f == e {
        WriteMine(w.journal, e, write, account, f);
      }
      PutGet(w.book.value, o.decision, preview.value);
    }
  }

  lemma PlaceRecoverable(w: World, account: Id, limits: Limits, o: Order, preview: Option<Id>, write: Write, fate: Fate)
    requires w.book.Some? && Recoverable(w, account)
    ensures Recoverable(Place(w, account, limits, o, preview, write, fate).0, account)
  {
    var w1 := Place(w, account, limits, o, preview, write, fate).0;
    if w1 != w {
      var e := Entry(account, o.decision, preview.value);
      PutGet(w.book.value, o.decision, preview.value);
      if ReadAll(w1.journal).Some? {
        forall d {
          WriteRehydrates(w.journal, e, write, account, d);
        }
      }
      forall i | 0 <= i < |w.committed| ensures w1.committed[i] == w.committed[i] && w.committed[i].order.decision != o.decision {
      }
    }
  }

  lemma PlaceOnce(w: World, account: Id, limits: Limits, o: Order, preview: Option<Id>, write: Write, fate: Fate)
    requires w.book.Some? && Recoverable(w, account) && Once(w, limits) && (preview.Some? ==> preview.value !in w.minted)
    ensures Once(Place(w, account, limits, o, preview, write, fate).0, limits)
  {
  }

  lemma {:induction false} RehydrateFrom(entries: seq<Entry>, account: Id, d: Id)
    requires Get(Rehydrate(entries, account), d).Some?
    ensures Entry(account, d, Get(Rehydrate(entries, account), d).value) in entries
    decreases |entries|
  {
    if entries != [] {
      var last := |entries| - 1;
      var e := entries[last];
      assert entries == entries[..last] + [e];
      PutGet(Rehydrate(entries[..last], account), e.decision, e.conf);
      if !(e.account == account && e.decision == d) {
        RehydrateFrom(entries[..last], account, d);
      }
    }
  }

  lemma RehydratedIsMine(j: Journal, account: Id, d: Id)
    requires ReadAll(j).Some? && Get(Rehydrate(ReadAll(j).value, account), d).Some?
    ensures Mine(j, account, Entry(account, d, Get(Rehydrate(ReadAll(j).value, account), d).value))
  {
    RehydrateFrom(ReadAll(j).value, account, d);
    ReadableLines(AllLines(j));
    var e := Entry(account, d, Get(Rehydrate(ReadAll(j).value, account), d).value);
    var i :| 0 <= i < |ReadAll(j).value| && ReadAll(j).value[i] == e;
    assert AllLines(j)[i] == Whole(e);
  }

  lemma StartSafe(w: World, account: Id, limits: Limits)
    requires Safe(w, account, limits)
    ensures Safe(Next(w, account, limits, StartStep), account, limits)
  {
    if w.book.None? && ReadAll(w.journal).Some? {
      forall d | Get(Rehydrate(ReadAll(w.journal).value, account), d).Some?
        ensures Mine(w.journal, account, Entry(account, d, Get(Rehydrate(ReadAll(w.journal).value, account), d).value)) {
        RehydratedIsMine(w.journal, account, d);
      }
    }
  }

  lemma ForeignSafe(w: World, account: Id, limits: Limits, e: Entry, write: Write)
    requires Safe(w, account, limits) && e.account != account
    ensures Safe(Next(w, account, limits, ForeignStep(e, write)), account, limits)
  {
    var w1 := Next(w, account, limits, ForeignStep(e, write));
    forall f | Mine(w1.journal, account, f) ensures Mine(w.journal, account, f) {
      WriteMine(w.journal, e, write, account, f);
    }
    if ReadAll(w1.journal).Some? {
      forall d {
        WriteRehydrates(w.journal, e, write, account, d);
      }
    }
  }

  lemma StepSafe(w: World, account: Id, limits: Limits, step: Step)
    requires Safe(w, account, limits) && Fair(w, account, step)
    ensures Safe(Next(w, account, limits, step), account, limits)
  {
    match step
    case PlaceStep(order, preview, write, fate) =>
      if w.book.Some? {
        PlaceOneOwner(w, account, limits, order, preview, write, fate);
        PlaceRecoverable(w, account, limits, order, preview, write, fate);
        PlaceOnce(w, account, limits, order, preview, write, fate);
      }
    case DieStep =>
    case StartStep => StartSafe(w, account, limits);
    case ForeignStep(entry, write) => ForeignSafe(w, account, limits, entry, write);
  }

  const Fresh := World(None, Journal([], None), {}, [])

  // Any interleaving: one process at a time, dying and starting at will.
  ghost predicate IsRun(trace: seq<World>, steps: seq<Step>, account: Id, limits: Limits) {
    && |trace| == |steps| + 1 && trace[0] == Fresh
    && forall k | 0 <= k < |steps| ::
      Fair(trace[k], account, steps[k]) && trace[k + 1] == Next(trace[k], account, limits, steps[k])
  }

  lemma {:induction false} RunSafe(trace: seq<World>, steps: seq<Step>, account: Id, limits: Limits, k: nat)
    requires IsRun(trace, steps, account, limits) && k < |trace|
    ensures Safe(trace[k], account, limits)
  {
    if k > 0 {
      RunSafe(trace, steps, account, limits, k - 1);
      StepSafe(trace[k - 1], account, limits, steps[k - 1]);
    }
  }

  // ---- the promises -------------------------------------------------------

  // Over all crashes, journal failures, lost answers and restarts: no decision
  // is committed twice, no two under one confNum, and nothing the gates refuse.
  lemma PlacedAtMostOnce(trace: seq<World>, steps: seq<Step>, account: Id, limits: Limits, k: nat, i: nat, j: nat)
    requires IsRun(trace, steps, account, limits) && k < |trace| && i < j < |trace[k].committed|
    ensures trace[k].committed[i].order.decision != trace[k].committed[j].order.decision
    ensures trace[k].committed[i].conf != trace[k].committed[j].conf
    ensures Gates(limits, trace[k].committed[i].order) == None
  {
    RunSafe(trace, steps, account, limits, k);
  }

  // What is committed in a step was written to the journal in that step.
  lemma CommittedWasWritten(w: World, account: Id, limits: Limits, step: Step)
    requires Next(w, account, limits, step).committed != w.committed
    ensures step.PlaceStep? && w.book.Some? && step.write.Written? && step.preview.Some?
    ensures var e := Entry(account, step.order.decision, step.preview.value);
            Next(w, account, limits, step).committed == w.committed + [Committed(step.order, e.conf)]
            && Next(w, account, limits, step).journal == WriteLine(w.journal, e, Written)
  {
  }

  lemma {:induction false} LinesStay(trace: seq<World>, steps: seq<Step>, account: Id, limits: Limits, k: nat, j: nat)
    requires IsRun(trace, steps, account, limits) && k <= j < |trace|
    ensures trace[k].journal.lines <= trace[j].journal.lines && trace[k].minted <= trace[j].minted
  {
    if k < j {
      LinesStay(trace, steps, account, limits, k, j - 1);
    }
  }

  lemma StaysUnwritten(w: World, account: Id, limits: Limits, step: Step, e: Entry)
    requires Fair(w, account, step) && e.account == account && e.conf in w.minted && !Mine(w.journal, account, e)
    ensures !Mine(Next(w, account, limits, step).journal, account, e)
  {
    var w1 := Next(w, account, limits, step);
    if step.PlaceStep? && step.preview.Some? && Mine(w1.journal, account, e) {
      WriteMine(w.journal, Entry(account, step.order.decision, step.preview.value), step.write, account, e);
    } else if step.ForeignStep? && Mine(w1.journal, account, e) {
      WriteMine(w.journal, step.entry, step.write, account, e);
    }
  }

  // An entry under a confNum that was minted and not written never turns up.
  lemma {:induction false} NeverTurnsUp(trace: seq<World>, steps: seq<Step>, account: Id, limits: Limits, k: nat, j: nat, e: Entry)
    requires IsRun(trace, steps, account, limits) && k <= j < |trace|
    requires e.account == account && e.conf in trace[k].minted && !Mine(trace[k].journal, account, e)
    ensures !Mine(trace[j].journal, account, e)
  {
    if k < j {
      NeverTurnsUp(trace, steps, account, limits, k, j - 1, e);
      LinesStay(trace, steps, account, limits, k, j - 1);
      StaysUnwritten(trace[j - 1], account, limits, steps[j - 1], e);
    }
  }

  // A line that cannot be read is there for good.
  lemma UnreadableForGood(j: Journal, later: Journal, k: nat)
    requires k < |j.lines| && j.lines[k].Junk? && j.lines <= later.lines
    ensures ReadAll(later) == None
  {
    ReadableLines(AllLines(later));
    assert AllLines(later)[k] == j.lines[k];
  }

  // Every committed confNum is in the journal from its commit on, under its
  // decision, if and only if the file ended in a whole line when it was written.
  // Otherwise it never is, and no process starts on that file again.
  lemma JournalledIff(trace: seq<World>, steps: seq<Step>, account: Id, limits: Limits, k: nat, j: nat)
    requires IsRun(trace, steps, account, limits) && k < |steps| && k < j < |trace|
    requires trace[k + 1].committed != trace[k].committed
    ensures |trace[k + 1].committed| == |trace[k].committed| + 1
    ensures var c := trace[k + 1].committed[|trace[k].committed|];
            Whole(Entry(account, c.order.decision, c.conf)) in AllLines(trace[j].journal) <==> trace[k].journal.tail == None
    ensures trace[k].journal.tail != None ==> ReadAll(trace[j].journal) == None
  {
    var w, w1 := trace[k], trace[k + 1];
    CommittedWasWritten(w, account, limits, steps[k]);
    RunSafe(trace, steps, account, limits, k);
    LinesStay(trace, steps, account, limits, k + 1, j);
    var c := w1.committed[|w.committed|];
    var e := Entry(account, c.order.decision, c.conf);
    assert w1.journal.lines == w.journal.lines + [NewLine(w.journal, e)];
    assert w1.journal.lines[|w.journal.lines|] == NewLine(w.journal, e);
    if w.journal.tail == None {
      assert trace[j].journal.lines[|w.journal.lines|] == Whole(e);
    } else {
      assert !Mine(w.journal, account, e);
      assert !Mine(w1.journal, account, e) by {
        assert AllLines(w1.journal) == w.journal.lines + [Junk];
      }
      NeverTurnsUp(trace, steps, account, limits, k + 1, j, e);
      UnreadableForGood(w1.journal, trace[j].journal, |w.journal.lines|);
    }
  }

  // A write that tore left the process alive; the next order is written onto the
  // torn line, placed, reported placed, and is in no line that can be read.
  lemma PlacedAndNotJournalled(account: Id, limits: Limits, torn: Order, o: Order, first: Id, second: Id)
    requires Gates(limits, torn) == None && Gates(limits, o) == None && torn.decision != o.decision && first != second
    ensures var steps := [StartStep, PlaceStep(torn, Some(first), Torn, NotSent), PlaceStep(o, Some(second), Written, Sent(true, true))];
            exists trace: seq<World> ::
              IsRun(trace, steps, account, limits) && trace[3].committed == [Committed(o, second)]
              && trace[2].book.Some? && Place(trace[2], account, limits, o, Some(second), Written, Sent(true, true)).1 == Placed(second)
              && AllLines(trace[3].journal) == [Junk]
  {
    var steps := [StartStep, PlaceStep(torn, Some(first), Torn, NotSent), PlaceStep(o, Some(second), Written, Sent(true, true))];
    var w1 := Next(Fresh, account, limits, steps[0]);
    assert w1 == Fresh.(book := Some([]));
    var w2 := Next(w1, account, limits, steps[1]);
    assert w2 == World(Some([]), Journal([], Some(Junk)), {first}, []);
    var w3 := Next(w2, account, limits, steps[2]);
    assert w3.journal == Journal([Junk], None);
    var trace := [Fresh, w1, w2, w3];
    assert IsRun(trace, steps, account, limits);
    assert trace[3].committed == [Committed(o, second)];
    assert Place(trace[2], account, limits, o, Some(second), Written, Sent(true, true)).1 == Placed(second);
    assert AllLines(trace[3].journal) == [Junk];
  }

  // The confNum of a decision's last entry.
  function LastFor(entries: seq<Entry>, account: Id, decision: Id): Option<Id> {
    if entries == [] then None
    else
      var last := |entries| - 1;
      if entries[last].account == account && entries[last].decision == decision then Some(entries[last].conf)
      else LastFor(entries[..last], account, decision)
  }

  lemma {:induction false} RehydrateIsLast(entries: seq<Entry>, account: Id, decision: Id)
    ensures Get(Rehydrate(entries, account), decision) == LastFor(entries, account, decision)
    decreases |entries|
  {
    if entries != [] {
      var last := |entries| - 1;
      RehydrateIsLast(entries[..last], account, decision);
      PutGet(Rehydrate(entries[..last], account), entries[last].decision, entries[last].conf);
    }
  }

  // The last entry a readable journal has for a committed decision is its
  // confNum, and a process that starts on it knows them all; it does not start
  // on any other.
  lemma RestartKnowsEveryOrder(trace: seq<World>, steps: seq<Step>, account: Id, limits: Limits, k: nat, c: Committed)
    requires IsRun(trace, steps, account, limits) && k < |steps| && steps[k] == StartStep && trace[k].book == None
    requires c in trace[k].committed
    ensures trace[k + 1].book.Some? <==> ReadAll(trace[k].journal).Some?
    ensures trace[k + 1].book.Some? ==>
              LastFor(ReadAll(trace[k].journal).value, account, c.order.decision) == Some(c.conf)
              && Get(trace[k + 1].book.value, c.order.decision) == Some(c.conf)
  {
    RunSafe(trace, steps, account, limits, k);
    var i :| 0 <= i < |trace[k].committed| && trace[k].committed[i] == c;
    if ReadAll(trace[k].journal).Some? {
      RehydrateIsLast(ReadAll(trace[k].journal).value, account, c.order.decision);
    }
  }

  // Whoever asks again for a decision that was committed gets nothing placed.
  lemma NeverPlacedAgain(trace: seq<World>, steps: seq<Step>, account: Id, limits: Limits, k: nat, c: Committed, step: Step)
    requires IsRun(trace, steps, account, limits) && k < |trace| && c in trace[k].committed
    requires step.PlaceStep? && step.order.decision == c.order.decision
    ensures Next(trace[k], account, limits, step) == trace[k]
  {
    RunSafe(trace, steps, account, limits, k);
    var i :| 0 <= i < |trace[k].committed| && trace[k].committed[i] == c;
  }

  // ---- reading the venue back ---------------------------------------------

  datatype Listed = Listed(conf: Id, symbol: Option<Id>, filled: real)

  predicate InScope(scope: Option<set<Id>>, symbol: Option<Id>) {
    scope == None || symbol == None || symbol.value in scope.value
  }

  // {conf: decision}: of several decisions with one confNum the last.
  function DecisionOf(book: Book, conf: Id): Option<Id> {
    if book == [] then None
    else
      var last := |book| - 1;
      if book[last].1 == conf then Some(book[last].0) else DecisionOf(book[..last], conf)
  }

  function KeyOf(book: Book, o: Listed): Id {
    if DecisionOf(book, o.conf).Some? then DecisionOf(book, o.conf).value else o.conf
  }

  function Snapshot(book: Book, orders: seq<Listed>, scope: Option<set<Id>>): map<Id, Listed> {
    if orders == [] then map[]
    else
      var o := orders[|orders| - 1];
      var before := Snapshot(book, orders[..|orders| - 1], scope);
      if InScope(scope, o.symbol) then before[KeyOf(book, o) := o] else before
  }

  method ReadSnapshot(book: Book, orders: seq<Listed>, scope: Option<set<Id>>) returns (found: map<Id, Listed>)
    ensures found == Snapshot(book, orders, scope)
  {
    found := map[];
    for i := 0 to |orders|
      invariant found == Snapshot(book, orders[..i], scope)
    {
      assert orders[..i + 1][..i] == orders[..i];
      if InScope(scope, orders[i].symbol) {
        found := found[KeyOf(book, orders[i]) := orders[i]];
      }
    }
    assert orders[..|orders|] == orders;
  }

  // get_order_by_client_id: the first listed order with the decision's confNum.
  method FindOrder(book: Book, orders: seq<Listed>, decision: Id) returns (found: Option<Listed>)
    ensures found.Some? <==> Get(book, decision).Some? && exists i :: 0 <= i < |orders| && orders[i].conf == Get(book, decision).value
    ensures found.Some? ==> found.value in orders && found.value.conf == Get(book, decision).value
  {
    var conf := Get(book, decision);
    if conf == None {
      return None;
    }
    for i := 0 to |orders|
      invariant forall k | 0 <= k < i :: orders[k].conf != conf.value
    {
      if orders[i].conf == conf.value {
        return Some(orders[i]);
      }
    }
    return None;
  }

  ghost predicate Distinct(book: Book) {
    forall i, j | 0 <= i < j < |book| :: book[i].0 != book[j].0
  }

  lemma {:induction false} GetIn(book: Book, decision: Id, conf: Id)
    requires Distinct(book)
    ensures Get(book, decision) == Some(conf) <==> exists i :: 0 <= i < |book| && book[i] == (decision, conf)
  {
    if book != [] {
      var rest := book[1..];
      forall i, j | 0 <= i < j < |rest| ensures rest[i].0 != rest[j].0 {
        assert book[i + 1].0 != book[j + 1].0;
      }
      GetIn(rest, decision, conf);
      if exists i :: 0 <= i < |rest| && rest[i] == (decision, conf) {
        var i :| 0 <= i < |rest| && rest[i] == (decision, conf);
        assert book[i + 1] == (decision, conf);
      }
      if exists i :: 0 <= i < |book| && book[i] == (decision, conf) {
        var i :| 0 <= i < |book| && book[i] == (decision, conf);
        if i > 0 {
          assert rest[i - 1] == (decision, conf);
        }
      }
    }
  }

  lemma {:induction false} PutDistinct(book: Book, decision: Id, conf: Id)
    requires Distinct(book)
    ensures Distinct(Put(book, decision, conf))
    ensures forall i | 0 <= i < |Put(book, decision, conf)| ::
              Put(book, decision, conf)[i].0 == decision || exists j :: 0 <= j < |book| && book[j].0 == Put(book, decision, conf)[i].0
  {
    if book != [] && book[0].0 != decision {
      var rest := book[1..];
      forall i, j | 0 <= i < j < |rest| ensures rest[i].0 != rest[j].0 {
        assert book[i + 1].0 != book[j + 1].0;
      }
      PutDistinct(rest, decision, conf);
      var more := Put(rest, decision, conf);
      forall i | 0 <= i < |more| ensures more[i].0 != book[0].0 {
        if more[i].0 != decision {
          var j :| 0 <= j < |rest| && rest[j].0 == more[i].0;
          assert book[j + 1].0 == more[i].0;
        }
      }
      forall i | 0 <= i < |[book[0]] + more|
        ensures ([book[0]] + more)[i].0 == decision || exists j :: 0 <= j < |book| && book[j].0 == ([book[0]] + more)[i].0 {
        if i > 0 && more[i - 1].0 != decision {
          var j :| 0 <= j < |rest| && rest[j].0 == more[i - 1].0;
          assert book[j + 1].0 == more[i - 1].0;
        }
      }
    }
  }

  lemma {:induction false} RehydrateDistinct(entries: seq<Entry>, account: Id)
    ensures Distinct(Rehydrate(entries, account))
    decreases |entries|
  {
    if entries != [] {
      var last := |entries| - 1;
      RehydrateDistinct(entries[..last], account);
      PutDistinct(Rehydrate(entries[..last], account), entries[last].decision, entries[last].conf);
    }
  }

  lemma {:induction false} RunDistinct(trace: seq<World>, steps: seq<Step>, account: Id, limits: Limits, k: nat)
    requires IsRun(trace, steps, account, limits) && k < |trace|
    ensures trace[k].book.Some? ==> Distinct(trace[k].book.value)
  {
    if k > 0 {
      RunDistinct(trace, steps, account, limits, k - 1);
      var w, step := trace[k - 1], steps[k - 1];
      assert trace[k - 1 + 1] == Next(w, account, limits, step);
      if step.StartStep? && ReadAll(w.journal).Some? {
        RehydrateDistinct(ReadAll(w.journal).value, account);
      } else if step.PlaceStep? && w.book.Some? && step.preview.Some? {
        PutDistinct(w.book.value, step.order.decision, step.preview.value);
      }
    }
  }

  lemma {:induction false} DecisionOfIn(book: Book, conf: Id)
    ensures DecisionOf(book, conf).Some? <==> exists i :: 0 <= i < |book| && book[i].1 == conf
    ensures DecisionOf(book, conf).Some? ==> exists i :: 0 <= i < |book| && book[i] == (DecisionOf(book, conf).value, conf)
    decreases |book|
  {
    if book != [] {
      var last := |book| - 1;
      DecisionOfIn(book[..last], conf);
      assert book[last].1 == conf ==> book[last] == (book[last].0, conf);
      if DecisionOf(book[..last], conf).Some? {
        var i :| 0 <= i < last && book[..last][i] == (DecisionOf(book[..last], conf).value, conf);
        assert book[i] == (DecisionOf(book[..last], conf).value, conf);
      }
    }
  }

  // The process knows a confNum it placed under by its decision, and by no other.
  lemma KnownByItsDecision(w: World, account: Id, decision: Id, conf: Id)
    requires w.book.Some? && Distinct(w.book.value) && OneOwner(w, account)
    ensures DecisionOf(w.book.value, conf) == Some(decision) <==> Get(w.book.value, decision) == Some(conf)
  {
    var book := w.book.value;
    DecisionOfIn(book, conf);
    GetIn(book, decision, conf);
    if DecisionOf(book, conf).Some? {
      GetIn(book, DecisionOf(book, conf).value, conf);
    }
  }

  // A later listed order that is given the same key.
  ghost predicate Taken(book: Book, orders: seq<Listed>, scope: Option<set<Id>>, k: nat, x: nat) {
    k < x < |orders| && InScope(scope, orders[x].symbol) && KeyOf(book, orders[x]) == KeyOf(book, orders[k])
  }

  // A key holds the last order in scope that it is given to.
  lemma {:induction false} SnapshotHas(book: Book, orders: seq<Listed>, scope: Option<set<Id>>, k: nat)
    requires k < |orders| && InScope(scope, orders[k].symbol)
    ensures KeyOf(book, orders[k]) in Snapshot(book, orders, scope)
    ensures (forall x: nat :: !Taken(book, orders, scope, k, x)) ==> Snapshot(book, orders, scope)[KeyOf(book, orders[k])] == orders[k]
    ensures (exists x: nat :: Taken(book, orders, scope, k, x)) ==>
              exists x: nat :: Taken(book, orders, scope, k, x) && Snapshot(book, orders, scope)[KeyOf(book, orders[k])] == orders[x]
    decreases |orders|
  {
    var last := |orders| - 1;
    var front := orders[..last];
    if k < last {
      SnapshotHas(book, front, scope, k);
      forall x: nat ensures Taken(book, front, scope, k, x) <==> Taken(book, orders, scope, k, x) && x < last {
      }
      if exists x: nat :: Taken(book, front, scope, k, x) {
        var x: nat :| Taken(book, front, scope, k, x) && Snapshot(book, front, scope)[KeyOf(book, orders[k])] == front[x];
        assert Taken(book, orders, scope, k, x) && orders[x] == front[x];
      }
      assert Taken(book, orders, scope, k, last) ==> Snapshot(book, orders, scope)[KeyOf(book, orders[k])] == orders[last];
    }
  }

  // An order this adapter placed and the venue lists is in the snapshot under its
  // decision if and only if no other order in scope, listed later and placed by
  // nobody this adapter knows, happens to have that decision id for a confNum.
  lemma SnapshotKeysOurOrders(trace: seq<World>, steps: seq<Step>, account: Id, limits: Limits, k: nat, c: Committed,
                              orders: seq<Listed>, at: nat, scope: Option<set<Id>>)
    requires IsRun(trace, steps, account, limits) && k < |trace| && trace[k].book.Some? && c in trace[k].committed
    requires at < |orders| && orders[at].conf == c.conf && InScope(scope, orders[at].symbol)
    requires forall i, j | 0 <= i < j < |orders| :: orders[i].conf != orders[j].conf
    ensures var found := Snapshot(trace[k].book.value, orders, scope);
            c.order.decision in found
            && (found[c.order.decision] == orders[at]
                <==> forall x | at < x < |orders| && InScope(scope, orders[x].symbol) && orders[x].conf == c.order.decision ::
                       DecisionOf(trace[k].book.value, orders[x].conf).Some?)
  {
    var w := trace[k];
    var book := w.book.value;
    RunSafe(trace, steps, account, limits, k);
    RunDistinct(trace, steps, account, limits, k);
    var i :| 0 <= i < |w.committed| && w.committed[i] == c;
    KnownByItsDecision(w, account, c.order.decision, c.conf);
    forall x: nat | at < x < |orders|
      ensures KeyOf(book, orders[x]) == c.order.decision
              <==> orders[x].conf == c.order.decision && DecisionOf(book, orders[x].conf) == None {
      KnownByItsDecision(w, account, c.order.decision, orders[x].conf);
    }
    SnapshotHas(book, orders, scope, at);
    if exists x: nat :: Taken(book, orders, scope, at, x) {
      var x: nat :| Taken(book, orders, scope, at, x);
      assert orders[x].conf == c.order.decision && DecisionOf(book, orders[x].conf) == None;
    } else {
      forall x: nat | at < x < |orders| && InScope(scope, orders[x].symbol) && orders[x].conf == c.order.decision
        ensures DecisionOf(book, orders[x].conf).Some? {
        assert !Taken(book, orders, scope, at, x);
      }
    }
  }

  // Such an order takes the place of ours.
  lemma SnapshotCanHideAnOrder(decision: Id, conf: Id)
    requires decision != conf
    ensures var ours, other := Listed(conf, None, 0.0), Listed(decision, None, 0.0);
            var found := Snapshot([(decision, conf)], [ours, other], None);
            found.Keys == {decision} && found[decision] == other && ours !in found.Values
  {
    var book: Book, ours, other := [(decision, conf)], Listed(conf, None, 0.0), Listed(decision, None, 0.0);
    assert book[..0] == [] && book[0].1 == conf;
    assert DecisionOf(book, decision) == DecisionOf(book[..0], decision);
    assert KeyOf(book, ours) == decision && KeyOf(book, other) == decision;
    assert [ours, other][..1] == [ours] && [ours][..0] == [];
    assert Snapshot(book, [ours], None) == map[decision := ours];
  }

  // A committed buy, at the size and limit its ticket had, is under the ceiling.
  lemma CommittedUnderCeiling(limits: Limits, o: Order)
    requires Gates(limits, o) == None && o.side.Buy?
    ensures BuildTicket(o).qty as real * BuildTicket(o).limit <= limits.maxOrderValue
  {
    var t := BuildTicket(o);
    LimitIsWithinACent(Buy, o.limit);
    FloorBounds(o.qty);
    assert t.qty >= 0;
    CostsLess(t.qty as real, o.qty, t.limit, o.limit);
  }
}
