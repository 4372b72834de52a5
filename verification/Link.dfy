/**
 Link of server/shard_client.py: what a shard owes the main server, and what it
 last heard back. Two threads share it, each locked section one method here; the
 functions on LinkState say what each does.
 */
module Link {
  import opened Seqs
  import opened Checkpoint
  import opened Queue

  const ROWS_PER_SYNC: nat := 200

  datatype Entry = RowEntry(run: RunId, row: Row) | FinishEntry(run: RunId, outcome: Outcome)

  datatype LinkState = LinkState(
    outbox: seq<Entry>,
    run: Option<RunId>,
    progress: Option<real>,
    stopAsked: bool,
    lost: bool,
    closed: bool,
    paused: bool,
    superseded: bool,
    unknown: bool,
    stopping: bool)

  const NewLink := LinkState([], None, None, false, false, false, false, false, false, false)

  // What the sender thread sends next.
  datatype Work = SyncWork(run: Option<RunId>, rows: seq<Row>) | FinishWork(entry: Entry)

  // ---- the main thread --------------------------------------------------

  function Registered(l: LinkState, paused: bool): LinkState {
    l.(paused := paused, unknown := false)
  }

  function Begun(l: LinkState, id: RunId): LinkState {
    l.(run := Some(id), progress := None, stopAsked := false, lost := false)
  }

  function Ended(l: LinkState): LinkState {
    l.(run := None, progress := None)
  }

  predicate OwnsRun(l: LinkState, id: RunId) {
    l.run == Some(id) && !l.lost && !l.superseded
  }

  // should_stop: what the sweep asks between two batches.
  predicate Stops(l: LinkState, id: RunId) {
    l.stopping || l.superseded || l.lost || l.run != Some(id) || l.stopAsked
  }

  function Reported(l: LinkState, fraction: real): LinkState {
    l.(progress := Some(if fraction < 0.0 then 0.0 else if fraction > 1.0 then 1.0 else fraction))
  }

  // record_row takes rows of the current run only, and none once it is lost.
  predicate Records(l: LinkState, id: RunId) {
    l.run == Some(id) && !l.lost
  }

  function Recorded(l: LinkState, id: RunId, row: Row): LinkState {
    if Records(l, id) then l.(outbox := l.outbox + [RowEntry(id, row)]) else l
  }

  function Finishing(l: LinkState, id: RunId, outcome: Outcome): LinkState {
    l.(outbox := l.outbox + [FinishEntry(id, outcome)])
  }

  predicate Drained(l: LinkState, untilStopping: bool) {
    l.outbox == [] || l.superseded || l.closed || (untilStopping && l.stopping)
  }

  // ---- the sender thread ------------------------------------------------

  predicate Idling(l: LinkState) {
    l.closed || l.superseded || l.unknown
  }

  // Leading rows of one run, up to a limit.
  function LeadingRows(outbox: seq<Entry>, run: Option<RunId>, most: nat): seq<Row> {
    if most == 0 || outbox == [] || !outbox[0].RowEntry? || run != Some(outbox[0].run) then []
    else [outbox[0].row] + LeadingRows(outbox[1..], run, most - 1)
  }

  // They are the longest stretch of rows of that run at the head, up to `most`.
  lemma {:induction false} LeadingRowsLead(outbox: seq<Entry>, run: Option<RunId>, most: nat)
    ensures var rows := LeadingRows(outbox, run, most);
            && |rows| <= most && |rows| <= |outbox|
            && (forall k | 0 <= k < |rows| :: run.Some? && outbox[k] == RowEntry(run.value, rows[k]))
            && (|rows| < most && |rows| < |outbox| ==> outbox[|rows|].FinishEntry? || run != Some(outbox[|rows|].run))
    decreases most
  {
    if most != 0 && outbox != [] {
      LeadingRowsLead(outbox[1..], run, most - 1);
    }
  }

  function BatchRun(l: LinkState): Option<RunId> {
    if l.outbox != [] then Some(l.outbox[0].run) else l.run
  }

  function NextWork(l: LinkState): Work {
    if l.outbox != [] && l.outbox[0].FinishEntry? then FinishWork(l.outbox[0])
    else SyncWork(BatchRun(l), LeadingRows(l.outbox, BatchRun(l), ROWS_PER_SYNC))
  }

  // A finish goes out only when no row is ahead of it, and a batch is the
  // longest one there is.
  lemma WorkIsNext(l: LinkState)
    ensures NextWork(l).FinishWork? ==> l.outbox != [] && l.outbox[0] == NextWork(l).entry
    ensures NextWork(l).SyncWork? && NextWork(l).rows == [] ==> l.outbox == []
    ensures NextWork(l).SyncWork? ==>
              var run, rows := NextWork(l).run, NextWork(l).rows;
              && |rows| <= 200 && |rows| <= |l.outbox|
              && (forall k | 0 <= k < |rows| :: run.Some? && l.outbox[k] == RowEntry(run.value, rows[k]))
              && (|rows| < 200 && |rows| < |l.outbox| ==> l.outbox[|rows|].FinishEntry? || run != Some(l.outbox[|rows|].run))
              && (l.outbox == [] ==> run == l.run)
  {
    LeadingRowsLead(l.outbox, BatchRun(l), ROWS_PER_SYNC);
  }

  function WithoutRun(outbox: seq<Entry>, run: RunId): seq<Entry> {
    if outbox == [] then []
    else (if outbox[0].run == run then [] else [outbox[0]]) + WithoutRun(outbox[1..], run)
  }

  lemma {:induction false} WithoutRunKeeps(outbox: seq<Entry>, run: RunId)
    ensures forall e :: e in WithoutRun(outbox, run) <==> e in outbox && e.run != run
  {
    if outbox != [] {
      WithoutRunKeeps(outbox[1..], run);
      assert outbox == [outbox[0]] + outbox[1..];
    }
  }

  // The answer to a sync that carried `count` rows of `run`.
  function SyncAnswered(l: LinkState, run: Option<RunId>, count: nat, paused: bool, owned: bool, stop: bool): LinkState
    requires count <= |l.outbox|
  {
    var current := run.Some? && run == l.run;
    var rest := l.outbox[count..];
    l.(paused := paused,
       stopAsked := if current then stop else l.stopAsked,
       lost := l.lost || (current && !owned),
       outbox := if run.Some? && !owned then WithoutRun(rest, run.value) else rest)
  }

  // A finish is off the books whether the server accepted or refused it.
  function FinishAnswered(l: LinkState, entry: Entry): LinkState {
    if l.outbox != [] && l.outbox[0] == entry then l.(outbox := l.outbox[1..]) else l
  }

  function HeardSuperseded(l: LinkState): LinkState {
    l.(superseded := true, outbox := [])
  }

  function HeardUnknown(l: LinkState): LinkState {
    l.(unknown := true, lost := l.lost || l.run.Some?, outbox := [])
  }

  // The answer to a sync is matched with the entries at the head of the outbox
  // by number alone; whatever was appended meanwhile, they are the ones sent.
  lemma OnlySentLeaves(l: LinkState, more: seq<Entry>, k: nat)
    requires NextWork(l).SyncWork? && k < |NextWork(l).rows|
    ensures var w := NextWork(l);
            |w.rows| <= |l.outbox| && (l.outbox + more)[k] == RowEntry(w.run.value, w.rows[k])
            && SyncAnswered(l.(outbox := l.outbox + more), w.run, |w.rows|, false, true, false).outbox
               == l.outbox[|w.rows|..] + more
  {
    LeadingRowsLead(l.outbox, BatchRun(l), ROWS_PER_SYNC);
    assert (l.outbox + more)[|NextWork(l).rows|..] == l.outbox[|NextWork(l).rows|..] + more;
  }

  // ---- the same, in place ----------------------------------------------

  class Link {
    var outbox: seq<Entry>
    var run: Option<RunId>
    var progress: Option<real>
    var stopAsked: bool
    var lost: bool
    var closed: bool
    var paused: bool
    var superseded: bool
    var unknown: bool
    var stopping: bool

    function View(): LinkState
      reads this
    {
      LinkState(outbox, run, progress, stopAsked, lost, closed, paused, superseded, unknown, stopping)
    }

    constructor ()
      ensures View() == NewLink
    {
      outbox, run, progress := [], None, None;
      stopAsked, lost, closed, paused, superseded, unknown, stopping := false, false, false, false, false, false, false;
    }

    method Register(pause: bool)
      modifies this
      ensures View() == Registered(old(View()), pause)
    {
      paused := pause;
      unknown := false;
    }

    method RequestStop()
      modifies this
      ensures View() == old(View()).(stopping := true)
    {
      stopping := true;
    }

    method Begin(id: RunId)
      modifies this
      ensures View() == Begun(old(View()), id)
    {
      run := Some(id);
      progress := None;
      stopAsked := false;
      lost := false;
    }

    method End()
      modifies this
      ensures View() == Ended(old(View()))
    {
      run := None;
      progress := None;
    }

    method ShouldStop(id: RunId) returns (stop: bool)
      ensures stop == Stops(View(), id)
    {
      stop := stopping || superseded || lost || run != Some(id) || stopAsked;
    }

    method Report(fraction: real)
      modifies this
      ensures View() == Reported(old(View()), fraction)
    {
      progress := Some(if fraction < 0.0 then 0.0 else if fraction > 1.0 then 1.0 else fraction);
    }

    method RecordRow(id: RunId, row: Row)
      modifies this
      ensures View() == Recorded(old(View()), id, row)
    {
      if run != Some(id) || lost {
        return;
      }
      outbox := outbox + [RowEntry(id, row)];
    }

    method Finish(id: RunId, outcome: Outcome)
      modifies this
      ensures View() == Finishing(old(View()), id, outcome)
    {
      outbox := outbox + [FinishEntry(id, outcome)];
    }

    method NextBatch() returns (of: Option<RunId>, rows: seq<Row>)
      ensures of == BatchRun(View()) && rows == LeadingRows(outbox, of, ROWS_PER_SYNC)
    {
      of := if outbox != [] then Some(outbox[0].run) else run;
      rows := Leading(outbox, of);
    }

    static method Leading(entries: seq<Entry>, of: Option<RunId>) returns (rows: seq<Row>)
      ensures rows == LeadingRows(entries, of, ROWS_PER_SYNC)
    {
      rows := [];
      var k: nat := 0;
      while k < |entries|
        invariant k == |rows| <= |entries| && k <= ROWS_PER_SYNC
        invariant LeadingRows(entries, of, ROWS_PER_SYNC) == rows + LeadingRows(entries[k..], of, ROWS_PER_SYNC - k)
      {
        var entry := entries[k];
        if !entry.RowEntry? || of != Some(entry.run) || |rows| >= ROWS_PER_SYNC {
          assert LeadingRows(entries[k..], of, ROWS_PER_SYNC - k) == [];
          return;
        }
        ghost var rest := LeadingRows(entries[k + 1..], of, ROWS_PER_SYNC - (k + 1));
        assert entries[k..][1..] == entries[k + 1..];
        assert rows + ([entry.row] + rest) == (rows + [entry.row]) + rest;
        rows := rows + [entry.row];
        k := k + 1;
      }
    }

    method ChooseWork() returns (work: Work)
      ensures work == NextWork(View())
    {
      if outbox != [] && outbox[0].FinishEntry? {
        return FinishWork(outbox[0]);
      }
      var of, rows := NextBatch();
      return SyncWork(of, rows);
    }

    static method Without(entries: seq<Entry>, id: RunId) returns (kept: seq<Entry>)
      ensures kept == WithoutRun(entries, id)
    {
      kept := [];
      var k: nat := 0;
      while k < |entries|
        invariant k <= |entries| && WithoutRun(entries, id) == kept + WithoutRun(entries[k..], id)
      {
        ghost var rest := WithoutRun(entries[k + 1..], id);
        assert entries[k..][1..] == entries[k + 1..];
        assert kept + ([entries[k]] + rest) == (kept + [entries[k]]) + rest;
        if entries[k].run != id {
          kept := kept + [entries[k]];
        }
        k := k + 1;
      }
    }

    static method PopLeft(entries: seq<Entry>, count: nat) returns (rest: seq<Entry>)
      requires count <= |entries|
      ensures rest == entries[count..]
    {
      rest := entries;
      for popped := 0 to count
        invariant rest == entries[popped..]
      {
        rest := rest[1..];
      }
    }

    // The locked section that follows a sync's answer.
    method HearSync(of: Option<RunId>, count: nat, pause: bool, owned: bool, stop: bool)
      requires count <= |outbox|
      modifies this
      ensures View() == SyncAnswered(old(View()), of, count, pause, owned, stop)
    {
      outbox := PopLeft(outbox, count);
      paused := pause;
      if of.Some? && of == run {
        stopAsked := stop;
        if !owned {
          lost := true;
        }
      }
      if of.Some? && !owned {
        outbox := Without(outbox, of.value);
      }
    }

    method HearFinish(entry: Entry)
      modifies this
      ensures View() == FinishAnswered(old(View()), entry)
    {
      if outbox != [] && outbox[0] == entry {
        outbox := outbox[1..];
      }
    }

    method HearSuperseded()
      modifies this
      ensures View() == HeardSuperseded(old(View()))
    {
      superseded := true;
      outbox := [];
    }

    method HearUnknown()
      modifies this
      ensures View() == HeardUnknown(old(View()))
    {
      unknown := true;
      if run.Some? {
        lost := true;
      }
      outbox := [];
    }
  }
}
