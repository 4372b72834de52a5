/**
 Hand-backs that lose a row, each a history from the start with one process and no
 crash: a refusal heard between `owns` and `finish`, and a finish that is handled
 late. HandBackWholeIff says exactly which hand-backs do.
 */
module HandBackLimits {
  import opened Seqs
  import opened Chains
  import opened Checkpoint
  import opened Queue
  import opened QueueRuns
  import opened Link
  import opened HandBack

  ghost predicate Took(w: World, n: Name, i: Instance, a: Action, next: World) {
    Known(CoreOf(w.sys)) && Allowed(w, n, i, a) && next == Turn(w, n, i, a)
  }

  ghost function Takes(n: Name, i: Instance): (World, Action, World) -> bool {
    (w, a, next) => Took(w, n, i, a, next)
  }

  ghost predicate Reached(w: World, n: Name, i: Instance) {
    Reaches(Takes(n, i), Opening([LOCAL_SHARD], 0.0), w)
  }

  lemma ChainedTook(trace: seq<World>, acts: seq<Action>, n: Name, i: Instance, k: nat)
    requires Chained(Takes(n, i), trace, acts) && k < |acts|
    ensures Took(trace[k], n, i, acts[k], trace[k + 1])
  {
    assert Takes(n, i)(trace[k], acts[k], trace[k + 1]);
  }

  lemma ChainedIsHistory(trace: seq<World>, acts: seq<Action>, n: Name, i: Instance)
    requires Chained(Takes(n, i), trace, acts) && trace[0] == Opening([LOCAL_SHARD], 0.0)
    ensures IsHistory(trace, acts, [LOCAL_SHARD], 0.0, n, i)
  {
    forall k | 0 <= k < |acts|
      ensures Known(CoreOf(trace[k].sys)) && Allowed(trace[k], n, i, acts[k]) && trace[k + 1] == Turn(trace[k], n, i, acts[k])
    {
      ChainedTook(trace, acts, n, i, k);
    }
  }

  lemma Opened(n: Name, i: Instance)
    ensures Reached(Opening([LOCAL_SHARD], 0.0), n, i)
  {
    assert Chained(Takes(n, i), [Opening([LOCAL_SHARD], 0.0)], []);
  }

  lemma AsHistory(w: World, n: Name, i: Instance) returns (trace: seq<World>, acts: seq<Action>)
    requires Reached(w, n, i)
    ensures IsHistory(trace, acts, [LOCAL_SHARD], 0.0, n, i) && trace[|acts|] == w
  {
    trace, acts :|
      Chained(Takes(n, i), trace, acts) && trace[0] == Opening([LOCAL_SHARD], 0.0) && trace[|acts|] == w;
    ChainedIsHistory(trace, acts, n, i);
  }

  lemma After(w: World, n: Name, i: Instance, a: Action, next: World)
    requires Reached(w, n, i) && Took(w, n, i, a, next)
    ensures Reached(next, n, i)
  {
    ReachesOn(Takes(n, i), Opening([LOCAL_SHARD], 0.0), w, a, next);
  }

  // ---- the server ---------------------------------------------------------

  // One run, one remote shard of this process, and nothing in the way of it.
  ghost predicate Clear(sys: System, n: Name, i: Instance, id: RunId) {
    var c := CoreOf(sys);
    && n in c.shards && n !in c.lanes && !c.shards[n].local && !c.shards[n].paused && c.shards[n].instance == i
    && c.schedules == map[] && !c.paused && c.order == [id] && id in c.jobs
    && !LocalOnly(c.jobs[id]) && c.jobs[id].stop == None && id !in c.rows
  }

  ghost predicate Waits(sys: System, n: Name, i: Instance, id: RunId) {
    Clear(sys, n, i, id) && CoreOf(sys).jobs[id].status.Queued? && CoreOf(sys).shards[n].runId == None
  }

  ghost predicate Runs(sys: System, n: Name, i: Instance, id: RunId) {
    Clear(sys, n, i, id) && Owns(CoreOf(sys), n, id)
  }

  ghost predicate Empty(sys: System, n: Name, i: Instance) {
    var c := CoreOf(sys);
    && n in c.shards && n !in c.lanes && c.shards[n] == Shard(i, 0.0, false, false, false, None)
    && c.schedules == map[] && !c.paused && c.order == [] && c.rows == map[] && sys.minted == {} && sys.waiting == {}
  }

  lemma RegisteredEmpty(n: Name, i: Instance) returns (sys: System)
    requires n != LOCAL_SHARD
    ensures sys == Next(Initial([LOCAL_SHARD], 0.0), RegisterStep(n, i, 0.0)) && Empty(sys, n, i)
  {
    sys := Next(Initial([LOCAL_SHARD], 0.0), RegisterStep(n, i, 0.0));
  }

  lemma SubmittedWaits(sys: System, n: Name, i: Instance, id: RunId) returns (next: System)
    requires Empty(sys, n, i)
    ensures next == Next(sys, SubmitStep(id, [], 0.0)) && Waits(next, n, i, id) && next.waiting == {}
  {
    next := Next(sys, SubmitStep(id, [], 0.0));
  }

  lemma ClaimBeginWaits(sys: System, n: Name, i: Instance, id: RunId)
    requires Waits(sys, n, i, id)
    ensures var step := ClaimBeginStep(n, i, 0.0);
            ServerReply(sys.q, step) == NoWork
            && Waits(Next(sys, step), n, i, id) && Next(sys, step).waiting == sys.waiting + {(n, i)}
  {
  }

  lemma FirstIsNext(c: Core, id: RunId)
    requires c.order == [id] && id in c.jobs && c.jobs[id].status.Queued? && !LocalOnly(c.jobs[id]) && !c.paused
    ensures Known(c) && NextRunnable(c, true) == Some(id) && Remove(c.order, id) == []
  {
    assert c.order[1..] == [];
  }

  lemma ClaimEndRuns(sys: System, n: Name, i: Instance, id: RunId)
    requires Waits(sys, n, i, id) && (n, i) in sys.waiting
    ensures var step := ClaimEndStep(n, i, 0.0, 0);
            ServerReply(sys.q, step) == Claimed(id)
            && Runs(Next(sys, step), n, i, id) && Next(sys, step).waiting == sys.waiting - {(n, i)}
  {
    FirstIsNext(Touched(CoreOf(sys), n, 0.0), id);
  }

  lemma StoppedWaits(sys: System, n: Name, i: Instance, id: RunId)
    requires Runs(sys, n, i, id)
    ensures var step := FinishStep(n, i, id, StoppedOutcome, 0.0);
            ServerReply(sys.q, step) == Done
            && Waits(Next(sys, step), n, i, id) && Next(sys, step).waiting == sys.waiting
  {
  }

  lemma HeartbeatRefused(sys: System, n: Name, i: Instance, id: RunId)
    requires Waits(sys, n, i, id)
    ensures var step := SyncStep(n, i, Some(id), false, [], 0.0, 0);
            ServerReply(sys.q, step) == Synced(false, false, false, false)
            && Waits(Next(sys, step), n, i, id) && Next(sys, step).waiting == sys.waiting
  {
  }

  // ---- the process ----------------------------------------------------------

  predicate Alive(l: LinkState) {
    !l.stopping && !l.superseded && !l.unknown && !l.closed && l.outbox == []
  }

  lemma Enters(w: World, n: Name, i: Instance) returns (r: World)
    requires Reached(w, n, i) && Known(CoreOf(w.sys)) && w.place.AtTop? && Alive(w.link)
    ensures Reached(r, n, i) && r == w.(place := Looping, claimed := None)
  {
    r := w.(place := Looping, claimed := None);
    After(w, n, i, EnterLoop, r);
  }

  lemma Asks(w: World, n: Name, i: Instance, id: RunId) returns (r: World)
    requires Reached(w, n, i) && w.place.Looping? && Waits(w.sys, n, i, id) && w.sys.waiting == {}
    ensures Reached(r, n, i) && r == w.(sys := r.sys, place := Claiming)
    ensures Waits(r.sys, n, i, id) && r.sys.waiting == {(n, i)}
  {
    ClaimBeginWaits(w.sys, n, i, id);
    r := w.(sys := Next(w.sys, ClaimBeginStep(n, i, 0.0)), place := Claiming);
    After(w, n, i, Claim(0.0), r);
  }

  lemma IsServed(w: World, n: Name, i: Instance, id: RunId) returns (r: World)
    requires Reached(w, n, i) && w.place.Claiming? && Waits(w.sys, n, i, id) && w.sys.waiting == {(n, i)}
    ensures Reached(r, n, i) && r == w.(sys := r.sys, place := Answered(Claimed(id)))
    ensures Runs(r.sys, n, i, id) && r.sys.waiting == {}
  {
    ClaimEndRuns(w.sys, n, i, id);
    r := w.(sys := Next(w.sys, ClaimEndStep(n, i, 0.0, 0)), place := Answered(Claimed(id)));
    After(w, n, i, ServeClaim(0.0, 0), r);
  }

  function BegunWorld(w: World, id: RunId): World {
    w.(link := Begun(w.link, id), place := Sweeping(id), claimed := Some(id), recorded := [], dropped := {}, fair := false,
       clean := FileOf(CoreOf(w.sys), id).tail == None)
  }

  lemma Begins(w: World, n: Name, i: Instance, id: RunId) returns (r: World)
    requires Reached(w, n, i) && Known(CoreOf(w.sys)) && w.place == Answered(Claimed(id))
    ensures Reached(r, n, i) && r == BegunWorld(w, id)
  {
    r := BegunWorld(w, id);
    After(w, n, i, HearClaim, r);
  }

  lemma TakesTheRun(w: World, n: Name, i: Instance, id: RunId) returns (r: World)
    requires Reached(w, n, i) && w.place.AtTop? && Alive(w.link) && Waits(w.sys, n, i, id) && w.sys.waiting == {}
    ensures Reached(r, n, i) && r.place == Sweeping(id) && r.link == Begun(w.link, id) && r.flight == w.flight
    ensures r.recorded == [] && r.claimed == Some(id) && Runs(r.sys, n, i, id) && r.sys.waiting == {}
  {
    var w1 := Enters(w, n, i);
    var w2 := Asks(w1, n, i, id);
    var w3 := IsServed(w2, n, i, id);
    r := Begins(w3, n, i, id);
  }

  // ---- handing it back, in the ordinary way -----------------------------------

  lemma Checks(w: World, n: Name, i: Instance, id: RunId) returns (r: World)
    requires Reached(w, n, i) && Known(CoreOf(w.sys)) && w.place == Sweeping(id) && OwnsRun(w.link, id)
    ensures Reached(r, n, i) && r == w.(place := Checked(id, StoppedOutcome))
  {
    r := w.(place := Checked(id, StoppedOutcome));
    After(w, n, i, CheckOwned(StoppedOutcome), r);
  }

  lemma Appends(w: World, n: Name, i: Instance, id: RunId) returns (r: World)
    requires Reached(w, n, i) && Known(CoreOf(w.sys)) && w.place == Checked(id, StoppedOutcome) && w.link.outbox == []
    ensures Reached(r, n, i)
    ensures r == w.(link := w.link.(outbox := [FinishEntry(id, StoppedOutcome)]), place := Draining(id), fair := OwnsRun(w.link, id))
  {
    assert [] + [FinishEntry(id, StoppedOutcome)] == [FinishEntry(id, StoppedOutcome)];
    r := w.(link := Finishing(w.link, id, StoppedOutcome), place := Draining(id), fair := OwnsRun(w.link, id));
    After(w, n, i, AppendFinish, r);
  }

  lemma Sends(w: World, n: Name, i: Instance, work: Work) returns (r: World)
    requires Reached(w, n, i) && Known(CoreOf(w.sys)) && w.flight == None && !Idling(w.link) && work == NextWork(w.link)
    ensures Reached(r, n, i) && r == w.(flight := Some(Flight(work, None)))
  {
    r := w.(flight := Some(Flight(work, None)));
    After(w, n, i, Dispatch, r);
  }

  lemma Serves(w: World, n: Name, i: Instance, step: Step, reply: Reply) returns (r: World)
    requires Reached(w, n, i) && Known(CoreOf(w.sys)) && w.flight.Some?
    requires ServerStep(w, n, i, Serve(false, 0.0, 0)) == Some(step) && reply == ServerReply(w.sys.q, step)
    ensures Reached(r, n, i)
    ensures r == w.(sys := Next(w.sys, step), flight := Some(w.flight.value.(answer := Some(reply))), dropped := r.dropped)
  {
    r := w.(sys := Next(w.sys, step), flight := Some(w.flight.value.(answer := Some(reply))),
            dropped := w.dropped + SpoiltBy(w.sys, w.flight.value.work, reply));
    After(w, n, i, Serve(false, 0.0, 0), r);
  }

  lemma StepOfFinish(w: World, n: Name, i: Instance, id: RunId)
    requires w.flight == Some(Flight(FinishWork(FinishEntry(id, StoppedOutcome)), None))
    ensures ServerStep(w, n, i, Serve(false, 0.0, 0)) == Some(FinishStep(n, i, id, StoppedOutcome, 0.0))
  {
  }

  lemma FinishIsServed(w: World, n: Name, i: Instance, id: RunId) returns (r: World)
    requires Reached(w, n, i) && w.flight == Some(Flight(FinishWork(FinishEntry(id, StoppedOutcome)), None))
    requires Runs(w.sys, n, i, id) && w.sys.waiting == {}
    ensures Reached(r, n, i) && r == w.(sys := r.sys, dropped := r.dropped, flight := Some(Flight(FinishWork(FinishEntry(id, StoppedOutcome)), Some(Done))))
    ensures Waits(r.sys, n, i, id) && r.sys.waiting == {}
  {
    StoppedWaits(w.sys, n, i, id);
    StepOfFinish(w, n, i, id);
    r := Serves(w, n, i, FinishStep(n, i, id, StoppedOutcome, 0.0), Done);
  }

  lemma Hears(w: World, n: Name, i: Instance, link: LinkState) returns (r: World)
    requires Reached(w, n, i) && Known(CoreOf(w.sys)) && w.flight.Some? && w.flight.value.answer.Some?
    requires link == LinkHears(w.link, w.flight.value.work, w.flight.value.answer.value)
    ensures Reached(r, n, i) && r == w.(link := link, flight := None, dropped := r.dropped)
  {
    r := w.(link := link, flight := None,
            dropped := w.dropped + DroppedBy(w.link, w.flight.value.work, w.flight.value.answer.value));
    After(w, n, i, HearFlight, r);
  }

  lemma SendsFinish(w: World, n: Name, i: Instance, id: RunId) returns (r: World)
    requires Reached(w, n, i) && Known(CoreOf(w.sys)) && w.place == Sweeping(id) && Alive(w.link) && OwnsRun(w.link, id)
    requires w.flight == None
    ensures Reached(r, n, i) && r.place == Draining(id) && r.sys == w.sys
    ensures r.link == w.link.(outbox := [FinishEntry(id, StoppedOutcome)])
    ensures r.flight == Some(Flight(FinishWork(FinishEntry(id, StoppedOutcome)), None))
  {
    var w1 := Checks(w, n, i, id);
    var w2 := Appends(w1, n, i, id);
    r := Sends(w2, n, i, FinishWork(FinishEntry(id, StoppedOutcome)));
  }

  lemma HandsItBack(w: World, n: Name, i: Instance, id: RunId) returns (r: World)
    requires Reached(w, n, i) && w.place == Sweeping(id) && Alive(w.link) && OwnsRun(w.link, id) && w.flight == None
    requires Runs(w.sys, n, i, id) && w.sys.waiting == {}
    ensures Reached(r, n, i) && r.place == Draining(id) && r.link == w.link && r.flight == None
    ensures Waits(r.sys, n, i, id) && r.sys.waiting == {}
  {
    var w1 := SendsFinish(w, n, i, id);
    var w2 := FinishIsServed(w1, n, i, id);
    assert [FinishEntry(id, StoppedOutcome)][1..] == [];
    r := Hears(w2, n, i, w.link);
  }

  // ---- and losing a row the second time -----------------------------------------

  const REFUSED: Reply := Synced(false, false, false, false)

  function Heartbeat(id: RunId): Work {
    SyncWork(Some(id), [])
  }

  lemma StepOfHeartbeat(w: World, n: Name, i: Instance, id: RunId)
    requires w.flight == Some(Flight(Heartbeat(id), None))
    ensures ServerStep(w, n, i, Serve(false, 0.0, 0)) == Some(SyncStep(n, i, Some(id), false, [], 0.0, 0))
  {
  }

  lemma BeatIsRefused(w: World, n: Name, i: Instance, id: RunId) returns (r: World)
    requires Reached(w, n, i) && w.flight == Some(Flight(Heartbeat(id), None))
    requires Waits(w.sys, n, i, id) && w.sys.waiting == {}
    ensures Reached(r, n, i) && r == w.(sys := r.sys, dropped := r.dropped, flight := Some(Flight(Heartbeat(id), Some(REFUSED))))
    ensures Waits(r.sys, n, i, id) && r.sys.waiting == {}
  {
    HeartbeatRefused(w.sys, n, i, id);
    StepOfHeartbeat(w, n, i, id);
    r := Serves(w, n, i, SyncStep(n, i, Some(id), false, [], 0.0, 0), REFUSED);
  }

  lemma Leaves(w: World, n: Name, i: Instance, id: RunId) returns (r: World)
    requires Reached(w, n, i) && Known(CoreOf(w.sys)) && w.place == Draining(id) && w.link.outbox == []
    ensures Reached(r, n, i) && r == w.(link := Ended(w.link), place := AtTop)
  {
    r := w.(link := Ended(w.link), place := AtTop);
    After(w, n, i, StopDraining, r);
  }

  // A heartbeat for the run is refused, as it should be, and its answer is still
  // on its way when the process goes on.
  lemma Lingers(w: World, n: Name, i: Instance, id: RunId) returns (r: World)
    requires Reached(w, n, i) && w.place == Draining(id) && Alive(w.link) && OwnsRun(w.link, id) && w.flight == None
    requires Waits(w.sys, n, i, id) && w.sys.waiting == {}
    ensures Reached(r, n, i) && r.place == AtTop && r.link == Ended(w.link)
    ensures r.flight == Some(Flight(Heartbeat(id), Some(REFUSED)))
    ensures Waits(r.sys, n, i, id) && r.sys.waiting == {}
  {
    var w1 := Sends(w, n, i, Heartbeat(id));
    var w2 := BeatIsRefused(w1, n, i, id);
    r := Leaves(w2, n, i, id);
  }

  lemma RecordsRow(w: World, n: Name, i: Instance, id: RunId, row: Row) returns (r: World)
    requires Reached(w, n, i) && Known(CoreOf(w.sys)) && w.place == Sweeping(id) && w.recorded == []
    ensures Reached(r, n, i) && r == w.(link := Recorded(w.link, id, row), recorded := [row], dropped := r.dropped)
  {
    r := w.(link := Recorded(w.link, id, row), recorded := [row],
            dropped := if Records(w.link, id) then w.dropped else w.dropped + {row});
    After(w, n, i, Record(row), r);
  }

  lemma RefusalEmpties(l: LinkState, id: RunId, row: Row)
    requires l.run == Some(id) && l.outbox == [RowEntry(id, row)] && !l.paused
    ensures LinkHears(l, Heartbeat(id), REFUSED) == l.(stopAsked := false, lost := true, outbox := [])
  {
    assert l.outbox[0..] == l.outbox && l.outbox[1..] == [];
    assert WithoutRun(l.outbox, id) == [];
  }

  // The old refusal, heard now, takes the row with it.
  lemma RefusalLands(w: World, n: Name, i: Instance, id: RunId, row: Row) returns (r: World)
    requires Reached(w, n, i) && Known(CoreOf(w.sys)) && w.flight == Some(Flight(Heartbeat(id), Some(REFUSED)))
    requires w.link.run == Some(id) && w.link.outbox == [RowEntry(id, row)] && !w.link.paused
    ensures Reached(r, n, i) && r == w.(link := w.link.(stopAsked := false, lost := true, outbox := []), flight := None, dropped := r.dropped)
  {
    RefusalEmpties(w.link, id, row);
    r := Hears(w, n, i, w.link.(stopAsked := false, lost := true, outbox := []));
  }

  // The row is recorded, the run is found to be owned, and only then is the
  // refusal heard.
  lemma Misses(w: World, n: Name, i: Instance, id: RunId, row: Row) returns (r: World)
    requires Reached(w, n, i) && w.place == Sweeping(id) && Alive(w.link) && OwnsRun(w.link, id) && !w.link.paused
    requires w.flight == Some(Flight(Heartbeat(id), Some(REFUSED))) && Runs(w.sys, n, i, id) && w.recorded == []
    ensures Reached(r, n, i) && r.sys == w.sys && r.recorded == [row] && r.claimed == w.claimed
    ensures r.flight == Some(Flight(FinishWork(FinishEntry(id, StoppedOutcome)), None))
  {
    var w1 := RecordsRow(w, n, i, id, row);
    assert [] + [RowEntry(id, row)] == [RowEntry(id, row)];
    var w2 := Checks(w1, n, i, id);
    var w3 := RefusalLands(w2, n, i, id, row);
    var w4 := Appends(w3, n, i, id);
    r := Sends(w4, n, i, FinishWork(FinishEntry(id, StoppedOutcome)));
  }

  lemma HandedBackWithout(w: World, n: Name, i: Instance, id: RunId, row: Row)
    requires Runs(w.sys, n, i, id) && w.recorded == [row]
    requires w.flight == Some(Flight(FinishWork(FinishEntry(id, StoppedOutcome)), None))
    ensures HandsBack(w, n, i, Serve(false, 0.0, 0), id) && !Delivered(w.sys, w.recorded, id)
  {
    StepOfFinish(w, n, i, id);
    OwnedHandsBack(w, n, i, id, Serve(false, 0.0, 0), 0.0);
    NothingThere(w, n, i, id, row);
  }

  lemma NothingThere(w: World, n: Name, i: Instance, id: RunId, row: Row)
    requires Clear(w.sys, n, i, id) && w.recorded == [row]
    ensures !Delivered(w.sys, w.recorded, id)
  {
    assert row in w.recorded;
    assert RowsOf(CoreOf(w.sys), id) == [];
  }

  lemma ElsewiseIs(w: World, n: Name, i: Instance, step: Step)
    requires Known(CoreOf(w.sys))
    ensures Turn(w, n, i, Elsewise(step)) == w.(sys := Next(w.sys, step))
  {
  }

  // Somebody else does something.
  lemma Happens(w: World, n: Name, i: Instance, step: Step, next: System) returns (r: World)
    requires Reached(w, n, i) && Known(CoreOf(w.sys)) && Guarded(w.sys, step) && !Own(step, n, i)
    requires next == Next(w.sys, step)
    ensures Reached(r, n, i) && r == w.(sys := next)
  {
    r := w.(sys := next);
    ElsewiseIs(w, n, i, step);
    After(w, n, i, Elsewise(step), r);
  }

  lemma Registers(n: Name, i: Instance) returns (r: World)
    requires n != LOCAL_SHARD
    ensures Reached(r, n, i) && r.place.AtTop? && r.link == NewLink && r.flight == None && Empty(r.sys, n, i)
  {
    Opened(n, i);
    var sys := RegisteredEmpty(n, i);
    r := Happens(Opening([LOCAL_SHARD], 0.0), n, i, RegisterStep(n, i, 0.0), sys);
  }

  lemma IsSubmitted(w: World, n: Name, i: Instance, id: RunId) returns (r: World)
    requires Reached(w, n, i) && Empty(w.sys, n, i) && id != NO_ID
    ensures Reached(r, n, i) && r == w.(sys := r.sys) && Waits(r.sys, n, i, id) && r.sys.waiting == {}
  {
    var sys := SubmittedWaits(w.sys, n, i, id);
    r := Happens(w, n, i, SubmitStep(id, [], 0.0), sys);
  }

  lemma HandedBackOnce(n: Name, i: Instance, id: RunId) returns (r: World)
    requires n != LOCAL_SHARD && id != NO_ID
    ensures Reached(r, n, i) && r.place == Draining(id) && Alive(r.link) && OwnsRun(r.link, id) && !r.link.paused && r.flight == None
    ensures Waits(r.sys, n, i, id) && r.sys.waiting == {}
  {
    var w0 := Registers(n, i);
    var w1 := IsSubmitted(w0, n, i, id);
    var w2 := TakesTheRun(w1, n, i, id);
    r := HandsItBack(w2, n, i, id);
  }

  // Claimed, handed back, claimed again: the refusal of a heartbeat that was
  // right about the first claim costs the second one its row.
  lemma OneProcessCanLoseARow(n: Name, i: Instance, id: RunId, row: Row) returns (trace: seq<World>, acts: seq<Action>)
    requires n != LOCAL_SHARD && id != NO_ID
    ensures IsHistory(trace, acts, [LOCAL_SHARD], 0.0, n, i)
    ensures var w := trace[|acts|];
            Known(CoreOf(w.sys)) && HandsBack(w, n, i, Serve(false, 0.0, 0), id)
            && Since(w, id) == [row] && !Delivered(w.sys, Since(w, id), id)
  {
    var w3 := HandedBackOnce(n, i, id);
    var w4 := Lingers(w3, n, i, id);
    var w5 := TakesTheRun(w4, n, i, id);
    var w6 := Misses(w5, n, i, id, row);
    HandedBackWithout(w6, n, i, id, row);
    trace, acts := AsHistory(w6, n, i);
  }

  // ---- a finish that comes late -----------------------------------------

  function LateFinish(n: Name, i: Instance, id: RunId): Action {
    Elsewise(FinishStep(n, i, id, StoppedOutcome, 0.0))
  }

  lemma LateFinishLands(w: World, n: Name, i: Instance, id: RunId, row: Row)
    requires Runs(w.sys, n, i, id) && w.recorded == [row]
    ensures Allowed(w, n, i, LateFinish(n, i, id)) && HandsBack(w, n, i, LateFinish(n, i, id), id)
    ensures !Delivered(w.sys, w.recorded, id)
  {
    OwnedHandsBack(w, n, i, id, LateFinish(n, i, id), 0.0);
    NothingThere(w, n, i, id, row);
  }

  // Claimed, handed back, claimed again, and a row recorded: a second copy of the
  // first hand-back, handled only now, is accepted, and the run goes to whoever
  // claims it next without the row.
  lemma LateFinishCanLoseARow(n: Name, i: Instance, id: RunId, row: Row) returns (trace: seq<World>, acts: seq<Action>)
    requires n != LOCAL_SHARD && id != NO_ID
    ensures IsHistory(trace, acts, [LOCAL_SHARD], 0.0, n, i)
    ensures var w, late := trace[|acts|], LateFinish(n, i, id);
            Known(CoreOf(w.sys)) && Allowed(w, n, i, late) && HandsBack(w, n, i, late, id)
            && Since(w, id) == [row] && !Delivered(w.sys, Since(w, id), id)
  {
    var w3 := HandedBackOnce(n, i, id);
    var w4 := Leaves(w3, n, i, id);
    var w5 := TakesTheRun(w4, n, i, id);
    var w6 := RecordsRow(w5, n, i, id, row);
    LateFinishLands(w6, n, i, id, row);
    trace, acts := AsHistory(w6, n, i);
  }
}
