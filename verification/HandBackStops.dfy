/**
 A stop on its way: from what the queue has been asked, through the answer to a sync,
 to what should_stop of server/shard_client.py says between two batches.
 */
module HandBackStops {
  import opened Seqs
  import opened Checkpoint
  import opened Queue
  import opened QueueRuns
  import opened QueueAnswers
  import opened Link
  import opened HandBack

  // What the process makes of the answer to a sync: whether its shard is paused in any
  // case, and of the run it has, if the sync was about that one, whether to stop it and
  // whether it is lost.
  ghost predicate Hears(l: LinkState, run: Option<RunId>, reply: Reply, next: LinkState)
    requires reply.Synced?
  {
    && next.paused == reply.shardPaused && next.run == l.run && next.progress == l.progress
    && next.stopping == l.stopping && next.superseded == l.superseded && next.closed == l.closed && next.unknown == l.unknown
    && (run.Some? && run == l.run ==>
          forall id | run == Some(id) :: Stops(next, id) <==> l.stopping || l.superseded || l.lost || !reply.owned || reply.stopAsked)
    && (run == None || run != l.run ==> next.stopAsked == l.stopAsked && next.lost == l.lost)
  }

  lemma AnswerIsHeard(l: LinkState, run: Option<RunId>, rows: seq<Row>, reply: Reply)
    requires |rows| <= |l.outbox| && reply.Synced?
    ensures Hears(l, run, reply, LinkHears(l, SyncWork(run, rows), reply))
  {
  }

  // A process that is superseded or unknown stops whatever it is doing, and one that
  // starts a run anew does not.
  lemma EndedIsHeard(l: LinkState, work: Work, id: RunId)
    ensures Stops(LinkHears(l, work, Superseded), id)
    ensures Stops(LinkHears(l, work, UnknownShard), id)
    ensures Stops(Begun(l, id), id) <==> l.stopping || l.superseded
  {
  }

  // ---- where an answer comes from -----------------------------------------

  // The server gave that answer in that action.
  ghost predicate Answers(w: World, n: Name, i: Instance, a: Action, flight: Flight) {
    && Known(CoreOf(w.sys)) && a.Serve? && Unserved(w) && w.flight == Some(flight.(answer := None))
    && ServerStep(w, n, i, a).Some?
    && flight.answer == Some(ServerReply(w.sys.q, ServerStep(w, n, i, a).value))
  }

  // An answer in flight was there before, or is given just now.
  ghost predicate Flies(w: World, n: Name, i: Instance, a: Action, next: World) {
    next.flight.Some? && next.flight.value.answer.Some? ==>
      next.flight == w.flight || Answers(w, n, i, a, next.flight.value)
  }

  lemma TurnFlies(w: World, n: Name, i: Instance, a: Action)
    requires Known(CoreOf(w.sys))
    ensures Flies(w, n, i, a, Turn(w, n, i, a))
  {
  }

  lemma {:induction false} AnswerFlew(trace: seq<World>, acts: seq<Action>, n: Name, i: Instance, j: nat) returns (k: nat)
    requires j <= |acts| < |trace| && forall m | 0 <= m < j :: Flies(trace[m], n, i, acts[m], trace[m + 1])
    requires trace[j].flight.Some? && trace[j].flight.value.answer.Some? && trace[0].flight == None
    ensures k < j && Answers(trace[k], n, i, acts[k], trace[j].flight.value)
    decreases j
  {
    assert Flies(trace[j - 1], n, i, acts[j - 1], trace[j - 1 + 1]);
    if Answers(trace[j - 1], n, i, acts[j - 1], trace[j].flight.value) {
      k := j - 1;
    } else {
      k := AnswerFlew(trace, acts, n, i, j - 1);
    }
  }

  // Whatever answer is in flight, the server gave it.
  lemma AnswerWasGiven(trace: seq<World>, acts: seq<Action>, lanes: seq<Name>, start: real, n: Name, i: Instance, j: nat)
    returns (k: nat)
    requires IsHistory(trace, acts, lanes, start, n, i) && |trace| == |acts| + 1 && j < |trace|
    requires trace[j].flight.Some? && trace[j].flight.value.answer.Some?
    ensures k < j && Answers(trace[k], n, i, acts[k], trace[j].flight.value)
  {
    forall m | 0 <= m < j ensures Flies(trace[m], n, i, acts[m], trace[m + 1]) {
      TurnFlies(trace[m], n, i, acts[m]);
    }
    k := AnswerFlew(trace, acts, n, i, j);
  }

  // What a sync of this process is answered, at the moment it is served.
  lemma ServedSays(w: World, n: Name, i: Instance, a: Action, flight: Flight, id: RunId, rows: seq<Row>)
    requires Answers(w, n, i, a, flight) && flight.work == SyncWork(Some(id), rows) && flight.answer.value.Synced?
    ensures flight.answer.value.owned <==> HasRun(CoreOf(w.sys), n, id)
    ensures flight.answer.value.stopAsked <==> HasRun(CoreOf(w.sys), n, id) && Asked(CoreOf(w.sys), n, id, a.wall)
  {
    SyncIsTruthful(w.sys.q, n, i, Some(id), a.progressed, rows, a.now, a.wall);
  }

  // In every history: when a process hears the answer to a sync about the run it has, it
  // stops that run if and only if it had to stop anyway, or at the moment the sync was
  // served the run was not its own any more, or something was asked of it, or its shard
  // was paused or locked out.
  lemma StopIsDelivered(trace: seq<World>, acts: seq<Action>, lanes: seq<Name>, start: real, n: Name, i: Instance, j: nat,
                        id: RunId, rows: seq<Row>) returns (k: nat)
    requires IsHistory(trace, acts, lanes, start, n, i) && |trace| == |acts| + 1 && j < |acts| && acts[j].HearFlight?
    requires trace[j].flight.Some? && trace[j].flight.value.work == SyncWork(Some(id), rows)
    requires trace[j].flight.value.answer.Some? && trace[j].flight.value.answer.value.Synced? && trace[j].link.run == Some(id)
    ensures k < j && Answers(trace[k], n, i, acts[k], trace[j].flight.value)
    ensures var c, l := CoreOf(trace[k].sys), trace[j].link;
            Stops(trace[j + 1].link, id)
            <==> l.stopping || l.superseded || l.lost || !HasRun(c, n, id) || Asked(c, n, id, acts[k].wall)
  {
    k := AnswerWasGiven(trace, acts, lanes, start, n, i, j);
    ServedSays(trace[k], n, i, acts[k], trace[j].flight.value, id, rows);
    HistorySound(trace, acts, lanes, start, n, i, j);
    HeardIs(trace, acts, lanes, start, n, i, j);
    AnswerIsHeard(trace[j].link, Some(id), rows, trace[j].flight.value.answer.value);
  }

  lemma HeardIs(trace: seq<World>, acts: seq<Action>, lanes: seq<Name>, start: real, n: Name, i: Instance, j: nat)
    requires IsHistory(trace, acts, lanes, start, n, i) && |trace| == |acts| + 1 && j < |acts| && acts[j].HearFlight?
    requires trace[j].flight.Some? && trace[j].flight.value.answer.Some?
    ensures trace[j + 1].link == LinkHears(trace[j].link, trace[j].flight.value.work, trace[j].flight.value.answer.value)
  {
  }
}
