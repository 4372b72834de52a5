/**
 The queue of server/jobs.py and one shard process of server/shard_client.py
 together: two threads of the process, a network that loses requests and
 answers, and everybody else -- operators, lanes, other shards, newer processes
 of the same name, crashes of the server -- acting in between.
 */
module HandBack {
  import opened Seqs
  import opened Checkpoint
  import opened Queue
  import opened QueueInvariants
  import opened QueueRuns
  import opened QueueTheorems
  import opened QueueRows
  import opened Link

  // Where run_forever and _run_one are. Looping is between the loop's tests and
  // a claim; Checked is between `owns` and `finish`.
  datatype Place =
    | AtTop
    | Looping
    | Claiming
    | Answered(reply: Reply)
    | Sweeping(run: RunId)
    | Checked(run: RunId, outcome: Outcome)
    | Draining(run: RunId)
    | Exited

  // The sender's request, and its answer once the server has given one.
  datatype Flight = Flight(work: Work, answer: Option<Reply>)

  // The last four only record what happened since a run was begun: which run,
  // every row given to record_row, those of them that were dropped or spoilt on
  // their way, whether the process still owned the run when it appended the
  // finish, and whether its checkpoint was whole when it was begun and no batch
  // was called malformed.
  datatype World = World(
    sys: System,
    link: LinkState,
    place: Place,
    flight: Option<Flight>,
    claimed: Option<RunId>,
    recorded: seq<Row>,
    dropped: set<Row>,
    fair: bool,
    clean: bool)

  datatype Action =
    | Elsewise(step: Step)
    | AskToStop
    | HearRegistered(paused: bool)
    | EnterLoop
    | Claim(now: real)
    | ServeClaim(now: real, wall: nat)
    | LoseClaim
    | HearClaim
    | Record(row: Row)
    | ReportProgress(fraction: real)
    | CheckOwned(outcome: Outcome)
    | AppendFinish
    | StopDraining
    | Exit
    | Dispatch
    | Serve(progressed: bool, now: real, wall: nat)
    | LoseFlight
    | HearFlight
    | HearMalformed

  // Steps only this process can take: its claims. Everything else anyone may do
  // at any time, late and repeated copies of this process's own syncs, finishes
  // and registrations among it.
  predicate Own(step: Step, n: Name, i: Instance) {
    (step.ClaimBeginStep? || step.ClaimEndStep?) && step.n == n && step.instance == i
  }

  predicate Active(place: Place) {
    place.Sweeping? || place.Checked? || place.Draining?
  }

  function HearReply(l: LinkState, reply: Reply): LinkState {
    if reply.UnknownShard? then l.(unknown := true)
    else if reply.Superseded? then l.(superseded := true)
    else l
  }

  predicate Unserved(w: World) {
    w.flight.Some? && w.flight.value.answer.None?
    && (w.flight.value.work.FinishWork? ==> w.flight.value.work.entry.FinishEntry?)
  }

  // What the server does in this action, if it does anything.
  function ServerStep(w: World, n: Name, i: Instance, a: Action): Option<Step> {
    match a
    case Elsewise(step) => Some(step)
    case Claim(now) => if w.place.Looping? then Some(ClaimBeginStep(n, i, now)) else None
    case ServeClaim(now, wall) =>
      if w.place.Claiming? && (n, i) in w.sys.waiting then Some(ClaimEndStep(n, i, now, wall)) else None
    case Serve(progressed, now, wall) =>
      if !Unserved(w) then None
      else
        (match w.flight.value.work
         case SyncWork(run, rows) => Some(SyncStep(n, i, run, progressed, rows, now, wall))
         case FinishWork(entry) => Some(FinishStep(n, i, entry.run, entry.outcome, now)))
    case _ => None
  }

  // What it answers.
  function ServerReply(q: State, step: Step): Reply
    requires Known(q.core)
  {
    match step
    case ClaimBeginStep(n, i, now) => ClaimBegin(q, n, i, now).1
    case ClaimEndStep(n, i, now, wall) => ClaimEnd(q, n, i, now, wall).1
    case SyncStep(n, i, run, progressed, rows, now, wall) => Sync(q, n, i, run, progressed, rows, now, wall).1
    case FinishStep(n, i, id, outcome, now) => ShardFinish(q, n, i, id, outcome, now).1
    case _ => NoWork
  }

  function LinkHears(l: LinkState, work: Work, reply: Reply): LinkState {
    if reply.UnknownShard? then HeardUnknown(l)
    else if reply.Superseded? then HeardSuperseded(l)
    else
      match work
      case SyncWork(run, rows) =>
        if reply.Synced? && |rows| <= |l.outbox|
        then SyncAnswered(l, run, |rows|, reply.shardPaused, reply.owned, reply.stopAsked)
        else l
      case FinishWork(entry) => FinishAnswered(l, entry)
  }

  // Refused as malformed: not sent again.
  function Rejected(l: LinkState, work: Work): LinkState {
    match work
    case SyncWork(run, rows) => l.(outbox := if |rows| <= |l.outbox| then l.outbox[|rows|..] else [])
    case FinishWork(entry) => FinishAnswered(l, entry)
  }

  // The rows among `before` that are in no entry of `after`.
  function RowsGone(before: seq<Entry>, after: seq<Entry>): set<Row> {
    set e | e in before && e.RowEntry? && e !in after :: e.row
  }

  // What the answer to a request drops: of an accepted batch nothing, else the
  // batch itself and whatever else leaves the outbox.
  function DroppedBy(l: LinkState, work: Work, reply: Reply): set<Row> {
    var after := LinkHears(l, work, reply).outbox;
    if work.SyncWork? && reply.Synced? && reply.owned && |work.rows| <= |l.outbox|
    then RowsGone(l.outbox[|work.rows|..], after)
    else RowsGone(l.outbox, after)
  }

  // The row that an accepted batch loses to a torn line it is written onto.
  function SpoiltBy(sys: System, work: Work, reply: Reply): set<Row> {
    if work.SyncWork? && reply.Synced? && reply.owned && work.run.Some? && work.rows != []
       && FileOf(CoreOf(sys), work.run.value).tail != None
    then {work.rows[0]}
    else {}
  }

  function MainThread(w: World, a: Action): World {
    match a
    case AskToStop => w.(link := w.link.(stopping := true))
    case HearRegistered(paused) => if w.place.AtTop? || w.place.Looping? then w.(link := Registered(w.link, paused)) else w
    case EnterLoop =>
      if w.place.AtTop? && !w.link.stopping && !w.link.superseded then w.(place := Looping, claimed := None) else w
    case LoseClaim => if w.place.Looping? || w.place.Answered? then w.(place := AtTop) else w
    case HearClaim =>
      if !w.place.Answered? then w
      else if w.place.reply.Claimed?
      then w.(link := Begun(w.link, w.place.reply.run), place := Sweeping(w.place.reply.run), claimed := Some(w.place.reply.run),
              recorded := [], dropped := {}, fair := false,
              clean := FileOf(CoreOf(w.sys), w.place.reply.run).tail == None)
      else w.(link := HearReply(w.link, w.place.reply), place := AtTop)
    case Record(row) =>
      if w.place.Sweeping?
      then w.(link := Recorded(w.link, w.place.run, row), recorded := w.recorded + [row],
              dropped := if Records(w.link, w.place.run) then w.dropped else w.dropped + {row})
      else w
    case ReportProgress(fraction) => if w.place.Sweeping? then w.(link := Reported(w.link, fraction)) else w
    case CheckOwned(outcome) =>
      if !w.place.Sweeping? then w
      else if OwnsRun(w.link, w.place.run) then w.(place := Checked(w.place.run, outcome))
      else w.(link := Ended(w.link), place := AtTop)
    case AppendFinish =>
      if w.place.Checked?
      then w.(link := Finishing(w.link, w.place.run, w.place.outcome), place := Draining(w.place.run),
              fair := OwnsRun(w.link, w.place.run))
      else w
    case StopDraining =>
      if w.place.Draining? && Drained(w.link, true) then w.(link := Ended(w.link), place := AtTop) else w
    case Exit => if w.place.AtTop? then w.(link := w.link.(closed := true), place := Exited) else w
    case _ => w
  }

  function SenderThread(w: World, a: Action): World {
    match a
    case Dispatch => if w.flight.None? && !Idling(w.link) then w.(flight := Some(Flight(NextWork(w.link), None))) else w
    case LoseFlight => w.(flight := None)
    case HearFlight =>
      if w.flight.Some? && w.flight.value.answer.Some?
      then w.(link := LinkHears(w.link, w.flight.value.work, w.flight.value.answer.value), flight := None,
              dropped := w.dropped + DroppedBy(w.link, w.flight.value.work, w.flight.value.answer.value))
      else w
    case HearMalformed =>
      if w.flight.Some? && w.flight.value.answer.None?
      then w.(link := Rejected(w.link, w.flight.value.work), flight := None, clean := false,
              dropped := w.dropped + RowsGone(w.link.outbox, Rejected(w.link, w.flight.value.work).outbox))
      else w
    case _ => w
  }

  function ServerSide(w: World, n: Name, i: Instance, a: Action): World
    requires Known(CoreOf(w.sys))
  {
    match ServerStep(w, n, i, a)
    case None =>
      // A server that restarted meanwhile has forgotten the claim.
      if a.ServeClaim? && w.place.Claiming? then w.(place := AtTop) else w
    case Some(step) =>
      var reply := ServerReply(w.sys.q, step);
      var w1 := w.(sys := Next(w.sys, step));
      if a.Claim? then w1.(place := if reply == NoWork then Claiming else Answered(reply))
      else if a.ServeClaim? then w1.(place := Answered(reply))
      else if a.Serve?
      then w1.(flight := Some(w.flight.value.(answer := Some(reply))),
               dropped := w.dropped + SpoiltBy(w.sys, w.flight.value.work, reply))
      else w1
  }

  predicate AtServer(a: Action) {
    a.Elsewise? || a.Claim? || a.ServeClaim? || a.Serve?
  }

  predicate AtSender(a: Action) {
    a.Dispatch? || a.LoseFlight? || a.HearFlight? || a.HearMalformed?
  }

  function Turn(w: World, n: Name, i: Instance, a: Action): World
    requires Known(CoreOf(w.sys))
  {
    if AtServer(a) then ServerSide(w, n, i, a)
    else if AtSender(a) then SenderThread(w, a)
    else MainThread(w, a)
  }

  ghost predicate Allowed(w: World, n: Name, i: Instance, a: Action) {
    a.Elsewise? ==> Guarded(w.sys, a.step) && !Own(a.step, n, i)
  }

  function Opening(lanes: seq<Name>, start: real): World {
    World(Initial(lanes, start), NewLink, AtTop, None, None, [], {}, false, false)
  }

  // ---- what the server keeps -------------------------------------------

  // The server has this process down as the owner of the run.
  predicate Held(sys: System, n: Name, i: Instance, id: RunId) {
    RemoteShard(CoreOf(sys), n, i) == None && Holds(CoreOf(sys), n, id)
  }

  lemma HeldIsOwned(sys: System, n: Name, i: Instance, id: RunId)
    requires Invariant(sys) && RemoteShard(CoreOf(sys), n, i) == None
    ensures Held(sys, n, i, id) <==> Owns(CoreOf(sys), n, id)
  {
    assert Holds(CoreOf(sys), n, id) <==> Names(CoreOf(sys), id, n);
  }

  lemma UndisturbedHeld(sys: System, next: System, n: Name, i: Instance, id: RunId)
    requires Laned(CoreOf(sys)) && Laned(CoreOf(next)) && Undisturbed(CoreOf(sys), CoreOf(next)) && Held(next, n, i, id)
    ensures Held(sys, n, i, id)
  {
  }

  lemma ControlHeld(sys: System, step: Step, n: Name, i: Instance, id: RunId)
    requires Invariant(sys) && Guarded(sys, step)
    requires Held(sys.(q := Controlled(sys.q, step)), n, i, id)
    ensures Held(sys, n, i, id)
  {
    var q1 := Apply(sys.q, RunControl(CoreOf(sys), step), TouchedBy(step));
    RunControlSound(CoreOf(sys), step, Adrift(sys));
    var q2 := Apply(q1, ShardControl(q1.core, step), {});
    assert step.ForgetStep? ==> q1.core == CoreOf(sys);
    ShardControlSound(q1.core, step, Adrift(sys));
    UpkeepSound(q2, step, Adrift(sys));
    UndisturbedHeld(sys.(q := q2), sys.(q := Upkeep(q2, step)), n, i, id);
    UndisturbedHeld(sys.(q := q1), sys.(q := q2), n, i, id);
    UndisturbedHeld(sys, sys.(q := q1), n, i, id);
  }

  // Only a claim of this very process gives it a run.
  lemma RemoteHeld(sys: System, step: Step, n: Name, i: Instance, id: RunId)
    requires Invariant(sys) && IsRemoteStep(step) && !(step.ClaimEndStep? && step.n == n && step.instance == i)
    requires Held(RemoteNext(sys, step), n, i, id)
    ensures Held(sys, n, i, id)
  {
    if RemoteShard(CoreOf(sys), step.n, step.instance) == None {
      match step
      case ClaimBeginStep(m, j, now) => ClaimBeginSound(sys.q, m, j, now, Adrift(sys));
      case ClaimEndStep(m, j, now, wall) =>
        if (m, j) in sys.waiting {
          ClaimEndSound(sys.q, m, j, now, wall, Adrift(sys));
        }
      case FinishStep(m, j, x, outcome, now) => ShardFinishSound(sys.q, m, j, x, outcome, now, Adrift(sys));
    }
  }

  ghost predicate SparesRemotes(c: Core, d: Core) {
    d.lanes == c.lanes && d.shards.Keys == c.shards.Keys
    && forall m | m in c.shards && m !in c.lanes :: d.shards[m] == c.shards[m]
  }

  // A lane only ever touches its own shard.
  lemma FreedSpares(sys: System, d: Core, id: RunId, n: Name)
    requires Invariant(sys) && Freed(CoreOf(sys), d, id)
    requires n in CoreOf(sys).lanes && forall m | m in CoreOf(sys).shards && m != n :: CoreOf(sys).shards[m].runId != Some(id)
    ensures SparesRemotes(CoreOf(sys), d)
  {
  }

  lemma LaneStopSpares(sys: System, n: Name)
    requires Invariant(sys)
    ensures SparesRemotes(CoreOf(sys), CoreOf(LaneStop(sys, n)))
  {
    if LaneBusy(sys, n) {
      var c, id := CoreOf(sys), sys.threads[n].run;
      BusyHolds(sys, n);
      if c.jobs[id].stop == Some(CancelStop) {
        UnlinkFrees(c, id, Adrift(sys));
        FreedSpares(sys, Unlink(c, id), id, n);
      } else {
        SettleFrees(c, id, Adrift(sys));
        FreedSpares(sys, SettleCore(c, id), id, n);
      }
    }
  }

  lemma LaneEndSpares(sys: System, n: Name, status: Status)
    requires Invariant(sys)
    ensures SparesRemotes(CoreOf(sys), CoreOf(LaneEnd(sys, n, status)))
  {
    if LaneBusy(sys, n) && (status.Complete? || status.Failed?) {
      var id := sys.threads[n].run;
      BusyHolds(sys, n);
      FinishFrees(CoreOf(sys), id, status, Adrift(sys));
      FreedSpares(sys, FinishCore(CoreOf(sys), id, status), id, n);
    }
  }

  lemma LaneCancelSpares(sys: System, n: Name)
    requires Invariant(sys)
    ensures SparesRemotes(CoreOf(sys), CoreOf(LaneCancel(sys, n)))
  {
    if n in sys.threads && sys.threads[n].Settling? {
      var id := sys.threads[n].run;
      assert id in Adrift(sys);
      NotHeld(CoreOf(sys), id, Adrift(sys));
      FinishFrees(CoreOf(sys), id, Cancelled, Adrift(sys));
      FreedSpares(sys, FinishCore(CoreOf(sys), id, Cancelled), id, n);
    }
  }

  lemma LaneSpares(sys: System, step: Step)
    requires Invariant(sys) && IsLaneStep(step)
    ensures SparesRemotes(CoreOf(sys), CoreOf(LaneNext(sys, step)))
  {
    match step
    case LaneStartStep(_, _) =>
    case LaneRowStep(_, _) =>
    case LaneStopStep(n) => LaneStopSpares(sys, n);
    case LaneCancelStep(n) => LaneCancelSpares(sys, n);
    case LaneEndStep(n, status) => LaneEndSpares(sys, n, status);
  }

  lemma LifeHeld(sys: System, step: Step, n: Name, i: Instance, id: RunId)
    requires Invariant(sys) && IsLifeStep(step) && Held(LifeNext(sys, step), n, i, id)
    ensures Held(sys, n, i, id)
  {
    if Dies(sys, step) {
      RestartSound(Left(sys, step).q, step.now);
    }
  }

  lemma StepHeld(sys: System, step: Step, n: Name, i: Instance, id: RunId)
    requires Invariant(sys) && Guarded(sys, step) && !(step.ClaimEndStep? && step.n == n && step.instance == i)
    requires Held(Next(sys, step), n, i, id)
    ensures Held(sys, n, i, id)
  {
    if IsLaneStep(step) {
      LaneNextOwned(sys, step);
      LaneSpares(sys, step);
    } else if IsRemoteStep(step) {
      RemoteHeld(sys, step, n, i, id);
    } else if IsLifeStep(step) {
      LifeHeld(sys, step, n, i, id);
    } else {
      ControlHeld(sys, step, n, i, id);
    }
  }

  // What the server has of a run it still has this process down for only grows,
  // and stays whole.
  lemma HeldGrows(sys: System, step: Step, n: Name, i: Instance, id: RunId)
    requires Invariant(sys) && Guarded(sys, step) && Held(sys, n, i, id) && Held(Next(sys, step), n, i, id)
    ensures Extends(FileOf(CoreOf(sys), id), FileOf(CoreOf(Next(sys, step)), id))
    ensures FileOf(CoreOf(sys), id).tail == None ==> FileOf(CoreOf(Next(sys, step)), id).tail == None
  {
    StepInvariant(sys, step);
    HeldIsOwned(sys, n, i, id);
    HeldIsOwned(Next(sys, step), n, i, id);
    StepGrows(sys, step, id);
    if FileOf(CoreOf(sys), id).tail == None {
      NotDying(sys, step, n, i, id);
      StepWhole(sys, step, id);
    }
  }

  // Nobody but a lane has a run after a restart.
  lemma NotDying(sys: System, step: Step, n: Name, i: Instance, id: RunId)
    requires Invariant(sys) && Held(Next(sys, step), n, i, id)
    ensures !Dies(sys, step)
  {
    if Dies(sys, step) {
      DeathIsCrash(sys, step);
      CrashFrees(Left(sys, step), step.now, n, i, id);
    }
  }

  lemma CrashFrees(sys: System, now: real, n: Name, i: Instance, id: RunId)
    requires LOCAL_SHARD in CoreOf(sys).lanes
    ensures !Held(Crash(sys, now), n, i, id)
  {
    RestartSound(sys.q, now);
  }

  // ---- the two threads --------------------------------------------------

  ghost predicate Shaped(outbox: seq<Entry>) {
    forall k | 0 <= k < |outbox| ::
      outbox[k].run == outbox[0].run && (k < |outbox| - 1 ==> outbox[k].RowEntry?)
  }

  // Rows first, then at most one finish, all of one run; and nothing at all
  // whenever the process goes for its next run.
  ghost predicate OutboxSound(w: World) {
    var l := w.link;
    && Shaped(l.outbox)
    && (w.place.AtTop? ==> l.outbox == [] || l.stopping || l.superseded)
    && (w.place.Looping? || w.place.Claiming? || w.place.Answered? ==> l.outbox == [])
    && (w.place.Sweeping? || w.place.Checked? ==>
          l.run == Some(w.place.run) && forall e | e in l.outbox :: e.RowEntry? && e.run == w.place.run)
    && (w.place.Sweeping? && l.lost ==> l.outbox == [])
    && (w.place.Draining? ==> l.run == Some(w.place.run) && forall e | e in l.outbox :: e.run == w.place.run)
    && (l.closed ==> w.place.Exited?)
  }

  ghost predicate AtHead(outbox: seq<Entry>, work: Work) {
    match work
    case SyncWork(run, rows) =>
      |rows| <= |outbox| && (rows != [] ==> run.Some?)
      && forall k | 0 <= k < |rows| :: outbox[k].RowEntry? && Some(outbox[k].run) == run && outbox[k].row == rows[k]
    case FinishWork(entry) => entry.FinishEntry? && outbox != [] && outbox[0] == entry
  }

  // What is in flight is still at the head of the outbox.
  ghost predicate FlightSound(w: World) {
    w.flight.Some? ==> AtHead(w.link.outbox, w.flight.value.work)
  }

  ghost predicate ThreadsSound(w: World, n: Name, i: Instance) {
    OutboxSound(w) && FlightSound(w) && ((n, i) in w.sys.waiting ==> w.place.Claiming?)
  }

  // Appending does not disturb what is in flight.
  lemma StaysAtHead(before: seq<Entry>, after: seq<Entry>, work: Work)
    requires AtHead(before, work) && before <= after
    ensures AtHead(after, work)
  {
    if work.SyncWork? {
      forall k | 0 <= k < |work.rows|
        ensures after[k].RowEntry? && Some(after[k].run) == work.run && after[k].row == work.rows[k] {
        assert after[k] == before[k];
      }
    }
  }

  lemma FlightKept(w: World, w1: World)
    requires FlightSound(w) && w1.flight == w.flight && w.link.outbox <= w1.link.outbox
    ensures FlightSound(w1)
  {
    if w.flight.Some? {
      StaysAtHead(w.link.outbox, w1.link.outbox, w.flight.value.work);
    }
  }

  lemma AppendSound(w: World, w1: World, e: Entry, n: Name, i: Instance)
    requires ThreadsSound(w, n, i)
    requires (w.place.Sweeping? && e.RowEntry?) || (w.place.Checked? && e.FinishEntry?)
    requires e.run == w.place.run
    requires w1.flight == w.flight && w1.sys == w.sys && w1.link == w.link.(outbox := w.link.outbox + [e])
    requires w1.place == if e.RowEntry? then w.place else Draining(e.run)
    requires w.place.Sweeping? ==> !w.link.lost
    ensures ThreadsSound(w1, n, i)
  {
    FlightKept(w, w1);
    var before, after := w.link.outbox, w1.link.outbox;
    forall k | 0 <= k < |after| ensures after[k].run == e.run && (k < |after| - 1 ==> after[k].RowEntry?) {
      if k < |before| {
        assert before[k] in before;
      }
    }
  }

  predicate Appends(a: Action) {
    a.Record? || a.AppendFinish?
  }

  lemma AppendingSound(w: World, a: Action, n: Name, i: Instance)
    requires ThreadsSound(w, n, i) && Appends(a)
    ensures ThreadsSound(MainThread(w, a), n, i)
  {
    var w1 := MainThread(w, a);
    if a.Record? && w1.link != w.link {
      AppendSound(w, w1, RowEntry(w.place.run, a.row), n, i);
    } else if a.AppendFinish? && w.place.Checked? {
      AppendSound(w, w1, FinishEntry(w.place.run, w.place.outcome), n, i);
    }
  }

  lemma MainThreadSound(w: World, a: Action, n: Name, i: Instance)
    requires ThreadsSound(w, n, i)
    ensures ThreadsSound(MainThread(w, a), n, i)
  {
    if Appends(a) {
      AppendingSound(w, a, n, i);
    } else {
      OutboxStays(w, a);
      FlightKept(w, MainThread(w, a));
    }
  }

  ghost predicate Stays(w: World, w1: World) {
    OutboxSound(w1) && w1.link.outbox == w.link.outbox && w1.flight == w.flight && w1.sys == w.sys
    && (w.place.Claiming? ==> w1.place.Claiming?)
  }

  lemma OutboxStays(w: World, a: Action)
    requires OutboxSound(w) && !Appends(a)
    ensures Stays(w, MainThread(w, a))
  {
    if a.CheckOwned? || a.StopDraining? || a.Exit? {
      LeavingStays(w, a);
    } else if a.HearClaim? || a.LoseClaim? || a.EnterLoop? {
      ArrivingStays(w, a);
    } else {
      HearingStays(w, a);
    }
  }

  lemma LeavingStays(w: World, a: Action)
    requires OutboxSound(w) && (a.CheckOwned? || a.StopDraining? || a.Exit?)
    ensures Stays(w, MainThread(w, a))
  {
  }

  lemma BegunStays(w: World, w1: World, id: RunId)
    requires OutboxSound(w) && w.place.Answered? && w1.link == Begun(w.link, id) && w1.place == Sweeping(id)
    requires w1.flight == w.flight && w1.sys == w.sys
    ensures Stays(w, w1)
  {
  }

  lemma RefusedStays(w: World, w1: World, reply: Reply)
    requires OutboxSound(w) && w.place.Answered? && w1.link == HearReply(w.link, reply) && w1.place == AtTop
    requires w1.flight == w.flight && w1.sys == w.sys
    ensures Stays(w, w1)
  {
  }

  lemma HearClaimStays(w: World)
    requires OutboxSound(w)
    ensures Stays(w, MainThread(w, HearClaim))
  {
    if w.place.Answered? {
      if w.place.reply.Claimed? {
        BegunStays(w, MainThread(w, HearClaim), w.place.reply.run);
      } else {
        RefusedStays(w, MainThread(w, HearClaim), w.place.reply);
      }
    }
  }

  lemma LoseClaimStays(w: World)
    requires OutboxSound(w)
    ensures Stays(w, MainThread(w, LoseClaim))
  {
  }

  lemma EnterLoopStays(w: World)
    requires OutboxSound(w)
    ensures Stays(w, MainThread(w, EnterLoop))
  {
  }

  lemma ArrivingStays(w: World, a: Action)
    requires OutboxSound(w) && (a.HearClaim? || a.LoseClaim? || a.EnterLoop?)
    ensures Stays(w, MainThread(w, a))
  {
    if a.HearClaim? {
      HearClaimStays(w);
    } else if a.LoseClaim? {
      LoseClaimStays(w);
    } else {
      EnterLoopStays(w);
    }
  }

  lemma HearingStays(w: World, a: Action)
    requires OutboxSound(w) && !Appends(a)
    requires !(a.CheckOwned? || a.StopDraining? || a.Exit? || a.HearClaim? || a.LoseClaim? || a.EnterLoop?)
    ensures Stays(w, MainThread(w, a))
  {
  }

  lemma DispatchSound(w: World, n: Name, i: Instance)
    requires ThreadsSound(w, n, i)
    ensures ThreadsSound(SenderThread(w, Dispatch), n, i)
  {
    LeadingRowsLead(w.link.outbox, BatchRun(w.link), ROWS_PER_SYNC);
  }

  // An outbox of one run loses all of itself or nothing.
  lemma {:induction false} WithoutOnlyRun(outbox: seq<Entry>, owner: RunId, run: RunId)
    requires forall k | 0 <= k < |outbox| :: outbox[k].run == owner
    ensures WithoutRun(outbox, run) == if owner == run then [] else outbox
  {
    if outbox != [] {
      WithoutOnlyRun(outbox[1..], owner, run);
      assert outbox == [outbox[0]] + outbox[1..];
    }
  }

  // After a sync's answer the outbox is what followed the batch, or nothing.
  lemma SyncAnswerOutbox(w: World, paused: bool, owned: bool, stop: bool)
    requires Shaped(w.link.outbox) && FlightSound(w) && w.flight.Some? && w.flight.value.work.SyncWork?
    ensures var work := w.flight.value.work;
            var rest := w.link.outbox[|work.rows|..];
            var l := SyncAnswered(w.link, work.run, |work.rows|, paused, owned, stop);
            l.outbox == if rest != [] && !owned && work.run == Some(rest[0].run) then [] else rest
  {
    var work := w.flight.value.work;
    var rest := w.link.outbox[|work.rows|..];
    if rest != [] && work.run.Some? {
      forall k | 0 <= k < |rest| ensures rest[k].run == rest[0].run {
        assert rest[k] == w.link.outbox[|work.rows| + k] && rest[0] == w.link.outbox[|work.rows| + 0];
      }
      WithoutOnlyRun(rest, rest[0].run, work.run.value);
    }
  }

  lemma RestShaped(outbox: seq<Entry>, count: nat)
    requires Shaped(outbox) && count <= |outbox|
    ensures Shaped(outbox[count..])
    ensures forall e | e in outbox[count..] :: e in outbox
    ensures outbox[count..] != [] ==> outbox[count..][0] in outbox
  {
    var rest := outbox[count..];
    forall k | 0 <= k < |rest| ensures rest[k].run == rest[0].run && (k < |rest| - 1 ==> rest[k].RowEntry?) {
      assert rest[k] == outbox[count + k] && rest[0] == outbox[count + 0];
    }
  }

  lemma HearSyncSound(w: World, reply: Reply, n: Name, i: Instance)
    requires ThreadsSound(w, n, i) && w.flight.Some? && w.flight.value.work.SyncWork? && reply.Synced?
    ensures ThreadsSound(w.(link := LinkHears(w.link, w.flight.value.work, reply), flight := None), n, i)
  {
    SyncAnswerOutbox(w, reply.shardPaused, reply.owned, reply.stopAsked);
    var rest := w.link.outbox[|w.flight.value.work.rows|..];
    RestShaped(w.link.outbox, |w.flight.value.work.rows|);
  }

  lemma HearFinishSound(w: World, reply: Reply, n: Name, i: Instance)
    requires ThreadsSound(w, n, i) && w.flight.Some? && w.flight.value.work.FinishWork?
    requires !reply.UnknownShard? && !reply.Superseded?
    ensures ThreadsSound(w.(link := LinkHears(w.link, w.flight.value.work, reply), flight := None), n, i)
  {
    RestShaped(w.link.outbox, 1);
    assert w.link.outbox[0] in w.link.outbox;
  }

  // Everything this process owes is dropped.
  lemma ClearedSound(w: World, w1: World, n: Name, i: Instance)
    requires ThreadsSound(w, n, i) && w1.link.outbox == [] && w1.flight == None
    requires w1.sys == w.sys && w1.place == w.place && w1.link.run == w.link.run && w1.link.closed == w.link.closed
    ensures ThreadsSound(w1, n, i)
  {
  }

  lemma HearFlightSound(w: World, n: Name, i: Instance)
    requires ThreadsSound(w, n, i)
    ensures ThreadsSound(SenderThread(w, HearFlight), n, i)
  {
    if w.flight.Some? && w.flight.value.answer.Some? {
      HeardSound(w, w.flight.value.answer.value, n, i);
      SameThreads(w.(link := LinkHears(w.link, w.flight.value.work, w.flight.value.answer.value), flight := None),
                  SenderThread(w, HearFlight), n, i);
    }
  }

  lemma HeardSound(w: World, reply: Reply, n: Name, i: Instance)
    requires ThreadsSound(w, n, i) && w.flight.Some?
    ensures ThreadsSound(w.(link := LinkHears(w.link, w.flight.value.work, reply), flight := None), n, i)
  {
    var w1 := w.(link := LinkHears(w.link, w.flight.value.work, reply), flight := None);
    if reply.UnknownShard? || reply.Superseded? {
      ClearedSound(w, w1, n, i);
    } else if w.flight.value.work.FinishWork? {
      HearFinishSound(w, reply, n, i);
    } else if reply.Synced? {
      HearSyncSound(w, reply, n, i);
    }
  }

  lemma SameThreads(w: World, w1: World, n: Name, i: Instance)
    requires ThreadsSound(w, n, i) && w1.sys == w.sys && w1.link == w.link && w1.place == w.place && w1.flight == w.flight
    ensures ThreadsSound(w1, n, i)
  {
  }

  lemma ServerSideSound(w: World, a: Action, n: Name, i: Instance)
    requires ThreadsSound(w, n, i) && Known(CoreOf(w.sys)) && Allowed(w, n, i, a)
    ensures ThreadsSound(ServerSide(w, n, i, a), n, i)
  {
    var step := ServerStep(w, n, i, a);
    if step.Some? {
      WaitingGrows(w.sys, step.value, n, i);
    }
  }

  // Only its own claim makes the server wait on this process's behalf.
  lemma WaitingGrows(sys: System, step: Step, n: Name, i: Instance)
    requires Known(CoreOf(sys))
    ensures (n, i) in Next(sys, step).waiting ==>
              ((n, i) in sys.waiting || (step.ClaimBeginStep? && step.n == n && step.instance == i))
              && !(step.ClaimEndStep? && step.n == n && step.instance == i)
  {
  }

  // ---- no row is lost ---------------------------------------------------

  ghost predicate Delivered(sys: System, rows: seq<Row>, id: RunId) {
    forall row | row in rows :: row in RowsOf(CoreOf(sys), id)
  }

  // The rows that are on whole lines, and so stay whatever is written.
  function Solid(sys: System, id: RunId): seq<Row> {
    LoadLines(FileOf(CoreOf(sys), id).lines)
  }

  // Every row recorded is in the checkpoint, on its way there, or dropped.
  ghost predicate Accounted(w: World, id: RunId) {
    forall row | row in w.recorded :: row in Solid(w.sys, id) || RowEntry(id, row) in w.link.outbox || row in w.dropped
  }

  ghost predicate RunAccounted(w: World, n: Name, i: Instance) {
    w.claimed.Some? && Held(w.sys, n, i, w.claimed.value) ==> Accounted(w, w.claimed.value)
  }

  // What is owed and what was dropped was recorded for the run begun last, and
  // there is none while the process goes for its next.
  ghost predicate Recalled(w: World) {
    && (forall row | row in w.dropped :: row in w.recorded)
    && (forall e | e in w.link.outbox :: Some(e.run) == w.claimed && (e.RowEntry? ==> e.row in w.recorded))
    && (Active(w.place) ==> w.claimed == Some(w.place.run))
    && (w.place.Looping? || w.place.Claiming? || w.place.Answered? ==> w.claimed == None)
  }

  // What the server took of a batch, its owner still owning the run, it has.
  ghost predicate AnswerTrue(w: World, n: Name, i: Instance) {
    w.flight.Some? && w.flight.value.answer.Some? && w.flight.value.work.SyncWork?
    && w.claimed.Some? && Held(w.sys, n, i, w.claimed.value) ==>
      var work, reply := w.flight.value.work, w.flight.value.answer.value;
      reply.Synced? && reply.owned ==>
        forall row | row in work.rows :: row in Solid(w.sys, w.claimed.value) || row in w.dropped
  }

  // Nothing the process has heard speaks against it owning the run, or its
  // finish was appended before anything did and is still to be sent.
  ghost predicate Undisputed(w: World) {
    || ((w.place.Sweeping? || w.place.Checked?) && OwnsRun(w.link, w.place.run))
    || (w.fair && exists e :: e in w.link.outbox && e.FinishEntry?)
  }

  ghost predicate CleanKept(w: World, n: Name, i: Instance) {
    w.clean && w.claimed.Some? && Held(w.sys, n, i, w.claimed.value) ==>
      FileOf(CoreOf(w.sys), w.claimed.value).tail == None && (Undisputed(w) ==> w.dropped == {})
  }

  ghost predicate RowsStraight(w: World, n: Name, i: Instance) {
    Recalled(w) && RunAccounted(w, n, i) && AnswerTrue(w, n, i) && CleanKept(w, n, i)
  }

  ghost predicate WorldSound(w: World, n: Name, i: Instance) {
    Invariant(w.sys) && ThreadsSound(w, n, i) && RowsStraight(w, n, i)
  }

  // ---- the main thread's account ------------------------------------------

  lemma RecordAccounted(w: World, row: Row, n: Name, i: Instance)
    requires WorldSound(w, n, i) && w.place.Sweeping?
    ensures RowsStraight(MainThread(w, Record(row)), n, i)
  {
    var w1, e := MainThread(w, Record(row)), RowEntry(w.place.run, row);
    if Records(w.link, w.place.run) {
      assert w1.link.outbox == w.link.outbox + [e];
      assert e in w1.link.outbox;
    }
    assert w1.recorded == w.recorded + [row];
    assert row in w1.recorded;
  }

  lemma FinishAccounted(w: World, n: Name, i: Instance)
    requires WorldSound(w, n, i) && w.place.Checked?
    ensures RowsStraight(MainThread(w, AppendFinish), n, i)
  {
    var w1, e := MainThread(w, AppendFinish), FinishEntry(w.place.run, w.place.outcome);
    assert w1.link.outbox == w.link.outbox + [e];
  }

  // Whatever the answer, nothing is owed then.
  lemma HearClaimAccounted(w: World, n: Name, i: Instance)
    requires WorldSound(w, n, i) && w.place.Answered?
    ensures RowsStraight(MainThread(w, HearClaim), n, i)
  {
    var w1, reply := MainThread(w, HearClaim), w.place.reply;
    if reply.Claimed? {
      assert w1.link == Begun(w.link, reply.run) && w1.flight == w.flight;
      FreshAccount(w1, n, i);
    } else {
      assert w1.link == HearReply(w.link, reply) && w1.place == AtTop && w1.dropped == w.dropped && w1.recorded == w.recorded;
      NoAccount(w1, n, i);
    }
  }

  lemma FreshAccount(w: World, n: Name, i: Instance)
    requires w.place.Sweeping? && w.claimed == Some(w.place.run) && w.recorded == [] && w.dropped == {}
    requires w.link.outbox == [] && FlightSound(w) && (w.clean ==> FileOf(CoreOf(w.sys), w.place.run).tail == None)
    ensures RowsStraight(w, n, i)
  {
  }

  lemma NoAccount(w: World, n: Name, i: Instance)
    requires w.claimed == None && w.link.outbox == [] && !Active(w.place) && forall row | row in w.dropped :: row in w.recorded
    ensures RowsStraight(w, n, i)
  {
  }

  // Nothing was recorded, sent or taken away.
  ghost predicate SameBooks(w: World, w1: World) {
    && w1.sys == w.sys && w1.recorded == w.recorded && w1.dropped == w.dropped && w1.fair == w.fair && w1.clean == w.clean
    && w1.flight == w.flight && w1.link.outbox == w.link.outbox
    && w1.link.lost == w.link.lost && w1.link.superseded == w.link.superseded
    && (Active(w1.place) ==> Active(w.place) && w1.place.run == w.place.run && w1.claimed == w.claimed)
    && (w1.place.Sweeping? || w1.place.Checked? ==>
          (w.place.Sweeping? || w.place.Checked?) && w1.link.run == w.link.run)
    && (w1.claimed == w.claimed || (w1.claimed == None && w1.link.outbox == []))
    && (w1.place.Looping? || w1.place.Claiming? || w1.place.Answered? ==> w1.claimed == None || w1.place == w.place)
  }

  lemma LeavesAccount(w: World, a: Action)
    requires OutboxSound(w) && !Appends(a) && !a.HearClaim?
    ensures SameBooks(w, MainThread(w, a))
  {
    if a.CheckOwned? {
      CheckBooks(w, a.outcome);
    } else if a.StopDraining? {
      DrainedBooks(w);
    } else if a.EnterLoop? || a.LoseClaim? || a.Exit? {
      PassingBooks(w, a);
    } else {
      OtherBooks(w, a);
    }
  }

  lemma CheckBooks(w: World, outcome: Outcome)
    requires OutboxSound(w)
    ensures SameBooks(w, MainThread(w, CheckOwned(outcome)))
  {
  }

  lemma DrainedBooks(w: World)
    requires OutboxSound(w)
    ensures SameBooks(w, MainThread(w, StopDraining))
  {
  }

  lemma PassingBooks(w: World, a: Action)
    requires OutboxSound(w) && (a.EnterLoop? || a.LoseClaim? || a.Exit?)
    ensures SameBooks(w, MainThread(w, a))
  {
  }

  lemma OtherBooks(w: World, a: Action)
    requires !Appends(a) && !a.HearClaim? && !a.CheckOwned? && !a.StopDraining?
    requires !a.EnterLoop? && !a.LoseClaim? && !a.Exit?
    ensures SameBooks(w, MainThread(w, a))
  {
  }

  lemma SameAccount(w: World, w1: World, n: Name, i: Instance)
    requires WorldSound(w, n, i) && SameBooks(w, w1)
    ensures RowsStraight(w1, n, i)
  {
    assert Undisputed(w1) ==> Undisputed(w);
  }

  lemma MainThreadAccounted(w: World, a: Action, n: Name, i: Instance)
    requires WorldSound(w, n, i) && !AtServer(a) && !AtSender(a)
    ensures WorldSound(MainThread(w, a), n, i)
  {
    MainThreadSound(w, a, n, i);
    if a.Record? && w.place.Sweeping? {
      RecordAccounted(w, a.row, n, i);
    } else if a.AppendFinish? && w.place.Checked? {
      FinishAccounted(w, n, i);
    } else if a.HearClaim? && w.place.Answered? {
      HearClaimAccounted(w, n, i);
    } else if !Appends(a) && !a.HearClaim? {
      LeavesAccount(w, a);
      SameAccount(w, MainThread(w, a), n, i);
    }
  }

  // ---- the sender's account -------------------------------------------------

  // What an answer leaves of the outbox is its end, or nothing.
  lemma HearLeavesEnd(w: World) returns (k: nat)
    requires OutboxSound(w) && FlightSound(w) && w.flight.Some? && w.flight.value.answer.Some?
    ensures k <= |w.link.outbox|
    ensures LinkHears(w.link, w.flight.value.work, w.flight.value.answer.value).outbox == w.link.outbox[k..]
  {
    var work, reply, outbox := w.flight.value.work, w.flight.value.answer.value, w.link.outbox;
    if reply.UnknownShard? || reply.Superseded? {
      k := |outbox|;
    } else if work.FinishWork? {
      k := 1;
    } else if reply.Synced? {
      SyncAnswerOutbox(w, reply.shardPaused, reply.owned, reply.stopAsked);
      k := if LinkHears(w.link, work, reply).outbox == [] then |outbox| else |work.rows|;
    } else {
      k := 0;
    }
  }

  // Rows only leave the outbox by being taken or dropped.
  lemma LeavingAccounted(w: World, w1: World, k: nat, n: Name, i: Instance)
    requires WorldSound(w, n, i) && k <= |w.link.outbox| && w1.link.outbox == w.link.outbox[k..]
    requires w1.sys == w.sys && w1.recorded == w.recorded && w1.place == w.place && w1.claimed == w.claimed && w1.flight == None
    requires w.dropped <= w1.dropped && w1.dropped <= w.dropped + RowsGone(w.link.outbox, w1.link.outbox)
    requires w.claimed.Some? && Held(w.sys, n, i, w.claimed.value) ==>
               forall e | e in w.link.outbox && e.RowEntry? ::
                 e in w1.link.outbox || e.row in Solid(w.sys, w.claimed.value) || e.row in w1.dropped
    ensures Recalled(w1) && RunAccounted(w1, n, i) && AnswerTrue(w1, n, i)
  {
    forall e | e in w1.link.outbox ensures e in w.link.outbox {
    }
    if w.claimed.Some? && Held(w.sys, n, i, w.claimed.value) {
      var id := w.claimed.value;
      forall row | row in w1.recorded
        ensures row in Solid(w1.sys, id) || RowEntry(id, row) in w1.link.outbox || row in w1.dropped {
        var e := RowEntry(id, row);
        assert e in w.link.outbox ==> e in w1.link.outbox || e.row in Solid(w.sys, id) || e.row in w1.dropped;
      }
    }
  }

  // Of an accepted batch the server has every row, or it was spoilt.
  lemma OwnedAccounted(w: World, n: Name, i: Instance)
    requires WorldSound(w, n, i) && w.flight.Some? && w.flight.value.work.SyncWork? && w.flight.value.answer.Some?
    requires w.flight.value.answer.value.Synced? && w.flight.value.answer.value.owned
    ensures var w1 := SenderThread(w, HearFlight);
            w1.link.outbox == w.link.outbox[|w.flight.value.work.rows|..] && w1.dropped == w.dropped && RowsStraight(w1, n, i)
  {
    var w1, work, reply, outbox := SenderThread(w, HearFlight), w.flight.value.work, w.flight.value.answer.value, w.link.outbox;
    SyncAnswerOutbox(w, reply.shardPaused, reply.owned, reply.stopAsked);
    assert w1.link.outbox == outbox[|work.rows|..];
    assert DroppedBy(w.link, work, reply) == {};
    if w.claimed.Some? && Held(w.sys, n, i, w.claimed.value) {
      forall e | e in outbox && e.RowEntry? ensures e in w1.link.outbox || e.row in work.rows {
        InFrontOrRest(outbox, work, e);
      }
    }
    LeavingAccounted(w, w1, |work.rows|, n, i);
    assert Undisputed(w1) ==> Undisputed(w);
  }

  lemma InFrontOrRest(outbox: seq<Entry>, work: Work, e: Entry)
    requires work.SyncWork? && AtHead(outbox, work) && e in outbox && e.RowEntry?
    ensures e in outbox[|work.rows|..] || e.row in work.rows
  {
    var k :| 0 <= k < |outbox| && outbox[k] == e;
    if k >= |work.rows| {
      assert outbox[|work.rows|..][k - |work.rows|] == e;
    } else {
      assert outbox[k].row == work.rows[k];
    }
  }

  // Of anything else heard, every row that leaves the outbox is dropped, and the
  // process knows better than to own the run.
  lemma RefusedDrops(w: World, n: Name, i: Instance)
    requires WorldSound(w, n, i) && w.flight.Some? && w.flight.value.answer.Some?
    requires !(w.flight.value.work.SyncWork? && w.flight.value.answer.value.Synced? && w.flight.value.answer.value.owned)
    ensures var w1 := SenderThread(w, HearFlight);
            Recalled(w1) && RunAccounted(w1, n, i) && AnswerTrue(w1, n, i)
  {
    var w1 := SenderThread(w, HearFlight);
    var k := HearLeavesEnd(w);
    LeavingAccounted(w, w1, k, n, i);
  }

  lemma HearDisputes(w: World)
    requires OutboxSound(w) && FlightSound(w) && Recalled(w) && w.flight.Some? && w.flight.value.answer.Some?
    requires !(w.flight.value.work.SyncWork? && w.flight.value.answer.value.Synced? && w.flight.value.answer.value.owned)
    ensures var w1 := SenderThread(w, HearFlight);
            Undisputed(w1) ==> Undisputed(w) && w1.dropped == w.dropped
  {
    var w1, work, reply, outbox := SenderThread(w, HearFlight), w.flight.value.work, w.flight.value.answer.value, w.link.outbox;
    if reply.UnknownShard? || reply.Superseded? {
      assert w1.link.outbox == [];
    } else if work.FinishWork? {
      FinishLeaves(w);
    } else if reply.Synced? {
      RefusedLeaves(w);
    } else {
      assert w1.link == w.link;
    }
  }

  lemma FinishLeaves(w: World)
    requires OutboxSound(w) && FlightSound(w) && w.flight.Some? && w.flight.value.work.FinishWork? && w.flight.value.answer.Some?
    requires !w.flight.value.answer.value.UnknownShard? && !w.flight.value.answer.value.Superseded?
    ensures var w1 := SenderThread(w, HearFlight);
            w1.link.outbox == [] && w1.dropped == w.dropped && !(w1.place.Sweeping? || w1.place.Checked?)
  {
    var outbox := w.link.outbox;
    assert |outbox| == 1 by {
      assert outbox[0].FinishEntry?;
    }
    assert outbox[0] in outbox;
    assert SenderThread(w, HearFlight).link.outbox == outbox[1..];
  }

  lemma RefusedLeaves(w: World)
    requires OutboxSound(w) && FlightSound(w) && Recalled(w)
    requires w.flight.Some? && w.flight.value.work.SyncWork? && w.flight.value.answer.Some?
    requires w.flight.value.answer.value.Synced? && !w.flight.value.answer.value.owned
    ensures var w1 := SenderThread(w, HearFlight);
            || (w1.link.outbox == w.link.outbox && w1.dropped == w.dropped && (Undisputed(w1) ==> Undisputed(w)))
            || (w1.link.outbox == [] && !Undisputed(w1))
  {
    var w1, work, reply, outbox := SenderThread(w, HearFlight), w.flight.value.work, w.flight.value.answer.value, w.link.outbox;
    SyncAnswerOutbox(w, reply.shardPaused, reply.owned, reply.stopAsked);
    if work.rows != [] {
      assert outbox[0] in outbox && Some(outbox[0].run) == work.run;
      if |work.rows| < |outbox| {
        assert outbox[|work.rows|].run == outbox[0].run;
      }
      assert w1.link.outbox == [];
    } else {
      assert outbox[0..] == outbox;
      if outbox != [] {
        assert outbox[0] in outbox;
      }
    }
  }

  lemma HearFlightAccounted(w: World, n: Name, i: Instance)
    requires WorldSound(w, n, i)
    ensures WorldSound(SenderThread(w, HearFlight), n, i)
  {
    HearFlightSound(w, n, i);
    if w.flight.Some? && w.flight.value.answer.Some? {
      if w.flight.value.work.SyncWork? && w.flight.value.answer.value.Synced? && w.flight.value.answer.value.owned {
        OwnedAccounted(w, n, i);
      } else {
        RefusedDrops(w, n, i);
        HearDisputes(w);
      }
    }
  }

  lemma MalformedAccounted(w: World, n: Name, i: Instance)
    requires WorldSound(w, n, i) && w.flight.Some? && w.flight.value.answer.None?
    ensures WorldSound(SenderThread(w, HearMalformed), n, i)
  {
    var w1 := SenderThread(w, HearMalformed);
    var k := MalformedLeaves(w);
    EndSound(w, w1, k, n, i);
    AllDropped(w.link.outbox, w1.link.outbox);
    LeavingAccounted(w, w1, k, n, i);
  }

  lemma MalformedLeaves(w: World) returns (k: nat)
    requires FlightSound(w) && w.flight.Some? && w.flight.value.answer.None?
    ensures k <= |w.link.outbox|
    ensures var link := w.link.(outbox := w.link.outbox[k..]);
            SenderThread(w, HearMalformed)
            == w.(link := link, flight := None, clean := false, dropped := w.dropped + RowsGone(w.link.outbox, link.outbox))
  {
    var work := w.flight.value.work;
    k := if work.SyncWork? then |work.rows| else 1;
    assert Rejected(w.link, work) == w.link.(outbox := w.link.outbox[k..]);
  }

  lemma AllDropped(before: seq<Entry>, after: seq<Entry>)
    ensures forall e | e in before && e.RowEntry? :: e in after || e.row in RowsGone(before, after)
  {
  }

  lemma EndSound(w: World, w1: World, k: nat, n: Name, i: Instance)
    requires ThreadsSound(w, n, i) && k <= |w.link.outbox| && w1.flight == None
    requires w1.link == w.link.(outbox := w.link.outbox[k..]) && w1.sys == w.sys && w1.place == w.place
    ensures ThreadsSound(w1, n, i)
  {
    RestShaped(w.link.outbox, k);
  }

  lemma SenderThreadAccounted(w: World, a: Action, n: Name, i: Instance)
    requires WorldSound(w, n, i) && AtSender(a)
    ensures WorldSound(SenderThread(w, a), n, i)
  {
    match a
    case Dispatch => DispatchSound(w, n, i);
    case LoseFlight =>
    case HearFlight => HearFlightAccounted(w, n, i);
    case HearMalformed =>
      if w.flight.Some? && w.flight.value.answer.None? {
        MalformedAccounted(w, n, i);
      }
  }

  // ---- the server's side ------------------------------------------------

  // An accepted batch is on whole lines, but for the row a torn line spoils.
  lemma AppendedIsSolid(f: File, rows: seq<Row>)
    ensures forall row | row in rows ::
              row in LoadLines(AppendRows(f, rows).lines) || (f.tail != None && row == rows[0])
  {
    if rows != [] {
      AppendLoads(f, rows);
      var g := AppendRows(f, rows);
      assert LoadRows(g) == LoadLines(g.lines);
      forall row | row in rows ensures row in LoadLines(g.lines) || (f.tail != None && row == rows[0]) {
        var k :| 0 <= k < |rows| && rows[k] == row;
        if f.tail == None {
          assert LoadRows(g)[|LoadRows(f)| + k] == row;
        } else if k > 0 {
          assert LoadRows(g)[|LoadLines(f.lines)| + k - 1] == rows[1..][k - 1];
        }
      }
    }
  }

  lemma SyncDelivers(sys: System, n: Name, i: Instance, run: Option<RunId>, progressed: bool, rows: seq<Row>, now: real, wall: nat)
    requires Known(CoreOf(sys))
    ensures var reply := Sync(sys.q, n, i, run, progressed, rows, now, wall).1;
            reply.Synced? && reply.owned ==>
              run.Some? && FileOf(CoreOf(Next(sys, SyncStep(n, i, run, progressed, rows, now, wall))), run.value)
                           == AppendRows(FileOf(CoreOf(sys), run.value), rows)
  {
    var step := SyncStep(n, i, run, progressed, rows, now, wall);
    var q2 := Apply(Apply(sys.q, RunControl(CoreOf(sys), step), TouchedBy(step)), ShardControl(CoreOf(sys), step), {});
    assert q2 == sys.q;
    assert Next(sys, step).q == Sync(sys.q, n, i, run, progressed, rows, now, wall).0;
  }

  // Whatever the server does, what it has on whole lines of a run this process
  // still holds it keeps.
  lemma HeldStays(sys: System, step: Step, n: Name, i: Instance, id: RunId)
    requires Invariant(sys) && Guarded(sys, step) && Held(Next(sys, step), n, i, id)
    requires !(step.ClaimEndStep? && step.n == n && step.instance == i)
    ensures Held(sys, n, i, id)
    ensures forall row | row in Solid(sys, id) :: row in Solid(Next(sys, step), id)
    ensures FileOf(CoreOf(sys), id).tail == None ==> FileOf(CoreOf(Next(sys, step)), id).tail == None
  {
    StepHeld(sys, step, n, i, id);
    HeldGrows(sys, step, n, i, id);
    SolidGrows(FileOf(CoreOf(sys), id), FileOf(CoreOf(Next(sys, step)), id));
  }

  lemma SolidGrows(f: File, g: File)
    requires Extends(f, g)
    ensures forall row | row in LoadLines(f.lines) :: row in LoadLines(g.lines)
  {
    assert f.lines <= g.lines by {
      if f != g && f.tail != None {
        assert AllLines(g)[..|f.lines|] == f.lines;
      }
    }
    LoadPrefix(f.lines, g.lines);
    PrefixHas(LoadLines(f.lines), LoadLines(g.lines));
  }

  lemma PrefixHas(before: seq<Row>, after: seq<Row>)
    requires before <= after
    ensures forall row | row in before :: row in after
  {
    assert after == before + after[|before|..];
  }

  lemma ServerStepGuarded(w: World, n: Name, i: Instance, a: Action)
    requires WorldSound(w, n, i) && Allowed(w, n, i, a) && ServerStep(w, n, i, a).Some?
    ensures Guarded(w.sys, ServerStep(w, n, i, a).value)
    ensures var step := ServerStep(w, n, i, a).value;
            step.ClaimEndStep? && step.n == n && step.instance == i ==> a.ServeClaim?
  {
  }

  // The server does anything but serve this process's claim, and what a row is
  // spoilt by is said.
  lemma StepAccounted(w: World, w1: World, step: Step, n: Name, i: Instance)
    requires WorldSound(w, n, i) && Guarded(w.sys, step) && !(step.ClaimEndStep? && step.n == n && step.instance == i)
    requires w1 == w.(sys := Next(w.sys, step), place := w1.place, flight := w1.flight, dropped := w1.dropped)
    requires w1.place == w.place || (w.place.Looping? && (w1.place.Claiming? || w1.place.Answered?))
    requires w.dropped <= w1.dropped && forall row | row in w1.dropped :: row in w.recorded
    requires w1.dropped == w.dropped || (w.claimed.Some? && FileOf(CoreOf(w.sys), w.claimed.value).tail != None)
    ensures Recalled(w1) && RunAccounted(w1, n, i) && CleanKept(w1, n, i)
    ensures w1.flight == w.flight ==> AnswerTrue(w1, n, i)
  {
    assert Undisputed(w1) ==> Undisputed(w);
    if w.claimed.Some? && Held(w1.sys, n, i, w.claimed.value) {
      HeldStays(w.sys, step, n, i, w.claimed.value);
    }
  }

  lemma ServeAnswerTrue(w: World, n: Name, i: Instance, a: Action)
    requires WorldSound(w, n, i) && a.Serve?
    ensures AnswerTrue(ServerSide(w, n, i, a), n, i)
  {
    if Unserved(w) && w.flight.value.work.SyncWork? {
      var work := w.flight.value.work;
      SyncDelivers(w.sys, n, i, work.run, a.progressed, work.rows, a.now, a.wall);
      if work.rows != [] && work.run.Some? {
        AppendedIsSolid(FileOf(CoreOf(w.sys), work.run.value), work.rows);
        assert w.link.outbox[0] in w.link.outbox;
      }
    }
  }

  // A row that is spoilt was recorded, for the run begun last.
  lemma SpoiltWasRecorded(w: World, reply: Reply)
    requires Recalled(w) && FlightSound(w) && w.flight.Some?
    ensures forall row | row in SpoiltBy(w.sys, w.flight.value.work, reply) :: row in w.recorded
    ensures SpoiltBy(w.sys, w.flight.value.work, reply) != {} ==>
              w.claimed.Some? && FileOf(CoreOf(w.sys), w.claimed.value).tail != None
  {
    if SpoiltBy(w.sys, w.flight.value.work, reply) != {} {
      assert w.link.outbox[0] in w.link.outbox;
    }
  }

  lemma ServeIs(w: World, n: Name, i: Instance, a: Action) returns (w1: World, step: Step, reply: Reply)
    requires Known(CoreOf(w.sys)) && a.Serve? && Unserved(w)
    ensures ServerStep(w, n, i, a) == Some(step) && (step.SyncStep? || step.FinishStep?) && w1 == ServerSide(w, n, i, a)
    ensures w1 == w.(sys := Next(w.sys, step), flight := w1.flight,
                     dropped := w.dropped + SpoiltBy(w.sys, w.flight.value.work, reply))
  {
    step := ServerStep(w, n, i, a).value;
    reply := ServerReply(w.sys.q, step);
    w1 := ServerSide(w, n, i, a);
  }

  lemma ServeAccounted(w: World, n: Name, i: Instance, a: Action)
    requires WorldSound(w, n, i) && a.Serve? && Unserved(w)
    ensures RowsStraight(ServerSide(w, n, i, a), n, i)
  {
    var w1, step, reply := ServeIs(w, n, i, a);
    SpoiltWasRecorded(w, reply);
    assert w.dropped + {} == w.dropped;
    ServeAnswerTrue(w, n, i, a);
    StepAccounted(w, w1, step, n, i);
  }

  lemma ServeClaimAccounted(w: World, n: Name, i: Instance, a: Action)
    requires WorldSound(w, n, i) && a.ServeClaim?
    ensures RowsStraight(ServerSide(w, n, i, a), n, i)
  {
  }

  lemma ServerSideAccounted(w: World, n: Name, i: Instance, a: Action)
    requires WorldSound(w, n, i) && Allowed(w, n, i, a) && AtServer(a)
    ensures WorldSound(ServerSide(w, n, i, a), n, i)
  {
    ServerSideSound(w, a, n, i);
    if a.ServeClaim? {
      ServeClaimAccounted(w, n, i, a);
    }
    if ServerStep(w, n, i, a).Some? {
      ServerStepGuarded(w, n, i, a);
      StepInvariant(w.sys, ServerStep(w, n, i, a).value);
      if a.Serve? {
        ServeAccounted(w, n, i, a);
      } else if !a.ServeClaim? {
        OtherStepAccounted(w, n, i, a);
      }
    }
  }

  lemma OtherStepAccounted(w: World, n: Name, i: Instance, a: Action)
    requires WorldSound(w, n, i) && Allowed(w, n, i, a) && (a.Elsewise? || a.Claim?) && ServerStep(w, n, i, a).Some?
    requires var step := ServerStep(w, n, i, a).value;
             Guarded(w.sys, step) && !(step.ClaimEndStep? && step.n == n && step.instance == i)
    ensures RowsStraight(ServerSide(w, n, i, a), n, i)
  {
    StepAccounted(w, ServerSide(w, n, i, a), ServerStep(w, n, i, a).value, n, i);
  }

  lemma TurnSound(w: World, n: Name, i: Instance, a: Action)
    requires WorldSound(w, n, i) && Allowed(w, n, i, a)
    ensures WorldSound(Turn(w, n, i, a), n, i)
  {
    if AtServer(a) {
      ServerSideAccounted(w, n, i, a);
    } else if AtSender(a) {
      SenderThreadAccounted(w, a, n, i);
    } else {
      MainThreadAccounted(w, a, n, i);
    }
  }

  // ---- every history ----------------------------------------------------

  ghost predicate IsHistory(trace: seq<World>, acts: seq<Action>, lanes: seq<Name>, start: real, n: Name, i: Instance) {
    && LOCAL_SHARD in lanes && |trace| == |acts| + 1 && trace[0] == Opening(lanes, start)
    && forall k | 0 <= k < |acts| ::
      Known(CoreOf(trace[k].sys)) && Allowed(trace[k], n, i, acts[k]) && trace[k + 1] == Turn(trace[k], n, i, acts[k])
  }

  lemma {:induction false} HistorySound(trace: seq<World>, acts: seq<Action>, lanes: seq<Name>, start: real, n: Name, i: Instance, k: nat)
    requires IsHistory(trace, acts, lanes, start, n, i) && k < |trace|
    ensures WorldSound(trace[k], n, i)
  {
    if k == 0 {
      InitialInvariant(lanes, start);
    } else {
      HistorySound(trace, acts, lanes, start, n, i, k - 1);
      TurnSound(trace[k - 1], n, i, acts[k - 1]);
    }
  }

  // The server takes the run back: it accepts, in this action, a finish that
  // hands the run over to whoever claims it next -- the one in flight, or a copy
  // of one that comes late.
  predicate HandsBack(w: World, n: Name, i: Instance, a: Action, id: RunId)
    requires Known(CoreOf(w.sys))
  {
    var step := ServerStep(w, n, i, a);
    (a.Serve? || a.Elsewise?) && step.Some? && step.value.FinishStep?
    && step.value.n == n && step.value.instance == i && step.value.id == id
    && (step.value.outcome.StoppedOutcome? || step.value.outcome.ReleasedOutcome?)
    && ServerReply(w.sys.q, step.value) == Done
  }

  // What was recorded since this very claim, and what of it is in no request or
  // checkpoint, or not yet.
  function Since(w: World, id: RunId): seq<Row> {
    if w.claimed == Some(id) then w.recorded else []
  }

  function Owed(w: World, id: RunId): set<Row> {
    if w.claimed == Some(id) then w.dropped + RowsGone(w.link.outbox, []) else {}
  }

  lemma HandedBackIsHeld(w: World, n: Name, i: Instance, a: Action, id: RunId)
    requires WorldSound(w, n, i) && HandsBack(w, n, i, a, id)
    ensures Held(w.sys, n, i, id) && id in CoreOf(w.sys).order
  {
    HeldIsOwned(w.sys, n, i, id);
  }

  lemma SolidLoads(sys: System, id: RunId)
    ensures forall row | row in Solid(sys, id) :: row in RowsOf(CoreOf(sys), id)
  {
    var f := FileOf(CoreOf(sys), id);
    LoadAll(f);
    LoadPrefix(f.lines, AllLines(f));
    PrefixHas(LoadLines(f.lines), LoadRows(f));
  }

  // A finish that is sent is all that is owed.
  lemma FinishIsAllOwed(w: World, n: Name, i: Instance, a: Action, id: RunId)
    requires WorldSound(w, n, i) && HandsBack(w, n, i, a, id) && a.Serve?
    ensures w.claimed == Some(id) && Owed(w, id) == w.dropped
  {
    assert ServerStep(w, n, i, a).value.FinishStep? ==> w.flight.value.work.FinishWork?;
    FinishAlone(w.link.outbox);
    assert w.link.outbox[0].run == id;
    assert w.dropped + {} == w.dropped;
  }

  lemma FinishAlone(outbox: seq<Entry>)
    requires Shaped(outbox) && outbox != [] && outbox[0].FinishEntry?
    ensures |outbox| == 1 && outbox[0] in outbox && RowsGone(outbox, []) == {}
  {
  }

  // In every history, whenever the server accepts a hand-back of this process,
  // in time or late: every row recorded since the claim is in the checkpoint if
  // and only if each row that is still owed or was dropped is in it. One served
  // in time owes only what was dropped: by a refusal, by record_row while the
  // run was lost, or spoilt by a torn line it was written onto. And the rows
  // stay there for as long as the run is not finished, unless one of them is
  // without its newline and is written onto.
  lemma HandBackWholeIff(trace: seq<World>, acts: seq<Action>, lanes: seq<Name>, start: real,
                         n: Name, i: Instance, k: nat, j: nat, id: RunId)
    requires IsHistory(trace, acts, lanes, start, n, i) && k < |acts| && k <= j < |trace|
    requires HandsBack(trace[k], n, i, acts[k], id)
    ensures Delivered(trace[k].sys, Since(trace[k], id), id)
            <==> forall row | row in Owed(trace[k], id) :: row in RowsOf(CoreOf(trace[k].sys), id)
    ensures acts[k].Serve? ==> Owed(trace[k], id) == trace[k].dropped
    ensures var f, g := FileOf(CoreOf(trace[k].sys), id), FileOf(CoreOf(trace[j].sys), id);
            Delivered(trace[k].sys, Since(trace[k], id), id) && id in CoreOf(trace[j].sys).order && (!Loose(f) || f == g) ==>
              Delivered(trace[j].sys, Since(trace[k], id), id)
  {
    var w := trace[k];
    HistorySound(trace, acts, lanes, start, n, i, k);
    HandedBackIsHeld(w, n, i, acts[k], id);
    if acts[k].Serve? {
      FinishIsAllOwed(w, n, i, acts[k], id);
    }
    WholeIff(w, n, i, id);
    if id in CoreOf(trace[j].sys).order {
      CheckpointStays(trace, acts, lanes, start, n, i, k, j, id);
    }
  }

  lemma WholeIff(w: World, n: Name, i: Instance, id: RunId)
    requires WorldSound(w, n, i) && Held(w.sys, n, i, id)
    ensures Delivered(w.sys, Since(w, id), id) <==> forall row | row in Owed(w, id) :: row in RowsOf(CoreOf(w.sys), id)
  {
    SolidLoads(w.sys, id);
    if w.claimed == Some(id) {
      forall row | row in Owed(w, id) ensures row in w.recorded {
      }
      forall row | row in w.recorded ensures row in Solid(w.sys, id) || row in Owed(w, id) {
        if RowEntry(id, row) in w.link.outbox {
          assert RowEntry(id, row).row in RowsGone(w.link.outbox, []);
        }
      }
    }
  }

  lemma HistoryGrew(trace: seq<World>, acts: seq<Action>, lanes: seq<Name>, start: real, n: Name, i: Instance, x: nat)
    requires IsHistory(trace, acts, lanes, start, n, i) && x < |acts|
    ensures Grew(trace[x].sys, trace[x + 1].sys)
  {
    HistorySound(trace, acts, lanes, start, n, i, x);
    TurnGrew(trace[x], n, i, acts[x]);
  }

  lemma HistorySystems(trace: seq<World>, acts: seq<Action>, lanes: seq<Name>, start: real, n: Name, i: Instance)
    returns (systems: seq<System>)
    requires IsHistory(trace, acts, lanes, start, n, i)
    ensures |systems| == |trace| && forall x | 0 <= x < |trace| :: systems[x] == trace[x].sys
    ensures forall x | 0 <= x < |acts| :: Grew(systems[x], systems[x + 1])
  {
    systems := seq(|trace|, x requires 0 <= x < |trace| => trace[x].sys);
    forall x | 0 <= x < |acts| ensures Grew(systems[x], systems[x + 1]) {
      HistoryGrew(trace, acts, lanes, start, n, i, x);
    }
  }

  lemma CheckpointStays(trace: seq<World>, acts: seq<Action>, lanes: seq<Name>, start: real,
                        n: Name, i: Instance, k: nat, j: nat, id: RunId)
    requires IsHistory(trace, acts, lanes, start, n, i) && k <= j < |trace|
    requires id in CoreOf(trace[k].sys).order && id in CoreOf(trace[j].sys).order
    ensures var f, g := FileOf(CoreOf(trace[k].sys), id), FileOf(CoreOf(trace[j].sys), id);
            !Loose(f) || f == g ==> forall row | row in LoadRows(f) :: row in LoadRows(g)
  {
    HistorySound(trace, acts, lanes, start, n, i, k);
    var systems := HistorySystems(trace, acts, lanes, start, n, i);
    GrewAll(systems, k, j, id);
    RowsStay(FileOf(CoreOf(trace[k].sys), id), FileOf(CoreOf(trace[j].sys), id));
  }

  lemma RowsStay(f: File, g: File)
    requires Extends(f, g)
    ensures !Loose(f) || f == g ==> forall row | row in LoadRows(f) :: row in LoadRows(g)
  {
    LinesStayIff(f, g);
    if !Loose(f) || f == g {
      PrefixHas(LoadRows(f), LoadRows(g));
    }
  }

  // A finish appended while the process owned the run of a clean checkpoint.
  lemma NothingDropped(w: World, n: Name, i: Instance, a: Action, id: RunId)
    requires WorldSound(w, n, i) && HandsBack(w, n, i, a, id) && a.Serve? && w.fair && w.clean
    ensures w.dropped == {} && Delivered(w.sys, w.recorded, id) && id in CoreOf(w.sys).order
    ensures FileOf(CoreOf(w.sys), id).tail == None
  {
    HandedBackIsHeld(w, n, i, a, id);
    FinishIsAllOwed(w, n, i, a, id);
    FinishWaits(w, n, i, a, id);
    WholeIff(w, n, i, id);
  }

  lemma FinishWaits(w: World, n: Name, i: Instance, a: Action, id: RunId)
    requires WorldSound(w, n, i) && HandsBack(w, n, i, a, id) && a.Serve?
    ensures exists e :: e in w.link.outbox && e.FinishEntry?
  {
    assert w.link.outbox[0] in w.link.outbox;
  }

  // What a caller can see to: a finish appended while the process still owned
  // the run, of a checkpoint that was whole when the run was claimed and with no
  // batch called malformed, loses nothing, and nothing of it is lost later.
  lemma HandBackLosesNothing(trace: seq<World>, acts: seq<Action>, lanes: seq<Name>, start: real,
                             n: Name, i: Instance, k: nat, j: nat, id: RunId)
    requires IsHistory(trace, acts, lanes, start, n, i) && k < |acts| && k <= j < |trace|
    requires HandsBack(trace[k], n, i, acts[k], id) && acts[k].Serve? && trace[k].fair && trace[k].clean
    ensures trace[k].dropped == {} && Delivered(trace[k].sys, trace[k].recorded, id)
    ensures id in CoreOf(trace[j].sys).order ==> Delivered(trace[j].sys, trace[k].recorded, id)
  {
    HistorySound(trace, acts, lanes, start, n, i, k);
    NothingDropped(trace[k], n, i, acts[k], id);
    if id in CoreOf(trace[j].sys).order {
      CheckpointStays(trace, acts, lanes, start, n, i, k, j, id);
    }
  }

  lemma TurnServes(w: World, n: Name, i: Instance, a: Action) returns (next: System)
    requires Known(CoreOf(w.sys))
    ensures Turn(w, n, i, a).sys == next
    ensures next == if AtServer(a) && ServerStep(w, n, i, a).Some? then Next(w.sys, ServerStep(w, n, i, a).value) else w.sys
  {
    next := Turn(w, n, i, a).sys;
  }

  lemma ServedGrew(w: World, n: Name, i: Instance, a: Action)
    requires WorldSound(w, n, i) && Allowed(w, n, i, a) && ServerStep(w, n, i, a).Some?
    ensures Grew(w.sys, Next(w.sys, ServerStep(w, n, i, a).value))
  {
    ServerStepGuarded(w, n, i, a);
    StepGrew(w.sys, ServerStep(w, n, i, a).value);
  }

  lemma TurnGrew(w: World, n: Name, i: Instance, a: Action)
    requires WorldSound(w, n, i) && Allowed(w, n, i, a)
    ensures Grew(w.sys, Turn(w, n, i, a).sys)
  {
    var next := TurnServes(w, n, i, a);
    if AtServer(a) && ServerStep(w, n, i, a).Some? {
      ServedGrew(w, n, i, a);
    }
  }

  // The sender's promises in every history: what an answer will take off the
  // outbox is exactly what was sent, a finish leaves only when no row is left,
  // and nothing is owed when the process goes for its next run.
  lemma SenderSafety(trace: seq<World>, acts: seq<Action>, lanes: seq<Name>, start: real, n: Name, i: Instance, k: nat)
    requires IsHistory(trace, acts, lanes, start, n, i) && k < |trace|
    ensures trace[k].flight.Some? ==> AtHead(trace[k].link.outbox, trace[k].flight.value.work)
    ensures trace[k].flight.Some? && trace[k].flight.value.work.FinishWork? ==>
              trace[k].link.outbox == [trace[k].flight.value.work.entry]
    ensures trace[k].place.Looping? || trace[k].place.Claiming? || trace[k].place.Answered? ==> trace[k].link.outbox == []
  {
    HistorySound(trace, acts, lanes, start, n, i, k);
  }

  // The server takes a run back from its owner whatever became of the rows.
  lemma OwnedHandsBack(w: World, n: Name, i: Instance, id: RunId, a: Action, now: real)
    requires Known(CoreOf(w.sys)) && RemoteShard(CoreOf(w.sys), n, i) == None && Owns(CoreOf(w.sys), n, id)
    requires (a.Serve? || a.Elsewise?) && ServerStep(w, n, i, a) == Some(FinishStep(n, i, id, StoppedOutcome, now))
    ensures HandsBack(w, n, i, a, id)
  {
    AcceptsFinish(w.sys.q, n, i, id, now);
    AnswersFinish(w.sys.q, n, i, id, StoppedOutcome, now);
  }

  lemma AnswersFinish(q: State, n: Name, i: Instance, id: RunId, outcome: Outcome, now: real)
    requires Known(q.core)
    ensures ServerReply(q, FinishStep(n, i, id, outcome, now)) == ShardFinish(q, n, i, id, outcome, now).1
  {
  }

  lemma AcceptsFinish(q: State, n: Name, i: Instance, id: RunId, now: real)
    requires Known(q.core) && RemoteShard(q.core, n, i) == None && Owns(q.core, n, id)
    ensures ShardFinish(q, n, i, id, StoppedOutcome, now).1 == Done
  {
  }

  // ---- requests that are handled late -------------------------------------

  // Nobody's run, place or checkpoint is another.
  ghost predicate Untouched(c: Core, d: Core) {
    && d.jobs == c.jobs && d.order == c.order && d.rows == c.rows && d.shards.Keys == c.shards.Keys
    && forall m | m in c.shards :: d.shards[m].runId == c.shards[m].runId
  }

  lemma FinishMoves(q: State, n: Name, i: Instance, id: RunId, outcome: Outcome, now: real)
    requires Known(q.core) && RemoteShard(q.core, n, i) == None && Owns(q.core, n, id)
    requires var s := q.(core := Touched(q.core, n, now));
             Settle(s, id).core.jobs != s.core.jobs && Release(s, id).core.jobs != s.core.jobs
             && Finish(s, id, Failed).core.jobs != s.core.jobs && Finish(s, id, Complete).core.jobs != s.core.jobs
    ensures ShardFinish(q, n, i, id, outcome, now).0.core.jobs != q.core.jobs
  {
  }

  lemma RefusedUntouched(q: State, n: Name, i: Instance, id: RunId, outcome: Outcome, now: real)
    requires Known(q.core) && RemoteShard(q.core, n, i) == None && !Owns(q.core, n, id)
    ensures Untouched(q.core, ShardFinish(q, n, i, id, outcome, now).0.core)
  {
  }

  lemma OwnedFinishMoves(s: State, id: RunId, outcome: Outcome, adrift: set<RunId>)
    requires Sound(s.core, adrift) && IsRunning(s.core, id)
    ensures Settle(s, id).core.jobs != s.core.jobs && Release(s, id).core.jobs != s.core.jobs
    ensures Finish(s, id, Failed).core.jobs != s.core.jobs && Finish(s, id, Complete).core.jobs != s.core.jobs
  {
    SettleFrees(s.core, id, adrift);
    FinishFrees(s.core, id, Failed, adrift);
    FinishFrees(s.core, id, Complete, adrift);
    assert !Settle(s, id).core.jobs[id].status.Running?;
  }

  // A finish handled late does no harm if and only if the process does not own
  // that very run again.
  lemma LateFinishHarmlessIff(sys: System, n: Name, i: Instance, id: RunId, outcome: Outcome, now: real)
    requires Invariant(sys)
    ensures Untouched(CoreOf(sys), CoreOf(RemoteNext(sys, FinishStep(n, i, id, outcome, now)))) <==> !Held(sys, n, i, id)
  {
    FinishHarmless(sys, n, i, id, outcome, now);
  }

  lemma FinishHarmless(sys: System, n: Name, i: Instance, id: RunId, outcome: Outcome, now: real)
    requires Invariant(sys)
    ensures Untouched(CoreOf(sys), ShardFinish(sys.q, n, i, id, outcome, now).0.core) <==> !Held(sys, n, i, id)
  {
    if RemoteShard(CoreOf(sys), n, i) == None {
      HeldIsOwned(sys, n, i, id);
      if Owns(CoreOf(sys), n, id) {
        TouchSound(CoreOf(sys), n, now, Adrift(sys));
        OwnedFinishMoves(sys.q.(core := Touched(CoreOf(sys), n, now)), id, outcome, Adrift(sys));
        FinishMoves(sys.q, n, i, id, outcome, now);
      } else {
        RefusedUntouched(sys.q, n, i, id, outcome, now);
      }
    }
  }

  lemma ClaimGivesBack(q: State, n: Name, i: Instance, now: real)
    requires Known(q.core) && RemoteShard(q.core, n, i) == None && q.core.shards[n].runId.Some?
    requires var s := q.(core := Touched(q.core, n, now));
             Release(s, q.core.shards[n].runId.value).core.jobs != s.core.jobs
    ensures ClaimBegin(q, n, i, now).0.core.jobs != q.core.jobs
  {
  }

  lemma IdleClaimUntouched(q: State, n: Name, i: Instance, now: real)
    requires Known(q.core) && (RemoteShard(q.core, n, i) == None ==> q.core.shards[n].runId == None)
    ensures Untouched(q.core, ClaimBegin(q, n, i, now).0.core)
  {
  }

  // A claim handled late does no harm if and only if the process holds no run by
  // then; what it held is given back.
  lemma LateClaimHarmlessIff(sys: System, n: Name, i: Instance, now: real)
    requires Invariant(sys)
    ensures Untouched(CoreOf(sys), CoreOf(RemoteNext(sys, ClaimBeginStep(n, i, now))))
            <==> forall id :: !Held(sys, n, i, id)
  {
    ClaimHarmless(sys, n, i, now);
  }

  lemma ClaimHarmless(sys: System, n: Name, i: Instance, now: real)
    requires Invariant(sys)
    ensures Untouched(CoreOf(sys), ClaimBegin(sys.q, n, i, now).0.core) <==> forall id :: !Held(sys, n, i, id)
  {
    var c := CoreOf(sys);
    if RemoteShard(c, n, i) == None && c.shards[n].runId.Some? {
      var id := c.shards[n].runId.value;
      assert Held(sys, n, i, id);
      HeldIsOwned(sys, n, i, id);
      TouchSound(c, n, now, Adrift(sys));
      OwnedFinishMoves(sys.q.(core := Touched(c, n, now)), id, StoppedOutcome, Adrift(sys));
      ClaimGivesBack(sys.q, n, i, now);
    } else {
      IdleClaimUntouched(sys.q, n, i, now);
    }
  }
}
