/**
 Whole runs of the queue: any interleaving of control requests, shard
 requests, local lanes, reaping and crashes, each locked section one step.
 */
module QueueRuns {
  import opened Seqs
  import opened Checkpoint
  import opened Queue
  import opened QueueInvariants
  import Contract

  // Where a local lane's thread is; Settling is between the two locked
  // sections of a cancel.
  datatype Thread = Idle | Busy(run: RunId) | Settling(run: RunId)

  // `waiting` are the claims between their two locked sections; `toArchive` the
  // completed runs whose on_complete has not been called yet, `archived` those
  // it was called for. `minted` and `starts` only record what happened.
  datatype System = System(
    q: State,
    waiting: set<(Name, Instance)>,
    threads: map<Name, Thread>,
    toArchive: set<RunId>,
    archived: seq<RunId>,
    minted: set<RunId>,
    starts: map<RunId, nat>,
    clock: nat)

  datatype Step =
    | SubmitStep(id: RunId, request: Contract.Dict, at: real)
    | PauseStep(id: RunId)
    | ResumeStep(id: RunId)
    | CancelStep(id: RunId)
    | MoveStep(id: RunId, position: int)
    | RunNextStep(id: RunId)
    | PauseAllStep
    | ResumeAllStep
    | PauseShardStep(n: Name)
    | ResumeShardStep(n: Name)
    | SetShardsPausedStep(paused: bool)
    | SetScheduleStep(n: Name, schedule: Schedule)
    | ForgetStep(n: Name, now: real)
    | ReapStep(visit: seq<Name>, now: real)
    | RegisterStep(n: Name, instance: Instance, now: real)
    | ClaimBeginStep(n: Name, instance: Instance, now: real)
    | ClaimEndStep(n: Name, instance: Instance, now: real, wall: nat)
    | SyncStep(n: Name, instance: Instance, run: Option<RunId>, progressed: bool, rows: seq<Row>, now: real, wall: nat)
    | FinishStep(n: Name, instance: Instance, id: RunId, outcome: Outcome, now: real)
    | LaneStartStep(n: Name, wall: nat)
    | LaneRowStep(n: Name, row: Row)
    | LaneStopStep(n: Name)
    | LaneCancelStep(n: Name)
    | LaneEndStep(n: Name, status: Status)
    | ArchiveStep(id: RunId)
    | CrashStep(now: real)
    | TornStep(n: Name, id: RunId, rows: seq<Row>, written: nat, cut: Cut, now: real)

  function Initial(lanes: seq<Name>, now: real): System {
    System(State(FreshCore(lanes, map[], now), map[], map[], NothingSaved),
           {}, map n | n in lanes :: Idle, {}, [], {}, map[], 0)
  }

  function AdriftIn(threads: map<Name, Thread>): set<RunId> {
    set n | n in threads && threads[n].Settling? :: threads[n].run
  }

  function Adrift(sys: System): set<RunId> {
    AdriftIn(sys.threads)
  }

  predicate LaneAt(sys: System, n: Name, thread: Thread) {
    n in sys.threads && sys.threads[n] == thread
  }

  predicate LaneBusy(sys: System, n: Name) {
    n in sys.threads && sys.threads[n].Busy? && sys.threads[n].run in sys.q.core.jobs
  }

  function Started(sys: System, q: State, id: RunId): System {
    sys.(q := q, starts := sys.starts[id := sys.clock], clock := sys.clock + 1)
  }

  function WithThread(sys: System, n: Name, thread: Thread): System {
    sys.(threads := sys.threads[n := thread])
  }

  function CoreOf(sys: System): Core {
    sys.q.core
  }

  // Controls of runs and of the whole queue: one locked section each. Steps of
  // any other kind are passed over, here and below.
  function RunControl(c: Core, step: Step): (r: (Core, Reply))
    requires Known(c)
    ensures Known(r.0)
  {
    match step
    case PauseStep(id) => PauseCore(c, id)
    case ResumeStep(id) => ResumeCore(c, id)
    case CancelStep(id) => CancelCore(c, id)
    case MoveStep(id, position) => MoveCore(c, id, position)
    case RunNextStep(id) => RunNextCore(c, id)
    case PauseAllStep => (PauseAllCore(c), Done)
    case ResumeAllStep => (ResumeAllCore(c), Done)
    case _ => (c, NoWork)
  }

  // The run a control names, whose revision it bumps.
  function TouchedBy(step: Step): set<RunId> {
    if step.PauseStep? || step.ResumeStep? || step.CancelStep? || step.MoveStep? || step.RunNextStep?
    then {step.id} else {}
  }

  // Controls of shards.
  function ShardControl(c: Core, step: Step): (r: (Core, Reply))
    requires Known(c)
    ensures Known(r.0)
  {
    match step
    case PauseShardStep(n) => PauseShardCore(c, n)
    case ResumeShardStep(n) => ResumeShardCore(c, n)
    case SetShardsPausedStep(paused) => (SetShardsPausedCore(c, paused), Done)
    case SetScheduleStep(n, schedule) => SetScheduleCore(c, n, schedule)
    case ForgetStep(n, now) => ForgetShardCore(c, n, now)
    case _ => (c, NoWork)
  }

  // What else changes the queue and nothing beside it.
  function Upkeep(q: State, step: Step): (r: State)
    requires Known(q.core)
    ensures Known(r.core)
  {
    match step
    case ReapStep(visit, now) => Reap(q, visit, now)
    case RegisterStep(n, instance, now) => RegisterShard(q, n, instance, now).0
    case SyncStep(n, instance, run, progressed, rows, now, wall) =>
      Sync(q, n, instance, run, progressed, rows, now, wall).0
    case _ => q
  }

  function Controlled(q: State, step: Step): (r: State)
    requires Known(q.core)
    ensures Known(r.core)
  {
    var q1 := Apply(q, RunControl(q.core, step), TouchedBy(step));
    var q2 := Apply(q1, ShardControl(q1.core, step), {});
    Upkeep(q2, step)
  }

  function BeginClaim(sys: System, n: Name, instance: Instance, now: real): System
    requires Known(sys.q.core)
  {
    var (q1, reply) := ClaimBegin(sys.q, n, instance, now);
    sys.(q := q1, waiting := if reply == NoWork then sys.waiting + {(n, instance)} else sys.waiting)
  }

  function EndClaim(sys: System, n: Name, instance: Instance, now: real, wall: nat): System
    requires Known(sys.q.core)
  {
    if (n, instance) !in sys.waiting then sys
    else
      var (q1, reply) := ClaimEnd(sys.q, n, instance, now, wall);
      var done := sys.(q := q1, waiting := sys.waiting - {(n, instance)});
      if reply.Claimed? then Started(done, q1, reply.run) else done
  }

  function FinishRemote(sys: System, n: Name, instance: Instance, id: RunId, outcome: Outcome, now: real): System
    requires Known(sys.q.core)
  {
    var (q1, reply) := ShardFinish(sys.q, n, instance, id, outcome, now);
    sys.(q := q1, toArchive := if reply == Done && outcome.CompleteOutcome? then sys.toArchive + {id} else sys.toArchive)
  }

  function LaneStart(sys: System, n: Name, wall: nat): System
    requires Known(sys.q.core)
  {
    if LaneAt(sys, n, Idle) && n in sys.q.core.shards && LocalReady(sys.q.core, n, wall) then
      var id := NextRunnable(sys.q.core, false).value;
      Started(WithThread(sys, n, Busy(id)), Start(sys.q, id, n), id)
    else sys
  }

  function LaneRow(sys: System, n: Name, row: Row): System {
    if LaneBusy(sys, n)
    then sys.(q := sys.q.(core := SyncCore(sys.q.core, sys.threads[n].run, [row])))
    else sys
  }

  function LaneStop(sys: System, n: Name): System
    requires Known(sys.q.core)
  {
    if LaneBusy(sys, n) then
      var id := sys.threads[n].run;
      WithThread(sys, n, if sys.q.core.jobs[id].stop == Some(CancelStop) then Settling(id) else Idle)
        .(q := LaneSettle(sys.q, id))
    else sys
  }

  function LaneCancel(sys: System, n: Name): System
    requires Known(sys.q.core)
  {
    if n in sys.threads && sys.threads[n].Settling? && sys.threads[n].run in sys.q.core.jobs
    then WithThread(sys, n, Idle).(q := Finish(sys.q, sys.threads[n].run, Cancelled))
    else sys
  }

  function LaneEnd(sys: System, n: Name, status: Status): System
    requires Known(sys.q.core)
  {
    if LaneBusy(sys, n) && (status.Complete? || status.Failed?) then
      var id := sys.threads[n].run;
      WithThread(sys, n, Idle)
        .(q := Finish(sys.q, id, status),
          toArchive := if status.Complete? then sys.toArchive + {id} else sys.toArchive)
    else sys
  }

  function Archive(sys: System, id: RunId): System {
    if id in sys.toArchive then sys.(toArchive := sys.toArchive - {id}, archived := sys.archived + [id]) else sys
  }

  // The process dies between two locked sections and a new one restores.
  function Crash(sys: System, now: real): System {
    sys.(q := Restart(sys.q, now),
         waiting := {},
         threads := map n | n in sys.q.core.lanes :: Idle,
         toArchive := {})
  }

  // The process dies while it appends rows to the checkpoint of the run n owns.
  predicate Tears(sys: System, step: Step) {
    step.TornStep? && Owns(sys.q.core, step.n, step.id) && step.written < |step.rows|
  }

  // The process dies in this step.
  predicate Dies(sys: System, step: Step) {
    step.CrashStep? || Tears(sys, step)
  }

  function TornCore(c: Core, id: RunId, rows: seq<Row>, written: nat, cut: Cut): Core
    requires written < |rows|
  {
    c.(rows := c.rows[id := CrashAppending(FileOf(c, id), rows, written, cut)])
  }

  function Torn(sys: System, step: Step): System
    requires Tears(sys, step)
  {
    sys.(q := sys.q.(core := TornCore(sys.q.core, step.id, step.rows, step.written, step.cut)))
  }

  // What it leaves behind.
  function Left(sys: System, step: Step): System
    requires Dies(sys, step)
  {
    if step.CrashStep? then sys else Torn(sys, step)
  }

  predicate IsLaneStep(step: Step) {
    step.LaneStartStep? || step.LaneRowStep? || step.LaneStopStep? || step.LaneCancelStep? || step.LaneEndStep?
  }

  // A step whose moment has not come leaves the system as it is.
  function LaneNext(sys: System, step: Step): System
    requires Known(sys.q.core) && IsLaneStep(step)
  {
    match step
    case LaneStartStep(n, wall) => LaneStart(sys, n, wall)
    case LaneRowStep(n, row) => LaneRow(sys, n, row)
    case LaneStopStep(n) => LaneStop(sys, n)
    case LaneCancelStep(n) => LaneCancel(sys, n)
    case LaneEndStep(n, status) => LaneEnd(sys, n, status)
  }

  predicate IsRemoteStep(step: Step) {
    step.ClaimBeginStep? || step.ClaimEndStep? || step.FinishStep?
  }

  function RemoteNext(sys: System, step: Step): System
    requires Known(sys.q.core) && IsRemoteStep(step)
  {
    match step
    case ClaimBeginStep(n, instance, now) => BeginClaim(sys, n, instance, now)
    case ClaimEndStep(n, instance, now, wall) => EndClaim(sys, n, instance, now, wall)
    case FinishStep(n, instance, id, outcome, now) => FinishRemote(sys, n, instance, id, outcome, now)
  }

  predicate IsLifeStep(step: Step) {
    step.SubmitStep? || step.ArchiveStep? || step.CrashStep? || step.TornStep?
  }

  function LifeNext(sys: System, step: Step): System
    requires Known(sys.q.core) && IsLifeStep(step)
  {
    if step.SubmitStep?
    then sys.(q := Submit(sys.q, step.id, step.request, step.at), minted := sys.minted + {step.id})
    else if step.ArchiveStep? then Archive(sys, step.id)
    else if Dies(sys, step) then Crash(Left(sys, step), step.now)
    else sys
  }

  function Next(sys: System, step: Step): System
    requires Known(sys.q.core)
  {
    if IsLaneStep(step) then LaneNext(sys, step)
    else if IsRemoteStep(step) then RemoteNext(sys, step)
    else if IsLifeStep(step) then LifeNext(sys, step)
    else sys.(q := Controlled(sys.q, step))
  }

  // What has to be true of the callers: run ids are fresh, a shard process has
  // one claim at a time, and an operator forgets only a shard with no run.
  predicate Guarded(sys: System, step: Step) {
    match step
    case SubmitStep(id, _, _) => id !in sys.minted && id != NO_ID
    case ClaimBeginStep(n, instance, _) => (n, instance) !in sys.waiting
    case ForgetStep(n, _) => n in sys.q.core.shards ==> sys.q.core.shards[n].runId == None
    case _ => true
  }

  // ---- ownership ------------------------------------------------------

  lemma OrderControlSound(c: Core, step: Step, adrift: set<RunId>)
    requires Sound(c, adrift) && (step.MoveStep? || step.RunNextStep? || step.PauseAllStep? || step.ResumeAllStep?)
    ensures Sound(RunControl(c, step).0, adrift) && Undisturbed(c, RunControl(c, step).0)
  {
    match step
    case MoveStep(id, position) => MoveSound(c, id, position, adrift);
    case RunNextStep(id) => RunNextSound(c, id, adrift);
    case PauseAllStep => PauseAllSound(c, adrift);
    case ResumeAllStep => ResumeAllSound(c, adrift);
  }

  lemma RunControlSound(c: Core, step: Step, adrift: set<RunId>)
    requires Sound(c, adrift)
    ensures Sound(RunControl(c, step).0, adrift) && Undisturbed(c, RunControl(c, step).0)
  {
    if step.MoveStep? || step.RunNextStep? || step.PauseAllStep? || step.ResumeAllStep? {
      OrderControlSound(c, step, adrift);
    } else if step.PauseStep? {
      PauseSound(c, step.id, adrift);
    } else if step.ResumeStep? {
      ResumeSound(c, step.id, adrift);
    } else if step.CancelStep? {
      CancelSound(c, step.id, adrift);
    }
  }

  lemma PausingSound(c: Core, step: Step, adrift: set<RunId>)
    requires Sound(c, adrift) && (step.PauseShardStep? || step.ResumeShardStep? || step.SetShardsPausedStep?)
    ensures Sound(ShardControl(c, step).0, adrift) && Undisturbed(c, ShardControl(c, step).0)
  {
    match step
    case PauseShardStep(n) => PauseShardSound(c, n, adrift);
    case ResumeShardStep(n) => ResumeShardSound(c, n, adrift);
    case SetShardsPausedStep(paused) => SetShardsPausedSound(c, paused, adrift);
  }

  lemma ShardControlSound(c: Core, step: Step, adrift: set<RunId>)
    requires Sound(c, adrift)
    requires step.ForgetStep? && step.n in c.shards ==> c.shards[step.n].runId == None
    ensures Sound(ShardControl(c, step).0, adrift) && Undisturbed(c, ShardControl(c, step).0)
  {
    if step.PauseShardStep? || step.ResumeShardStep? || step.SetShardsPausedStep? {
      PausingSound(c, step, adrift);
    } else if step.SetScheduleStep? {
      SetScheduleSound(c, step.n, step.schedule, adrift);
    } else if step.ForgetStep? {
      ForgetSound(c, step.n, step.now, adrift);
    }
  }

  lemma UpkeepSound(q: State, step: Step, adrift: set<RunId>)
    requires Sound(q.core, adrift)
    ensures var d := Upkeep(q, step).core;
            Sound(d, adrift) && Undisturbed(q.core, d)
  {
    match step
    case ReapStep(visit, now) => ReapSound(q, visit, now, adrift);
    case RegisterStep(n, instance, now) => RegisterSound(q, n, instance, now, adrift);
    case SyncStep(n, instance, run, progressed, rows, now, wall) =>
      SyncSound(q, n, instance, run, progressed, rows, now, wall, adrift);
    case _ =>
  }

  // A lane is busy with exactly the run its shard holds.
  ghost predicate LanesMatch(sys: System) {
    && sys.threads.Keys == Elems(CoreOf(sys).lanes)
    && (forall n | n in sys.threads && n in CoreOf(sys).shards ::
          CoreOf(sys).shards[n].runId == if sys.threads[n].Busy? then Some(sys.threads[n].run) else None)
    && (forall n, m | n in sys.threads && m in sys.threads && n != m
                      && sys.threads[n].Settling? && sys.threads[m].Settling? ::
          sys.threads[n].run != sys.threads[m].run)
  }

  // A shard process waiting for work has none.
  ghost predicate WaitingIdle(sys: System) {
    forall n, i | (n, i) in sys.waiting && n in CoreOf(sys).shards && CoreOf(sys).shards[n].instance == i
                  && !CoreOf(sys).shards[n].local ::
      CoreOf(sys).shards[n].runId == None
  }

  ghost predicate Owned(sys: System) {
    Sound(CoreOf(sys), Adrift(sys)) && LanesMatch(sys) && WaitingIdle(sys)
  }

  lemma UndisturbedOwned(sys: System, next: System)
    requires Owned(sys) && Sound(CoreOf(next), Adrift(sys)) && Undisturbed(CoreOf(sys), CoreOf(next))
    requires next.threads == sys.threads && next.waiting == sys.waiting
    ensures Owned(next)
  {
  }

  lemma SubmitOwned(sys: System, next: System, id: RunId, request: Contract.Dict, at: real)
    requires Owned(sys) && id !in CoreOf(sys).jobs
    requires next == sys.(q := Submit(sys.q, id, request, at), minted := next.minted)
    ensures Owned(next)
  {
    SubmitSound(CoreOf(sys), id, request, at, Adrift(sys));
    UndisturbedOwned(sys, next);
  }

  lemma RemoteOwned(sys: System, next: System, n: Name)
    requires Owned(sys) && Sound(CoreOf(next), Adrift(sys)) && Elsewhere(CoreOf(sys), CoreOf(next), n)
    requires next.threads == sys.threads
    requires forall m, i | (m, i) in next.waiting && m != n :: (m, i) in sys.waiting
    requires CoreOf(next).shards[n].runId == None || (n, CoreOf(next).shards[n].instance) !in next.waiting
    ensures Owned(next)
  {
  }

  lemma ClaimBeginOwned(sys: System, n: Name, instance: Instance, now: real)
    requires Owned(sys)
    ensures Owned(BeginClaim(sys, n, instance, now))
  {
    if RemoteShard(CoreOf(sys), n, instance) == None {
      ClaimBeginSound(sys.q, n, instance, now, Adrift(sys));
      RemoteOwned(sys, BeginClaim(sys, n, instance, now), n);
    }
  }

  lemma EndClaimIs(sys: System, n: Name, instance: Instance, now: real, wall: nat)
    requires Known(CoreOf(sys)) && (n, instance) in sys.waiting
    ensures var next := EndClaim(sys, n, instance, now, wall);
            next.q == ClaimEnd(sys.q, n, instance, now, wall).0
            && next.threads == sys.threads && next.waiting == sys.waiting - {(n, instance)}
  {
  }

  lemma ClaimEndOwned(sys: System, n: Name, instance: Instance, now: real, wall: nat)
    requires Owned(sys)
    ensures Owned(EndClaim(sys, n, instance, now, wall))
  {
    if (n, instance) in sys.waiting {
      EndClaimIs(sys, n, instance, now, wall);
      ClaimEndOwns(sys, EndClaim(sys, n, instance, now, wall), n, instance, now, wall);
    }
  }

  lemma ClaimEndOwns(sys: System, next: System, n: Name, instance: Instance, now: real, wall: nat)
    requires Owned(sys) && (n, instance) in sys.waiting
    requires next.q == ClaimEnd(sys.q, n, instance, now, wall).0
    requires next.threads == sys.threads && next.waiting == sys.waiting - {(n, instance)}
    ensures Owned(next)
  {
    if RemoteShard(CoreOf(sys), n, instance) == None {
      ClaimEndSound(sys.q, n, instance, now, wall, Adrift(sys));
      ClaimedOwned(sys, next, n, instance);
    }
  }

  lemma ClaimedOwned(sys: System, next: System, n: Name, instance: Instance)
    requires Owned(sys) && Sound(CoreOf(next), Adrift(sys)) && Elsewhere(CoreOf(sys), CoreOf(next), n)
    requires RemoteShard(CoreOf(sys), n, instance) == None
    requires next.threads == sys.threads && next.waiting == sys.waiting - {(n, instance)}
    ensures Owned(next)
  {
    RemoteOwned(sys, next, n);
  }

  lemma FinishOwned(sys: System, n: Name, instance: Instance, id: RunId, outcome: Outcome, now: real)
    requires Owned(sys)
    ensures Owned(FinishRemote(sys, n, instance, id, outcome, now))
  {
    if RemoteShard(CoreOf(sys), n, instance) == None {
      ShardFinishSound(sys.q, n, instance, id, outcome, now, Adrift(sys));
      RemoteOwned(sys, FinishRemote(sys, n, instance, id, outcome, now), n);
    }
  }

  lemma AdriftSame(threads: map<Name, Thread>, n: Name, thread: Thread)
    requires n in threads && !threads[n].Settling? && !thread.Settling?
    ensures AdriftIn(threads[n := thread]) == AdriftIn(threads)
  {
    var next := threads[n := thread];
    forall x | x in AdriftIn(threads) ensures x in AdriftIn(next) {
      var m :| m in threads && threads[m].Settling? && threads[m].run == x;
      assert m in next && next[m] == threads[m];
    }
  }

  lemma AdriftAdds(threads: map<Name, Thread>, n: Name, id: RunId)
    requires n in threads && !threads[n].Settling?
    ensures AdriftIn(threads[n := Settling(id)]) == AdriftIn(threads) + {id}
  {
    var next := threads[n := Settling(id)];
    assert next[n].Settling?;
    forall x | x in AdriftIn(threads) ensures x in AdriftIn(next) {
      var m :| m in threads && threads[m].Settling? && threads[m].run == x;
      assert m in next && next[m] == threads[m];
    }
  }

  lemma AdriftDrops(threads: map<Name, Thread>, n: Name, id: RunId)
    requires n in threads && threads[n] == Settling(id)
    requires forall m | m in threads && m != n && threads[m].Settling? :: threads[m].run != id
    ensures AdriftIn(threads[n := Idle]) == AdriftIn(threads) - {id}
  {
    var next := threads[n := Idle];
    forall x | x in AdriftIn(threads) - {id} ensures x in AdriftIn(next) {
      var m :| m in threads && threads[m].Settling? && threads[m].run == x;
      assert m in next && next[m] == threads[m];
    }
    forall x | x in AdriftIn(next) ensures x in AdriftIn(threads) - {id} {
      var m :| m in next && next[m].Settling? && next[m].run == x;
      assert m != n && threads[m] == next[m];
    }
  }

  // A lane's thread and its shard changed together, the rest is as it was.
  lemma LaneOwned(sys: System, next: System, n: Name, thread: Thread)
    requires Owned(sys) && n in sys.threads
    requires next.waiting == sys.waiting && next.threads == sys.threads[n := thread]
    requires Sound(CoreOf(next), Adrift(next))
    requires CoreOf(next).lanes == CoreOf(sys).lanes && CoreOf(next).shards.Keys == CoreOf(sys).shards.Keys
    requires forall m | m in CoreOf(sys).shards && m != n :: CoreOf(next).shards[m] == CoreOf(sys).shards[m]
    requires CoreOf(next).shards[n].runId == if thread.Busy? then Some(thread.run) else None
    requires thread.Settling? ==> thread.run !in Adrift(sys)
    ensures Owned(next)
  {
    forall a, b | a in next.threads && b in next.threads && a != b
                  && next.threads[a].Settling? && next.threads[b].Settling?
      ensures next.threads[a].run != next.threads[b].run {
      if a == n {
        assert next.threads[b].run in Adrift(sys);
      } else if b == n {
        assert next.threads[a].run in Adrift(sys);
      }
    }
  }

  lemma LaneStartOwned(sys: System, n: Name, wall: nat)
    requires Owned(sys)
    ensures Owned(LaneStart(sys, n, wall))
  {
    var next := LaneStart(sys, n, wall);
    if LaneAt(sys, n, Idle) && n in CoreOf(sys).shards && LocalReady(CoreOf(sys), n, wall) {
      var id := NextRunnable(CoreOf(sys), false).value;
      StartSound(CoreOf(sys), id, n, Adrift(sys));
      AdriftSame(sys.threads, n, Busy(id));
      LaneOwned(sys, next, n, Busy(id));
    }
  }

  lemma LaneRowOwned(sys: System, n: Name, row: Row)
    requires Owned(sys)
    ensures Owned(LaneRow(sys, n, row))
  {
    var next := LaneRow(sys, n, row);
    RowsSound(CoreOf(sys), CoreOf(next), Adrift(sys));
    UndisturbedOwned(sys, next);
  }

  lemma BusyHolds(sys: System, n: Name)
    requires Owned(sys) && LaneBusy(sys, n)
    ensures Holds(CoreOf(sys), n, sys.threads[n].run) && Names(CoreOf(sys), sys.threads[n].run, n)
    ensures IsRunning(CoreOf(sys), sys.threads[n].run) && sys.threads[n].run !in Adrift(sys)
    ensures forall m | m in CoreOf(sys).shards && m != n :: CoreOf(sys).shards[m].runId != Some(sys.threads[n].run)
  {
    assert Holds(CoreOf(sys), n, sys.threads[n].run);
    SoleHolder(CoreOf(sys), n, sys.threads[n].run, Adrift(sys));
  }

  lemma LaneStopOwned(sys: System, n: Name)
    requires Owned(sys)
    ensures Owned(LaneStop(sys, n))
  {
    if LaneBusy(sys, n) {
      BusyHolds(sys, n);
      var c, id, next := CoreOf(sys), sys.threads[n].run, LaneStop(sys, n);
      if c.jobs[id].stop == Some(CancelStop) {
        UnlinkSound(c, id, Adrift(sys));
        UnlinkFrees(c, id, Adrift(sys));
        AdriftAdds(sys.threads, n, id);
        LaneOwned(sys, next, n, Settling(id));
      } else {
        SettleSound(c, id, Adrift(sys));
        SettleFrees(c, id, Adrift(sys));
        AdriftSame(sys.threads, n, Idle);
        assert Adrift(sys) - {id} == Adrift(sys);
        LaneOwned(sys, next, n, Idle);
      }
    }
  }

  lemma LaneCancelOwned(sys: System, n: Name)
    requires Owned(sys)
    ensures Owned(LaneCancel(sys, n))
  {
    var next := LaneCancel(sys, n);
    if n in sys.threads && sys.threads[n].Settling? {
      var c, id := CoreOf(sys), sys.threads[n].run;
      assert id in Adrift(sys);
      FinishSound(c, id, Cancelled, Adrift(sys));
      FinishFrees(c, id, Cancelled, Adrift(sys));
      NotHeld(c, id, Adrift(sys));
      AdriftDrops(sys.threads, n, id);
      LaneOwned(sys, next, n, Idle);
    }
  }

  lemma NotHeld(c: Core, id: RunId, adrift: set<RunId>)
    requires Linked(c, adrift) && id in adrift
    ensures forall m | m in c.shards :: c.shards[m].runId != Some(id)
  {
    forall m | m in c.shards ensures c.shards[m].runId != Some(id) {
      assert Holds(c, m, id) <==> Names(c, id, m);
    }
  }

  lemma LaneEndOwned(sys: System, n: Name, status: Status)
    requires Owned(sys)
    ensures Owned(LaneEnd(sys, n, status))
  {
    if LaneBusy(sys, n) && (status.Complete? || status.Failed?) {
      BusyHolds(sys, n);
      var c, id, next := CoreOf(sys), sys.threads[n].run, LaneEnd(sys, n, status);
      FinishSound(c, id, status, Adrift(sys));
      FinishFrees(c, id, status, Adrift(sys));
      AdriftSame(sys.threads, n, Idle);
      assert Adrift(sys) - {id} == Adrift(sys);
      LaneOwned(sys, next, n, Idle);
    }
  }

  lemma CrashOwned(sys: System, now: real)
    requires Owned(sys)
    ensures Owned(Crash(sys, now))
  {
    RestartSound(sys.q, now);
    assert Adrift(Crash(sys, now)) == {};
  }

  lemma LeftOwned(sys: System, step: Step)
    requires Owned(sys) && Dies(sys, step)
    ensures Owned(Left(sys, step))
  {
    RowsSound(CoreOf(sys), CoreOf(Left(sys, step)), Adrift(sys));
    UndisturbedOwned(sys, Left(sys, step));
  }

  lemma ControlOwned(sys: System, step: Step)
    requires Owned(sys) && Guarded(sys, step)
    ensures Owned(sys.(q := Controlled(sys.q, step)))
  {
    var c := CoreOf(sys);
    var q1 := Apply(sys.q, RunControl(c, step), TouchedBy(step));
    RunControlSound(c, step, Adrift(sys));
    UndisturbedOwned(sys, sys.(q := q1));
    var q2 := Apply(q1, ShardControl(q1.core, step), {});
    assert step.ForgetStep? ==> q1.core == c;
    ShardControlSound(q1.core, step, Adrift(sys));
    UndisturbedOwned(sys.(q := q1), sys.(q := q2));
    UpkeepSound(q2, step, Adrift(sys));
    UndisturbedOwned(sys.(q := q2), sys.(q := Upkeep(q2, step)));
  }

  lemma LaneNextOwned(sys: System, step: Step)
    requires Owned(sys) && IsLaneStep(step)
    ensures Owned(LaneNext(sys, step))
  {
    match step
    case LaneStartStep(n, wall) => LaneStartOwned(sys, n, wall);
    case LaneRowStep(n, row) => LaneRowOwned(sys, n, row);
    case LaneStopStep(n) => LaneStopOwned(sys, n);
    case LaneCancelStep(n) => LaneCancelOwned(sys, n);
    case LaneEndStep(n, status) => LaneEndOwned(sys, n, status);
  }

  lemma RemoteNextOwned(sys: System, step: Step)
    requires Owned(sys) && IsRemoteStep(step)
    ensures Owned(RemoteNext(sys, step))
  {
    match step
    case ClaimBeginStep(n, instance, now) => ClaimBeginOwned(sys, n, instance, now);
    case ClaimEndStep(n, instance, now, wall) => ClaimEndOwned(sys, n, instance, now, wall);
    case FinishStep(n, instance, id, outcome, now) => FinishOwned(sys, n, instance, id, outcome, now);
  }

  lemma LifeNextOwned(sys: System, step: Step)
    requires Owned(sys) && Guarded(sys, step) && IsLifeStep(step)
    requires forall id | id in CoreOf(sys).jobs :: id in sys.minted
    ensures Owned(LifeNext(sys, step))
  {
    if step.SubmitStep? {
      SubmitOwned(sys, LifeNext(sys, step), step.id, step.request, step.at);
    } else if Dies(sys, step) {
      LeftOwned(sys, step);
      CrashOwned(Left(sys, step), step.now);
    }
  }

  lemma StepOwned(sys: System, step: Step)
    requires Owned(sys) && Guarded(sys, step)
    requires forall id | id in CoreOf(sys).jobs :: id in sys.minted
    ensures Owned(Next(sys, step))
  {
    if IsLaneStep(step) {
      LaneNextOwned(sys, step);
    } else if IsRemoteStep(step) {
      RemoteNextOwned(sys, step);
    } else if IsLifeStep(step) {
      LifeNextOwned(sys, step);
    } else {
      ControlOwned(sys, step);
    }
  }
}
