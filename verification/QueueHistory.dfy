/**
 What no step of the queue takes back: a finished run stays finished, a cancel
 stays asked, and the checkpoint of an unfinished run only grows.
 */
module QueueHistory {
  import opened Seqs
  import opened Checkpoint
  import opened Queue
  import opened QueueInvariants
  import opened QueueRuns

  // A cancel was asked of a running job, and no pause of the queue is mixed up
  // in it; or a local lane is carrying it out.
  predicate CancelHeld(job: Job) {
    job.status.Running? && (job.shard.None? || (job.stop == Some(CancelStop) && !job.pausedByQueue))
  }

  ghost predicate Onward(job: Job, next: Job) {
    (Terminal(job.status) ==> next == job)
    && (CancelHeld(job) ==> CancelHeld(next) || Terminal(next.status))
  }

  // Only unfinished runs have a checkpoint.
  ghost predicate RowsLive(c: Core) {
    forall id | id in c.rows :: id in c.order
  }

  ghost predicate Advance(c: Core, d: Core) {
    && d.jobs.Keys == c.jobs.Keys
    && (forall id | id in c.jobs :: Onward(c.jobs[id], d.jobs[id]))
    && (forall id | id in d.order :: Extends(FileOf(c, id), FileOf(d, id)))
  }

  lemma AdvanceTrans(c: Core, e: Core, d: Core)
    requires Advance(c, e) && Advance(e, d) && Orderly(c) && Orderly(e) && Orderly(d) && RowsLive(c)
    ensures Advance(c, d)
  {
    forall id | id in d.order ensures Extends(FileOf(c, id), FileOf(d, id)) {
      if id in c.rows {
        assert id in c.order && id in e.jobs;
        assert id in e.order;
      }
      if id in e.order {
        ExtendsTrans(FileOf(c, id), FileOf(e, id), FileOf(d, id));
      }
    }
  }

  // The jobs are as they were but for one, and so are the checkpoints.
  lemma OneJobAdvance(c: Core, d: Core, id: RunId)
    requires id in c.jobs && d.jobs.Keys == c.jobs.Keys && Onward(c.jobs[id], d.jobs[id])
    requires forall x | x in c.jobs && x != id :: d.jobs[x] == c.jobs[x]
    requires d.rows == c.rows || (d.rows == c.rows - {id} && id !in d.order)
    ensures Advance(c, d)
  {
  }

  lemma SettleAdvance(c: Core, id: RunId, adrift: set<RunId>)
    requires Sound(c, adrift) && RowsLive(c) && IsRunning(c, id) && c.jobs[id].shard.Some?
    ensures Advance(c, SettleCore(c, id)) && RowsLive(SettleCore(c, id))
  {
    SettleFrees(c, id, adrift);
    var d := SettleCore(c, id);
    SettledAdvance(c, d, id);
  }

  lemma SettledAdvance(c: Core, d: Core, id: RunId)
    requires Orderly(c) && RowsLive(c) && IsRunning(c, id) && c.jobs[id].shard.Some?
    requires Freed(c, d, id) && d.jobs[id].status == Settled(c.jobs[id].stop)
    requires d.order == if c.jobs[id].stop == Some(CancelStop) then Remove(c.order, id) else c.order
    requires d.rows == if c.jobs[id].stop == Some(CancelStop) then c.rows - {id} else c.rows
    ensures Advance(c, d) && RowsLive(d)
  {
    RemoveFacts(c.order, id);
    OneJobAdvance(c, d, id);
  }

  lemma FinishAdvance(c: Core, id: RunId, status: Status, adrift: set<RunId>)
    requires Sound(c, adrift) && RowsLive(c) && IsRunning(c, id) && Terminal(status)
    ensures Advance(c, FinishCore(c, id, status)) && RowsLive(FinishCore(c, id, status))
  {
    FinishFrees(c, id, status, adrift);
    RemoveFacts(c.order, id);
    OneJobAdvance(c, FinishCore(c, id, status), id);
  }

  lemma UnlinkAdvance(c: Core, id: RunId, adrift: set<RunId>)
    requires Sound(c, adrift) && RowsLive(c) && IsRunning(c, id)
    ensures Advance(c, Unlink(c, id)) && RowsLive(Unlink(c, id))
  {
    UnlinkFrees(c, id, adrift);
    OneJobAdvance(c, Unlink(c, id), id);
  }

  lemma GiveBackAdvance(c: Core, n: Name, adrift: set<RunId>)
    requires Sound(c, adrift) && RowsLive(c) && n in c.shards
    ensures Advance(c, GiveBackCore(c, n)) && RowsLive(GiveBackCore(c, n))
  {
    if c.shards[n].runId.Some? {
      assert Holds(c, n, c.shards[n].runId.value);
      SettleAdvance(c, c.shards[n].runId.value, adrift);
    }
  }

  lemma StartAdvance(c: Core, id: RunId, n: Name)
    requires Orderly(c) && RowsLive(c) && id in c.jobs && c.jobs[id].status.Queued? && n in c.shards
    ensures Advance(c, StartCore(c, id, n)) && RowsLive(StartCore(c, id, n))
  {
    RemoveFacts(c.order, id);
    OneJobAdvance(c, StartCore(c, id, n), id);
  }

  lemma RelabelAdvance(c: Core, d: Core, id: RunId)
    requires id in c.jobs && id in d.jobs && d == WithJob(c, id, d.jobs[id]) && Onward(c.jobs[id], d.jobs[id])
    requires RowsLive(c)
    ensures Advance(c, d) && RowsLive(d)
  {
    OneJobAdvance(c, d, id);
  }

  lemma PauseAdvance(c: Core, id: RunId)
    requires RowsLive(c)
    ensures Advance(c, PauseCore(c, id).0) && RowsLive(PauseCore(c, id).0)
  {
    if PauseCore(c, id).1 == Done {
      RelabelAdvance(c, PauseCore(c, id).0, id);
    }
  }

  lemma ResumeAdvance(c: Core, id: RunId)
    requires RowsLive(c)
    ensures Advance(c, ResumeCore(c, id).0) && RowsLive(ResumeCore(c, id).0)
  {
    if ResumeCore(c, id).0 != c {
      RelabelAdvance(c, ResumeCore(c, id).0, id);
    }
  }

  lemma CancelAdvance(c: Core, id: RunId)
    requires Orderly(c) && RowsLive(c)
    ensures Advance(c, CancelCore(c, id).0) && RowsLive(CancelCore(c, id).0)
  {
    if CancelCore(c, id).1 == Done {
      RemoveFacts(c.order, id);
      OneJobAdvance(c, CancelCore(c, id).0, id);
    }
  }

  lemma MoveAdvance(c: Core, id: RunId, position: int)
    requires Orderly(c) && RowsLive(c)
    ensures Advance(c, MoveCore(c, id, position).0) && RowsLive(MoveCore(c, id, position).0)
  {
    if MoveCore(c, id, position).1 == Done {
      MovedSame(c, id, position);
    }
  }

  lemma RunNextAdvance(c: Core, id: RunId, adrift: set<RunId>)
    requires Sound(c, adrift) && RowsLive(c)
    ensures Advance(c, RunNextCore(c, id).0) && RowsLive(RunNextCore(c, id).0)
  {
    if id in c.jobs && c.jobs[id].status.Paused? {
      var job := c.jobs[id].(status := Queued, pausedByQueue := false);
      var c1 := WithJob(c, id, job);
      RelabelSound(c, id, job, adrift);
      RelabelAdvance(c, c1, id);
      MoveAdvance(c1, id, 0);
      MoveSound(c1, id, 0, adrift);
      AdvanceTrans(c, c1, MoveCore(c1, id, 0).0);
    } else {
      MoveAdvance(c, id, 0);
    }
  }

  lemma PauseAllAdvance(c: Core)
    requires Orderly(c) && RowsLive(c)
    ensures Advance(c, PauseAllCore(c)) && RowsLive(PauseAllCore(c))
    ensures Advance(c, ResumeAllCore(c)) && RowsLive(ResumeAllCore(c))
  {
  }

  lemma OrderControlAdvance(c: Core, step: Step, adrift: set<RunId>)
    requires Sound(c, adrift) && RowsLive(c)
    requires step.MoveStep? || step.RunNextStep? || step.PauseAllStep? || step.ResumeAllStep?
    ensures Advance(c, RunControl(c, step).0) && RowsLive(RunControl(c, step).0)
  {
    match step
    case MoveStep(id, position) => MoveAdvance(c, id, position);
    case RunNextStep(id) => RunNextAdvance(c, id, adrift);
    case PauseAllStep => PauseAllAdvance(c);
    case ResumeAllStep => PauseAllAdvance(c);
  }

  lemma RunControlAdvance(c: Core, step: Step, adrift: set<RunId>)
    requires Sound(c, adrift) && RowsLive(c)
    ensures Advance(c, RunControl(c, step).0) && RowsLive(RunControl(c, step).0)
  {
    if step.MoveStep? || step.RunNextStep? || step.PauseAllStep? || step.ResumeAllStep? {
      OrderControlAdvance(c, step, adrift);
    } else if step.PauseStep? {
      PauseAdvance(c, step.id);
    } else if step.ResumeStep? {
      ResumeAdvance(c, step.id);
    } else if step.CancelStep? {
      CancelAdvance(c, step.id);
    }
  }

  lemma ShardControlSame(c: Core, step: Step)
    requires Known(c)
    ensures var d := ShardControl(c, step).0;
            d.jobs == c.jobs && d.rows == c.rows && d.order == c.order
  {
  }

  // ---- shards and lanes -----------------------------------------------

  lemma RowsAdvance(c: Core, n: Name, id: RunId, rows: seq<Row>)
    requires RowsLive(c) && id in c.order
    ensures Advance(c, SyncCore(c, id, rows)) && RowsLive(SyncCore(c, id, rows))
  {
  }

  lemma SyncAdvance(s: State, n: Name, instance: Instance, run: Option<RunId>, progressed: bool, rows: seq<Row>, now: real, wall: nat)
    requires Orderly(s.core) && RowsLive(s.core)
    ensures var d := Sync(s, n, instance, run, progressed, rows, now, wall).0.core;
            Advance(s.core, d) && RowsLive(d)
  {
    if RemoteShard(s.core, n, instance) == None {
      var c1 := Touched(s.core, n, now);
      if run.Some? && Owns(c1, n, run.value) {
        RowsAdvance(c1, n, run.value, rows);
      }
    }
  }

  lemma ReapOneAdvance(s: State, n: Name, now: real, adrift: set<RunId>)
    requires Sound(s.core, adrift) && RowsLive(s.core)
    ensures var d := ReapOne(s, n, now).core;
            Advance(s.core, d) && RowsLive(d)
  {
    if Silent(s.core, n, now) {
      var c := MarkOffline(s.core, n);
      AlikeSound(s.core, c, adrift);
      GiveBackAdvance(c, n, adrift);
    }
  }

  lemma {:induction false} ReapEachAdvance(s: State, visit: seq<Name>, now: real, adrift: set<RunId>)
    requires Sound(s.core, adrift) && RowsLive(s.core)
    ensures var d := ReapEach(s, visit, now).core;
            Advance(s.core, d) && RowsLive(d)
    decreases |visit|
  {
    if visit != [] {
      var last := |visit| - 1;
      var e := ReapEach(s, visit[..last], now);
      ReapEachAdvance(s, visit[..last], now, adrift);
      ReapEachSound(s, visit[..last], now, adrift);
      ReapOneAdvance(e, visit[last], now, adrift);
      ReapOneSound(e, visit[last], now, adrift);
      AdvanceTrans(s.core, e.core, ReapOne(e, visit[last], now).core);
    }
  }

  lemma ReapAdvance(s: State, visit: seq<Name>, now: real, adrift: set<RunId>)
    requires Sound(s.core, adrift) && RowsLive(s.core)
    ensures Advance(s.core, Reap(s, visit, now).core) && RowsLive(Reap(s, visit, now).core)
  {
    ReapEachAdvance(s, visit, now, adrift);
  }

  lemma RegisterAdvance(s: State, n: Name, instance: Instance, now: real, adrift: set<RunId>)
    requires Sound(s.core, adrift) && RowsLive(s.core)
    ensures var d := RegisterShard(s, n, instance, now).0.core;
            Advance(s.core, d) && RowsLive(d)
  {
    RegisterOnlyGivesBack(s, n, instance, now);
    if n in s.core.shards {
      GiveBackAdvance(s.core, n, adrift);
    }
  }

  lemma RegisterOnlyGivesBack(s: State, n: Name, instance: Instance, now: real)
    requires Known(s.core)
    ensures var d := RegisterShard(s, n, instance, now).0.core;
            var e := if n in s.core.shards && n !in s.core.lanes && s.core.shards[n].instance != instance
                     then GiveBackCore(s.core, n) else s.core;
            d.jobs == e.jobs && d.order == e.order && d.rows == e.rows
  {
  }

  lemma ClaimBeginAdvance(s: State, n: Name, instance: Instance, now: real, adrift: set<RunId>)
    requires Sound(s.core, adrift) && RowsLive(s.core)
    ensures var d := ClaimBegin(s, n, instance, now).0.core;
            Advance(s.core, d) && RowsLive(d)
  {
    if RemoteShard(s.core, n, instance) == None {
      TouchSound(s.core, n, now, adrift);
      GiveBackAdvance(Touched(s.core, n, now), n, adrift);
    }
  }

  lemma ClaimEndAdvance(s: State, n: Name, instance: Instance, now: real, wall: nat)
    requires Orderly(s.core) && RowsLive(s.core)
    ensures var d := ClaimEnd(s, n, instance, now, wall).0.core;
            Advance(s.core, d) && RowsLive(d)
  {
    if RemoteShard(s.core, n, instance) == None {
      var c1 := Touched(s.core, n, now);
      var run := NextRunnable(c1, true);
      if run.Some? {
        StartAdvance(c1, run.value, n);
      }
    }
  }

  lemma ShardFinishAdvance(s: State, n: Name, instance: Instance, id: RunId, outcome: Outcome, now: real, adrift: set<RunId>)
    requires Sound(s.core, adrift) && RowsLive(s.core)
    ensures var d := ShardFinish(s, n, instance, id, outcome, now).0.core;
            Advance(s.core, d) && RowsLive(d)
  {
    if RemoteShard(s.core, n, instance) == None {
      TouchSound(s.core, n, now, adrift);
      var c1 := Touched(s.core, n, now);
      if Owns(c1, n, id) {
        OwnedFinishAdvance(s.(core := c1), id, outcome, adrift);
        AdvanceFrom(s.core, c1, ShardFinish(s, n, instance, id, outcome, now).0.core);
      }
    }
  }

  lemma AdvanceFrom(c: Core, c1: Core, d: Core)
    requires c1.jobs == c.jobs && c1.rows == c.rows && Advance(c1, d)
    ensures Advance(c, d)
  {
  }

  lemma OwnedFinishAdvance(s: State, id: RunId, outcome: Outcome, adrift: set<RunId>)
    requires Sound(s.core, adrift) && RowsLive(s.core) && IsRunning(s.core, id)
    requires s.core.jobs[id].shard.Some?
    ensures var d :=
              match outcome
              case StoppedOutcome => Settle(s, id).core
              case ReleasedOutcome => Release(s, id).core
              case FailedOutcome => Finish(s, id, Failed).core
              case CompleteOutcome => Finish(s, id, Complete).core;
            Advance(s.core, d) && RowsLive(d)
  {
    if outcome.StoppedOutcome? || outcome.ReleasedOutcome? {
      SettleAdvance(s.core, id, adrift);
    } else {
      FinishAdvance(s.core, id, if outcome.FailedOutcome? then Failed else Complete, adrift);
    }
  }

  lemma UpkeepAdvance(s: State, step: Step, adrift: set<RunId>)
    requires Sound(s.core, adrift) && RowsLive(s.core)
    ensures Advance(s.core, Upkeep(s, step).core) && RowsLive(Upkeep(s, step).core)
  {
    if step.ReapStep? {
      ReapAdvance(s, step.visit, step.now, adrift);
    } else if step.RegisterStep? {
      RegisterAdvance(s, step.n, step.instance, step.now, adrift);
    } else if step.SyncStep? {
      SyncAdvance(s, step.n, step.instance, step.run, step.progressed, step.rows, step.now, step.wall);
    }
  }

  lemma ControlledAdvance(s: State, step: Step, adrift: set<RunId>)
    requires Sound(s.core, adrift) && RowsLive(s.core)
    requires step.ForgetStep? && step.n in s.core.shards ==> s.core.shards[step.n].runId == None
    ensures Advance(s.core, Controlled(s, step).core) && RowsLive(Controlled(s, step).core)
  {
    var s1 := Apply(s, RunControl(s.core, step), TouchedBy(step));
    RunControlAdvance(s.core, step, adrift);
    RunControlSound(s.core, step, adrift);
    var s2 := Apply(s1, ShardControl(s1.core, step), {});
    assert step.ForgetStep? ==> s1.core == s.core;
    ShardControlSame(s1.core, step);
    ShardControlSound(s1.core, step, adrift);
    assert Advance(s.core, s2.core);
    UpkeepAdvance(s2, step, adrift);
    UpkeepSound(s2, step, adrift);
    AdvanceTrans(s.core, s2.core, Upkeep(s2, step).core);
  }

  lemma LaneNextAdvance(sys: System, step: Step)
    requires Owned(sys) && RowsLive(CoreOf(sys)) && IsLaneStep(step)
    ensures Advance(CoreOf(sys), CoreOf(LaneNext(sys, step))) && RowsLive(CoreOf(LaneNext(sys, step)))
  {
    var c := CoreOf(sys);
    if step.LaneStartStep? {
      if LaneAt(sys, step.n, Idle) && step.n in c.shards && LocalReady(c, step.n, step.wall) {
        StartAdvance(c, NextRunnable(c, false).value, step.n);
      }
    } else if LaneBusy(sys, step.n) {
      BusyHolds(sys, step.n);
      var id := sys.threads[step.n].run;
      BusyAdvance(sys, step, id);
    } else if step.LaneCancelStep? && step.n in sys.threads && sys.threads[step.n].Settling? {
      assert sys.threads[step.n].run in Adrift(sys);
      FinishAdvance(c, sys.threads[step.n].run, Cancelled, Adrift(sys));
    }
  }

  lemma StopAdvance(sys: System, n: Name)
    requires Owned(sys) && RowsLive(CoreOf(sys)) && LaneBusy(sys, n) && IsRunning(CoreOf(sys), sys.threads[n].run)
    requires CoreOf(sys).jobs[sys.threads[n].run].shard.Some?
    ensures Advance(CoreOf(sys), CoreOf(LaneStop(sys, n))) && RowsLive(CoreOf(LaneStop(sys, n)))
  {
    UnlinkAdvance(CoreOf(sys), sys.threads[n].run, Adrift(sys));
    SettleAdvance(CoreOf(sys), sys.threads[n].run, Adrift(sys));
  }

  lemma BusyAdvance(sys: System, step: Step, id: RunId)
    requires Owned(sys) && RowsLive(CoreOf(sys)) && IsLaneStep(step) && !step.LaneStartStep?
    requires LaneBusy(sys, step.n) && sys.threads[step.n].run == id && IsRunning(CoreOf(sys), id)
    requires CoreOf(sys).jobs[id].shard.Some?
    ensures Advance(CoreOf(sys), CoreOf(LaneNext(sys, step))) && RowsLive(CoreOf(LaneNext(sys, step)))
  {
    if step.LaneRowStep? {
      RowsAdvance(CoreOf(sys), step.n, id, [step.row]);
    } else if step.LaneStopStep? {
      StopAdvance(sys, step.n);
    } else if step.LaneEndStep? && Terminal(step.status) {
      FinishAdvance(CoreOf(sys), id, step.status, Adrift(sys));
    }
  }

  lemma RemoteNextAdvance(sys: System, step: Step)
    requires Owned(sys) && RowsLive(CoreOf(sys)) && IsRemoteStep(step)
    ensures Advance(CoreOf(sys), CoreOf(RemoteNext(sys, step))) && RowsLive(CoreOf(RemoteNext(sys, step)))
  {
    match step
    case ClaimBeginStep(n, instance, now) => ClaimBeginAdvance(sys.q, n, instance, now, Adrift(sys));
    case ClaimEndStep(n, instance, now, wall) => ClaimEndAdvance(sys.q, n, instance, now, wall);
    case FinishStep(n, instance, id, outcome, now) =>
      ShardFinishAdvance(sys.q, n, instance, id, outcome, now, Adrift(sys));
  }
}
