/**
 Requests to stop, through whole runs of the queue: once a run is asked to stop, or its
 shard is paused, whoever has it hears so at every report until that is taken back.
 */
module QueueStops {
  import opened Seqs
  import opened Checkpoint
  import opened Queue
  import opened QueueInvariants
  import opened QueueRuns
  import opened QueueTheorems
  import opened QueueAnswers
  import opened QueuePauses

  // Whoever still has a run has it as it was.
  ghost predicate KeepsRuns(c: Core, d: Core) {
    forall n, id | HasRun(c, n, id) && HasRun(d, n, id) :: d.jobs[id] == c.jobs[id]
  }

  // And nobody has one he had not.
  ghost predicate GivesBack(c: Core, d: Core) {
    forall n, id | HasRun(d, n, id) :: HasRun(c, n, id) && d.jobs[id] == c.jobs[id]
  }

  lemma FreedGivesBack(c: Core, d: Core, id: RunId)
    requires Freed(c, d, id)
    ensures GivesBack(c, d)
  {
    forall n, x | HasRun(d, n, x) ensures HasRun(c, n, x) && d.jobs[x] == c.jobs[x] {
      assert x != id;
    }
  }

  lemma GiveBackGivesBack(c: Core, n: Name, adrift: set<RunId>)
    requires Sound(c, adrift) && n in c.shards
    ensures GivesBack(c, GiveBackCore(c, n))
  {
    if c.shards[n].runId.Some? && IsRunning(c, c.shards[n].runId.value) {
      SettleFrees(c, c.shards[n].runId.value, adrift);
      FreedGivesBack(c, SettleCore(c, c.shards[n].runId.value), c.shards[n].runId.value);
    }
  }

  lemma TouchGivesBack(c: Core, n: Name, now: real)
    requires n in c.shards
    ensures GivesBack(c, Touched(c, n, now)) && GivesBack(c, MarkOffline(c, n))
  {
  }

  lemma GivesBackTwice(c: Core, e: Core, d: Core)
    requires GivesBack(c, e) && GivesBack(e, d)
    ensures GivesBack(c, d)
  {
    forall n, id | HasRun(d, n, id) ensures HasRun(c, n, id) && d.jobs[id] == c.jobs[id] {
      assert HasRun(e, n, id);
    }
  }

  lemma {:induction false} ReapEachGivesBack(s: State, visit: seq<Name>, now: real, adrift: set<RunId>)
    requires Sound(s.core, adrift)
    ensures GivesBack(s.core, ReapEach(s, visit, now).core)
    decreases |visit|
  {
    if visit != [] {
      var last := |visit| - 1;
      var e := ReapEach(s, visit[..last], now);
      ReapEachGivesBack(s, visit[..last], now, adrift);
      ReapEachSound(s, visit[..last], now, adrift);
      if Silent(e.core, visit[last], now) {
        var c := MarkOffline(e.core, visit[last]);
        TouchGivesBack(e.core, visit[last], now);
        AlikeSound(e.core, c, adrift);
        GiveBackGivesBack(c, visit[last], adrift);
        GivesBackTwice(s.core, e.core, c);
        GivesBackTwice(s.core, c, GiveBackCore(c, visit[last]));
      }
    }
  }

  lemma StartKeepsRuns(c: Core, id: RunId, n: Name)
    requires Known(c) && id in c.jobs && c.jobs[id].status.Queued? && n in c.shards
    ensures KeepsRuns(c, StartCore(c, id, n))
  {
  }

  // ---- remote steps and lanes ---------------------------------------------

  lemma ClaimBeginKeepsRuns(s: State, n: Name, instance: Instance, now: real, adrift: set<RunId>)
    requires Sound(s.core, adrift)
    ensures KeepsRuns(s.core, ClaimBegin(s, n, instance, now).0.core)
  {
    if RemoteShard(s.core, n, instance) == None {
      var c1 := Touched(s.core, n, now);
      TouchGivesBack(s.core, n, now);
      TouchSound(s.core, n, now, adrift);
      GiveBackGivesBack(c1, n, adrift);
      GivesBackTwice(s.core, c1, GiveBackCore(c1, n));
    }
  }

  lemma ClaimEndKeepsRuns(s: State, n: Name, instance: Instance, now: real, wall: nat)
    requires Known(s.core)
    ensures KeepsRuns(s.core, ClaimEnd(s, n, instance, now, wall).0.core)
  {
    if RemoteShard(s.core, n, instance) == None {
      var c1 := Touched(s.core, n, now);
      var run := NextRunnable(c1, true);
      if run.Some? {
        StartKeepsRuns(c1, run.value, n);
      }
    }
  }

  lemma FinishKeepsRuns(s: State, n: Name, instance: Instance, id: RunId, outcome: Outcome, now: real, adrift: set<RunId>)
    requires Sound(s.core, adrift)
    ensures KeepsRuns(s.core, ShardFinish(s, n, instance, id, outcome, now).0.core)
  {
    var next, reply := FinishIs(s, n, instance, id, outcome, now);
    if reply == Done {
      var s1 := s.(core := Touched(s.core, n, now));
      TouchGivesBack(s.core, n, now);
      TouchSound(s.core, n, now, adrift);
      SettleFrees(s1.core, id, adrift);
      FinishFrees(s1.core, id, Failed, adrift);
      FinishFrees(s1.core, id, Complete, adrift);
      FreedGivesBack(s1.core, next.core, id);
      GivesBackTwice(s.core, s1.core, next.core);
    }
  }

  lemma RemoteKeepsRuns(sys: System, step: Step)
    requires Owned(sys) && IsRemoteStep(step)
    ensures KeepsRuns(CoreOf(sys), CoreOf(RemoteNext(sys, step)))
  {
    match step
    case ClaimBeginStep(n, instance, now) => ClaimBeginKeepsRuns(sys.q, n, instance, now, Adrift(sys));
    case ClaimEndStep(n, instance, now, wall) => ClaimEndKeepsRuns(sys.q, n, instance, now, wall);
    case FinishStep(n, instance, id, outcome, now) => FinishKeepsRuns(sys.q, n, instance, id, outcome, now, Adrift(sys));
  }

  lemma LaneStartKeepsRuns(sys: System, n: Name, wall: nat)
    requires Owned(sys)
    ensures KeepsRuns(CoreOf(sys), CoreOf(LaneStart(sys, n, wall)))
  {
    if LaneAt(sys, n, Idle) && n in CoreOf(sys).shards && LocalReady(CoreOf(sys), n, wall) {
      StartKeepsRuns(CoreOf(sys), NextRunnable(CoreOf(sys), false).value, n);
    }
  }

  lemma LaneStopKeepsRuns(sys: System, n: Name)
    requires Owned(sys)
    ensures KeepsRuns(CoreOf(sys), CoreOf(LaneStop(sys, n)))
  {
    if LaneBusy(sys, n) {
      var c, id := CoreOf(sys), sys.threads[n].run;
      UnlinkFrees(c, id, Adrift(sys));
      SettleFrees(c, id, Adrift(sys));
      FreedGivesBack(c, CoreOf(LaneStop(sys, n)), id);
    }
  }

  lemma LaneFinishKeepsRuns(c: Core, id: RunId, status: Status, adrift: set<RunId>)
    requires Sound(c, adrift) && id in c.jobs
    ensures KeepsRuns(c, FinishCore(c, id, status))
  {
    FinishFrees(c, id, status, adrift);
    FreedGivesBack(c, FinishCore(c, id, status), id);
  }

  lemma LaneKeepsRuns(sys: System, step: Step)
    requires Owned(sys) && IsLaneStep(step)
    ensures KeepsRuns(CoreOf(sys), CoreOf(LaneNext(sys, step)))
  {
    if step.LaneStartStep? {
      LaneStartKeepsRuns(sys, step.n, step.wall);
    } else if step.LaneStopStep? {
      LaneStopKeepsRuns(sys, step.n);
    } else if step.n in sys.threads && !sys.threads[step.n].Idle? && sys.threads[step.n].run in CoreOf(sys).jobs {
      LaneFinishKeepsRuns(CoreOf(sys), sys.threads[step.n].run, if step.LaneEndStep? then step.status else Cancelled, Adrift(sys));
    }
  }

  // ---- controls -----------------------------------------------------------

  lemma RegisterKeepsRuns(s: State, n: Name, instance: Instance, now: real, adrift: set<RunId>)
    requires Sound(s.core, adrift)
    ensures KeepsRuns(s.core, RegisterShard(s, n, instance, now).0.core)
  {
    if n !in s.core.lanes && n in s.core.shards && s.core.shards[n].instance != instance {
      GiveBackGivesBack(s.core, n, adrift);
    }
  }

  lemma ShardControlKeepsRuns(c: Core, step: Step)
    requires Known(c) && IsShardControl(step)
    ensures ShardControl(c, step).0.jobs == c.jobs
  {
  }

  lemma UpkeepKeepsRuns(q: State, step: Step, adrift: set<RunId>)
    requires Sound(q.core, adrift) && (step.ReapStep? || step.RegisterStep? || step.SyncStep?)
    ensures KeepsRuns(q.core, Upkeep(q, step).core)
  {
    if step.ReapStep? {
      ReapEachGivesBack(q, step.visit, step.now, adrift);
    } else if step.RegisterStep? {
      RegisterKeepsRuns(q, step.n, step.instance, step.now, adrift);
    } else {
      SyncKeepsRuns(q, step.n, step.instance, step.run, step.progressed, step.rows, step.now, step.wall);
    }
  }

  lemma SyncKeepsRuns(s: State, n: Name, instance: Instance, run: Option<RunId>, progressed: bool, rows: seq<Row>, now: real, wall: nat)
    ensures Sync(s, n, instance, run, progressed, rows, now, wall).0.core.jobs == s.core.jobs
  {
  }

  // What is asked of a run that runs is asked until it is taken back: a pause by
  // resuming the run, and anything at all by resuming a queue that had paused it.
  predicate TakesBack(job: Job, step: Step, id: RunId) {
    (step.ResumeStep? && step.id == id && job.stop == Some(PauseStop)) || (step.ResumeAllStep? && job.pausedByQueue)
  }

  predicate Asks(job: Job, step: Step, id: RunId) {
    || ((step.PauseStep? || step.CancelStep?) && step.id == id)
    || (step.PauseAllStep? && job.stop == None)
  }

  // A run that is still run has been asked to stop if and only if the step asks it, or
  // it had been and the step does not take it back.
  ghost predicate StopFollows(c: Core, step: Step, d: Core, n: Name, id: RunId)
    requires id in c.jobs && id in d.jobs
  {
    d.jobs[id].stop.Some? <==> Asks(c.jobs[id], step, id) || (c.jobs[id].stop.Some? && !TakesBack(c.jobs[id], step, id))
  }

  lemma OneRunAsks(c: Core, step: Step, n: Name, id: RunId)
    requires (step.PauseStep? || step.ResumeStep? || step.CancelStep?) && HasRun(c, n, id)
    ensures Known(c) ==> id in RunControl(c, step).0.jobs && StopFollows(c, step, RunControl(c, step).0, n, id)
  {
    if step.PauseStep? {
      PauseAsks(c, step.id, n, id);
    } else if step.ResumeStep? {
      ResumeAsks(c, step.id, n, id);
    } else {
      CancelAsks(c, step.id, n, id);
    }
  }

  lemma PauseAsks(c: Core, x: RunId, n: Name, id: RunId)
    requires HasRun(c, n, id)
    ensures id in PauseCore(c, x).0.jobs && StopFollows(c, PauseStep(x), PauseCore(c, x).0, n, id)
  {
  }

  lemma ResumeAsks(c: Core, x: RunId, n: Name, id: RunId)
    requires HasRun(c, n, id)
    ensures id in ResumeCore(c, x).0.jobs && StopFollows(c, ResumeStep(x), ResumeCore(c, x).0, n, id)
  {
  }

  lemma CancelAsks(c: Core, x: RunId, n: Name, id: RunId)
    requires HasRun(c, n, id)
    ensures id in CancelCore(c, x).0.jobs && StopFollows(c, CancelStep(x), CancelCore(c, x).0, n, id)
  {
  }

  lemma OrderAsks(c: Core, step: Step, n: Name, id: RunId)
    requires Orderly(c) && (step.MoveStep? || step.RunNextStep? || step.PauseAllStep? || step.ResumeAllStep?) && HasRun(c, n, id)
    ensures id in RunControl(c, step).0.jobs && StopFollows(c, step, RunControl(c, step).0, n, id)
  {
    assert id in c.order;
  }

  lemma ControlAsks(q: State, step: Step, d: Core, n: Name, id: RunId, adrift: set<RunId>)
    requires Sound(q.core, adrift) && IsControl(step) && d == Controlled(q, step).core && HasRun(q.core, n, id) && HasRun(d, n, id)
    ensures StopFollows(q.core, step, d, n, id)
  {
    var same := ControlIs(q, step);
    if IsRunControl(step) {
      if step.PauseStep? || step.ResumeStep? || step.CancelStep? {
        OneRunAsks(q.core, step, n, id);
      } else {
        OrderAsks(q.core, step, n, id);
      }
    } else if IsShardControl(step) {
      ShardControlKeepsRuns(q.core, step);
    } else {
      UpkeepKeepsRuns(q, step, adrift);
    }
  }

  lemma LifeKeepsRuns(sys: System, step: Step)
    requires Known(CoreOf(sys)) && Guarded(sys, step) && IsLifeStep(step) && !Dies(sys, step)
    requires forall id | id in CoreOf(sys).jobs :: id in sys.minted
    ensures KeepsRuns(CoreOf(sys), CoreOf(LifeNext(sys, step)))
  {
  }

  lemma DeathTakesAll(sys: System, step: Step, n: Name, id: RunId)
    requires Invariant(sys) && Dies(sys, step)
    ensures !HasRun(CoreOf(Next(sys, step)), n, id)
  {
    DeathIsCrash(sys, step);
    RestartSound(Left(sys, step).q, step.now);
  }

  lemma StepAsks(sys: System, step: Step, next: System, n: Name, id: RunId)
    requires Invariant(sys) && Guarded(sys, step) && next == Next(sys, step)
    requires HasRun(CoreOf(sys), n, id) && HasRun(CoreOf(next), n, id)
    ensures !Dies(sys, step) && StopFollows(CoreOf(sys), step, CoreOf(next), n, id)
  {
    if Dies(sys, step) {
      DeathTakesAll(sys, step, n, id);
    } else if IsLaneStep(step) {
      LaneKeepsRuns(sys, step);
    } else if IsRemoteStep(step) {
      RemoteKeepsRuns(sys, step);
    } else if IsLifeStep(step) {
      LifeKeepsRuns(sys, step);
    } else {
      ControlAsks(sys.q, step, CoreOf(next), n, id, Adrift(sys));
    }
  }

  // ---- what is asked of a run and of whoever has it ------------------------

  ghost predicate Standing(c: Core, n: Name, id: RunId) {
    HasRun(c, n, id) && (c.jobs[id].stop.Some? || c.shards[n].paused)
  }

  predicate Requests(c: Core, step: Step, n: Name, id: RunId) {
    id in c.jobs && (Asks(c.jobs[id], step, id) || Bars(c, step, n))
  }

  // The step takes back whatever is asked.
  predicate Withdraws(c: Core, step: Step, n: Name, id: RunId) {
    && id in c.jobs && n in c.shards
    && (c.jobs[id].stop == None || TakesBack(c.jobs[id], step, id))
    && (!c.shards[n].paused || Unbars(c, step, n))
  }

  lemma StandingStep(c: Core, step: Step, d: Core, n: Name, id: RunId)
    requires HasRun(c, n, id) && HasRun(d, n, id) && Sets(c, step, d) && StopFollows(c, step, d, n, id)
    ensures Standing(d, n, id) <==> Requests(c, step, n, id) || (Standing(c, n, id) && !Withdraws(c, step, n, id))
  {
    assert Barred(d, n) == d.shards[n].paused && Barred(c, n) == c.shards[n].paused;
  }

  // In every run, of a run that stays with its shard: it is asked to stop after a step
  // if and only if the step asks it, or it was asked before and the step does not take
  // everything back.
  lemma StandingIff(trace: seq<System>, steps: seq<Step>, lanes: seq<Name>, start: real, i: nat, n: Name, id: RunId)
    requires IsRun(trace, steps, lanes, start) && i < |steps| && |trace| == |steps| + 1
    requires HasRun(CoreOf(trace[i]), n, id) && HasRun(CoreOf(trace[i + 1]), n, id)
    ensures Standing(CoreOf(trace[i + 1]), n, id)
            <==> Requests(CoreOf(trace[i]), steps[i], n, id)
                 || (Standing(CoreOf(trace[i]), n, id) && !Withdraws(CoreOf(trace[i]), steps[i], n, id))
  {
    RunInvariant(trace, steps, lanes, start, i);
    RunLeads(trace, steps, lanes, start, i);
    StepAsks(trace[i], steps[i], trace[i + 1], n, id);
    RunSets(trace, steps, lanes, start, i);
    StandingStep(CoreOf(trace[i]), steps[i], CoreOf(trace[i + 1]), n, id);
  }

  lemma StandingOneMore(trace: seq<System>, steps: seq<Step>, lanes: seq<Name>, start: real, k: nat, n: Name, id: RunId)
    requires IsRun(trace, steps, lanes, start) && k < |steps| && |trace| == |steps| + 1
    requires HasRun(CoreOf(trace[k + 1]), n, id) && Standing(CoreOf(trace[k]), n, id)
    requires !Withdraws(CoreOf(trace[k]), steps[k], n, id)
    ensures Standing(CoreOf(trace[k + 1]), n, id)
  {
    StandingIff(trace, steps, lanes, start, k, n, id);
  }

  lemma {:induction false} StaysAsked(trace: seq<System>, steps: seq<Step>, lanes: seq<Name>, start: real, i: nat, j: nat, n: Name, id: RunId)
    requires IsRun(trace, steps, lanes, start) && i <= j < |trace| && Standing(CoreOf(trace[i]), n, id)
    requires forall k | i <= k <= j :: HasRun(CoreOf(trace[k]), n, id)
    requires forall k | i <= k < j :: !Withdraws(CoreOf(trace[k]), steps[k], n, id)
    ensures Standing(CoreOf(trace[j]), n, id)
    decreases j
  {
    if i < j {
      StaysAsked(trace, steps, lanes, start, i, j - 1, n, id);
      StandingOneMore(trace, steps, lanes, start, j - 1, n, id);
    }
  }

  // From a cancel, a pause of the run or of its shard on, whoever has the run is told to
  // stop: every sync of the owner says so, and so does the question a lane asks, until
  // everything that was asked is taken back or the run is given up.
  lemma StopIsHeard(trace: seq<System>, steps: seq<Step>, lanes: seq<Name>, start: real, i: nat, j: nat, n: Name, id: RunId,
                    instance: Instance, progressed: bool, rows: seq<Row>, now: real, wall: nat)
    requires IsRun(trace, steps, lanes, start) && i < j < |trace| && Requests(CoreOf(trace[i]), steps[i], n, id)
    requires forall k | i <= k <= j :: HasRun(CoreOf(trace[k]), n, id)
    requires forall k | i < k < j :: !Withdraws(CoreOf(trace[k]), steps[k], n, id)
    ensures id in CoreOf(trace[j]).jobs && ShouldStop(CoreOf(trace[j]), id, wall)
    ensures var reply := Sync(trace[j].q, n, instance, Some(id), progressed, rows, now, wall).1;
            (reply.Synced? <==> Registered(CoreOf(trace[j]), n, instance)) && (reply.Synced? ==> reply.owned && reply.stopAsked)
  {
    StandingIff(trace, steps, lanes, start, i, n, id);
    StaysAsked(trace, steps, lanes, start, i + 1, j, n, id);
    StandingIsHeard(trace[j].q, n, id, instance, progressed, rows, now, wall);
  }

  lemma StandingIsHeard(q: State, n: Name, id: RunId, instance: Instance, progressed: bool, rows: seq<Row>, now: real, wall: nat)
    requires Standing(q.core, n, id)
    ensures ShouldStop(q.core, id, wall)
    ensures var reply := Sync(q, n, instance, Some(id), progressed, rows, now, wall).1;
            (reply.Synced? <==> Registered(q.core, n, instance)) && (reply.Synced? ==> reply.owned && reply.stopAsked)
  {
    ShouldStopIff(q.core, n, id, wall);
    SyncIsTruthful(q, n, instance, Some(id), progressed, rows, now, wall);
  }
}
