/**
 Pauses and lockout windows through whole runs of the queue: what was set stays set
 through claims, hand-backs, registrations and restarts until somebody takes it back,
 and a shard that is paused is given nothing.
 */
module QueuePauses {
  import opened Seqs
  import opened Checkpoint
  import opened Queue
  import opened QueueInvariants
  import opened QueueRuns
  import opened QueueTheorems
  import opened QueueRestart
  import opened QueueAnswers

  // ---- what most operations leave alone -----------------------------------

  // The same shards, each as paused as before, and the same settings.
  ghost predicate SameGates(c: Core, d: Core) {
    && d.lanes == c.lanes && d.pausedNames == c.pausedNames && d.schedules == c.schedules && d.paused == c.paused
    && d.shards.Keys == c.shards.Keys && forall n | n in c.shards :: d.shards[n].paused == c.shards[n].paused
  }

  lemma GiveBackGates(c: Core, n: Name)
    requires Known(c) && n in c.shards
    ensures SameGates(c, GiveBackCore(c, n))
  {
    if c.shards[n].runId.Some? && IsRunning(c, c.shards[n].runId.value) {
      SettleGates(c, c.shards[n].runId.value);
    }
  }

  lemma SettleGates(c: Core, id: RunId)
    requires Known(c) && id in c.jobs
    ensures SameGates(c, SettleCore(c, id))
  {
    UnlinkGates(c, id);
  }

  lemma UnlinkGates(c: Core, id: RunId)
    requires id in c.jobs
    ensures SameGates(c, Unlink(c, id))
  {
  }

  lemma FinishGates(c: Core, id: RunId, status: Status)
    requires Known(c) && id in c.jobs
    ensures SameGates(c, FinishCore(c, id, status))
  {
    UnlinkGates(c, id);
  }

  lemma TouchGates(c: Core, n: Name, now: real)
    requires n in c.shards
    ensures SameGates(c, Touched(c, n, now))
  {
  }

  lemma StartGates(c: Core, id: RunId, n: Name)
    requires Known(c) && id in c.jobs && n in c.shards
    ensures SameGates(c, StartCore(c, id, n))
  {
  }

  lemma {:induction false} ReapEachGates(s: State, visit: seq<Name>, now: real)
    requires Known(s.core)
    ensures SameGates(s.core, ReapEach(s, visit, now).core)
    decreases |visit|
  {
    if visit != [] {
      var last := |visit| - 1;
      var e := ReapEach(s, visit[..last], now);
      ReapEachGates(s, visit[..last], now);
      if Silent(e.core, visit[last], now) {
        GiveBackGates(MarkOffline(e.core, visit[last]), visit[last]);
      }
    }
  }

  lemma ClaimBeginGates(s: State, n: Name, instance: Instance, now: real)
    requires Known(s.core)
    ensures SameGates(s.core, ClaimBegin(s, n, instance, now).0.core)
  {
    if RemoteShard(s.core, n, instance) == None {
      TouchGates(s.core, n, now);
      GiveBackGates(Touched(s.core, n, now), n);
    }
  }

  lemma ClaimEndGates(s: State, n: Name, instance: Instance, now: real, wall: nat)
    requires Known(s.core)
    ensures SameGates(s.core, ClaimEnd(s, n, instance, now, wall).0.core)
  {
    if RemoteShard(s.core, n, instance) == None {
      TouchGates(s.core, n, now);
    }
  }

  lemma ShardFinishGates(s: State, n: Name, instance: Instance, id: RunId, outcome: Outcome, now: real)
    requires Known(s.core)
    ensures SameGates(s.core, ShardFinish(s, n, instance, id, outcome, now).0.core)
  {
    var next, reply := FinishIs(s, n, instance, id, outcome, now);
    if reply == Done {
      var c1 := Touched(s.core, n, now);
      TouchGates(s.core, n, now);
      SettleGates(c1, id);
      FinishGates(c1, id, Failed);
      FinishGates(c1, id, Complete);
    } else {
      RefusedGates(s, n, instance, id, outcome, now);
    }
  }

  lemma RefusedGates(s: State, n: Name, instance: Instance, id: RunId, outcome: Outcome, now: real)
    requires Known(s.core) && !(Registered(s.core, n, instance) && HasRun(s.core, n, id))
    ensures SameGates(s.core, ShardFinish(s, n, instance, id, outcome, now).0.core)
  {
  }

  // Nothing of the shards, and of the settings at most whether the queue is paused.
  ghost predicate RunsOnly(c: Core, d: Core) {
    d == c.(jobs := d.jobs, order := d.order, rows := d.rows, paused := d.paused)
  }

  lemma PauseGates(c: Core, id: RunId)
    ensures RunsOnly(c, PauseCore(c, id).0) && PauseCore(c, id).0.paused == c.paused
  {
  }

  lemma ResumeGates(c: Core, id: RunId)
    ensures RunsOnly(c, ResumeCore(c, id).0) && ResumeCore(c, id).0.paused == c.paused
  {
  }

  lemma CancelGates(c: Core, id: RunId)
    ensures RunsOnly(c, CancelCore(c, id).0) && CancelCore(c, id).0.paused == c.paused
  {
  }

  lemma MoveGates(c: Core, id: RunId, position: int)
    requires Known(c)
    ensures RunsOnly(c, MoveCore(c, id, position).0) && MoveCore(c, id, position).0.paused == c.paused
    ensures RunsOnly(c, RunNextCore(c, id).0) && RunNextCore(c, id).0.paused == c.paused
  {
  }

  lemma RunControlGates(c: Core, step: Step)
    requires Known(c)
    ensures RunsOnly(c, RunControl(c, step).0)
    ensures !step.PauseAllStep? && !step.ResumeAllStep? ==> RunControl(c, step).0.paused == c.paused
  {
    if step.PauseStep? {
      PauseGates(c, step.id);
    } else if step.ResumeStep? {
      ResumeGates(c, step.id);
    } else if step.CancelStep? {
      CancelGates(c, step.id);
    } else if step.MoveStep? {
      MoveGates(c, step.id, step.position);
    } else if step.RunNextStep? {
      MoveGates(c, step.id, 0);
    }
  }

  // ---- what is set --------------------------------------------------------

  // A shard that is paused, or will be as soon as it registers.
  predicate Barred(c: Core, n: Name) {
    if n in c.shards then c.shards[n].paused else n in c.pausedNames
  }

  // What a registration makes of the queue once the old run is given back.
  lemma RegisterIs(s: State, n: Name, instance: Instance, now: real) returns (e: Core, d: Core)
    requires Known(s.core)
    ensures d == RegisterShard(s, n, instance, now).0.core
    ensures e == if n in s.core.shards && s.core.shards[n].instance != instance then GiveBackCore(s.core, n) else s.core
    ensures RegisterShard(s, n, instance, now).1 == (if n in s.core.lanes then RefusedQueue else Done)
    ensures n in s.core.lanes ==> d == s.core
    ensures n !in s.core.lanes ==>
              && SameGates(s.core, e)
              && d == e.(pausedNames := e.pausedNames - {n}, shards := e.shards[n := Registration(s.core, n, instance, now)])
  {
    e := if n in s.core.shards && s.core.shards[n].instance != instance then GiveBackCore(s.core, n) else s.core;
    d := RegisterShard(s, n, instance, now).0.core;
    if n in s.core.shards && s.core.shards[n].instance != instance {
      GiveBackGates(s.core, n);
    }
  }

  // A pause survives registration, whoever registers.
  lemma RegisterGates(s: State, n: Name, instance: Instance, now: real)
    requires Known(s.core)
    ensures var d := RegisterShard(s, n, instance, now).0.core;
            && d.lanes == s.core.lanes && d.schedules == s.core.schedules && d.paused == s.core.paused && (Tidy(s.core) ==> Tidy(d))
            && (forall m | m !in s.core.lanes :: Barred(d, m) <==> Barred(s.core, m))
            && forall m | m in s.core.shards :: m in d.shards && d.shards[m].paused == s.core.shards[m].paused
  {
    var e, d := RegisterIs(s, n, instance, now);
    if n !in s.core.lanes {
      assert Registration(s.core, n, instance, now).paused == Barred(s.core, n);
    }
  }

  // Of whom a step takes a pause back: a shard resumed by its name, every lane under
  // the name of "local", all shards resumed at once, and an offline shard forgotten.
  predicate Unbars(c: Core, step: Step, n: Name) {
    || (step.ResumeShardStep? && step.n in c.shards && (step.n == n || (step.n == LOCAL_SHARD && n in c.lanes)))
    || (step.SetShardsPausedStep? && !step.paused)
    || (step.ForgetStep? && step.n == n && n in c.shards && !c.shards[n].local
        && (c.shards[n].offline || step.now - c.shards[n].lastSeen >= 60.0))
  }

  predicate Bars(c: Core, step: Step, n: Name) {
    || (step.PauseShardStep? && step.n in c.shards && (step.n == n || (step.n == LOCAL_SHARD && n in c.lanes)))
    || (step.SetShardsPausedStep? && step.paused && n in c.shards)
  }

  // A remembered pause is of a shard that is not there.
  ghost predicate Tidy(c: Core) {
    forall n | n in c.pausedNames :: n !in c.shards
  }

  // Who is paused changes as the step says, and so do the settings.
  ghost predicate Sets(c: Core, step: Step, d: Core) {
    && d.lanes == c.lanes && (Tidy(c) ==> Tidy(d))
    && (forall n | n in c.shards || n !in c.lanes :: Barred(d, n) <==> Bars(c, step, n) || (Barred(c, n) && !Unbars(c, step, n)))
    && (!step.SetScheduleStep? ==> d.schedules == c.schedules)
    && (d.paused <==> step.PauseAllStep? || (c.paused && !step.ResumeAllStep?))
  }

  lemma SameGatesSets(c: Core, step: Step, d: Core)
    requires SameGates(c, d)
    requires !step.PauseShardStep? && !step.ResumeShardStep? && !step.SetShardsPausedStep? && !step.ForgetStep?
    requires !step.PauseAllStep? && !step.ResumeAllStep?
    ensures Sets(c, step, d)
  {
  }

  lemma PauseShardSets(c: Core, n: Name)
    requires Laned(c)
    ensures Sets(c, PauseShardStep(n), PauseShardCore(c, n).0)
  {
  }

  lemma ResumeShardSets(c: Core, n: Name)
    requires Laned(c)
    ensures Sets(c, ResumeShardStep(n), ResumeShardCore(c, n).0)
  {
  }

  lemma PauseShardsSets(c: Core, paused: bool)
    requires Laned(c)
    ensures Sets(c, SetShardsPausedStep(paused), SetShardsPausedCore(c, paused))
  {
  }

  lemma ForgetSets(c: Core, n: Name, now: real)
    requires Laned(c)
    ensures Sets(c, ForgetStep(n, now), ForgetShardCore(c, n, now).0)
  {
  }

  lemma ScheduleSets(c: Core, n: Name, schedule: Schedule)
    ensures Sets(c, SetScheduleStep(n, schedule), SetScheduleCore(c, n, schedule).0)
  {
  }

  lemma ShardControlSets(c: Core, step: Step)
    requires Laned(c) && Known(c) && IsShardControl(step)
    ensures Sets(c, step, ShardControl(c, step).0)
  {
    match step
    case PauseShardStep(n) => PauseShardSets(c, n);
    case ResumeShardStep(n) => ResumeShardSets(c, n);
    case SetShardsPausedStep(paused) => PauseShardsSets(c, paused);
    case SetScheduleStep(n, schedule) => ScheduleSets(c, n, schedule);
    case ForgetStep(n, now) => ForgetSets(c, n, now);
  }

  // The window of a shard is what was set for it last.
  lemma ScheduleMeans(c: Core, n: Name, schedule: Schedule, m: Name, wall: nat)
    ensures var (d, reply) := SetScheduleCore(c, n, schedule);
            && (reply == Done <==> !schedule.enabled || (schedule.start.Some? && schedule.end.Some?))
            && (reply != Done ==> d == c)
            && (reply == Done ==>
                  (LockedOut(d, m, wall)
                   <==> if n == (if m in c.lanes then LOCAL_SHARD else m) then Covers(schedule, wall) else LockedOut(c, m, wall)))
  {
    var d, key := SetScheduleCore(c, n, schedule).0, if m in c.lanes then LOCAL_SHARD else m;
    assert LockedOut(d, m, wall) <==> key in d.schedules && Covers(d.schedules[key], wall);
    assert LockedOut(c, m, wall) <==> key in c.schedules && Covers(c.schedules[key], wall);
  }

  predicate IsRunControl(step: Step) {
    step.PauseStep? || step.ResumeStep? || step.CancelStep? || step.MoveStep? || step.RunNextStep?
    || step.PauseAllStep? || step.ResumeAllStep?
  }

  predicate IsShardControl(step: Step) {
    step.PauseShardStep? || step.ResumeShardStep? || step.SetShardsPausedStep? || step.SetScheduleStep? || step.ForgetStep?
  }

  predicate IsControl(step: Step) {
    !IsLaneStep(step) && !IsRemoteStep(step) && !IsLifeStep(step)
  }

  // A control is one of the three kinds.
  lemma ControlIs(q: State, step: Step) returns (d: Core)
    requires Known(q.core) && IsControl(step)
    ensures d == Controlled(q, step).core
    ensures d == if IsRunControl(step) then RunControl(q.core, step).0
                 else if IsShardControl(step) then ShardControl(q.core, step).0
                 else Upkeep(q, step).core
  {
    d := Controlled(q, step).core;
  }

  lemma SyncGates(s: State, n: Name, instance: Instance, run: Option<RunId>, progressed: bool, rows: seq<Row>, now: real, wall: nat)
    ensures SameGates(s.core, Sync(s, n, instance, run, progressed, rows, now, wall).0.core)
  {
    if RemoteShard(s.core, n, instance) == None {
      TouchGates(s.core, n, now);
    }
  }

  lemma RegisterSets(s: State, n: Name, instance: Instance, now: real)
    requires Known(s.core) && Laned(s.core)
    ensures Sets(s.core, RegisterStep(n, instance, now), RegisterShard(s, n, instance, now).0.core)
  {
    RegisterGates(s, n, instance, now);
  }

  lemma UpkeepSets(q: State, step: Step)
    requires Known(q.core) && Laned(q.core) && (step.ReapStep? || step.RegisterStep? || step.SyncStep?)
    ensures Sets(q.core, step, Upkeep(q, step).core)
  {
    if step.ReapStep? {
      ReapEachGates(q, step.visit, step.now);
      SameGatesSets(q.core, step, Upkeep(q, step).core);
    } else if step.RegisterStep? {
      RegisterSets(q, step.n, step.instance, step.now);
    } else {
      SyncGates(q, step.n, step.instance, step.run, step.progressed, step.rows, step.now, step.wall);
      SameGatesSets(q.core, step, Upkeep(q, step).core);
    }
  }

  lemma RunsOnlySets(c: Core, step: Step)
    requires Known(c) && IsRunControl(step)
    ensures Sets(c, step, RunControl(c, step).0)
  {
    RunControlGates(c, step);
  }

  lemma LaneGates(sys: System, step: Step)
    requires Owned(sys) && IsLaneStep(step)
    ensures SameGates(CoreOf(sys), CoreOf(LaneNext(sys, step)))
  {
    var c := CoreOf(sys);
    if step.LaneStartStep? {
      if LaneAt(sys, step.n, Idle) && step.n in c.shards && LocalReady(c, step.n, step.wall) {
        StartGates(c, NextRunnable(c, false).value, step.n);
      }
    } else if step.n in sys.threads && !sys.threads[step.n].Idle? && sys.threads[step.n].run in c.jobs {
      var id := sys.threads[step.n].run;
      UnlinkGates(c, id);
      SettleGates(c, id);
      FinishGates(c, id, if step.LaneEndStep? then step.status else Cancelled);
    }
  }

  lemma RemoteGates(sys: System, step: Step)
    requires Owned(sys) && IsRemoteStep(step)
    ensures SameGates(CoreOf(sys), CoreOf(RemoteNext(sys, step)))
  {
    match step
    case ClaimBeginStep(n, instance, now) => ClaimBeginGates(sys.q, n, instance, now);
    case ClaimEndStep(n, instance, now, wall) => ClaimEndGates(sys.q, n, instance, now, wall);
    case FinishStep(n, instance, id, outcome, now) => ShardFinishGates(sys.q, n, instance, id, outcome, now);
  }

  // A restart keeps every setting: remote shards by their names, all lanes as "local" was.
  ghost predicate Survives(c: Core, d: Core) {
    && d.lanes == c.lanes && d.paused == c.paused && d.schedules == c.schedules && Tidy(d)
    && (forall n | n !in c.lanes :: Barred(d, n) <==> Barred(c, n))
    && (forall n | n in c.lanes :: Barred(d, n) <==> Barred(c, LOCAL_SHARD))
  }

  lemma SettingsSurvive(c: Core, saved: Saved, now: real)
    requires Tidy(c) && Laned(c)
    requires saved.paused == c.paused && saved.pausedShards == PausedShards(c) && saved.schedules == c.schedules
    ensures Survives(c, RestoreSettings(FreshCore(c.lanes, c.rows, now), saved))
  {
    assert forall n | n in c.lanes :: n in c.shards && n !in c.pausedNames;
  }

  lemma SameSettingsSurvive(c: Core, base: Core, d: Core)
    requires Survives(c, base) && d == base.(jobs := d.jobs, order := d.order, rows := d.rows)
    ensures Survives(c, d)
  {
    assert forall n :: Barred(d, n) <==> Barred(base, n);
  }

  lemma RestartSurvives(s: State, now: real)
    requires Tidy(s.core) && Laned(s.core)
    requires s.disk.paused == s.core.paused && s.disk.pausedShards == PausedShards(s.core) && s.disk.schedules == s.core.schedules
    ensures Survives(s.core, Restart(s, now).core)
  {
    var base := RestoreSettings(FreshCore(s.core.lanes, s.core.rows, now), s.disk);
    SettingsSurvive(s.core, s.disk, now);
    RestoreSame(base, s.disk.jobs);
    SameSettingsSurvive(s.core, base, RestoreJobs(base, s.disk.jobs));
  }

  lemma CrashSurvives(sys: System, now: real)
    requires Invariant(sys) && Tidy(CoreOf(sys))
    ensures Survives(CoreOf(sys), CoreOf(Crash(sys, now)))
  {
    RestartSurvives(sys.q, now);
  }

  lemma OtherRowsSurvive(c: Core, left: Core, d: Core)
    requires left == c.(rows := left.rows) && Survives(left, d)
    ensures Survives(c, d)
  {
    assert forall n :: Barred(left, n) <==> Barred(c, n);
  }

  lemma DeathSurvives(sys: System, step: Step)
    requires Invariant(sys) && Tidy(CoreOf(sys)) && Dies(sys, step)
    ensures Survives(CoreOf(sys), CoreOf(Crash(Left(sys, step), step.now)))
  {
    LeftInvariant(sys, step);
    CrashSurvives(Left(sys, step), step.now);
    OtherRowsSurvive(CoreOf(sys), CoreOf(Left(sys, step)), CoreOf(Crash(Left(sys, step), step.now)));
  }

  lemma LaneSets(sys: System, step: Step)
    requires Owned(sys) && IsLaneStep(step)
    ensures Sets(CoreOf(sys), step, CoreOf(LaneNext(sys, step)))
  {
    LaneGates(sys, step);
    SameGatesSets(CoreOf(sys), step, CoreOf(LaneNext(sys, step)));
  }

  lemma RemoteSets(sys: System, step: Step)
    requires Owned(sys) && IsRemoteStep(step)
    ensures Sets(CoreOf(sys), step, CoreOf(RemoteNext(sys, step)))
  {
    RemoteGates(sys, step);
    SameGatesSets(CoreOf(sys), step, CoreOf(RemoteNext(sys, step)));
  }

  lemma LivingSets(sys: System, step: Step)
    requires Invariant(sys) && Guarded(sys, step) && !Dies(sys, step)
    ensures Sets(CoreOf(sys), step, CoreOf(Next(sys, step)))
  {
    if IsLaneStep(step) {
      LaneSets(sys, step);
    } else if IsRemoteStep(step) {
      RemoteSets(sys, step);
    } else if IsLifeStep(step) {
      LifeSets(sys, step);
    } else {
      ControlSets(sys.q, step);
    }
  }

  lemma LifeSets(sys: System, step: Step)
    requires Known(CoreOf(sys)) && IsLifeStep(step) && !Dies(sys, step)
    ensures Sets(CoreOf(sys), step, CoreOf(LifeNext(sys, step)))
  {
    SameGatesSets(CoreOf(sys), step, CoreOf(LifeNext(sys, step)));
  }

  lemma ControlSets(q: State, step: Step)
    requires Known(q.core) && Laned(q.core) && IsControl(step)
    ensures Sets(q.core, step, Controlled(q, step).core)
  {
    var d := ControlIs(q, step);
    if IsRunControl(step) {
      RunsOnlySets(q.core, step);
    } else if IsShardControl(step) {
      ShardControlSets(q.core, step);
    } else {
      UpkeepSets(q, step);
    }
  }

  // ---- through whole runs -------------------------------------------------

  lemma {:induction false} RunTidy(trace: seq<System>, steps: seq<Step>, lanes: seq<Name>, start: real, i: nat)
    requires IsRun(trace, steps, lanes, start) && i < |trace|
    ensures Invariant(trace[i]) && Tidy(CoreOf(trace[i])) && CoreOf(trace[i]).lanes == lanes
  {
    if i > 0 {
      RunTidy(trace, steps, lanes, start, i - 1);
      TidyOneMore(trace, steps, lanes, start, i - 1);
    } else {
      RunInvariant(trace, steps, lanes, start, i);
    }
  }

  lemma TidyOneMore(trace: seq<System>, steps: seq<Step>, lanes: seq<Name>, start: real, k: nat)
    requires IsRun(trace, steps, lanes, start) && k < |steps| && |trace| == |steps| + 1 && Tidy(CoreOf(trace[k]))
    ensures Invariant(trace[k + 1]) && Tidy(CoreOf(trace[k + 1])) && CoreOf(trace[k + 1]).lanes == CoreOf(trace[k]).lanes
  {
    RunInvariant(trace, steps, lanes, start, k);
    RunInvariant(trace, steps, lanes, start, k + 1);
    RunLeads(trace, steps, lanes, start, k);
    StepTidy(trace[k], steps[k], trace[k + 1]);
  }

  lemma StepTidy(sys: System, step: Step, next: System)
    requires Invariant(sys) && Guarded(sys, step) && Tidy(CoreOf(sys)) && next == Next(sys, step)
    ensures Tidy(CoreOf(next)) && CoreOf(next).lanes == CoreOf(sys).lanes
  {
    StepSets(sys, step, next);
  }

  // Every step of every kind sets what it says and nothing else, and a death sets nothing.
  lemma StepSets(sys: System, step: Step, next: System)
    requires Invariant(sys) && Guarded(sys, step) && Tidy(CoreOf(sys)) && next == Next(sys, step)
    ensures !Dies(sys, step) ==> Sets(CoreOf(sys), step, CoreOf(next))
    ensures Dies(sys, step) ==> Survives(CoreOf(sys), CoreOf(next))
  {
    if Dies(sys, step) {
      DeathIsCrash(sys, step);
      DeathSurvives(sys, step);
    } else {
      LivingSets(sys, step);
    }
  }

  lemma RunSets(trace: seq<System>, steps: seq<Step>, lanes: seq<Name>, start: real, i: nat)
    requires IsRun(trace, steps, lanes, start) && i < |steps|
    ensures |trace| == |steps| + 1
    ensures !Dies(trace[i], steps[i]) ==> Sets(CoreOf(trace[i]), steps[i], CoreOf(trace[i + 1]))
    ensures Dies(trace[i], steps[i]) ==> Survives(CoreOf(trace[i]), CoreOf(trace[i + 1]))
  {
    RunTidy(trace, steps, lanes, start, i);
    RunLeads(trace, steps, lanes, start, i);
    StepSets(trace[i], steps[i], trace[i + 1]);
  }

  lemma PausedStepIff(c: Core, step: Step, d: Core, died: bool, n: Name)
    requires n !in c.lanes && if died then Survives(c, d) && (step.CrashStep? || step.TornStep?) else Sets(c, step, d)
    ensures Barred(d, n) <==> Bars(c, step, n) || (Barred(c, n) && !Unbars(c, step, n))
  {
  }

  // In every run: whether a remote shard is paused changes in a step if and only if the
  // step pauses it or takes its pause back. Registering, claiming, falling silent and
  // restarting the server are none of these.
  lemma PausedIff(trace: seq<System>, steps: seq<Step>, lanes: seq<Name>, start: real, i: nat, n: Name)
    requires IsRun(trace, steps, lanes, start) && i < |steps| && n !in lanes
    ensures |trace| == |steps| + 1
    ensures Barred(CoreOf(trace[i + 1]), n)
            <==> Bars(CoreOf(trace[i]), steps[i], n) || (Barred(CoreOf(trace[i]), n) && !Unbars(CoreOf(trace[i]), steps[i], n))
  {
    RunTidy(trace, steps, lanes, start, i);
    RunSets(trace, steps, lanes, start, i);
    PausedStepIff(CoreOf(trace[i]), steps[i], CoreOf(trace[i + 1]), Dies(trace[i], steps[i]), n);
  }

  lemma PausedOneMore(trace: seq<System>, steps: seq<Step>, lanes: seq<Name>, start: real, k: nat, n: Name)
    requires IsRun(trace, steps, lanes, start) && k < |steps| && n !in lanes
    requires Barred(CoreOf(trace[k]), n) && !Unbars(CoreOf(trace[k]), steps[k], n)
    ensures |trace| == |steps| + 1 && Barred(CoreOf(trace[k + 1]), n)
  {
    PausedIff(trace, steps, lanes, start, k, n);
  }

  lemma {:induction false} StaysPaused(trace: seq<System>, steps: seq<Step>, lanes: seq<Name>, start: real, i: nat, j: nat, n: Name)
    requires IsRun(trace, steps, lanes, start) && i <= j < |trace| && n !in lanes && Barred(CoreOf(trace[i]), n)
    requires forall k | i <= k < j :: !Unbars(CoreOf(trace[k]), steps[k], n)
    ensures Barred(CoreOf(trace[j]), n)
    decreases j
  {
    if i < j {
      StaysPaused(trace, steps, lanes, start, i, j - 1, n);
      PausedOneMore(trace, steps, lanes, start, j - 1, n);
    }
  }

  // From pause_shard until somebody takes it back, no claim by that shard is given a
  // run: whatever process registers under the name, and whatever server restarts.
  lemma PausedShardIsGivenNothing(trace: seq<System>, steps: seq<Step>, lanes: seq<Name>, start: real, i: nat, j: nat, n: Name,
                                  instance: Instance, now: real, wall: nat)
    requires IsRun(trace, steps, lanes, start) && i < j < |trace| && steps[i] == PauseShardStep(n)
    requires n in CoreOf(trace[i]).shards && n !in lanes
    requires forall k | i < k < j :: !Unbars(CoreOf(trace[k]), steps[k], n)
    ensures Known(CoreOf(trace[j])) && !ClaimEnd(trace[j].q, n, instance, now, wall).1.Claimed?
    ensures Registered(CoreOf(trace[j]), n, instance) ==> CoreOf(trace[j]).shards[n].paused
  {
    RunTidy(trace, steps, lanes, start, j);
    PausedIff(trace, steps, lanes, start, i, n);
    StaysPaused(trace, steps, lanes, start, i + 1, j, n);
    ClaimIsTruthful(trace[j].q, n, instance, now, wall);
    PausedTakesNothing(trace[j].q, n, instance, now, wall);
  }

  lemma PausedTakesNothing(q: State, n: Name, instance: Instance, now: real, wall: nat)
    requires Known(q.core) && Barred(q.core, n)
    ensures !ClaimEnd(q, n, instance, now, wall).1.Claimed?
  {
    var reply := ClaimEnd(q, n, instance, now, wall).1;
    ClaimIsTruthful(q, n, instance, now, wall);
    assert forall id :: reply != Claimed(id);
  }

  lemma WindowsOneMore(trace: seq<System>, steps: seq<Step>, lanes: seq<Name>, start: real, k: nat)
    requires IsRun(trace, steps, lanes, start) && k < |steps| && !steps[k].SetScheduleStep?
    ensures |trace| == |steps| + 1 && CoreOf(trace[k + 1]).schedules == CoreOf(trace[k]).schedules
  {
    RunSets(trace, steps, lanes, start, k);
  }

  // A window stays as it was set until it is set again, restarts and all.
  lemma {:induction false} WindowsStay(trace: seq<System>, steps: seq<Step>, lanes: seq<Name>, start: real, i: nat, j: nat)
    requires IsRun(trace, steps, lanes, start) && i <= j < |trace| && forall k | i <= k < j :: !steps[k].SetScheduleStep?
    ensures CoreOf(trace[j]).schedules == CoreOf(trace[i]).schedules
    decreases j
  {
    if i < j {
      WindowsStay(trace, steps, lanes, start, i, j - 1);
      WindowsOneMore(trace, steps, lanes, start, j - 1);
    }
  }

  lemma LockedOutStays(trace: seq<System>, steps: seq<Step>, lanes: seq<Name>, start: real, i: nat, j: nat, n: Name, wall: nat)
    requires IsRun(trace, steps, lanes, start) && i <= j < |trace| && forall k | i <= k < j :: !steps[k].SetScheduleStep?
    ensures LockedOut(CoreOf(trace[j]), n, wall) <==> LockedOut(CoreOf(trace[i]), n, wall)
  {
    WindowsStay(trace, steps, lanes, start, i, j);
    RunTidy(trace, steps, lanes, start, i);
    RunTidy(trace, steps, lanes, start, j);
    SameWindow(CoreOf(trace[i]), CoreOf(trace[j]), n, wall);
  }

  lemma SameWindow(c: Core, d: Core, n: Name, wall: nat)
    requires d.lanes == c.lanes && d.schedules == c.schedules
    ensures LockedOut(d, n, wall) <==> LockedOut(c, n, wall)
  {
  }

  // And a paused queue gives nobody anything until it is resumed.
  lemma {:induction false} QueueStaysPaused(trace: seq<System>, steps: seq<Step>, lanes: seq<Name>, start: real, i: nat, j: nat)
    requires IsRun(trace, steps, lanes, start) && i < j < |trace| && steps[i].PauseAllStep?
    requires forall k | i < k < j :: !steps[k].ResumeAllStep?
    ensures CoreOf(trace[j]).paused && forall id, remote :: !IsNext(CoreOf(trace[j]), id, remote)
    decreases j
  {
    RunSets(trace, steps, lanes, start, j - 1);
    if i < j - 1 {
      QueueStaysPaused(trace, steps, lanes, start, i, j - 1);
    }
  }
}
