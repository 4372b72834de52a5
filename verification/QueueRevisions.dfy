/**
 Revisions, through whole runs of the queue: whoever waits for a run's revision to
 pass the one he has seen misses nothing of it, but for what pause_all, resume_all
 and the first half of a lane's cancel do.
 */
module QueueRevisions {
  import opened Seqs
  import opened Checkpoint
  import opened Queue
  import opened QueueInvariants
  import opened QueueDisk
  import opened QueueLimits
  import opened QueuePauses
  import opened QueueRuns
  import opened QueueTheorems
  import Contract

  // The run is as it was, where it was.
  ghost predicate Same(s: State, r: State, id: RunId) {
    && id in s.core.jobs && id in r.core.jobs
    && r.core.jobs[id] == s.core.jobs[id] && PlaceIn(r.places, id) == PlaceIn(s.places, id)
  }

  // It is what was submitted, and its revision has not gone back.
  ghost predicate Continues(s: State, r: State, id: RunId) {
    && id in s.core.jobs && id in r.core.jobs && RevisionOf(r, id) >= RevisionOf(s, id)
    && r.core.jobs[id].request == s.core.jobs[id].request && r.core.jobs[id].submittedAt == s.core.jobs[id].submittedAt
  }

  // And if the revision stands still, so does the run.
  ghost predicate Seen(s: State, r: State, id: RunId) {
    Continues(s, r, id) && (RevisionOf(r, id) == RevisionOf(s, id) ==> Same(s, r, id))
  }

  lemma SeenTwice(s: State, m: State, r: State, id: RunId)
    requires Seen(s, m, id) && Seen(m, r, id)
    ensures Seen(s, r, id)
  {
  }

  predicate SameRequest(c: Core, d: Core, id: RunId)
    requires id in c.jobs && id in d.jobs
  {
    d.jobs[id].request == c.jobs[id].request && d.jobs[id].submittedAt == c.jobs[id].submittedAt
  }

  // _changed bumps whatever it is told of and whatever it moves.
  lemma ChangedSeen(s: State, d: Core, touched: set<RunId>, id: RunId)
    requires Known(d) && id in s.core.jobs && id in d.jobs && (d.jobs[id] == s.core.jobs[id] || id in touched)
    requires SameRequest(s.core, d, id)
    ensures Seen(s, Changed(s.(core := d), touched), id)
  {
    assert id !in d.order ==> id !in Places(d.jobs, d.order);
  }

  // Only that run, if any, is another afterwards.
  ghost predicate OnlyRun(c: Core, d: Core, id: RunId) {
    forall x | x in c.jobs :: x in d.jobs && SameRequest(c, d, x) && (x == id || d.jobs[x] == c.jobs[x])
  }

  lemma SettleOnly(c: Core, id: RunId)
    requires Known(c) && id in c.jobs
    ensures OnlyRun(c, SettleCore(c, id), id)
  {
  }

  lemma FinishOnly(c: Core, id: RunId, status: Status)
    requires Known(c) && id in c.jobs
    ensures OnlyRun(c, FinishCore(c, id, status), id)
  {
  }

  lemma SettleSeen(s: State, x: RunId, id: RunId)
    requires Known(s.core) && x in s.core.jobs && id in s.core.jobs
    ensures Seen(s, Settle(s, x), id) && Seen(s, Release(s, x), id)
  {
    SettleOnly(s.core, x);
    ChangedSeen(s, SettleCore(s.core, x), {x}, id);
  }

  lemma FinishSeen(s: State, x: RunId, status: Status, id: RunId)
    requires Known(s.core) && x in s.core.jobs && id in s.core.jobs
    ensures Seen(s, Finish(s, x, status), id)
  {
    FinishOnly(s.core, x, status);
    ChangedSeen(s, FinishCore(s.core, x, status), {x}, id);
  }

  lemma StartSeen(s: State, x: RunId, n: Name, id: RunId)
    requires Known(s.core) && x in s.core.jobs && n in s.core.shards && id in s.core.jobs
    ensures Seen(s, Start(s, x, n), id)
  {
    ChangedSeen(s, StartCore(s.core, x, n), {x}, id);
  }

  // Shards and settings are no part of it.
  lemma SameRunsSeen(s: State, m: State, r: State, id: RunId)
    requires id in s.core.jobs && m.core.jobs == s.core.jobs && m.places == s.places && m.revisions == s.revisions
    requires Seen(m, r, id)
    ensures Seen(s, r, id)
  {
  }

  lemma GiveBackSeen(s: State, n: Name, id: RunId)
    requires Known(s.core) && n in s.core.shards && id in s.core.jobs
    ensures Seen(s, GiveBack(s, n), id)
  {
    if s.core.shards[n].runId.Some? && IsRunning(s.core, s.core.shards[n].runId.value) {
      SettleSeen(s, s.core.shards[n].runId.value, id);
    }
  }

  lemma ReapOneSeen(s: State, n: Name, now: real, id: RunId)
    requires Known(s.core) && id in s.core.jobs
    ensures Seen(s, ReapOne(s, n, now), id)
  {
    if Silent(s.core, n, now) {
      var m := s.(core := MarkOffline(s.core, n));
      GiveBackSeen(m, n, id);
      SameRunsSeen(s, m, GiveBack(m, n), id);
    }
  }

  lemma {:induction false} ReapEachSeen(s: State, visit: seq<Name>, now: real, id: RunId)
    requires Known(s.core) && id in s.core.jobs
    ensures Seen(s, ReapEach(s, visit, now), id)
  {
    if visit != [] {
      var m := ReapEach(s, visit[..|visit| - 1], now);
      ReapEachSeen(s, visit[..|visit| - 1], now, id);
      ReapOneSeen(m, visit[|visit| - 1], now, id);
      SeenTwice(s, m, ReapOne(m, visit[|visit| - 1], now), id);
    }
  }

  lemma ReapSeen(s: State, visit: seq<Name>, now: real, id: RunId)
    requires Known(s.core) && id in s.core.jobs
    ensures Seen(s, Reap(s, visit, now), id)
  {
    ReapEachSeen(s, visit, now, id);
    var m := ReapEach(s, visit, now);
    ChangedSeen(m, m.core, {}, id);
    SeenTwice(s, m, Changed(m, {}), id);
  }

  lemma RegisterSeen(s: State, n: Name, instance: Instance, now: real, id: RunId)
    requires Known(s.core) && id in s.core.jobs
    ensures Seen(s, RegisterShard(s, n, instance, now).0, id)
  {
    if n !in s.core.lanes {
      var m := if n in s.core.shards && s.core.shards[n].instance != instance then GiveBack(s, n) else s;
      if n in s.core.shards {
        GiveBackSeen(s, n, id);
      }
      var d := m.core.(pausedNames := m.core.pausedNames - {n},
                       shards := m.core.shards[n := Registration(s.core, n, instance, now)]);
      ChangedSeen(m, d, {}, id);
      SeenTwice(s, m, Changed(m.(core := d), {}), id);
    }
  }

  lemma SyncSeen(s: State, n: Name, instance: Instance, run: Option<RunId>, progressed: bool, rows: seq<Row>, now: real, wall: nat, id: RunId)
    requires id in s.core.jobs
    ensures Seen(s, Sync(s, n, instance, run, progressed, rows, now, wall).0, id)
  {
  }

  // A report of progress, and no other sync, is seen as a change.
  lemma ProgressIsSeenIff(s: State, n: Name, instance: Instance, run: Option<RunId>, progressed: bool, rows: seq<Row>, now: real, wall: nat,
                          id: RunId)
    requires id in s.core.jobs
    ensures var (r, reply) := Sync(s, n, instance, run, progressed, rows, now, wall);
            RevisionOf(r, id) != RevisionOf(s, id) <==> progressed && reply.Synced? && reply.owned && run == Some(id)
  {
  }

  lemma ClaimBeginSeen(s: State, n: Name, instance: Instance, now: real, id: RunId)
    requires Known(s.core) && id in s.core.jobs
    ensures Seen(s, ClaimBegin(s, n, instance, now).0, id)
  {
    if RemoteShard(s.core, n, instance) == None {
      var m := s.(core := Touched(s.core, n, now));
      GiveBackSeen(m, n, id);
      SameRunsSeen(s, m, GiveBack(m, n), id);
    }
  }

  lemma ClaimEndSeen(s: State, n: Name, instance: Instance, now: real, wall: nat, id: RunId)
    requires Known(s.core) && id in s.core.jobs
    ensures Seen(s, ClaimEnd(s, n, instance, now, wall).0, id)
  {
    if RemoteShard(s.core, n, instance) == None {
      var m := s.(core := Touched(s.core, n, now));
      var next := NextRunnable(m.core, true);
      if next.Some? {
        StartSeen(m, next.value, n, id);
        SameRunsSeen(s, m, Start(m, next.value, n), id);
      }
    }
  }

  lemma ShardFinishSeen(s: State, n: Name, instance: Instance, x: RunId, outcome: Outcome, now: real, id: RunId)
    requires Known(s.core) && id in s.core.jobs
    ensures Seen(s, ShardFinish(s, n, instance, x, outcome, now).0, id)
  {
    if RemoteShard(s.core, n, instance) == None {
      var m := s.(core := Touched(s.core, n, now));
      if Owns(m.core, n, x) {
        SettleSeen(m, x, id);
        FinishSeen(m, x, Failed, id);
        FinishSeen(m, x, Complete, id);
        SameRunsSeen(s, m, Settle(m, x), id);
        SameRunsSeen(s, m, Finish(m, x, Failed), id);
        SameRunsSeen(s, m, Finish(m, x, Complete), id);
      }
    }
  }

  // ---- what goes unseen ---------------------------------------------------

  // The lane lets go of a run it is to cancel.
  predicate LetsGo(sys: System, step: Step, id: RunId) {
    step.LaneStopStep? && LaneAt(sys, step.n, Busy(id)) && id in CoreOf(sys).jobs && CoreOf(sys).jobs[id].stop == Some(CancelStop)
  }

  // Changed with its revision standing still: the queue asks it to pause, or takes its
  // own pause back, or a lane lets go of it.
  predicate Unseen(sys: System, step: Step, id: RunId) {
    && id in CoreOf(sys).jobs
    && (LetsGo(sys, step, id)
        || (step.PauseAllStep? && IsRunning(CoreOf(sys), id) && CoreOf(sys).jobs[id].stop == None)
        || (step.ResumeAllStep? && CoreOf(sys).jobs[id].pausedByQueue
            && (CoreOf(sys).jobs[id].status.Paused? || IsRunning(CoreOf(sys), id))))
  }

  lemma RemoteSeen(sys: System, step: Step, id: RunId)
    requires Known(CoreOf(sys)) && IsRemoteStep(step) && id in CoreOf(sys).jobs
    ensures Seen(sys.q, RemoteNext(sys, step).q, id) && !Unseen(sys, step, id)
  {
    match step
    case ClaimBeginStep(n, instance, now) => ClaimBeginSeen(sys.q, n, instance, now, id);
    case ClaimEndStep(n, instance, now, wall) => ClaimEndSeen(sys.q, n, instance, now, wall, id);
    case FinishStep(n, instance, x, outcome, now) => ShardFinishSeen(sys.q, n, instance, x, outcome, now, id);
  }

  lemma LaneStopSeen(q: State, x: RunId, id: RunId)
    requires Known(q.core) && x in q.core.jobs && id in q.core.jobs
    ensures Continues(q, LaneSettle(q, x), id)
    ensures Seen(q, LaneSettle(q, x), id) <==> !(x == id && q.core.jobs[x].stop == Some(CancelStop))
  {
    if q.core.jobs[x].stop == Some(CancelStop) {
      var d := Unlink(q.core, x);
      assert OnlyRun(q.core, d, x) && d.jobs[x] == q.core.jobs[x].(shard := None, stop := None);
    } else {
      SettleSeen(q, x, id);
    }
  }

  lemma LaneSeen(sys: System, step: Step, next: System, id: RunId)
    requires Known(CoreOf(sys)) && IsLaneStep(step) && next == LaneNext(sys, step) && id in CoreOf(sys).jobs
    ensures Continues(sys.q, next.q, id)
    ensures Seen(sys.q, next.q, id) <==> !Unseen(sys, step, id)
  {
    if step.LaneStopStep? {
      if LaneBusy(sys, step.n) {
        LaneStopSeen(sys.q, sys.threads[step.n].run, id);
      }
    } else if step.LaneStartStep? {
      if next != sys {
        StartSeen(sys.q, NextRunnable(CoreOf(sys), false).value, step.n, id);
      }
    } else if step.LaneCancelStep? {
      if next != sys {
        FinishSeen(sys.q, sys.threads[step.n].run, Cancelled, id);
      }
    } else if step.LaneEndStep? {
      if next != sys {
        FinishSeen(sys.q, sys.threads[step.n].run, step.status, id);
      }
    }
  }

  // A control of one run changes no other.
  lemma OneRunChanges(c: Core, step: Step, x: RunId)
    requires Known(c) && !step.PauseAllStep? && !step.ResumeAllStep? && x in c.jobs
    ensures var (d, reply) := RunControl(c, step);
            x in d.jobs && SameRequest(c, d, x) && (x in TouchedBy(step) || d.jobs[x] == c.jobs[x]) && (reply == Done || d.jobs[x] == c.jobs[x])
  {
    if step.PauseStep? {
      PauseChanges(c, step.id, x);
    } else if step.ResumeStep? {
      ResumeChanges(c, step.id, x);
    } else if step.CancelStep? {
      CancelChanges(c, step.id, x);
    }
  }

  lemma PauseChanges(c: Core, id: RunId, x: RunId)
    requires x in c.jobs
    ensures var (d, reply) := PauseCore(c, id);
            x in d.jobs && SameRequest(c, d, x) && (x == id || d.jobs[x] == c.jobs[x]) && (reply == Done || d.jobs[x] == c.jobs[x])
  {
  }

  lemma ResumeChanges(c: Core, id: RunId, x: RunId)
    requires x in c.jobs
    ensures var (d, reply) := ResumeCore(c, id);
            x in d.jobs && SameRequest(c, d, x) && (x == id || d.jobs[x] == c.jobs[x]) && (reply == Done || d.jobs[x] == c.jobs[x])
  {
  }

  lemma CancelChanges(c: Core, id: RunId, x: RunId)
    requires x in c.jobs
    ensures var (d, reply) := CancelCore(c, id);
            x in d.jobs && SameRequest(c, d, x) && (x == id || d.jobs[x] == c.jobs[x]) && (reply == Done || d.jobs[x] == c.jobs[x])
  {
  }

  lemma OneRunSeen(s: State, step: Step, id: RunId)
    requires Known(s.core) && id in s.core.jobs && !step.PauseAllStep? && !step.ResumeAllStep?
    ensures Seen(s, Apply(s, RunControl(s.core, step), TouchedBy(step)), id)
  {
    OneRunChanges(s.core, step, id);
    ChangedSeen(s, RunControl(s.core, step).0, TouchedBy(step), id);
  }

  // They leave the numbering as it is.
  lemma WholeQueueContinues(s: State, step: Step, id: RunId)
    requires Known(s.core) && PlacesCurrent(s) && id in s.core.jobs && (step.PauseAllStep? || step.ResumeAllStep?)
    ensures var r := Apply(s, RunControl(s.core, step), {});
            id in r.core.jobs && SameRequest(s.core, r.core, id) && PlaceIn(r.places, id) == PlaceIn(s.places, id)
  {
    var d := RunControl(s.core, step).0;
    PendingPlaces(s.core.jobs, d.jobs, s.core.order);
    assert id !in d.order ==> id !in Places(d.jobs, d.order);
  }

  lemma WholeQueueSeenIff(s: State, step: Step, id: RunId)
    requires Orderly(s.core) && PlacesCurrent(s) && id in s.core.jobs && (step.PauseAllStep? || step.ResumeAllStep?)
    ensures Continues(s, Apply(s, RunControl(s.core, step), {}), id)
    ensures Seen(s, Apply(s, RunControl(s.core, step), {}), id) <==> RunControl(s.core, step).0.jobs[id] == s.core.jobs[id]
  {
    PauseAllBumpsNobody(s, id);
    WholeQueueContinues(s, step, id);
  }

  lemma ControlledIs(q: State, step: Step)
    requires Known(q.core)
    ensures Controlled(q, step)
         == if IsRunControl(step) then Apply(q, RunControl(q.core, step), TouchedBy(step))
            else if IsShardControl(step) then Apply(q, ShardControl(q.core, step), {})
            else Upkeep(q, step)
  {
  }

  lemma ShardControlSeen(s: State, step: Step, id: RunId)
    requires Known(s.core) && id in s.core.jobs
    ensures Seen(s, Apply(s, ShardControl(s.core, step), {}), id)
  {
    var result := ShardControl(s.core, step);
    assert result.0.jobs == s.core.jobs;
    ChangedSeen(s, result.0, {}, id);
  }

  lemma ControlSeenIff(sys: System, step: Step, id: RunId)
    requires Invariant(sys) && IsControl(step) && id in CoreOf(sys).jobs
    ensures Continues(sys.q, Controlled(sys.q, step), id)
    ensures Seen(sys.q, Controlled(sys.q, step), id) <==> !Unseen(sys, step, id)
  {
    ControlledIs(sys.q, step);
    if step.PauseAllStep? || step.ResumeAllStep? {
      WholeQueueSeenIff(sys.q, step, id);
      PauseAllBumpsNobody(sys.q, id);
    } else if IsRunControl(step) {
      OneRunSeen(sys.q, step, id);
    } else if IsShardControl(step) {
      ShardControlSeen(sys.q, step, id);
    } else if step.ReapStep? {
      ReapSeen(sys.q, step.visit, step.now, id);
    } else if step.RegisterStep? {
      RegisterSeen(sys.q, step.n, step.instance, step.now, id);
    } else {
      SyncSeen(sys.q, step.n, step.instance, step.run, step.progressed, step.rows, step.now, step.wall, id);
    }
  }

  lemma LifeSeen(sys: System, step: Step, id: RunId)
    requires Known(CoreOf(sys)) && Guarded(sys, step) && IsLifeStep(step) && !Dies(sys, step)
    requires id in CoreOf(sys).jobs && forall x | x in CoreOf(sys).jobs :: x in sys.minted
    ensures Seen(sys.q, LifeNext(sys, step).q, id) && !Unseen(sys, step, id)
  {
    if step.SubmitStep? {
      ChangedSeen(sys.q, SubmitCore(CoreOf(sys), step.id, step.request, step.at), {}, id);
    }
  }

  // In a step that the process survives, a run's revision grows whenever anything of
  // it changes, its position too, if and only if the step is not one of those three.
  lemma StepSeenIff(sys: System, step: Step, id: RunId)
    requires Invariant(sys) && Guarded(sys, step) && !Dies(sys, step) && id in CoreOf(sys).jobs
    ensures Continues(sys.q, Next(sys, step).q, id)
    ensures Seen(sys.q, Next(sys, step).q, id) <==> !Unseen(sys, step, id)
  {
    if IsLaneStep(step) {
      LaneSeen(sys, step, LaneNext(sys, step), id);
    } else if IsRemoteStep(step) {
      RemoteSeen(sys, step, id);
    } else if IsLifeStep(step) {
      LifeSeen(sys, step, id);
    } else {
      ControlSeenIff(sys, step, id);
    }
  }

  lemma SeenOneMore(trace: seq<System>, steps: seq<Step>, lanes: seq<Name>, start: real, k: nat, id: RunId)
    requires IsRun(trace, steps, lanes, start) && k < |steps| && |trace| == |steps| + 1 && id in CoreOf(trace[k]).jobs
    requires !Dies(trace[k], steps[k]) && !Unseen(trace[k], steps[k], id)
    ensures Seen(trace[k].q, trace[k + 1].q, id)
  {
    RunInvariant(trace, steps, lanes, start, k);
    RunLeads(trace, steps, lanes, start, k);
    StepSeenIff(trace[k], steps[k], id);
  }

  // In every run: if no revision past the one he saw turns up, nothing of the run has
  // changed, as long as the process lives and none of those three happens to it.
  lemma {:induction false} WatcherMissesNothing(trace: seq<System>, steps: seq<Step>, lanes: seq<Name>, start: real, i: nat, j: nat, id: RunId)
    requires IsRun(trace, steps, lanes, start) && i <= j < |trace| && id in CoreOf(trace[i]).jobs
    requires forall k | i <= k < j :: !Dies(trace[k], steps[k]) && !Unseen(trace[k], steps[k], id)
    ensures Seen(trace[i].q, trace[j].q, id)
    decreases j
  {
    if i < j {
      WatcherMissesNothing(trace, steps, lanes, start, i, j - 1, id);
      SeenOneMore(trace, steps, lanes, start, j - 1, id);
      SeenTwice(trace[i].q, trace[j - 1].q, trace[j].q, id);
    }
  }

  // ---- requests -----------------------------------------------------------

  lemma RestoredOne(c: Core, e: SavedJob, job: Job, id: RunId)
    requires id in RestoreAs(c, e, job).jobs
    ensures if id in c.jobs then RestoreAs(c, e, job).jobs[id] == c.jobs[id]
            else e.runId == id && RestoreAs(c, e, job).jobs[id] == job
  {
  }

  // Whatever is restored comes of a saved entry.
  lemma {:induction false} RestoredFrom(c: Core, entries: seq<SavedJob>, id: RunId) returns (at: nat)
    requires id !in c.jobs && id in RestoreJobs(c, entries).jobs
    ensures at < |entries| && entries[at].runId == id && RestoreJobs(c, entries).jobs[id] == Revived(entries[at])
  {
    assert entries != [];
    var front, last := entries[..|entries| - 1], entries[|entries| - 1];
    var before, job := RestoreJobs(c, front), Revived(last);
    assert RestoreJobs(c, entries) == RestoreAs(before, last, job);
    RestoredOne(before, last, job, id);
    if id in before.jobs {
      at := RestoredFrom(c, front, id);
    } else {
      at := |entries| - 1;
    }
  }

  lemma CrashTranslates(s: State, now: real, adrift: set<RunId>, id: RunId)
    requires Durable(s, adrift) && id in Restart(s, now).core.jobs
    ensures id in s.core.jobs && IsTranslated(s.core.jobs[id], Restart(s, now).core.jobs[id])
  {
    var base := RestoreSettings(FreshCore(s.core.lanes, s.core.rows, now), s.disk);
    var at := RestoredFrom(base, s.disk.jobs, id);
    assert s.core.order[at] == id;
    assert s.disk.jobs[at].(stop := None) == Save(id, s.core.jobs[id]).(stop := None);
  }

  predicate IsTranslated(job: Job, later: Job) {
    later.request == Contract.Request(job.request) && later.submittedAt == job.submittedAt
  }

  lemma RequestOneMore(trace: seq<System>, steps: seq<Step>, lanes: seq<Name>, start: real, k: nat, id: RunId)
    requires IsRun(trace, steps, lanes, start) && k < |steps| && |trace| == |steps| + 1
    requires id in trace[k].minted && id in CoreOf(trace[k + 1]).jobs
    ensures id in CoreOf(trace[k]).jobs
    ensures !Dies(trace[k], steps[k]) ==> SameRequest(CoreOf(trace[k]), CoreOf(trace[k + 1]), id)
    ensures Dies(trace[k], steps[k]) ==> IsTranslated(CoreOf(trace[k]).jobs[id], CoreOf(trace[k + 1]).jobs[id])
  {
    RunInvariant(trace, steps, lanes, start, k);
    RunLeads(trace, steps, lanes, start, k);
    if id !in CoreOf(trace[k]).jobs {
      StaysForgotten(trace[k], steps[k], id);
    } else if Dies(trace[k], steps[k]) {
      DeathIsCrash(trace[k], steps[k]);
      LeftInvariant(trace[k], steps[k]);
      CrashTranslates(Left(trace[k], steps[k]).q, steps[k].now, Adrift(Left(trace[k], steps[k])), id);
    } else {
      StepSeenIff(trace[k], steps[k], id);
    }
  }

  ghost predicate Restarted(trace: seq<System>, steps: seq<Step>, i: nat, j: nat)
    requires j <= |steps| < |trace|
  {
    exists k | i < k < j :: Dies(trace[k], steps[k])
  }

  lemma RestartedMore(trace: seq<System>, steps: seq<Step>, i: nat, j: nat)
    requires i < j < |steps| < |trace|
    ensures Restarted(trace, steps, i, j + 1) <==> Restarted(trace, steps, i, j) || Dies(trace[j], steps[j])
  {
  }

  // The run of that submission, if there still is one.
  ghost predicate IsSubmission(sys: System, step: Step, restarted: bool)
    requires step.SubmitStep?
  {
    && step.id in sys.minted
    && (step.id in CoreOf(sys).jobs ==>
          var job := CoreOf(sys).jobs[step.id];
          job.submittedAt == step.at
          && job.request == if restarted then Contract.Request(step.request) else step.request)
  }

  // A new run waits where it was put, with what was asked for.
  lemma SubmittedIsThere(trace: seq<System>, steps: seq<Step>, lanes: seq<Name>, start: real, i: nat)
    requires IsRun(trace, steps, lanes, start) && i < |steps| && |trace| == |steps| + 1 && steps[i].SubmitStep?
    ensures IsSubmission(trace[i + 1], steps[i], false)
    ensures var c, d, id := CoreOf(trace[i]), CoreOf(trace[i + 1]), steps[i].id;
            && d.order == c.order + [id] && id in d.jobs && d.jobs[id].status.Queued? && d.jobs[id].stop == None
            && d.jobs[id].shard == None && !d.jobs[id].pausedByQueue && d.jobs - {id} == c.jobs
  {
    RunInvariant(trace, steps, lanes, start, i);
    RunLeads(trace, steps, lanes, start, i);
    SubmitIs(trace[i], steps[i]);
  }

  lemma SubmitIs(sys: System, step: Step)
    requires Known(CoreOf(sys)) && step.SubmitStep? && step.id !in CoreOf(sys).jobs
    ensures var next := Next(sys, step);
            && CoreOf(next) == SubmitCore(CoreOf(sys), step.id, step.request, step.at) && step.id in next.minted
            && CoreOf(next).jobs - {step.id} == CoreOf(sys).jobs
  {
  }

  lemma SubmissionOneMore(trace: seq<System>, steps: seq<Step>, lanes: seq<Name>, start: real, k: nat, step: Step, restarted: bool)
    requires IsRun(trace, steps, lanes, start) && k < |steps| && |trace| == |steps| + 1
    requires step.SubmitStep? && IsSubmission(trace[k], step, restarted)
    ensures IsSubmission(trace[k + 1], step, restarted || Dies(trace[k], steps[k]))
  {
    RunLeads(trace, steps, lanes, start, k);
    MintedStays(trace[k], steps[k]);
    if step.id in CoreOf(trace[k + 1]).jobs {
      RequestOneMore(trace, steps, lanes, start, k, step.id);
      Contract.RequestIdempotent(step.request);
    }
  }

  lemma MintedStays(sys: System, step: Step)
    requires Known(CoreOf(sys))
    ensures sys.minted <= Next(sys, step).minted
  {
  }

  // In every run: as long as there is a run of that id it is the one that was
  // submitted, as it was submitted until the first restart and in the new field names
  // from then on, whatever happens to it.
  lemma {:induction false} RequestIsKept(trace: seq<System>, steps: seq<Step>, lanes: seq<Name>, start: real, i: nat, j: nat)
    requires IsRun(trace, steps, lanes, start) && |trace| == |steps| + 1 && i < j < |trace| && steps[i].SubmitStep?
    ensures IsSubmission(trace[j], steps[i], Restarted(trace, steps, i, j))
    decreases j
  {
    if j == i + 1 {
      SubmittedIsThere(trace, steps, lanes, start, i);
    } else {
      RequestIsKept(trace, steps, lanes, start, i, j - 1);
      SubmissionOneMore(trace, steps, lanes, start, j - 1, steps[i], Restarted(trace, steps, i, j - 1));
      RestartedMore(trace, steps, i, j - 1);
    }
  }
}
