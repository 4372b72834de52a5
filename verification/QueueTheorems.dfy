/** The theorems about every run of the queue. */
module QueueTheorems {
  import opened Seqs
  import opened Checkpoint
  import opened Queue
  import opened QueueInvariants
  import opened QueueRuns
  import opened QueueDisk
  import opened QueueHistory

  // on_complete is called at most once for a run, and only for one that is
  // filed away for good; every run this queue has is one it was given.
  ghost predicate Filed(sys: System) {
    var c := CoreOf(sys);
    && RowsLive(c) && (forall id | id in c.jobs :: id in sys.minted)
    && NO_ID !in sys.minted && NoDup(sys.archived)
    && (forall id | id in sys.archived :: id in sys.minted && id !in c.order && id !in sys.toArchive)
    && (forall id | id in sys.toArchive :: id in sys.minted && id !in c.order)
  }

  ghost predicate Invariant(sys: System) {
    Owned(sys) && Durable(sys.q, Adrift(sys)) && Filed(sys)
  }

  lemma InitialInvariant(lanes: seq<Name>, now: real)
    requires LOCAL_SHARD in lanes
    ensures Invariant(Initial(lanes, now))
  {
    var sys := Initial(lanes, now);
    assert Adrift(sys) == {};
    assert PausedShards(CoreOf(sys)) == {};
    WakingSound(CoreOf(sys));
  }

  lemma AdvanceOrder(c: Core, d: Core)
    requires Advance(c, d) && Orderly(c) && Orderly(d)
    ensures forall id | id in d.order :: id in c.order
  {
  }

  // The unfinished runs of the next state are unfinished now, but for a
  // submission.
  lemma QueueFiled(sys: System, next: System)
    requires Invariant(sys) && Orderly(CoreOf(next)) && RowsLive(CoreOf(next))
    requires Advance(CoreOf(sys), CoreOf(next)) && next.minted == sys.minted && next.archived == sys.archived
    requires forall id | id in next.toArchive && id !in sys.toArchive :: id in CoreOf(sys).order && id !in CoreOf(next).order
    ensures Filed(next)
  {
    AdvanceOrder(CoreOf(sys), CoreOf(next));
  }

  ghost predicate CompletesOnly(sys: System, next: System) {
    next.minted == sys.minted && next.archived == sys.archived
    && forall id | id in next.toArchive && id !in sys.toArchive ::
      id in CoreOf(sys).order && id !in CoreOf(next).order
  }

  lemma EndsCompletes(sys: System, next: System, id: RunId)
    requires next.minted == sys.minted && next.archived == sys.archived && next.toArchive <= sys.toArchive + {id}
    requires NoDup(CoreOf(sys).order) && id in CoreOf(sys).order && CoreOf(next).order == Remove(CoreOf(sys).order, id)
    ensures CompletesOnly(sys, next)
  {
    RemoveFacts(CoreOf(sys).order, id);
  }

  lemma LaneEndCompletes(sys: System, n: Name, status: Status)
    requires Invariant(sys)
    ensures CompletesOnly(sys, LaneEnd(sys, n, status))
  {
    if LaneBusy(sys, n) && (status.Complete? || status.Failed?) {
      BusyHolds(sys, n);
      FinishFrees(CoreOf(sys), sys.threads[n].run, status, Adrift(sys));
      EndsCompletes(sys, LaneEnd(sys, n, status), sys.threads[n].run);
    }
  }

  lemma LaneCompletes(sys: System, step: Step)
    requires Invariant(sys) && IsLaneStep(step)
    ensures CompletesOnly(sys, LaneNext(sys, step))
  {
    if step.LaneEndStep? {
      LaneEndCompletes(sys, step.n, step.status);
    }
  }

  lemma CompleteEnds(sys: System, n: Name, instance: Instance, id: RunId, now: real)
    requires Invariant(sys) && ShardFinish(sys.q, n, instance, id, CompleteOutcome, now).1 == Done
    ensures id in CoreOf(sys).order
    ensures ShardFinish(sys.q, n, instance, id, CompleteOutcome, now).0.core.order == Remove(CoreOf(sys).order, id)
  {
    TouchSound(CoreOf(sys), n, now, Adrift(sys));
    FinishFrees(Touched(CoreOf(sys), n, now), id, Complete, Adrift(sys));
  }

  lemma FinishCompletes(sys: System, n: Name, instance: Instance, id: RunId, outcome: Outcome, now: real)
    requires Invariant(sys)
    ensures CompletesOnly(sys, FinishRemote(sys, n, instance, id, outcome, now))
  {
    if ShardFinish(sys.q, n, instance, id, outcome, now).1 == Done && outcome.CompleteOutcome? {
      CompleteEnds(sys, n, instance, id, now);
      EndsCompletes(sys, FinishRemote(sys, n, instance, id, outcome, now), id);
    }
  }

  lemma RemoteCompletes(sys: System, step: Step)
    requires Invariant(sys) && IsRemoteStep(step)
    ensures CompletesOnly(sys, RemoteNext(sys, step))
  {
    if step.FinishStep? {
      FinishCompletes(sys, step.n, step.instance, step.id, step.outcome, step.now);
    }
  }

  lemma SubmitFiled(sys: System, next: System, id: RunId, job: Job)
    requires Filed(sys) && id !in sys.minted && id != NO_ID
    requires next == sys.(q := next.q, minted := sys.minted + {id})
    requires CoreOf(next) == WithJob(CoreOf(sys), id, job).(order := CoreOf(sys).order + [id])
    ensures Filed(next)
  {
  }

  lemma ArchiveFiled(sys: System, id: RunId)
    requires Filed(sys)
    ensures Filed(Archive(sys, id))
  {
    if id in sys.toArchive {
      NoDupConcat(sys.archived, [id]);
    }
  }

  // Restoring one job discards its checkpoint or files the job, or leaves both.
  lemma RestoreJobRows(c: Core, e: SavedJob, job: Job)
    requires c.jobs.Keys == Elems(c.order) && e.runId != NO_ID
    ensures var d := RestoreAs(c, e, job);
            d.jobs.Keys == Elems(d.order) && Elems(c.order) <= Elems(d.order) && d.rows.Keys <= c.rows.Keys
            && (e.runId in d.order || e.runId !in d.rows)
  {
    assert Elems(c.order + [e.runId]) == Elems(c.order) + {e.runId};
  }

  lemma {:induction false} RestoreRows(c: Core, entries: seq<SavedJob>)
    requires c.jobs.Keys == Elems(c.order) && NO_ID !in SavedIds(entries)
    ensures var d := RestoreJobs(c, entries);
            d.jobs.Keys == Elems(d.order) && Elems(c.order) <= Elems(d.order) && d.rows.Keys <= c.rows.Keys
            && forall id | id in SavedIds(entries) :: id in d.order || id !in d.rows
    decreases |entries|
  {
    if entries != [] {
      var last := |entries| - 1;
      assert entries == entries[..last] + [entries[last]];
      assert SavedIds(entries) == SavedIds(entries[..last]) + {entries[last].runId};
      RestoreRows(c, entries[..last]);
      RestoreJobRows(RestoreJobs(c, entries[..last]), entries[last], Revived(entries[last]));
    }
  }

  lemma SavedIsOrder(s: State, adrift: set<RunId>)
    requires Faithful(s, adrift)
    ensures SavedIds(s.disk.jobs) == Elems(s.core.order)
  {
    forall id | id in s.core.order ensures id in SavedIds(s.disk.jobs) {
      var i :| 0 <= i < |s.core.order| && s.core.order[i] == id;
      assert s.disk.jobs[i].runId == id;
    }
  }

  lemma CrashFiled(sys: System, now: real)
    requires Invariant(sys)
    ensures Filed(Crash(sys, now))
    ensures forall id | id in CoreOf(Crash(sys, now)).order :: id in CoreOf(sys).order
  {
    var c := CoreOf(sys);
    SavedIsOrder(sys.q, Adrift(sys));
    var c0 := RestoreSettings(FreshCore(c.lanes, c.rows, now), sys.q.disk);
    RestoreRows(c0, sys.q.disk.jobs);
    RestoreJobsIds(c0, sys.q.disk.jobs);
    assert CoreOf(Crash(sys, now)) == RestoreJobs(c0, sys.q.disk.jobs);
  }

  // A torn append spoils a checkpoint and nothing else.
  lemma LeftInvariant(sys: System, step: Step)
    requires Invariant(sys) && Dies(sys, step)
    ensures Invariant(Left(sys, step))
    ensures var left := Left(sys, step);
            left == sys.(q := sys.q.(core := CoreOf(sys).(rows := CoreOf(left).rows)))
            && forall id :: Extends(FileOf(CoreOf(sys), id), FileOf(CoreOf(left), id))
  {
    LeftOwned(sys, step);
    LeftSame(sys, step);
    OtherRowsInvariant(sys, Left(sys, step));
  }

  lemma LeftSame(sys: System, step: Step)
    requires Invariant(sys) && Dies(sys, step)
    ensures var left := Left(sys, step);
            left == sys.(q := sys.q.(core := CoreOf(sys).(rows := CoreOf(left).rows))) && RowsLive(CoreOf(left))
            && forall id :: Extends(FileOf(CoreOf(sys), id), FileOf(CoreOf(left), id))
  {
    if step.TornStep? {
      assert step.id in CoreOf(sys).order;
      CrashExtends(FileOf(CoreOf(sys), step.id), step.rows, step.written, step.cut);
    }
  }

  lemma OtherRowsInvariant(sys: System, left: System)
    requires Invariant(sys) && Owned(left) && RowsLive(CoreOf(left))
    requires left == sys.(q := sys.q.(core := CoreOf(sys).(rows := CoreOf(left).rows)))
    ensures Invariant(left)
  {
    assert PausedShards(CoreOf(left)) == PausedShards(CoreOf(sys));
  }

  lemma LifeFiled(sys: System, step: Step)
    requires Invariant(sys) && Guarded(sys, step) && IsLifeStep(step)
    ensures Filed(LifeNext(sys, step))
  {
    if step.SubmitStep? {
      SubmitFiled(sys, LifeNext(sys, step), step.id, Job(step.request, step.at, Queued, None, false, None));
    } else if step.ArchiveStep? {
      ArchiveFiled(sys, step.id);
    } else if Dies(sys, step) {
      LeftInvariant(sys, step);
      CrashFiled(Left(sys, step), step.now);
    }
  }

  lemma StepFiled(sys: System, step: Step)
    requires Invariant(sys) && Guarded(sys, step) && Owned(Next(sys, step))
    ensures Filed(Next(sys, step))
  {
    if IsLaneStep(step) {
      LaneNextAdvance(sys, step);
      LaneCompletes(sys, step);
      QueueFiled(sys, LaneNext(sys, step));
    } else if IsRemoteStep(step) {
      RemoteNextAdvance(sys, step);
      RemoteCompletes(sys, step);
      QueueFiled(sys, RemoteNext(sys, step));
    } else if IsLifeStep(step) {
      LifeFiled(sys, step);
    } else {
      ControlledAdvance(sys.q, step, Adrift(sys));
      QueueFiled(sys, sys.(q := Controlled(sys.q, step)));
    }
  }

  lemma StepInvariant(sys: System, step: Step)
    requires Invariant(sys) && Guarded(sys, step)
    ensures Invariant(Next(sys, step))
  {
    StepOwned(sys, step);
    StepDurable(sys, step);
    StepFiled(sys, step);
  }

  // ---- every run ------------------------------------------------------

  // Any interleaving of any steps, from an empty queue.
  ghost predicate IsRun(trace: seq<System>, steps: seq<Step>, lanes: seq<Name>, start: real) {
    && LOCAL_SHARD in lanes && |trace| == |steps| + 1 && trace[0] == Initial(lanes, start)
    && forall i {:trigger Leads(trace[i], steps[i], trace[i + 1])} | 0 <= i < |steps| :: Leads(trace[i], steps[i], trace[i + 1])
  }

  ghost predicate Leads(sys: System, step: Step, next: System) {
    Known(CoreOf(sys)) && Guarded(sys, step) && next == Next(sys, step)
  }

  lemma RunLeads(trace: seq<System>, steps: seq<Step>, lanes: seq<Name>, start: real, k: nat)
    requires IsRun(trace, steps, lanes, start) && k < |steps|
    ensures |trace| == |steps| + 1 && Leads(trace[k], steps[k], trace[k + 1])
  {
  }

  lemma {:induction false} RunInvariant(trace: seq<System>, steps: seq<Step>, lanes: seq<Name>, start: real, i: nat)
    requires IsRun(trace, steps, lanes, start) && i < |trace|
    ensures Invariant(trace[i])
  {
    if i == 0 {
      InitialInvariant(lanes, start);
    } else {
      RunInvariant(trace, steps, lanes, start, i - 1);
      InvariantOneMore(trace, steps, lanes, start, i - 1);
    }
  }

  lemma InvariantOneMore(trace: seq<System>, steps: seq<Step>, lanes: seq<Name>, start: real, k: nat)
    requires IsRun(trace, steps, lanes, start) && k < |steps| && |trace| == |steps| + 1 && Invariant(trace[k])
    ensures Invariant(trace[k + 1])
  {
    RunLeads(trace, steps, lanes, start, k);
    StepInvariant(trace[k], steps[k]);
  }

  // Ownership is a bijection in every reachable state: a job runs exactly
  // while one shard holds it, that shard alone, and the job names it back --
  // but for a run a local lane is between the two halves of cancelling.
  lemma OwnershipIsABijection(trace: seq<System>, steps: seq<Step>, lanes: seq<Name>, start: real, i: nat, id: RunId)
    requires IsRun(trace, steps, lanes, start) && i < |trace|
    ensures var c := CoreOf(trace[i]);
            IsRunning(c, id) && id !in Adrift(trace[i])
            <==> exists n :: Holds(c, n, id) && Names(c, id, n) && forall m :: Holds(c, m, id) ==> m == n
  {
    RunInvariant(trace, steps, lanes, start, i);
    var c := CoreOf(trace[i]);
    if IsRunning(c, id) && id !in Adrift(trace[i]) {
      var n := c.jobs[id].shard.value;
      assert Holds(c, n, id) <==> Names(c, id, n);
      forall m | Holds(c, m, id) ensures m == n {
        assert Names(c, id, m);
      }
    }
  }

  // The cancel of a run a lane is in the middle of cancelling is on disk still.
  ghost predicate CancelOutstanding(s: State, adrift: set<RunId>) {
    exists e :: e in s.disk.jobs && e.runId in adrift && e.runId in s.core.jobs && e.stop != s.core.jobs[e.runId].stop
  }

  // At every lock release the disk holds exactly the projection of memory, if and
  // only if no local lane is between the two halves of a cancel that nothing has
  // been written since.
  lemma DiskIsTheProjection(trace: seq<System>, steps: seq<Step>, lanes: seq<Name>, start: real, i: nat)
    requires IsRun(trace, steps, lanes, start) && i < |trace|
    ensures Known(CoreOf(trace[i]))
    ensures trace[i].q.disk == Project(CoreOf(trace[i])) <==> !CancelOutstanding(trace[i].q, Adrift(trace[i]))
  {
    RunInvariant(trace, steps, lanes, start, i);
    ProjectedIff(trace[i].q, Adrift(trace[i]));
  }

  lemma ProjectedIff(s: State, adrift: set<RunId>)
    requires Durable(s, adrift)
    ensures s.disk == Project(s.core) <==> !CancelOutstanding(s, adrift)
  {
    var saved := Project(s.core).jobs;
    if !CancelOutstanding(s, adrift) {
      forall k | 0 <= k < |saved| ensures s.disk.jobs[k] == saved[k] {
        assert s.disk.jobs[k] in s.disk.jobs;
        assert s.core.order[k] in s.core.jobs;
      }
      assert s.disk.jobs == saved;
    }
    if s.disk == Project(s.core) {
      forall e | e in s.disk.jobs ensures e.runId in s.core.jobs ==> e.stop == s.core.jobs[e.runId].stop {
        var k :| 0 <= k < |saved| && saved[k] == e;
      }
    }
  }

  // A run that is no longer waiting or running never is again, through late
  // reports, retries and restarts, and is archived at most once.
  ghost predicate Over(sys: System, id: RunId) {
    id in sys.minted && id !in CoreOf(sys).order
  }

  lemma StepOver(sys: System, step: Step, id: RunId)
    requires Invariant(sys) && Guarded(sys, step) && Over(sys, id)
    ensures Over(Next(sys, step), id)
    ensures id in CoreOf(sys).jobs && id in CoreOf(Next(sys, step)).jobs ==>
              CoreOf(Next(sys, step)).jobs[id] == CoreOf(sys).jobs[id]
    ensures id in CoreOf(sys).jobs && id !in CoreOf(Next(sys, step)).jobs ==> Dies(sys, step)
  {
    StepInvariant(sys, step);
    if IsLaneStep(step) {
      LaneNextAdvance(sys, step);
      LaneCompletes(sys, step);
    } else if IsRemoteStep(step) {
      RemoteNextAdvance(sys, step);
      RemoteCompletes(sys, step);
    } else if IsLifeStep(step) {
      LifeOver(sys, step, id);
    } else {
      ControlledAdvance(sys.q, step, Adrift(sys));
    }
  }

  lemma LifeOver(sys: System, step: Step, id: RunId)
    requires Invariant(sys) && Guarded(sys, step) && Over(sys, id) && IsLifeStep(step)
    ensures var next := LifeNext(sys, step);
            Over(next, id)
            && (id in CoreOf(sys).jobs && id in CoreOf(next).jobs ==> CoreOf(next).jobs[id] == CoreOf(sys).jobs[id])
            && (id in CoreOf(sys).jobs && id !in CoreOf(next).jobs ==> Dies(sys, step))
  {
    if Dies(sys, step) {
      LeftInvariant(sys, step);
      CrashFiled(Left(sys, step), step.now);
      RestartSound(Left(sys, step).q, step.now);
    }
  }

  lemma OverOneMore(trace: seq<System>, steps: seq<Step>, lanes: seq<Name>, start: real, k: nat, id: RunId)
    requires IsRun(trace, steps, lanes, start) && k < |steps| && |trace| == |steps| + 1 && Over(trace[k], id)
    ensures Over(trace[k + 1], id)
    ensures id in CoreOf(trace[k + 1]).jobs ==> id in CoreOf(trace[k]).jobs && CoreOf(trace[k + 1]).jobs[id] == CoreOf(trace[k]).jobs[id]
  {
    RunInvariant(trace, steps, lanes, start, k);
    RunLeads(trace, steps, lanes, start, k);
    StepOver(trace[k], steps[k], id);
    if id !in CoreOf(trace[k]).jobs {
      StaysForgotten(trace[k], steps[k], id);
    }
  }

  lemma {:induction false} TerminalIsForever(trace: seq<System>, steps: seq<Step>, lanes: seq<Name>, start: real, i: nat, j: nat, id: RunId)
    requires IsRun(trace, steps, lanes, start) && i <= j < |trace|
    requires id in CoreOf(trace[i]).jobs && Terminal(CoreOf(trace[i]).jobs[id].status)
    ensures id in CoreOf(trace[j]).jobs ==> CoreOf(trace[j]).jobs[id] == CoreOf(trace[i]).jobs[id]
    ensures Over(trace[j], id)
    decreases j
  {
    if i < j {
      TerminalIsForever(trace, steps, lanes, start, i, j - 1, id);
      OverOneMore(trace, steps, lanes, start, j - 1, id);
    } else {
      RunInvariant(trace, steps, lanes, start, j);
    }
  }

  // A run a restart forgot does not come back.
  lemma StaysForgotten(sys: System, step: Step, id: RunId)
    requires Invariant(sys) && Guarded(sys, step) && Over(sys, id) && id !in CoreOf(sys).jobs
    ensures id !in CoreOf(Next(sys, step)).jobs
  {
    if IsLaneStep(step) {
      LaneNextAdvance(sys, step);
    } else if IsRemoteStep(step) {
      RemoteNextAdvance(sys, step);
    } else if IsLifeStep(step) {
      LifeForgets(sys, step, id);
    } else {
      ControlledAdvance(sys.q, step, Adrift(sys));
    }
  }

  lemma LifeForgets(sys: System, step: Step, id: RunId)
    requires Invariant(sys) && Guarded(sys, step) && Over(sys, id) && id !in CoreOf(sys).jobs && IsLifeStep(step)
    ensures id !in CoreOf(LifeNext(sys, step)).jobs
  {
    LifeOver(sys, step, id);
    if Dies(sys, step) {
      RestartSound(Left(sys, step).q, step.now);
    }
  }

  lemma ArchivedOnce(trace: seq<System>, steps: seq<Step>, lanes: seq<Name>, start: real, i: nat, id: RunId)
    requires IsRun(trace, steps, lanes, start) && i < |trace|
    ensures multiset(trace[i].archived)[id] <= 1
    ensures id in trace[i].archived ==> Over(trace[i], id)
  {
    RunInvariant(trace, steps, lanes, start, i);
    NoDupCount(trace[i].archived, id);
  }

  // ---- a cancel is never forgotten ------------------------------------

  // Cancel is being carried out, or has been.
  ghost predicate Quitting(sys: System, id: RunId) {
    Over(sys, id) || (id in CoreOf(sys).jobs && CancelHeld(CoreOf(sys).jobs[id]))
  }

  lemma {:induction false} RestoreDrops(c: Core, entries: seq<SavedJob>, id: RunId)
    requires id !in c.order
    requires forall e | e in entries && e.runId == id :: e.stop == Some(CancelStop)
    ensures id !in RestoreJobs(c, entries).order
    decreases |entries|
  {
    if entries != [] {
      RestoreDrops(c, entries[..|entries| - 1], id);
      assert entries[|entries| - 1] in entries;
    }
  }

  // Whatever state.json has on the run says that it is being cancelled.
  ghost predicate SavedCancelled(sys: System, id: RunId) {
    forall e | e in sys.q.disk.jobs && e.runId == id :: e.stop == Some(CancelStop)
  }

  lemma {:induction false} RestoreAdds(c: Core, entries: seq<SavedJob>, e: SavedJob)
    requires c.jobs.Keys == Elems(c.order) && NO_ID !in SavedIds(entries)
    requires e in entries && e.stop != Some(CancelStop)
    ensures e.runId in RestoreJobs(c, entries).order
    decreases |entries|
  {
    var last := |entries| - 1;
    assert entries == entries[..last] + [entries[last]];
    assert SavedIds(entries) == SavedIds(entries[..last]) + {entries[last].runId};
    RestoreRows(c, entries[..last]);
    RestoreJobRows(RestoreJobs(c, entries[..last]), entries[last], Revived(entries[last]));
    if e in entries[..last] {
      RestoreAdds(c, entries[..last], e);
    }
  }

  // A restart brings a run back if and only if something state.json has on it is
  // not a cancel.
  lemma CrashOverIff(sys: System, now: real, id: RunId)
    requires Invariant(sys) && id in sys.minted
    ensures Over(Crash(sys, now), id) <==> SavedCancelled(sys, id)
  {
    CrashFiled(sys, now);
    SavedIsOrder(sys.q, Adrift(sys));
    var q := sys.q;
    var c0 := RestoreSettings(FreshCore(q.core.lanes, q.core.rows, now), q.disk);
    if SavedCancelled(sys, id) {
      RestoreDrops(c0, q.disk.jobs, id);
    } else {
      var e :| e in q.disk.jobs && e.runId == id && e.stop != Some(CancelStop);
      RestoreAdds(c0, q.disk.jobs, e);
    }
  }

  lemma QuittingIsSaved(sys: System, id: RunId)
    requires Invariant(sys) && Quitting(sys, id) && id !in Adrift(sys)
    ensures SavedCancelled(sys, id)
  {
    var q := sys.q;
    forall e | e in q.disk.jobs && e.runId == id ensures e.stop == Some(CancelStop) {
      var i :| 0 <= i < |q.disk.jobs| && q.disk.jobs[i] == e;
      assert q.core.order[i] == id;
    }
  }

  // Nothing runs after a restart.
  lemma CrashQuitsIff(sys: System, now: real, id: RunId)
    requires Invariant(sys) && Quitting(sys, id)
    ensures Quitting(Crash(sys, now), id) <==> SavedCancelled(sys, id)
  {
    CrashOverIff(sys, now, id);
    RestartSound(sys.q, now);
    assert sys.minted == Crash(sys, now).minted;
  }

  // A step forgets a cancel if and only if the process dies in it while the run
  // is between the two halves of a local cancel and state.json, written since by
  // something else, no longer says so.
  lemma StepQuitsIff(sys: System, step: Step, id: RunId)
    requires Invariant(sys) && Guarded(sys, step) && Quitting(sys, id)
    ensures Quitting(Next(sys, step), id) <==> !Dies(sys, step) || SavedCancelled(sys, id)
    ensures id !in Adrift(sys) ==> SavedCancelled(sys, id)
  {
    if id !in Adrift(sys) {
      QuittingIsSaved(sys, id);
    }
    if Dies(sys, step) {
      DeathIsCrash(sys, step);
      DeathQuitsIff(sys, step, id);
    } else {
      StepInvariant(sys, step);
      QuitsOnward(sys, step, id);
    }
  }

  lemma DeathIsCrash(sys: System, step: Step)
    requires Known(CoreOf(sys)) && Dies(sys, step)
    ensures Next(sys, step) == Crash(Left(sys, step), step.now)
  {
  }

  lemma DeathQuitsIff(sys: System, step: Step, id: RunId)
    requires Invariant(sys) && Quitting(sys, id) && Dies(sys, step)
    ensures Quitting(Crash(Left(sys, step), step.now), id) <==> SavedCancelled(sys, id)
  {
    LeftInvariant(sys, step);
    CrashQuitsIff(Left(sys, step), step.now, id);
  }

  lemma QuitsOnward(sys: System, step: Step, id: RunId)
    requires Invariant(sys) && Guarded(sys, step) && Quitting(sys, id) && !Dies(sys, step) && Invariant(Next(sys, step))
    ensures Quitting(Next(sys, step), id)
  {
    if IsLaneStep(step) {
      LaneQuits(sys, step, LaneNext(sys, step), id);
    } else if IsRemoteStep(step) {
      RemoteQuits(sys, step, RemoteNext(sys, step), id);
    } else if IsLifeStep(step) {
      LifeQuits(sys, step, LifeNext(sys, step), id);
    } else {
      ControlledAdvance(sys.q, step, Adrift(sys));
      AdvanceQuits(sys, sys.(q := Controlled(sys.q, step)), id);
    }
  }

  lemma LaneQuits(sys: System, step: Step, next: System, id: RunId)
    requires Invariant(sys) && Quitting(sys, id) && IsLaneStep(step) && next == LaneNext(sys, step) && Invariant(next)
    ensures Quitting(next, id)
  {
    LaneNextAdvance(sys, step);
    LaneCompletes(sys, step);
    AdvanceQuits(sys, next, id);
  }

  lemma RemoteQuits(sys: System, step: Step, next: System, id: RunId)
    requires Invariant(sys) && Quitting(sys, id) && IsRemoteStep(step) && next == RemoteNext(sys, step) && Invariant(next)
    ensures Quitting(next, id)
  {
    RemoteNextAdvance(sys, step);
    RemoteCompletes(sys, step);
    AdvanceQuits(sys, next, id);
  }

  lemma LifeQuits(sys: System, step: Step, next: System, id: RunId)
    requires Invariant(sys) && Quitting(sys, id) && Guarded(sys, step) && IsLifeStep(step) && !Dies(sys, step)
    requires next == LifeNext(sys, step)
    ensures Quitting(next, id)
  {
  }

  lemma AdvanceQuits(sys: System, next: System, id: RunId)
    requires Invariant(sys) && Invariant(next) && Quitting(sys, id) && next.minted == sys.minted
    requires Advance(CoreOf(sys), CoreOf(next))
    ensures Quitting(next, id)
  {
  }

  // Once cancel is asked of a running job that the queue itself had not
  // paused, the job is never queued or paused again, whatever is pressed,
  // lost, handed back or restarted -- unless the process dies between the two
  // halves of a local lane's cancel after state.json was written in between
  // (LocalCancelCanBeLost; StepQuitsIff says that nothing else loses it).
  lemma {:induction false} CancelIsSticky(trace: seq<System>, steps: seq<Step>, lanes: seq<Name>, start: real, i: nat, j: nat, id: RunId)
    requires IsRun(trace, steps, lanes, start) && i <= j < |trace| && Quitting(trace[i], id)
    requires forall k | i <= k < j && Dies(trace[k], steps[k]) && id in Adrift(trace[k]) :: SavedCancelled(trace[k], id)
    ensures Quitting(trace[j], id)
    decreases j
  {
    if i < j {
      CancelIsSticky(trace, steps, lanes, start, i, j - 1, id);
      QuitsOneMore(trace, steps, lanes, start, j - 1, id);
    }
  }

  lemma QuitsOneMore(trace: seq<System>, steps: seq<Step>, lanes: seq<Name>, start: real, k: nat, id: RunId)
    requires IsRun(trace, steps, lanes, start) && k < |steps| && |trace| == |steps| + 1 && Quitting(trace[k], id)
    requires Dies(trace[k], steps[k]) && id in Adrift(trace[k]) ==> SavedCancelled(trace[k], id)
    ensures Quitting(trace[k + 1], id)
  {
    RunInvariant(trace, steps, lanes, start, k);
    RunLeads(trace, steps, lanes, start, k);
    StepQuitsIff(trace[k], steps[k], id);
  }

  lemma QuittingNeverWaits(sys: System, id: RunId)
    requires Invariant(sys) && Quitting(sys, id)
    ensures id in CoreOf(sys).jobs ==> !Pending(CoreOf(sys).jobs[id].status)
  {
  }

  // ---- checkpoints ----------------------------------------------------

  lemma {:induction false} RestoreKeepsRows(c: Core, entries: seq<SavedJob>, id: RunId)
    requires id in RestoreJobs(c, entries).order && id !in c.order && c.jobs.Keys == Elems(c.order)
    requires forall i, j | 0 <= i < j < |entries| :: entries[i].runId != entries[j].runId
    ensures FileOf(RestoreJobs(c, entries), id) == FileOf(c, id)
    decreases |entries|
  {
    var last := |entries| - 1;
    var d := RestoreJobs(c, entries[..last]);
    RestoreJobsIds(c, entries[..last]);
    if id in d.order {
      RestoreKeepsRows(c, entries[..last], id);
      RestoreOther(d, entries[last], Revived(entries[last]), id);
      var e :| e in entries[..last] && e.runId == id;
      assert entries[last].runId != id;
    } else {
      UnmentionedRows(c, entries[..last], id);
    }
  }

  lemma RestoreOther(c: Core, e: SavedJob, job: Job, id: RunId)
    ensures e.runId != id ==> FileOf(RestoreAs(c, e, job), id) == FileOf(c, id)
  {
  }

  lemma {:induction false} UnmentionedRows(c: Core, entries: seq<SavedJob>, id: RunId)
    requires id !in SavedIds(entries)
    ensures FileOf(RestoreJobs(c, entries), id) == FileOf(c, id)
    decreases |entries|
  {
    if entries != [] {
      var last := |entries| - 1;
      assert entries[last] in entries;
      assert SavedIds(entries[..last]) <= SavedIds(entries);
      UnmentionedRows(c, entries[..last], id);
      RestoreOther(RestoreJobs(c, entries[..last]), entries[last], Revived(entries[last]), id);
    }
  }

  lemma DeathGrows(sys: System, step: Step, id: RunId)
    requires Invariant(sys) && Dies(sys, step)
    requires id in CoreOf(Crash(Left(sys, step), step.now)).order
    ensures Extends(FileOf(CoreOf(sys), id), FileOf(CoreOf(Crash(Left(sys, step), step.now)), id))
  {
    LeftInvariant(sys, step);
    CrashKeepsRows(Left(sys, step), step.now, id);
  }

  lemma DeathStepGrows(sys: System, step: Step, next: System, id: RunId)
    requires Invariant(sys) && Dies(sys, step) && next == Next(sys, step) && id in CoreOf(next).order
    ensures Extends(FileOf(CoreOf(sys), id), FileOf(CoreOf(next), id))
  {
    DeathIsCrash(sys, step);
    DeathGrows(sys, step, id);
  }

  lemma LivesOnRows(sys: System, step: Step)
    requires Known(CoreOf(sys)) && IsLifeStep(step) && !Dies(sys, step)
    ensures CoreOf(LifeNext(sys, step)).rows == CoreOf(sys).rows
  {
  }

  lemma StepGrows(sys: System, step: Step, id: RunId)
    requires Invariant(sys) && Guarded(sys, step)
    requires id in CoreOf(sys).order && id in CoreOf(Next(sys, step)).order
    ensures Extends(FileOf(CoreOf(sys), id), FileOf(CoreOf(Next(sys, step)), id))
  {
    if Dies(sys, step) {
      DeathStepGrows(sys, step, Next(sys, step), id);
    } else if IsLaneStep(step) {
      LaneNextAdvance(sys, step);
    } else if IsRemoteStep(step) {
      RemoteNextAdvance(sys, step);
    } else if IsLifeStep(step) {
      LivesOnRows(sys, step);
    } else {
      ControlledAdvance(sys.q, step, Adrift(sys));
    }
  }

  lemma CrashKeepsRows(sys: System, now: real, id: RunId)
    requires Invariant(sys) && id in CoreOf(Crash(sys, now)).order
    ensures FileOf(CoreOf(sys), id) == FileOf(CoreOf(Crash(sys, now)), id)
  {
    var q := sys.q;
    var c0 := RestoreSettings(FreshCore(q.core.lanes, q.core.rows, now), q.disk);
    RestoreKeepsRows(c0, q.disk.jobs, id);
  }

  lemma StepMints(sys: System, step: Step)
    requires Invariant(sys) && Guarded(sys, step)
    ensures sys.minted <= Next(sys, step).minted
  {
    if IsLaneStep(step) {
      LaneCompletes(sys, step);
    } else if IsRemoteStep(step) {
      RemoteCompletes(sys, step);
    }
  }

  // What was unfinished stays known, and of what is unfinished next the
  // checkpoint has grown.
  ghost predicate Grew(sys: System, next: System) {
    sys.minted <= next.minted
    && forall id | id in sys.minted && id in CoreOf(next).order ::
      id in CoreOf(sys).order && Extends(FileOf(CoreOf(sys), id), FileOf(CoreOf(next), id))
  }

  lemma StepGrew(sys: System, step: Step)
    requires Invariant(sys) && Guarded(sys, step)
    ensures Grew(sys, Next(sys, step))
  {
    StepMints(sys, step);
    var next := Next(sys, step);
    forall id | id in sys.minted && id in CoreOf(next).order
      ensures id in CoreOf(sys).order && Extends(FileOf(CoreOf(sys), id), FileOf(CoreOf(next), id)) {
      if id !in CoreOf(sys).order {
        StepOver(sys, step, id);
      }
      StepGrows(sys, step, id);
    }
  }

  lemma {:induction false} GrewAll(trace: seq<System>, i: nat, j: nat, id: RunId)
    requires i <= j < |trace| && forall k | i <= k < j :: Grew(trace[k], trace[k + 1])
    requires id in trace[i].minted
    ensures id in trace[j].minted
    ensures id in CoreOf(trace[j]).order ==>
              id in CoreOf(trace[i]).order && Extends(FileOf(CoreOf(trace[i]), id), FileOf(CoreOf(trace[j]), id))
    decreases j
  {
    if i < j {
      GrewAll(trace, i, j - 1, id);
      assert Grew(trace[j - 1], trace[j - 1 + 1]);
      if id in CoreOf(trace[j]).order {
        ExtendsTrans(FileOf(CoreOf(trace[i]), id), FileOf(CoreOf(trace[j - 1]), id), FileOf(CoreOf(trace[j]), id));
      }
    }
  }

  // Through every step, torn append and restart, the lines of an unfinished
  // run's checkpoint stay if and only if it did not end in a row without its
  // newline, or nothing was written after it. Then a later claim is handed every
  // row that was in it; otherwise every row but that one.
  lemma CheckpointsOnlyGrow(trace: seq<System>, steps: seq<Step>, lanes: seq<Name>, start: real, i: nat, j: nat, id: RunId)
    requires IsRun(trace, steps, lanes, start) && i <= j < |trace|
    requires id in trace[i].minted && id in CoreOf(trace[j]).order
    ensures id in CoreOf(trace[i]).order
    ensures var f, g := FileOf(CoreOf(trace[i]), id), FileOf(CoreOf(trace[j]), id);
            && (AllLines(f) <= AllLines(g) <==> !Loose(f) || f == g)
            && (!Loose(f) || f == g ==> RowsOf(CoreOf(trace[i]), id) <= RowsOf(CoreOf(trace[j]), id))
            && (Loose(f) && f != g ==>
                  |AllLines(g)| > |f.lines|
                  && RowsOf(CoreOf(trace[j]), id) == LoadLines(f.lines) + LoadLines(AllLines(g)[|f.lines| + 1..]))
  {
    forall k | i <= k < j ensures Grew(trace[k], trace[k + 1]) {
      RunInvariant(trace, steps, lanes, start, k);
      RunLeads(trace, steps, lanes, start, k);
      StepGrew(trace[k], steps[k]);
    }
    GrewAll(trace, i, j, id);
    LinesStayIff(FileOf(CoreOf(trace[i]), id), FileOf(CoreOf(trace[j]), id));
  }
}
