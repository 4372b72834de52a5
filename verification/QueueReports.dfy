/**
 What registering, reporting and pausing come to: a registration, the runs that are
 archived, and the pauses a person asked for.
 */
module QueueReports {
  import opened Seqs
  import opened Queue
  import opened QueueInvariants
  import opened QueueRuns
  import opened QueueTheorems
  import opened QueueAnswers
  import opened QueuePauses

  // ---- registering --------------------------------------------------------

  // After a registration the caller is the shard of that name, heard from just now and
  // with the pause the name had; it has the run it had if it is the process that had
  // it. A run of the process before it is given back, and nobody else notices.
  ghost predicate RegisterTells(c: Core, n: Name, instance: Instance, now: real, d: Core, reply: Reply) {
    && (reply == Done <==> n !in c.lanes)
    && (reply != Done ==> d == c)
    && (reply == Done ==>
          && Registered(d, n, instance) && !d.shards[n].offline && d.shards[n].lastSeen == now
          && d.shards[n].paused == Barred(c, n) && n !in d.pausedNames
          && d.shards[n].runId == (if n in c.shards && c.shards[n].instance == instance then c.shards[n].runId else None)
          && (forall m | m in c.shards && m != n :: m in d.shards && d.shards[m] == c.shards[m])
          && (forall m | m in d.shards && m != n :: m in c.shards))
    && (reply == Done && n in c.shards && c.shards[n].instance != instance ==>
          forall id | HasRun(c, n, id) ::
            && (c.jobs[id].stop == Some(CancelStop) ==> Leaves(c, d, n, id, Cancelled))
            && (c.jobs[id].stop == Some(PauseStop) ==> Leaves(c, d, n, id, Paused))
            && (c.jobs[id].stop == None ==> Leaves(c, d, n, id, Queued)))
  }

  lemma SeatTaken(c: Core, e: Core, d: Core, n: Name, instance: Instance, now: real, adrift: set<RunId>)
    requires Sound(c, adrift) && n !in c.lanes
    requires e == if n in c.shards && c.shards[n].instance != instance then GiveBackCore(c, n) else c
    requires d == e.(pausedNames := e.pausedNames - {n}, shards := e.shards[n := Registration(c, n, instance, now)])
    ensures RegisterTells(c, n, instance, now, d, Done)
  {
    if n in c.shards && c.shards[n].instance != instance {
      GiveBackSound(c, n, adrift);
      GiveBackGates(c, n);
      forall id | HasRun(c, n, id)
        ensures c.jobs[id].stop == Some(CancelStop) ==> Leaves(c, d, n, id, Cancelled)
        ensures c.jobs[id].stop == Some(PauseStop) ==> Leaves(c, d, n, id, Paused)
        ensures c.jobs[id].stop == None ==> Leaves(c, d, n, id, Queued) {
        SettleCoreLeaves(c, n, id, adrift);
        assert e == SettleCore(c, id);
      }
    }
  }

  lemma RegisterIsTruthful(s: State, n: Name, instance: Instance, now: real, adrift: set<RunId>)
    requires Sound(s.core, adrift)
    ensures var (next, reply) := RegisterShard(s, n, instance, now);
            RegisterTells(s.core, n, instance, now, next.core, reply)
  {
    var e, d := RegisterIs(s, n, instance, now);
    if n !in s.core.lanes {
      SeatTaken(s.core, e, d, n, instance, now, adrift);
    }
  }

  // ---- on_complete --------------------------------------------------------

  // Only what is complete is to be archived, and only what was complete has been.
  ghost predicate CompleteOnly(sys: System) {
    && (forall id | id in sys.toArchive :: id in CoreOf(sys).jobs && CoreOf(sys).jobs[id].status == Complete)
    && (forall id | id in sys.archived && id in CoreOf(sys).jobs :: CoreOf(sys).jobs[id].status == Complete)
  }

  // What is newly to be archived after a step.
  ghost predicate NewlyComplete(sys: System, next: System) {
    && next.archived == sys.archived
    && forall id | id in next.toArchive && id !in sys.toArchive :: id in CoreOf(next).jobs && CoreOf(next).jobs[id].status == Complete
  }

  lemma LaneArchives(sys: System, step: Step)
    requires Invariant(sys) && IsLaneStep(step)
    ensures NewlyComplete(sys, LaneNext(sys, step))
  {
    if step.LaneEndStep? && LaneBusy(sys, step.n) && (step.status.Complete? || step.status.Failed?) {
      FinishFrees(CoreOf(sys), sys.threads[step.n].run, step.status, Adrift(sys));
    }
  }

  lemma RemoteArchives(sys: System, step: Step)
    requires Invariant(sys) && IsRemoteStep(step)
    ensures NewlyComplete(sys, RemoteNext(sys, step))
  {
    if step.FinishStep? {
      FinishIsTruthful(sys.q, step.n, step.instance, step.id, step.outcome, step.now, Adrift(sys));
    }
  }

  lemma ArchivedStaysComplete(sys: System, step: Step, next: System, id: RunId)
    requires Invariant(sys) && Guarded(sys, step) && next == Next(sys, step) && Over(sys, id)
    requires id in CoreOf(sys).jobs ==> CoreOf(sys).jobs[id].status == Complete
    ensures id in CoreOf(next).jobs ==> CoreOf(next).jobs[id].status == Complete
    ensures id in CoreOf(sys).jobs && id !in CoreOf(next).jobs ==> Dies(sys, step)
  {
    StepOver(sys, step, id);
    if id !in CoreOf(sys).jobs {
      StaysForgotten(sys, step, id);
    }
  }

  // What a step does to the two lists.
  lemma StepArchives(sys: System, step: Step, next: System)
    requires Invariant(sys) && Guarded(sys, step) && next == Next(sys, step)
    ensures if step.ArchiveStep? && step.id in sys.toArchive
            then next == sys.(toArchive := sys.toArchive - {step.id}, archived := sys.archived + [step.id])
            else if Dies(sys, step) then next.toArchive == {} && next.archived == sys.archived
            else NewlyComplete(sys, next)
  {
    if IsLaneStep(step) {
      LaneArchives(sys, step);
    } else if IsRemoteStep(step) {
      RemoteArchives(sys, step);
    } else if Dies(sys, step) {
      DeathIsCrash(sys, step);
      LeftSame(sys, step);
    }
  }

  lemma StepCompleteOnly(sys: System, step: Step, next: System)
    requires Invariant(sys) && Guarded(sys, step) && CompleteOnly(sys) && next == Next(sys, step)
    ensures CompleteOnly(next)
  {
    StepArchives(sys, step, next);
    forall id | id in next.toArchive && id in sys.toArchive ensures id in CoreOf(next).jobs && CoreOf(next).jobs[id].status == Complete {
      ArchivedStaysComplete(sys, step, next, id);
    }
    forall id | id in sys.archived && id in CoreOf(next).jobs ensures CoreOf(next).jobs[id].status == Complete {
      ArchivedStaysComplete(sys, step, next, id);
    }
  }

  // In every run, on_complete is called of no run but a complete one: not of a failed or
  // a cancelled one, and not of one that was given back.
  lemma {:induction false} OnlyCompleteIsArchived(trace: seq<System>, steps: seq<Step>, lanes: seq<Name>, start: real, i: nat)
    requires IsRun(trace, steps, lanes, start) && i < |trace|
    ensures CompleteOnly(trace[i])
  {
    if i > 0 {
      OnlyCompleteIsArchived(trace, steps, lanes, start, i - 1);
      RunInvariant(trace, steps, lanes, start, i - 1);
      RunLeads(trace, steps, lanes, start, i - 1);
      StepCompleteOnly(trace[i - 1], steps[i - 1], trace[i]);
    }
  }

  // And a complete report is to be archived from then on, a failed one is not.
  lemma CompleteReportIsArchived(sys: System, n: Name, instance: Instance, id: RunId, outcome: Outcome, now: real)
    requires Invariant(sys)
    ensures var next := FinishRemote(sys, n, instance, id, outcome, now);
            next.toArchive == if outcome == CompleteOutcome && Registered(CoreOf(sys), n, instance) && HasRun(CoreOf(sys), n, id)
                              then sys.toArchive + {id} else sys.toArchive
  {
    FinishIsTruthful(sys.q, n, instance, id, outcome, now, Adrift(sys));
  }

  // ---- pauses a person asked for --------------------------------------------

  // A run that a person paused while it waited stays paused when the queue is resumed.
  // One that was running goes on pausing if and only if the queue had not asked it to
  // pause before: the queue takes its own pause back, and that is all there is.
  lemma PersonPauseStaysIff(c: Core, id: RunId)
    requires Orderly(c) && PauseCore(c, id).1 == Done
    ensures var d := ResumeAllCore(PauseCore(c, id).0);
            && id in c.jobs && id in d.jobs
            && (Pending(c.jobs[id].status) ==> d.jobs[id].status == Paused)
            && (!Pending(c.jobs[id].status) ==>
                  IsRunning(c, id) && IsRunning(d, id)
                  && (d.jobs[id].stop == Some(PauseStop) <==> !c.jobs[id].pausedByQueue)
                  && (d.jobs[id].stop == None <==> c.jobs[id].pausedByQueue))
  {
    assert id in c.order;
  }

  // Pausing a run and resuming it leaves one that runs as it was, and has one that waits
  // queued, with no mark of the queue's own pause on it.
  lemma ResumeUndoesPause(c: Core, id: RunId)
    requires PauseCore(c, id).1 == Done && id in c.jobs && c.jobs[id].stop == None
    ensures var d := ResumeCore(PauseCore(c, id).0, id).0;
            id in d.jobs && d.jobs[id] == if c.jobs[id].status.Running? then c.jobs[id] else c.jobs[id].(status := Queued, pausedByQueue := false)
  {
    var job := c.jobs[id];
    var paused := if job.status.Running? then job.(stop := Some(PauseStop)) else job.(status := Paused, pausedByQueue := false);
    assert PauseCore(c, id).0 == WithJob(c, id, paused);
    ResumesPaused(WithJob(c, id, paused), id);
  }

  lemma ResumesPaused(c: Core, id: RunId)
    requires id in c.jobs && (c.jobs[id].status.Paused? || (c.jobs[id].status.Running? && c.jobs[id].stop == Some(PauseStop)))
    ensures ResumeCore(c, id).0
         == WithJob(c, id, if c.jobs[id].status.Running? then c.jobs[id].(stop := None)
                           else c.jobs[id].(status := Queued, pausedByQueue := false))
  {
  }

  // Who may be paused, resumed and cancelled: not a finished run, and a run being
  // cancelled is not paused.
  lemma ControlsAcceptedIff(c: Core, id: RunId)
    ensures PauseCore(c, id).1 == Done
            <==> id in c.jobs && !Terminal(c.jobs[id].status) && !(c.jobs[id].status == Running && c.jobs[id].stop == Some(CancelStop))
    ensures ResumeCore(c, id).1 == Done <==> id in c.jobs && !Terminal(c.jobs[id].status)
    ensures CancelCore(c, id).1 == Done <==> id in c.jobs && !Terminal(c.jobs[id].status)
    ensures PauseCore(c, id).1 == UnknownRun <==> id !in c.jobs
    ensures ResumeCore(c, id).1 == UnknownRun <==> id !in c.jobs
    ensures CancelCore(c, id).1 == UnknownRun <==> id !in c.jobs
  {
  }
}
