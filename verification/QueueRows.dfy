/** Who may write to a checkpoint. */
module QueueRows {
  import opened Seqs
  import opened Checkpoint
  import opened Queue
  import opened QueueRuns
  import opened QueueTheorems

  // Checkpoints were discarded at most.
  ghost predicate Sheds(c: Core, d: Core) {
    forall id | id in d.rows :: id in c.rows && d.rows[id] == c.rows[id]
  }

  lemma SettleSheds(c: Core, id: RunId)
    requires Known(c) && id in c.jobs
    ensures Sheds(c, SettleCore(c, id))
  {
  }

  lemma GiveBackSheds(c: Core, n: Name)
    requires Known(c) && n in c.shards
    ensures Sheds(c, GiveBackCore(c, n))
  {
    if c.shards[n].runId.Some? && IsRunning(c, c.shards[n].runId.value) {
      SettleSheds(c, c.shards[n].runId.value);
    }
  }

  lemma {:induction false} ReapEachSheds(s: State, visit: seq<Name>, now: real)
    requires Known(s.core)
    ensures Sheds(s.core, ReapEach(s, visit, now).core)
    decreases |visit|
  {
    if visit != [] {
      var last := |visit| - 1;
      var e := ReapEach(s, visit[..last], now);
      ReapEachSheds(s, visit[..last], now);
      if Silent(e.core, visit[last], now) {
        GiveBackSheds(MarkOffline(e.core, visit[last]), visit[last]);
      }
    }
  }

  lemma {:induction false} RestoreSheds(c: Core, entries: seq<SavedJob>)
    ensures Sheds(c, RestoreJobs(c, entries))
    decreases |entries|
  {
    if entries != [] {
      RestoreSheds(c, entries[..|entries| - 1]);
    }
  }

  lemma RunControlSheds(c: Core, step: Step)
    requires Known(c)
    ensures Sheds(c, RunControl(c, step).0)
  {
    if step.CancelStep? {
      assert Sheds(c, CancelCore(c, step.id).0);
    } else {
      RunControlKeeps(c, step);
    }
  }

  lemma RunControlKeeps(c: Core, step: Step)
    requires Known(c) && !step.CancelStep?
    ensures RunControl(c, step).0.rows == c.rows
  {
  }

  lemma ShardControlKeeps(c: Core, step: Step)
    requires Known(c)
    ensures ShardControl(c, step).0.rows == c.rows
  {
  }

  lemma UpkeepSheds(q: State, step: Step)
    requires Known(q.core) && !step.SyncStep?
    ensures Sheds(q.core, Upkeep(q, step).core)
  {
    match step
    case ReapStep(visit, now) => ReapEachSheds(q, visit, now);
    case RegisterStep(n, instance, now) =>
      if n in q.core.shards {
        GiveBackSheds(q.core, n);
      }
    case _ =>
  }

  lemma FinishSheds(q: State, n: Name, instance: Instance, id: RunId, outcome: Outcome, now: real)
    requires Known(q.core)
    ensures Sheds(q.core, ShardFinish(q, n, instance, id, outcome, now).0.core)
  {
  }

  lemma RemoteSheds(sys: System, step: Step)
    requires Known(CoreOf(sys)) && IsRemoteStep(step)
    ensures Sheds(CoreOf(sys), CoreOf(RemoteNext(sys, step)))
  {
    match step
    case ClaimBeginStep(n, instance, now) =>
      if RemoteShard(CoreOf(sys), n, instance) == None {
        GiveBackSheds(Touched(CoreOf(sys), n, now), n);
      }
    case ClaimEndStep(n, instance, now, wall) =>
    case FinishStep(n, instance, id, outcome, now) => FinishSheds(sys.q, n, instance, id, outcome, now);
  }

  lemma LaneStopSheds(sys: System, n: Name)
    requires Known(CoreOf(sys))
    ensures Sheds(CoreOf(sys), CoreOf(LaneStop(sys, n)))
  {
    if LaneBusy(sys, n) {
      SettleSheds(CoreOf(sys), sys.threads[n].run);
    }
  }

  lemma LaneOtherSheds(sys: System, step: Step)
    requires Known(CoreOf(sys)) && (step.LaneStartStep? || step.LaneCancelStep? || step.LaneEndStep?)
    ensures Sheds(CoreOf(sys), CoreOf(LaneNext(sys, step)))
  {
  }

  lemma LaneSheds(sys: System, step: Step)
    requires Known(CoreOf(sys)) && IsLaneStep(step) && !step.LaneRowStep?
    ensures Sheds(CoreOf(sys), CoreOf(LaneNext(sys, step)))
  {
    if step.LaneStopStep? {
      LaneStopSheds(sys, step.n);
    } else {
      LaneOtherSheds(sys, step);
    }
  }

  lemma LifeSheds(sys: System, step: Step)
    requires Known(CoreOf(sys)) && IsLifeStep(step)
    ensures Sheds(if Dies(sys, step) then CoreOf(Left(sys, step)) else CoreOf(sys), CoreOf(LifeNext(sys, step)))
  {
    if Dies(sys, step) {
      var left := CoreOf(Left(sys, step));
      RestoreSheds(RestoreSettings(FreshCore(left.lanes, left.rows, step.now), sys.q.disk), sys.q.disk.jobs);
    }
  }

  lemma ControlledSheds(q: State, step: Step)
    requires Known(q.core) && !step.SyncStep?
    ensures Sheds(q.core, Controlled(q, step).core)
  {
    var q1 := Apply(q, RunControl(q.core, step), TouchedBy(step));
    RunControlSheds(q.core, step);
    ShardControlKeeps(q1.core, step);
    UpkeepSheds(Apply(q1, ShardControl(q1.core, step), {}), step);
  }

  lemma UpkeepOnly(q: State, step: Step)
    requires Known(q.core) && step.SyncStep?
    ensures Controlled(q, step) == Upkeep(q, step)
  {
    assert Apply(q, RunControl(q.core, step), TouchedBy(step)) == q;
    assert Apply(q, ShardControl(q.core, step), {}) == q;
  }

  lemma SyncWrites(sys: System, step: Step, id: RunId)
    requires Known(CoreOf(sys)) && step.SyncStep? && FileOf(CoreOf(Next(sys, step)), id) != FileOf(CoreOf(sys), id)
    ensures var c, d := CoreOf(sys), CoreOf(Next(sys, step));
            RemoteShard(c, step.n, step.instance) == None && Owns(c, step.n, id)
            && step.run == Some(id) && FileOf(d, id) == AppendRows(FileOf(c, id), step.rows)
  {
    UpkeepOnly(sys.q, step);
    SyncWritesRows(sys.q, step.n, step.instance, step.run, step.progressed, step.rows, step.now, step.wall, id);
  }

  lemma SyncWritesRows(q: State, n: Name, instance: Instance, run: Option<RunId>, progressed: bool, rows: seq<Row>, now: real, wall: nat, id: RunId)
    requires Known(q.core) && FileOf(Sync(q, n, instance, run, progressed, rows, now, wall).0.core, id) != FileOf(q.core, id)
    ensures RemoteShard(q.core, n, instance) == None && Owns(q.core, n, id) && run == Some(id)
    ensures FileOf(Sync(q, n, instance, run, progressed, rows, now, wall).0.core, id) == AppendRows(FileOf(q.core, id), rows)
  {
  }

  // Who writes to the checkpoint of a run in a step, and what: a sync from the
  // process the queue has down as the owner of that very run, or the lane that
  // runs it, the whole of their rows; or its owner, cut short.
  ghost predicate Writes(sys: System, step: Step, id: RunId, f: File, g: File) {
    var c := CoreOf(sys);
    || (step.SyncStep? && RemoteShard(c, step.n, step.instance) == None && Owns(c, step.n, id)
        && step.run == Some(id) && g == AppendRows(f, step.rows))
    || (step.LaneRowStep? && LaneAt(sys, step.n, Busy(id)) && g == AppendRows(f, [step.row]))
    || (step.TornStep? && Tears(sys, step) && step.id == id && g == CrashAppending(f, step.rows, step.written, step.cut))
  }

  // A checkpoint is written to by nobody else, and by them only at its end; any
  // other change discards it.
  lemma RowsOnlyUnderOwnership(sys: System, step: Step, id: RunId)
    requires Known(CoreOf(sys)) && FileOf(CoreOf(Next(sys, step)), id) != NoFile
    requires FileOf(CoreOf(Next(sys, step)), id) != FileOf(CoreOf(sys), id)
    ensures Writes(sys, step, id, FileOf(CoreOf(sys), id), FileOf(CoreOf(Next(sys, step)), id))
  {
    if IsLaneStep(step) {
      if !step.LaneRowStep? {
        LaneSheds(sys, step);
      }
    } else if IsRemoteStep(step) {
      RemoteSheds(sys, step);
    } else if IsLifeStep(step) {
      LifeSheds(sys, step);
    } else if step.SyncStep? {
      SyncWrites(sys, step, id);
    } else {
      ControlledSheds(sys.q, step);
    }
  }

  lemma StepWhole(sys: System, step: Step, id: RunId)
    requires Known(CoreOf(sys)) && FileOf(CoreOf(sys), id).tail == None
    requires Tears(sys, step) && step.id == id ==> step.cut.BetweenLines?
    ensures FileOf(CoreOf(Next(sys, step)), id).tail == None
  {
    var f, g := FileOf(CoreOf(sys), id), FileOf(CoreOf(Next(sys, step)), id);
    if g != NoFile && g != f {
      RowsOnlyUnderOwnership(sys, step, id);
    }
  }

  // A checkpoint ends in a whole line unless the process died inside one of its
  // lines, or before the newline.
  lemma {:induction false} WholeUnlessTorn(trace: seq<System>, steps: seq<Step>, lanes: seq<Name>, start: real, i: nat, id: RunId)
    requires IsRun(trace, steps, lanes, start) && i < |trace|
    requires forall k | 0 <= k < i && Tears(trace[k], steps[k]) && steps[k].id == id :: steps[k].cut.BetweenLines?
    ensures FileOf(CoreOf(trace[i]), id).tail == None
  {
    if i > 0 {
      WholeUnlessTorn(trace, steps, lanes, start, i - 1, id);
      RunLeads(trace, steps, lanes, start, i - 1);
      StepWhole(trace[i - 1], steps[i - 1], id);
    }
  }
}
