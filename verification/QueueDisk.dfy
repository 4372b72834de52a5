/** Memory and disk: what state.json holds at every lock release, and what a new process makes of it. */
module QueueDisk {
  import opened Seqs
  import opened Checkpoint
  import opened Queue
  import opened QueueRuns
  import Contract

  // state.json is the projection of memory, but for a run a local lane is in
  // the middle of cancelling: what that one is asked to do may be out of date.
  ghost predicate Faithful(s: State, adrift: set<RunId>) {
    && s.disk.paused == s.core.paused && s.disk.pausedShards == PausedShards(s.core)
    && s.disk.schedules == s.core.schedules && |s.disk.jobs| == |s.core.order|
    && forall i | 0 <= i < |s.core.order| ::
      var id := s.core.order[i];
      id in s.core.jobs && s.disk.jobs[i].runId == id
      && s.disk.jobs[i].(stop := None) == Save(id, s.core.jobs[id]).(stop := None)
      && (id !in adrift ==> s.disk.jobs[i].stop == s.core.jobs[id].stop)
  }

  ghost predicate Durable(s: State, adrift: set<RunId>) {
    Known(s.core) && Faithful(s, adrift) && PlacesCurrent(s)
  }

  // Just persisted.
  ghost predicate Booked(s: State) {
    Known(s.core) && s.disk == Project(s.core) && PlacesCurrent(s)
  }

  // Not persisted, and nothing to persist.
  ghost predicate Quiet(s: State, r: State) {
    && r.disk == s.disk && r.places == s.places
    && r.core.jobs == s.core.jobs && r.core.order == s.core.order
    && r.core.paused == s.core.paused && r.core.schedules == s.core.schedules
    && r.core.lanes == s.core.lanes && PausedShards(r.core) == PausedShards(s.core)
  }

  ghost predicate Kept(s: State, r: State) {
    Booked(r) || Quiet(s, r)
  }


  lemma BookedDurable(s: State, adrift: set<RunId>)
    requires Booked(s)
    ensures Durable(s, adrift)
  {
    forall i | 0 <= i < |s.core.order|
      ensures var id := s.core.order[i];
              id in s.core.jobs && s.disk.jobs[i] == Save(id, s.core.jobs[id]) {
      var id := s.core.order[i];
      assert id in s.core.jobs;
    }
  }

  lemma KeptDurable(s: State, r: State, adrift: set<RunId>)
    requires Durable(s, adrift) && Kept(s, r)
    ensures Durable(r, adrift)
  {
    if Booked(r) {
      BookedDurable(r, adrift);
    }
  }

  lemma ChangedBooked(s: State, touched: set<RunId>)
    requires Known(s.core)
    ensures Booked(Changed(s, touched))
  {
  }

  // A control is refused without a trace, or persisted.
  lemma RefusedUnchanged(c: Core, step: Step)
    requires Known(c)
    ensures RunControl(c, step).1.Done? || RunControl(c, step).0 == c
    ensures ShardControl(c, step).1.Done? || ShardControl(c, step).0 == c
  {
  }

  lemma ApplyKept(s: State, result: (Core, Reply), touched: set<RunId>)
    requires Known(result.0) && (result.1.Done? || result.0 == s.core)
    ensures Kept(s, Apply(s, result, touched))
  {
  }

  lemma TouchQuiet(s: State, n: Name, now: real)
    requires n in s.core.shards
    ensures Quiet(s, s.(core := Touched(s.core, n, now)))
  {
    assert PausedShards(Touched(s.core, n, now)) == PausedShards(s.core);
  }

  lemma ReleaseKept(s: State, id: RunId)
    requires Known(s.core)
    ensures Kept(s, Release(s, id))
  {
    if IsRunning(s.core, id) {
      ChangedBooked(s.(core := SettleCore(s.core, id)), {id});
    }
  }

  lemma ClaimBeginKept(s: State, n: Name, instance: Instance, now: real)
    requires Known(s.core)
    ensures Kept(s, ClaimBegin(s, n, instance, now).0)
  {
    if RemoteShard(s.core, n, instance) == None {
      TouchQuiet(s, n, now);
      var s1 := s.(core := Touched(s.core, n, now));
      if s1.core.shards[n].runId.Some? {
        ReleaseKept(s1, s1.core.shards[n].runId.value);
      }
    }
  }

  lemma ClaimEndKept(s: State, n: Name, instance: Instance, now: real, wall: nat)
    requires Known(s.core)
    ensures Kept(s, ClaimEnd(s, n, instance, now, wall).0)
  {
    if RemoteShard(s.core, n, instance) == None {
      TouchQuiet(s, n, now);
      var s1 := s.(core := Touched(s.core, n, now));
      var run := NextRunnable(s1.core, true);
      if run.Some? {
        ChangedBooked(s1.(core := StartCore(s1.core, run.value, n)), {run.value});
      }
    }
  }

  lemma ShardFinishKept(s: State, n: Name, instance: Instance, id: RunId, outcome: Outcome, now: real)
    requires Known(s.core)
    ensures Kept(s, ShardFinish(s, n, instance, id, outcome, now).0)
  {
    if RemoteShard(s.core, n, instance) == None {
      TouchQuiet(s, n, now);
      var s1 := s.(core := Touched(s.core, n, now));
      if Owns(s1.core, n, id) {
        ReleaseKept(s1, id);
        ChangedBooked(s1.(core := FinishCore(s1.core, id, Failed)), {id});
        ChangedBooked(s1.(core := FinishCore(s1.core, id, Complete)), {id});
      }
    }
  }

  lemma SyncKept(s: State, n: Name, instance: Instance, run: Option<RunId>, progressed: bool, rows: seq<Row>, now: real, wall: nat)
    ensures Kept(s, Sync(s, n, instance, run, progressed, rows, now, wall).0)
  {
    if RemoteShard(s.core, n, instance) == None {
      TouchQuiet(s, n, now);
    }
  }

  lemma ReapKept(s: State, visit: seq<Name>, now: real)
    requires Known(s.core)
    ensures Kept(s, Reap(s, visit, now))
  {
  }

  lemma RegisterKept(s: State, n: Name, instance: Instance, now: real)
    requires Known(s.core)
    ensures Kept(s, RegisterShard(s, n, instance, now).0)
  {
  }

  lemma UpkeepKept(s: State, step: Step)
    requires Known(s.core)
    ensures Kept(s, Upkeep(s, step))
  {
    if step.ReapStep? {
      ReapKept(s, step.visit, step.now);
    } else if step.RegisterStep? {
      RegisterKept(s, step.n, step.instance, step.now);
    } else if step.SyncStep? {
      SyncKept(s, step.n, step.instance, step.run, step.progressed, step.rows, step.now, step.wall);
    }
  }

  lemma ControlKept(s: State, step: Step, adrift: set<RunId>)
    requires Durable(s, adrift)
    ensures Durable(Controlled(s, step), adrift)
  {
    var s1 := Apply(s, RunControl(s.core, step), TouchedBy(step));
    RefusedUnchanged(s.core, step);
    ApplyKept(s, RunControl(s.core, step), TouchedBy(step));
    KeptDurable(s, s1, adrift);
    var s2 := Apply(s1, ShardControl(s1.core, step), {});
    RefusedUnchanged(s1.core, step);
    ApplyKept(s1, ShardControl(s1.core, step), {});
    KeptDurable(s1, s2, adrift);
    UpkeepKept(s2, step);
    KeptDurable(s2, Upkeep(s2, step), adrift);
  }

  // ---- every step keeps the disk in step with memory -------------------

  lemma UnlinkDurable(s: State, id: RunId, adrift: set<RunId>)
    requires Durable(s, adrift) && IsRunning(s.core, id)
    ensures Durable(s.(core := Unlink(s.core, id)), adrift + {id})
  {
    var c := Unlink(s.core, id);
    assert c.order == s.core.order && c.jobs == s.core.jobs[id := s.core.jobs[id].(stop := None, shard := None)];
    assert PausedShards(c) == PausedShards(s.core);
    AdriftDurable(s, s.(core := c), id, adrift);
  }

  lemma AdriftDurable(s: State, r: State, id: RunId, adrift: set<RunId>)
    requires Durable(s, adrift) && IsRunning(s.core, id)
    requires r == s.(core := r.core) && r.core.order == s.core.order && r.core.paused == s.core.paused
    requires PausedShards(r.core) == PausedShards(s.core) && r.core.schedules == s.core.schedules
    requires r.core.jobs == s.core.jobs[id := s.core.jobs[id].(stop := None, shard := None)]
    ensures Durable(r, adrift + {id})
  {
    SamePlaces(s.core.jobs, r.core.jobs, s.core.order);
  }

  lemma {:induction false} SamePlaces(jobs: map<RunId, Job>, others: map<RunId, Job>, order: seq<RunId>)
    requires forall id | id in order :: id in jobs && id in others && jobs[id].status == others[id].status
    ensures PendingCount(jobs, order) == PendingCount(others, order)
    ensures Places(jobs, order) == Places(others, order)
  {
    if order != [] {
      var id := order[|order| - 1];
      assert id in order;
      SamePlaces(jobs, others, order[..|order| - 1]);
    }
  }

  lemma LaneStartDurable(sys: System, n: Name, wall: nat)
    requires Owned(sys) && Durable(sys.q, Adrift(sys))
    ensures Durable(LaneStart(sys, n, wall).q, Adrift(LaneStart(sys, n, wall)))
  {
    if LaneAt(sys, n, Idle) && n in sys.q.core.shards && LocalReady(sys.q.core, n, wall) {
      var id := NextRunnable(sys.q.core, false).value;
      ChangedBooked(sys.q.(core := StartCore(sys.q.core, id, n)), {id});
      BookedDurable(LaneStart(sys, n, wall).q, Adrift(LaneStart(sys, n, wall)));
    }
  }

  lemma LaneStopDurable(sys: System, n: Name)
    requires Owned(sys) && Durable(sys.q, Adrift(sys))
    ensures Durable(LaneStop(sys, n).q, Adrift(LaneStop(sys, n)))
  {
    if LaneBusy(sys, n) {
      BusyHolds(sys, n);
      var id := sys.threads[n].run;
      if sys.q.core.jobs[id].stop == Some(CancelStop) {
        AdriftAdds(sys.threads, n, id);
        UnlinkDurable(sys.q, id, Adrift(sys));
      } else {
        ChangedBooked(sys.q.(core := SettleCore(sys.q.core, id)), {id});
        BookedDurable(LaneStop(sys, n).q, Adrift(LaneStop(sys, n)));
      }
    }
  }

  lemma LaneCancelDurable(sys: System, n: Name)
    requires Owned(sys) && Durable(sys.q, Adrift(sys))
    ensures Durable(LaneCancel(sys, n).q, Adrift(LaneCancel(sys, n)))
  {
    if n in sys.threads && sys.threads[n].Settling? {
      var id := sys.threads[n].run;
      assert id in Adrift(sys);
      ChangedBooked(sys.q.(core := FinishCore(sys.q.core, id, Cancelled)), {id});
      BookedDurable(LaneCancel(sys, n).q, Adrift(LaneCancel(sys, n)));
    }
  }

  lemma LaneEndDurable(sys: System, n: Name, status: Status)
    requires Owned(sys) && Durable(sys.q, Adrift(sys))
    ensures Durable(LaneEnd(sys, n, status).q, Adrift(LaneEnd(sys, n, status)))
  {
    if LaneBusy(sys, n) && (status.Complete? || status.Failed?) {
      var id := sys.threads[n].run;
      ChangedBooked(sys.q.(core := FinishCore(sys.q.core, id, status)), {id});
      BookedDurable(LaneEnd(sys, n, status).q, Adrift(LaneEnd(sys, n, status)));
    }
  }

  lemma ClaimBeginDurable(sys: System, n: Name, instance: Instance, now: real)
    requires Durable(sys.q, Adrift(sys))
    ensures Durable(BeginClaim(sys, n, instance, now).q, Adrift(sys))
  {
    ClaimBeginKept(sys.q, n, instance, now);
    KeptDurable(sys.q, BeginClaim(sys, n, instance, now).q, Adrift(sys));
  }

  lemma ClaimEndDurable(sys: System, n: Name, instance: Instance, now: real, wall: nat)
    requires Durable(sys.q, Adrift(sys))
    ensures Durable(EndClaim(sys, n, instance, now, wall).q, Adrift(sys))
  {
    ClaimEndKept(sys.q, n, instance, now, wall);
    KeptDurable(sys.q, EndClaim(sys, n, instance, now, wall).q, Adrift(sys));
  }

  lemma FinishDurable(sys: System, n: Name, instance: Instance, id: RunId, outcome: Outcome, now: real)
    requires Durable(sys.q, Adrift(sys))
    ensures Durable(FinishRemote(sys, n, instance, id, outcome, now).q, Adrift(sys))
  {
    ShardFinishKept(sys.q, n, instance, id, outcome, now);
    KeptDurable(sys.q, FinishRemote(sys, n, instance, id, outcome, now).q, Adrift(sys));
  }

  lemma RestartDurable(s: State, now: real, adrift: set<RunId>)
    ensures Durable(Restart(s, now), adrift)
  {
    BookedDurable(Restart(s, now), adrift);
  }

  lemma LaneRowDurable(sys: System, n: Name, row: Row)
    requires Durable(sys.q, Adrift(sys))
    ensures Durable(LaneRow(sys, n, row).q, Adrift(sys))
  {
    assert PausedShards(LaneRow(sys, n, row).q.core) == PausedShards(sys.q.core);
    KeptDurable(sys.q, LaneRow(sys, n, row).q, Adrift(sys));
  }

  lemma SubmitDurable(s: State, id: RunId, request: Contract.Dict, at: real, adrift: set<RunId>)
    requires Known(s.core)
    ensures Durable(Submit(s, id, request, at), adrift)
  {
    BookedDurable(Submit(s, id, request, at), adrift);
  }

  lemma LaneNextDurable(sys: System, step: Step)
    requires Owned(sys) && Durable(sys.q, Adrift(sys)) && IsLaneStep(step)
    ensures Durable(LaneNext(sys, step).q, Adrift(LaneNext(sys, step)))
  {
    match step
    case LaneStartStep(n, wall) => LaneStartDurable(sys, n, wall);
    case LaneRowStep(n, row) => LaneRowDurable(sys, n, row);
    case LaneStopStep(n) => LaneStopDurable(sys, n);
    case LaneCancelStep(n) => LaneCancelDurable(sys, n);
    case LaneEndStep(n, status) => LaneEndDurable(sys, n, status);
  }

  lemma RemoteNextDurable(sys: System, step: Step)
    requires Durable(sys.q, Adrift(sys)) && IsRemoteStep(step)
    ensures Durable(RemoteNext(sys, step).q, Adrift(sys)) && RemoteNext(sys, step).threads == sys.threads
  {
    match step
    case ClaimBeginStep(n, instance, now) => ClaimBeginDurable(sys, n, instance, now);
    case ClaimEndStep(n, instance, now, wall) => ClaimEndDurable(sys, n, instance, now, wall);
    case FinishStep(n, instance, id, outcome, now) => FinishDurable(sys, n, instance, id, outcome, now);
  }

  lemma LifeNextDurable(sys: System, step: Step)
    requires Durable(sys.q, Adrift(sys)) && IsLifeStep(step)
    ensures Durable(LifeNext(sys, step).q, Adrift(LifeNext(sys, step)))
  {
    if step.SubmitStep? {
      SubmitDurable(sys.q, step.id, step.request, step.at, Adrift(sys));
    } else if Dies(sys, step) {
      RestartDurable(Left(sys, step).q, step.now, Adrift(LifeNext(sys, step)));
    }
  }

  // At every lock release state.json holds the projection of memory, but for
  // what a local lane is in the middle of cancelling.
  lemma StepDurable(sys: System, step: Step)
    requires Owned(sys) && Durable(sys.q, Adrift(sys))
    ensures Durable(Next(sys, step).q, Adrift(Next(sys, step)))
  {
    if IsLaneStep(step) {
      LaneNextDurable(sys, step);
    } else if IsRemoteStep(step) {
      RemoteNextDurable(sys, step);
    } else if IsLifeStep(step) {
      LifeNextDurable(sys, step);
    } else {
      ControlKept(sys.q, step, Adrift(sys));
    }
  }
}
