/**
 Where the plain statement is false of the queue: an input that breaks it, and
 exactly when it holds.
 */
module QueueLimits {
  import opened Seqs
  import opened Chains
  import opened Queue
  import opened QueueInvariants
  import opened QueueRuns
  import opened QueueHistory
  import opened QueueTheorems
  import opened QueueOrder

  const SHARD_NAME: Name := 7
  const PROCESS: Instance := 5

  function AnyJob(status: Status, stop: Option<Stop>, shard: Option<Name>): Job {
    Job([], 0.0, status, stop, false, shard)
  }

  function LocalShard(runId: Option<RunId>): Shard {
    Shard(LOCAL_SHARD, 0.0, true, false, false, runId)
  }

  // Resuming the queue takes back a cancel asked of a running job, unless the
  // queue's own pause had nothing to do with that job.
  lemma ResumeAllKeepsCancelIff(c: Core, id: RunId)
    requires Orderly(c) && IsRunning(c, id) && c.jobs[id].stop == Some(CancelStop)
    ensures ResumeAllCore(c).jobs[id].stop == Some(CancelStop) <==> !c.jobs[id].pausedByQueue
    ensures c.jobs[id].pausedByQueue ==> ResumeAllCore(c).jobs[id].stop == None
  {
    assert id in c.order;
  }

  // And a pause of the queue followed by a cancel is how a job gets there.
  lemma PausedThenCancelledIsResumed(c: Core, id: RunId)
    requires Orderly(c) && IsRunning(c, id) && c.jobs[id].stop == None
    ensures var asked := CancelCore(PauseAllCore(c), id);
            asked.1 == Done && asked.0.jobs[id].stop == Some(CancelStop)
            && ResumeAllCore(asked.0).jobs[id].stop == None && IsRunning(ResumeAllCore(asked.0), id)
  {
    assert id in c.order;
  }

  // ---- running jobs and the head of the order ---------------------------

  ghost predicate RunningLead(c: Core) {
    forall x, y | Ahead(c.order, x, y) && IsRunning(c, y) :: IsRunning(c, x)
  }

  // Where running jobs lead the order, giving one back keeps that if and only if
  // it leaves the order or nothing running stands behind it.
  lemma ReleaseKeepsLeadIff(c: Core, id: RunId, adrift: set<RunId>)
    requires Sound(c, adrift) && IsRunning(c, id) && RunningLead(c)
    ensures RunningLead(ReleaseCore(c, id))
            <==> id !in ReleaseCore(c, id).order || forall y | Ahead(c.order, id, y) :: !IsRunning(c, y)
  {
    SettleFrees(c, id, adrift);
    RemoveFacts(c.order, id);
    var d := ReleaseCore(c, id);
    forall x, y | Ahead(d.order, x, y) && c.jobs[id].stop == Some(CancelStop) ensures Ahead(c.order, x, y) && x != id && y != id {
      RemoveKeepsAhead(c.order, id, x, y);
    }
    if id in d.order {
      forall y | Ahead(c.order, id, y) && IsRunning(c, y) ensures y != id && IsRunning(d, y) {
      }
    }
  }

  function Two(first: Job, second: Job, order: seq<RunId>, local: Option<RunId>, remote: Option<RunId>): Core {
    Core([LOCAL_SHARD], map[1 := first, 2 := second], order,
         map[LOCAL_SHARD := LocalShard(local), SHARD_NAME := Shard(PROCESS, 0.0, false, false, false, remote)],
         false, {}, map[], map[])
  }

  const WAITS := AnyJob(Queued, None, None)
  const ON_LANE := AnyJob(Running, None, Some(LOCAL_SHARD))
  const ON_SHARD := AnyJob(Running, None, Some(SHARD_NAME))
  const CANCELLING := AnyJob(Running, Some(CancelStop), Some(LOCAL_SHARD))
  const LET_GO := AnyJob(Running, None, None)

  ghost predicate Took(sys: System, step: Step, next: System) {
    Known(CoreOf(sys)) && Guarded(sys, step) && next == Next(sys, step)
  }

  ghost predicate Reached(sys: System) {
    Reaches(Took, Initial([LOCAL_SHARD], 0.0), sys)
  }

  lemma After(sys: System, step: Step, next: System)
    requires Reached(sys) && Took(sys, step, next)
    ensures Reached(next)
  {
    ReachesOn(Took, Initial([LOCAL_SHARD], 0.0), sys, step, next);
  }

  lemma ChainedTook(trace: seq<System>, steps: seq<Step>, k: nat)
    requires Chained(Took, trace, steps) && k < |steps|
    ensures Took(trace[k], steps[k], trace[k + 1])
  {
  }

  lemma ChainedIsRun(trace: seq<System>, steps: seq<Step>)
    requires Chained(Took, trace, steps) && trace[0] == Initial([LOCAL_SHARD], 0.0)
    ensures IsRun(trace, steps, [LOCAL_SHARD], 0.0)
  {
    forall k | 0 <= k < |steps|
      ensures Known(CoreOf(trace[k])) && Guarded(trace[k], steps[k]) && trace[k + 1] == Next(trace[k], steps[k]) {
      ChainedTook(trace, steps, k);
    }
  }

  lemma AsRun(sys: System) returns (trace: seq<System>, steps: seq<Step>)
    requires Reached(sys)
    ensures IsRun(trace, steps, [LOCAL_SHARD], 0.0) && trace[|steps|] == sys
  {
    trace, steps :| Chained(Took, trace, steps) && trace[0] == Initial([LOCAL_SHARD], 0.0) && trace[|steps|] == sys;
    ChainedIsRun(trace, steps);
  }

  lemma Opened() returns (sys: System)
    ensures Reached(sys) && sys == Initial([LOCAL_SHARD], 0.0)
  {
    sys := Initial([LOCAL_SHARD], 0.0);
    assert Chained(Took, [sys], []);
  }

  lemma ControlReaches(sys: System, step: Step)
    requires Reached(sys) && Known(CoreOf(sys)) && Guarded(sys, step)
    requires !IsLaneStep(step) && !IsRemoteStep(step) && !IsLifeStep(step)
    ensures Reached(sys.(q := Controlled(sys.q, step)))
  {
    After(sys, step, Next(sys, step));
  }

  lemma LaneReaches(sys: System, step: Step)
    requires Reached(sys) && Known(CoreOf(sys)) && IsLaneStep(step)
    ensures Reached(LaneNext(sys, step))
  {
    After(sys, step, Next(sys, step));
  }

  lemma RemoteReaches(sys: System, step: Step)
    requires Reached(sys) && Known(CoreOf(sys)) && Guarded(sys, step) && IsRemoteStep(step)
    ensures Reached(RemoteNext(sys, step))
  {
    After(sys, step, Next(sys, step));
  }

  lemma SubmitReaches(sys: System, id: RunId) returns (next: System)
    requires Reached(sys) && Known(CoreOf(sys)) && id !in sys.minted && id != NO_ID
    ensures Reached(next) && next == sys.(q := next.q, minted := sys.minted + {id})
    ensures CoreOf(next) == SubmitCore(CoreOf(sys), id, [], 0.0)
  {
    next := Next(sys, SubmitStep(id, [], 0.0));
    After(sys, SubmitStep(id, [], 0.0), next);
  }

  lemma RegisterOnly(q: State) returns (r: State)
    requires Known(q.core) && SHARD_NAME !in q.core.lanes && SHARD_NAME !in q.core.shards && q.core.pausedNames == {}
    ensures r == Controlled(q, RegisterStep(SHARD_NAME, PROCESS, 0.0))
    ensures r.core == q.core.(shards := q.core.shards[SHARD_NAME := Shard(PROCESS, 0.0, false, false, false, None)])
  {
    r := RegisterShard(q, SHARD_NAME, PROCESS, 0.0).0;
    assert q.core.pausedNames - {SHARD_NAME} == {};
  }

  lemma RegisterReaches(sys: System) returns (next: System)
    requires Reached(sys) && Known(CoreOf(sys)) && CoreOf(sys).pausedNames == {}
    requires SHARD_NAME !in CoreOf(sys).lanes && SHARD_NAME !in CoreOf(sys).shards
    ensures Reached(next) && next == sys.(q := next.q)
    ensures CoreOf(next)
         == CoreOf(sys).(shards := CoreOf(sys).shards[SHARD_NAME := Shard(PROCESS, 0.0, false, false, false, None)])
  {
    ControlReaches(sys, RegisterStep(SHARD_NAME, PROCESS, 0.0));
    var q := RegisterOnly(sys.q);
    next := sys.(q := q);
  }

  lemma Registers(sys: System) returns (next: System)
    requires Reached(sys) && sys == Initial([LOCAL_SHARD], 0.0)
    ensures Reached(next) && next == sys.(q := next.q)
    ensures CoreOf(next) == Two(WAITS, WAITS, [1, 2], None, None).(jobs := map[], order := [])
  {
    next := RegisterReaches(sys);
  }

  lemma Submits(sys: System) returns (next: System)
    requires Reached(sys) && sys.minted == {}
    requires CoreOf(sys) == Two(WAITS, WAITS, [1, 2], None, None).(jobs := map[], order := [])
    ensures Reached(next) && next == sys.(q := next.q, minted := {1})
    ensures CoreOf(next) == Two(WAITS, WAITS, [1, 2], None, None).(jobs := map[1 := WAITS], order := [1])
  {
    next := SubmitReaches(sys, 1);
  }

  lemma SubmitsAgain(sys: System) returns (next: System)
    requires Reached(sys) && sys.minted == {1}
    requires CoreOf(sys) == Two(WAITS, WAITS, [1, 2], None, None).(jobs := map[1 := WAITS], order := [1])
    ensures Reached(next) && next == sys.(q := next.q, minted := {1, 2})
    ensures CoreOf(next) == Two(WAITS, WAITS, [1, 2], None, None)
  {
    next := SubmitReaches(sys, 2);
    assert next.minted == {1, 2};
  }

  lemma OneStarts(c: Core)
    requires c == Two(WAITS, WAITS, [1, 2], None, None)
    ensures Known(c) && NextRunnable(c, false) == Some(1)
    ensures StartCore(c, 1, LOCAL_SHARD) == Two(ON_LANE, WAITS, [1, 2], Some(1), None)
  {
    assert c.order[1..] == [2] && [2][1..] == [];
  }

  lemma LaneTakesOne(sys: System) returns (next: System)
    requires Reached(sys) && CoreOf(sys) == Two(WAITS, WAITS, [1, 2], None, None) && LaneAt(sys, LOCAL_SHARD, Idle)
    ensures Reached(next) && next.waiting == sys.waiting && next.threads == sys.threads[LOCAL_SHARD := Busy(1)]
    ensures CoreOf(next) == Two(ON_LANE, WAITS, [1, 2], Some(1), None)
  {
    OneStarts(CoreOf(sys));
    LaneReaches(sys, LaneStartStep(LOCAL_SHARD, 0));
    next := Started(WithThread(sys, LOCAL_SHARD, Busy(1)), Start(sys.q, 1, LOCAL_SHARD), 1);
    assert next == LaneStart(sys, LOCAL_SHARD, 0);
  }

  lemma Asks(sys: System) returns (next: System)
    requires Reached(sys) && Known(CoreOf(sys)) && sys.waiting == {} && SHARD_NAME in CoreOf(sys).shards
    requires CoreOf(sys).shards[SHARD_NAME] == Shard(PROCESS, 0.0, false, false, false, None)
    ensures Reached(next) && next == sys.(waiting := {(SHARD_NAME, PROCESS)})
  {
    RemoteReaches(sys, ClaimBeginStep(SHARD_NAME, PROCESS, 0.0));
    next := sys.(waiting := {(SHARD_NAME, PROCESS)});
    assert Touched(CoreOf(sys), SHARD_NAME, 0.0) == CoreOf(sys);
    assert next == BeginClaim(sys, SHARD_NAME, PROCESS, 0.0);
  }

  lemma ClaimEndStarts(q: State, id: RunId)
    requires Known(q.core) && SHARD_NAME in q.core.shards && q.core.schedules == map[]
    requires q.core.shards[SHARD_NAME] == Shard(PROCESS, 0.0, false, false, false, q.core.shards[SHARD_NAME].runId)
    requires NextRunnable(q.core, true) == Some(id)
    ensures ClaimEnd(q, SHARD_NAME, PROCESS, 0.0, 0) == (Start(q, id, SHARD_NAME), Claimed(id))
  {
    assert Touched(q.core, SHARD_NAME, 0.0) == q.core;
  }

  lemma Takes(sys: System, id: RunId) returns (next: System)
    requires Reached(sys) && Known(CoreOf(sys)) && (SHARD_NAME, PROCESS) in sys.waiting
    requires SHARD_NAME in CoreOf(sys).shards && CoreOf(sys).schedules == map[]
    requires CoreOf(sys).shards[SHARD_NAME] == Shard(PROCESS, 0.0, false, false, false, CoreOf(sys).shards[SHARD_NAME].runId)
    requires NextRunnable(CoreOf(sys), true) == Some(id)
    ensures Reached(next) && CoreOf(next) == StartCore(CoreOf(sys), id, SHARD_NAME)
  {
    ClaimEndStarts(sys.q, id);
    RemoteReaches(sys, ClaimEndStep(SHARD_NAME, PROCESS, 0.0, 0));
    next := EndClaim(sys, SHARD_NAME, PROCESS, 0.0, 0);
  }

  lemma TwoStarts(c: Core)
    requires c == Two(ON_LANE, WAITS, [1, 2], Some(1), None)
    ensures Known(c) && NextRunnable(c, true) == Some(2)
    ensures StartCore(c, 2, SHARD_NAME) == Two(ON_LANE, ON_SHARD, [2, 1], Some(1), Some(2))
  {
    assert c.order[1..] == [2] && [2][1..] == [];
  }

  // Two starts and a hand-back: the run given back waits ahead of the one that
  // is still running.
  lemma RunningIsNotAPrefix() returns (trace: seq<System>, steps: seq<Step>)
    ensures IsRun(trace, steps, [LOCAL_SHARD], 0.0)
    ensures var c := CoreOf(trace[|steps|]);
            Sound(c, Adrift(trace[|steps|])) && RunningLead(c) && IsRunning(c, 2)
            && ReleaseCore(c, 2).order == [2, 1] && ReleaseCore(c, 2).jobs[2].status == Queued
            && IsRunning(ReleaseCore(c, 2), 1) && !RunningLead(ReleaseCore(c, 2))
  {
    var s0 := Opened();
    var s1 := Registers(s0);
    var s2 := Submits(s1);
    var s3 := SubmitsAgain(s2);
    var s4 := LaneTakesOne(s3);
    var s5 := Asks(s4);
    TwoStarts(CoreOf(s5));
    var s6 := Takes(s5, 2);
    trace, steps := AsRun(s6);
    RunInvariant(trace, steps, [LOCAL_SHARD], 0.0, |steps|);
    OneStandsBehind(CoreOf(s6), Adrift(s6));
  }

  lemma OneStandsBehind(c: Core, adrift: set<RunId>)
    requires c == Two(ON_LANE, ON_SHARD, [2, 1], Some(1), Some(2))
    requires Sound(c, adrift)
    ensures RunningLead(c) && IsRunning(c, 2) && ReleaseCore(c, 2).order == [2, 1]
    ensures ReleaseCore(c, 2).jobs[2].status == Queued && IsRunning(ReleaseCore(c, 2), 1) && !RunningLead(ReleaseCore(c, 2))
  {
    assert c.order[0] == 2 && c.order[1] == 1;
    assert Ahead(c.order, 2, 1);
    ReleaseKeepsLeadIff(c, 2, adrift);
    SettleFrees(c, 2, adrift);
  }

  // A run cancelled while waiting keeps the position it had: positions are only
  // given to, and taken from, what is still in the order.
  lemma CancelledKeepsItsPosition(s: State, id: RunId)
    requires Orderly(s.core) && id in s.core.jobs && Pending(s.core.jobs[id].status)
    ensures var r := Apply(s, CancelCore(s.core, id), {id});
            r.core.jobs[id].status == Cancelled && PlaceIn(r.places, id) == PlaceIn(s.places, id)
  {
    RemoveFacts(s.core.order, id);
  }

  // Pausing and resuming the whole queue bumps nobody's revision, whatever it
  // changes: exactly the jobs it asks to pause, or takes such a pause back from.
  lemma PauseAllBumpsNobody(s: State, id: RunId)
    requires Orderly(s.core) && PlacesCurrent(s) && id in s.core.jobs
    ensures RevisionOf(Apply(s, (PauseAllCore(s.core), Done), {}), id) == RevisionOf(s, id)
    ensures RevisionOf(Apply(s, (ResumeAllCore(s.core), Done), {}), id) == RevisionOf(s, id)
    ensures PauseAllCore(s.core).jobs[id] != s.core.jobs[id] <==> IsRunning(s.core, id) && s.core.jobs[id].stop == None
    ensures ResumeAllCore(s.core).jobs[id] != s.core.jobs[id]
            <==> s.core.jobs[id].pausedByQueue && (s.core.jobs[id].status.Paused? || IsRunning(s.core, id))
  {
    SamePlacesBumpNobody(s, PauseAllCore(s.core), id);
    SamePlacesBumpNobody(s, ResumeAllCore(s.core), id);
  }

  // Who is pending is still pending, so nobody moves.
  lemma SamePlacesBumpNobody(s: State, c: Core, id: RunId)
    requires Orderly(s.core) && PlacesCurrent(s) && id in s.core.jobs
    requires Known(c) && c.jobs.Keys == s.core.jobs.Keys && c.order == s.core.order
    requires forall x | x in s.core.jobs :: Pending(c.jobs[x].status) <==> Pending(s.core.jobs[x].status)
    ensures RevisionOf(Apply(s, (c, Done), {}), id) == RevisionOf(s, id)
  {
    PendingPlaces(s.core.jobs, c.jobs, s.core.order);
  }

  lemma {:induction false} PendingPlaces(jobs: map<RunId, Job>, others: map<RunId, Job>, order: seq<RunId>)
    requires forall id | id in order ::
               id in jobs && id in others && (Pending(jobs[id].status) <==> Pending(others[id].status))
    ensures PendingCount(jobs, order) == PendingCount(others, order)
    ensures Places(jobs, order) == Places(others, order)
  {
    if order != [] {
      var id := order[|order| - 1];
      assert id in order;
      PendingPlaces(jobs, others, order[..|order| - 1]);
    }
  }

  // ---- a run that is lost ------------------------------------------------

  // Both runs wait, and so does the claim of a shard process.
  lemma ClaimWaits() returns (sys: System)
    ensures Reached(sys) && CoreOf(sys) == Two(WAITS, WAITS, [1, 2], None, None)
    ensures sys.waiting == {(SHARD_NAME, PROCESS)}
  {
    var s0 := Opened();
    var s1 := Registers(s0);
    var s2 := Submits(s1);
    var s3 := SubmitsAgain(s2);
    sys := Asks(s3);
  }

  lemma OneStartsThere(c: Core)
    requires c == Two(WAITS, WAITS, [1, 2], None, None)
    ensures Known(c) && NextRunnable(c, true) == Some(1)
    ensures StartCore(c, 1, SHARD_NAME) == Two(ON_SHARD, WAITS, [1, 2], None, Some(1))
  {
    assert c.order[1..] == [2] && [2][1..] == [];
  }

  lemma TwoStartsThere(c: Core)
    requires c == Two(ON_SHARD, WAITS, [1, 2], None, Some(1))
    ensures Known(c) && NextRunnable(c, true) == Some(2)
    ensures StartCore(c, 2, SHARD_NAME) == Two(ON_SHARD, ON_SHARD, [2, 1], None, Some(2))
  {
    assert c.order[1..] == [2] && [2][1..] == [];
  }

  lemma FirstServed(q: State) returns (q1: State)
    requires q.core == Two(WAITS, WAITS, [1, 2], None, None)
    ensures Known(q.core) && ClaimBegin(q, SHARD_NAME, PROCESS, 0.0) == (q, NoWork)
    ensures ClaimEnd(q, SHARD_NAME, PROCESS, 0.0, 0) == (q1, Claimed(1))
    ensures q1.core == Two(ON_SHARD, WAITS, [1, 2], None, Some(1))
  {
    assert Touched(q.core, SHARD_NAME, 0.0) == q.core;
    OneStartsThere(q.core);
    ClaimEndStarts(q, 1);
    q1 := Start(q, 1, SHARD_NAME);
  }

  lemma SecondServed(q1: State) returns (q2: State)
    requires q1.core == Two(ON_SHARD, WAITS, [1, 2], None, Some(1))
    ensures Known(q1.core) && ClaimEnd(q1, SHARD_NAME, PROCESS, 0.0, 0) == (q2, Claimed(2))
    ensures IsRunning(q2.core, 1) && forall n :: !Holds(q2.core, n, 1)
  {
    TwoStartsThere(q1.core);
    ClaimEndStarts(q1, 2);
    q2 := Start(q1, 2, SHARD_NAME);
  }

  // Two claims of one shard process that wait at the same time are both served:
  // the second is not refused and does not give the first run back, which is
  // then running with no shard that would ever report on it.
  lemma TwoClaimsLoseARun() returns (trace: seq<System>, steps: seq<Step>, q1: State, q2: State)
    ensures IsRun(trace, steps, [LOCAL_SHARD], 0.0)
    ensures var q := trace[|steps|].q;
            && Known(q.core) && (SHARD_NAME, PROCESS) in trace[|steps|].waiting
            && ClaimBegin(q, SHARD_NAME, PROCESS, 0.0) == (q, NoWork)
            && ClaimEnd(q, SHARD_NAME, PROCESS, 0.0, 0) == (q1, Claimed(1))
    ensures Known(q1.core) && ClaimEnd(q1, SHARD_NAME, PROCESS, 0.0, 0) == (q2, Claimed(2))
    ensures IsRunning(q2.core, 1) && forall n :: !Holds(q2.core, n, 1)
  {
    var sys := ClaimWaits();
    trace, steps := AsRun(sys);
    q1 := FirstServed(sys.q);
    q2 := SecondServed(q1);
  }

  // A shard that has timed out but was not reaped can be forgotten with its run
  // still on it (ForgetSoundIff says exactly when that does harm).
  lemma ForgettingLosesARun() returns (trace: seq<System>, steps: seq<Step>)
    ensures IsRun(trace, steps, [LOCAL_SHARD], 0.0)
    ensures var (d, reply) := ForgetShardCore(CoreOf(trace[|steps|]), SHARD_NAME, SHARD_TIMEOUT_SECONDS);
            Holds(CoreOf(trace[|steps|]), SHARD_NAME, 1)
            && reply == Done && IsRunning(d, 1) && forall n :: !Holds(d, n, 1)
  {
    var s4 := ClaimWaits();
    OneStartsThere(CoreOf(s4));
    var s5 := Takes(s4, 1);
    trace, steps := AsRun(s5);
  }

  // ---- a cancel that is lost ----------------------------------------------

  lemma CancelOnly(q: State, id: RunId)
    requires Known(q.core)
    ensures Known(CancelCore(q.core, id).0)
    ensures Controlled(q, CancelStep(id)) == Apply(q, CancelCore(q.core, id), {id})
  {
  }

  lemma CancelReaches(sys: System, id: RunId) returns (next: System)
    requires Reached(sys) && Known(CoreOf(sys))
    ensures Reached(next) && next == sys.(q := next.q) && CoreOf(next) == CancelCore(CoreOf(sys), id).0
  {
    ControlReaches(sys, CancelStep(id));
    CancelOnly(sys.q, id);
    next := sys.(q := Apply(sys.q, CancelCore(CoreOf(sys), id), {id}));
  }

  lemma CancelsOne(sys: System) returns (next: System)
    requires Reached(sys) && CoreOf(sys) == Two(ON_LANE, WAITS, [1, 2], Some(1), None)
    ensures Reached(next) && next == sys.(q := next.q)
    ensures CoreOf(next) == Two(CANCELLING, WAITS, [1, 2], Some(1), None)
  {
    next := CancelReaches(sys, 1);
  }

  lemma LaneUnlinks(sys: System, n: Name)
    requires LaneBusy(sys, n) && Known(CoreOf(sys)) && CoreOf(sys).jobs[sys.threads[n].run].stop == Some(CancelStop)
    ensures CoreOf(LaneStop(sys, n)) == Unlink(CoreOf(sys), sys.threads[n].run)
  {
  }

  lemma UnlinksOne(c: Core)
    requires c == Two(CANCELLING, WAITS, [1, 2], Some(1), None)
    ensures Unlink(c, 1) == Two(LET_GO, WAITS, [1, 2], None, None)
  {
  }

  // Whatever persists the queue now writes that nothing is asked of the run.
  lemma ResumingWrites(q: State)
    requires q.core == Two(LET_GO, WAITS, [1, 2], None, None)
    ensures Known(q.core) && Controlled(q, SetShardsPausedStep(false)).core == q.core
    ensures Controlled(q, SetShardsPausedStep(false)).disk.jobs == [Save(1, LET_GO), Save(2, WAITS)]
  {
    assert SetShardsPausedCore(q.core, false) == q.core;
  }

  lemma BothComeBack(q: State)
    requires q.disk.jobs == [Save(1, LET_GO), Save(2, WAITS)]
    ensures 1 in Restart(q, 0.0).core.jobs && Restart(q, 0.0).core.jobs[1].status == Queued
  {
    var base := RestoreSettings(FreshCore(q.core.lanes, q.core.rows, 0.0), q.disk);
    var entries := q.disk.jobs;
    assert entries[..1] == [entries[0]] && entries[..1][..0] == [];
    assert RestoreJobs(base, entries[..1][..0]) == base;
    assert RestoreJobs(base, entries[..1]) == RestoreAs(base, entries[0], Revived(entries[0]));
    assert RestoreJobs(base, entries) == RestoreJob(RestoreJobs(base, entries[..1]), entries[1]);
  }

  // A local lane has let go of the run it is cancelling, someone presses
  // anything, and the process dies: the cancel is gone, and the run comes back
  // queued. This is the one crash CancelIsSticky leaves out.
  lemma LocalCancelCanBeLost() returns (trace: seq<System>, steps: seq<Step>)
    ensures IsRun(trace, steps, [LOCAL_SHARD], 0.0)
    ensures var a := trace[|steps|];
            && Known(CoreOf(a)) && 1 in CoreOf(a).jobs && CancelHeld(CoreOf(a).jobs[1])
            && var b := LaneStop(a, LOCAL_SHARD);
            && Known(CoreOf(b))
            && var d := b.(q := Controlled(b.q, SetShardsPausedStep(false)));
            1 in CoreOf(Crash(d, 0.0)).jobs && CoreOf(Crash(d, 0.0)).jobs[1].status == Queued
  {
    var s0 := Opened();
    var s1 := Registers(s0);
    var s2 := Submits(s1);
    var s3 := SubmitsAgain(s2);
    var s4 := LaneTakesOne(s3);
    var s5 := CancelsOne(s4);
    trace, steps := AsRun(s5);
    LaneUnlinks(s5, LOCAL_SHARD);
    UnlinksOne(CoreOf(s5));
    var b := LaneStop(s5, LOCAL_SHARD);
    ResumingWrites(b.q);
    BothComeBack(Controlled(b.q, SetShardsPausedStep(false)));
  }
}
