/**
 What the queue tells a shard, said of jobs, shards and schedules: who is given
 which run, who is told to stop, and what a report leaves behind.
 */
module QueueAnswers {
  import opened Seqs
  import opened Checkpoint
  import opened Queue
  import opened QueueInvariants
  import Contract

  const MINUTES_A_DAY: nat := 1440

  // ---- windows ------------------------------------------------------------

  // From `start` up to `end`, past midnight if need be.
  predicate Between(wall: nat, start: nat, end: nat) {
    (start <= end && start <= wall && wall < end) || (start > end && (wall >= start || wall < end))
  }

  // On the face of a clock: walking on from the start one meets `wall` before the end.
  lemma WindowIsCircular(wall: nat, start: nat, end: nat)
    requires wall < MINUTES_A_DAY && start < MINUTES_A_DAY && end < MINUTES_A_DAY
    ensures InWindow(wall, start, end) <==> (wall - start) % MINUTES_A_DAY < (end - start) % MINUTES_A_DAY
    ensures InWindow(wall, start, end) <==> Between(wall, start, end)
  {
    assert (wall - start) % MINUTES_A_DAY == if start <= wall then wall - start else wall - start + MINUTES_A_DAY;
    assert (end - start) % MINUTES_A_DAY == if start <= end then end - start else end - start + MINUTES_A_DAY;
  }

  // It is switched on, has both its times, and it is one of those minutes.
  predicate Covers(schedule: Schedule, wall: nat) {
    schedule.enabled && schedule.start.Some? && schedule.end.Some? && Between(wall, schedule.start.value, schedule.end.value)
  }

  // The window of a shard; every lane's is the one under the name of "local".
  predicate LockedOut(c: Core, n: Name, wall: nat) {
    exists key | key in c.schedules :: key == (if n in c.lanes then LOCAL_SHARD else n) && Covers(c.schedules[key], wall)
  }

  lemma LockoutIff(c: Core, n: Name, wall: nat)
    ensures InLockout(c, n, wall) <==> LockedOut(c, n, wall)
  {
  }

  // ---- who is who ---------------------------------------------------------

  // The process the queue has down as the remote shard n.
  predicate Registered(c: Core, n: Name, instance: Instance) {
    n in c.shards && !c.shards[n].local && c.shards[n].instance == instance
  }

  predicate HasRun(c: Core, n: Name, id: RunId) {
    IsRunning(c, id) && Names(c, id, n) && Holds(c, n, id)
  }

  // ---- which run is next --------------------------------------------------

  predicate Truthy(v: Contract.Value) {
    match v
    case Null => false
    case Truth(b) => b
    case Number(r) => r != 0.0
    case Text(s) => |s| > 0
    case List(items) => |items| > 0
    case Nested(entries) => |entries| > 0
  }

  // The request says local_only, and says so with something that is true in Python.
  ghost predicate StaysLocal(job: Job) {
    exists i ::
      0 <= i < |job.request| && job.request[i].0 == "local_only" && Truthy(job.request[i].1)
      && forall j | 0 <= j < i :: job.request[j].0 != "local_only"
  }

  lemma {:induction false} GetIsFirst(d: Contract.Dict, key: string)
    ensures (exists i :: 0 <= i < |d| && d[i].0 == key && Contract.Get(d, key) == d[i].1 && forall j | 0 <= j < i :: d[j].0 != key)
            || (Contract.Get(d, key) == Contract.Null && forall j | 0 <= j < |d| :: d[j].0 != key)
  {
    if d != [] && d[0].0 != key {
      GetIsFirst(d[1..], key);
      if i :| 0 <= i < |d[1..]| && d[1..][i].0 == key && Contract.Get(d[1..], key) == d[1..][i].1
              && forall j | 0 <= j < i :: d[1..][j].0 != key {
        assert d[i + 1] == d[1..][i];
        forall j | 0 <= j < i + 1 ensures d[j].0 != key {
          assert j > 0 ==> d[j] == d[1..][j - 1];
        }
      } else {
        forall j | 0 <= j < |d| ensures d[j].0 != key {
          assert j > 0 ==> d[j] == d[1..][j - 1];
        }
      }
    }
  }

  lemma LocalOnlyIff(job: Job)
    ensures LocalOnly(job) <==> StaysLocal(job)
  {
    GetIsFirst(job.request, "local_only");
    var v := Contract.Get(job.request, "local_only");
    assert Truthy(v) <==> !(v == Contract.Null || v == Contract.Truth(false) || v == Contract.Number(0.0) || v == Contract.Text("")
                            || v == Contract.List([]) || v == Contract.Nested([]));
  }

  ghost predicate Eligible(c: Core, id: RunId, remote: bool) {
    id in c.jobs && c.jobs[id].status == Queued && !(remote && StaysLocal(c.jobs[id]))
  }

  // The queue is not paused, and nothing ahead of the run is eligible.
  ghost predicate IsNext(c: Core, id: RunId, remote: bool) {
    !c.paused
    && exists k ::
      0 <= k < |c.order| && c.order[k] == id && Eligible(c, id, remote)
      && forall i | 0 <= i < k :: !Eligible(c, c.order[i], remote)
  }

  predicate Runs(jobs: map<RunId, Job>, id: RunId, remote: bool) {
    id in jobs && Runnable(jobs[id], remote)
  }

  lemma {:induction false} FirstRunnableIff(jobs: map<RunId, Job>, order: seq<RunId>, remote: bool)
    requires forall id | id in order :: id in jobs
    ensures var r := FirstRunnable(jobs, order, remote);
            if r == None then forall i | 0 <= i < |order| :: !Runs(jobs, order[i], remote)
            else exists k :: 0 <= k < |order| && order[k] == r.value && Runs(jobs, order[k], remote)
                             && forall i | 0 <= i < k :: !Runs(jobs, order[i], remote)
  {
    if order != [] && !Runs(jobs, order[0], remote) {
      FirstRunnableIff(jobs, order[1..], remote);
      var r := FirstRunnable(jobs, order[1..], remote);
      assert forall i | 0 <= i < |order[1..]| :: order[1..][i] == order[i + 1];
      if r.Some? {
        var k :| 0 <= k < |order[1..]| && order[1..][k] == r.value && Runs(jobs, order[1..][k], remote)
                 && forall i | 0 <= i < k :: !Runs(jobs, order[1..][i], remote);
        forall i | 0 <= i < k + 1 ensures !Runs(jobs, order[i], remote) {
          assert i > 0 ==> order[i] == order[1..][i - 1];
        }
        assert order[k + 1] == r.value;
      } else {
        forall i | 0 <= i < |order| ensures !Runs(jobs, order[i], remote) {
          assert i > 0 ==> order[i] == order[1..][i - 1];
        }
      }
    }
  }

  lemma EligibleIff(c: Core, id: RunId, remote: bool)
    ensures Eligible(c, id, remote) <==> Runs(c.jobs, id, remote)
  {
    if id in c.jobs {
      LocalOnlyIff(c.jobs[id]);
    }
  }

  lemma NextRunnableIff(c: Core, id: RunId, remote: bool)
    requires Known(c)
    ensures NextRunnable(c, remote) == Some(id) <==> IsNext(c, id, remote)
  {
    forall x {
      EligibleIff(c, x, remote);
    }
    FirstRunnableIff(c.jobs, c.order, remote);
    if !c.paused {
      var r := FirstRunnable(c.jobs, c.order, remote);
      if IsNext(c, id, remote) {
        var k :| 0 <= k < |c.order| && c.order[k] == id && Eligible(c, id, remote)
                 && forall i | 0 <= i < k :: !Eligible(c, c.order[i], remote);
        assert r.Some?;
        var m :| 0 <= m < |c.order| && c.order[m] == r.value && Runs(c.jobs, r.value, remote)
                 && forall i | 0 <= i < m :: !Runs(c.jobs, c.order[i], remote);
        assert m == k;
      }
      if r == Some(id) {
        var m :| 0 <= m < |c.order| && c.order[m] == id && Runs(c.jobs, id, remote)
                 && forall i | 0 <= i < m :: !Runs(c.jobs, c.order[i], remote);
        forall i | 0 <= i < m ensures !Eligible(c, c.order[i], remote) {
        }
      }
    }
  }

  // ---- claim --------------------------------------------------------------

  ghost predicate MayTake(c: Core, n: Name, instance: Instance, wall: nat, id: RunId) {
    Registered(c, n, instance) && !c.shards[n].paused && !LockedOut(c, n, wall) && IsNext(c, id, true)
  }

  // The run is n's now, and stands first.
  ghost predicate Given(c: Core, d: Core, n: Name, id: RunId) {
    && HasRun(d, n, id) && d.order != [] && d.order[0] == id && d.rows == c.rows && d.jobs.Keys == c.jobs.Keys
    && forall x | x in c.jobs && x != id :: d.jobs[x] == c.jobs[x]
  }

  // What an answered claim says is so: a run for the registered process of a shard
  // that is neither paused nor locked out, the first that may run there; for anybody
  // else, or when there is none, nothing, and nothing has happened.
  ghost predicate ClaimTells(c: Core, n: Name, instance: Instance, wall: nat, d: Core, reply: Reply) {
    && (forall id :: reply == Claimed(id) <==> MayTake(c, n, instance, wall, id))
    && (reply.Claimed? ==> Given(c, d, n, reply.run))
    && (!reply.Claimed? ==> d.jobs == c.jobs && d.order == c.order && d.rows == c.rows)
    && (Registered(c, n, instance) <==> reply.Claimed? || reply == NoWork)
  }

  lemma ClaimIsTruthful(s: State, n: Name, instance: Instance, now: real, wall: nat)
    requires Known(s.core)
    ensures var (next, reply) := ClaimEnd(s, n, instance, now, wall);
            ClaimTells(s.core, n, instance, wall, next.core, reply)
  {
    LockoutIff(s.core, n, wall);
    if Registered(s.core, n, instance) {
      var c1 := Touched(s.core, n, now);
      LockoutIff(c1, n, wall);
      forall id ensures NextRunnable(c1, true) == Some(id) <==> IsNext(s.core, id, true) {
        NextRunnableIff(s.core, id, true);
      }
      assert NextRunnable(c1, true) == NextRunnable(s.core, true);
    }
  }

  // A lane takes a run under the same conditions, and whichever kind it is.
  ghost predicate LaneTells(c: Core, n: Name, wall: nat, d: Core, next: Option<RunId>)
    requires n in c.shards
  {
    && (forall id :: next == Some(id) <==> !c.shards[n].paused && !LockedOut(c, n, wall) && IsNext(c, id, false))
    && (next.Some? ==> Given(c, d, n, next.value)) && (next == None ==> d == c)
  }

  lemma LaneIsTruthful(c: Core, n: Name, wall: nat, next: Option<RunId>)
    requires Known(c) && n in c.shards
    requires next == if LocalReady(c, n, wall) then NextRunnable(c, false) else None
    ensures next.Some? ==> next.value in c.jobs
    ensures LaneTells(c, n, wall, if next.Some? then StartCore(c, next.value, n) else c, next)
  {
    LockoutIff(c, n, wall);
    forall id ensures NextRunnable(c, false) == Some(id) <==> IsNext(c, id, false) {
      NextRunnableIff(c, id, false);
    }
  }

  // ---- sync ---------------------------------------------------------------

  // Something is asked of the run, or the shard that has it is paused or locked out.
  predicate Asked(c: Core, n: Name, id: RunId, wall: nat) {
    HasRun(c, n, id) && (c.jobs[id].stop.Some? || c.shards[n].paused || LockedOut(c, n, wall))
  }

  lemma ShouldStopIff(c: Core, n: Name, id: RunId, wall: nat)
    requires HasRun(c, n, id)
    ensures ShouldStop(c, id, wall) <==> Asked(c, n, id, wall)
  {
    LockoutIff(c, n, wall);
  }

  ghost predicate SyncTells(c: Core, n: Name, instance: Instance, run: Option<RunId>, wall: nat, reply: Reply) {
    && (reply.Synced? <==> Registered(c, n, instance))
    && (reply.Synced? ==>
          && reply.shardPaused == c.shards[n].paused && reply.lockedOut == LockedOut(c, n, wall)
          && (reply.owned <==> run.Some? && HasRun(c, n, run.value))
          && (reply.stopAsked <==> run.Some? && Asked(c, n, run.value, wall)))
  }

  lemma SyncIsTruthful(s: State, n: Name, instance: Instance, run: Option<RunId>, progressed: bool, rows: seq<Row>, now: real, wall: nat)
    ensures SyncTells(s.core, n, instance, run, wall, Sync(s, n, instance, run, progressed, rows, now, wall).1)
  {
    if Registered(s.core, n, instance) {
      var c1 := Touched(s.core, n, now);
      LockoutIff(c1, n, wall);
      assert LockedOut(c1, n, wall) <==> LockedOut(s.core, n, wall);
      if run.Some? && HasRun(c1, n, run.value) {
        ShouldStopIff(c1, n, run.value, wall);
      }
    }
  }

  // ---- finish -------------------------------------------------------------

  // What is left of a run that its shard is done with.
  ghost predicate Leaves(c: Core, d: Core, n: Name, id: RunId, status: Status) {
    && id in d.jobs && d.jobs[id].status == status && d.jobs[id].stop == None && d.jobs[id].shard == None
    && n in d.shards && d.shards[n].runId == None && (id in d.order <==> !Terminal(status)) && (Terminal(status) ==> id !in d.rows)
  }

  // A finish is accepted of the shard that has the run and of nobody else; a complete
  // run is complete afterwards, a failed one failed, and one that stopped or was given
  // back is what had been asked of it: cancelled, paused, or queued again.
  ghost predicate FinishTells(c: Core, n: Name, instance: Instance, id: RunId, outcome: Outcome, d: Core, reply: Reply)
  {
    && (reply == Done <==> Registered(c, n, instance) && HasRun(c, n, id))
    && (reply != Done ==> d.jobs == c.jobs && d.order == c.order && d.rows == c.rows)
    && (reply == Done ==>
          && (outcome == CompleteOutcome ==> Leaves(c, d, n, id, Complete))
          && (outcome == FailedOutcome ==> Leaves(c, d, n, id, Failed))
          && (outcome == StoppedOutcome || outcome == ReleasedOutcome ==>
                && (c.jobs[id].stop == Some(CancelStop) ==> Leaves(c, d, n, id, Cancelled))
                && (c.jobs[id].stop == Some(PauseStop) ==> Leaves(c, d, n, id, Paused))
                && (c.jobs[id].stop == None ==> Leaves(c, d, n, id, Queued))))
  }

  lemma FinishCoreLeaves(c: Core, n: Name, id: RunId, status: Status, adrift: set<RunId>)
    requires Sound(c, adrift) && HasRun(c, n, id) && Terminal(status)
    ensures Leaves(c, FinishCore(c, id, status), n, id, status)
  {
    FinishFrees(c, id, status, adrift);
    RemoveFacts(c.order, id);
    FinishedRows(c, id, status);
  }

  lemma FinishedRows(c: Core, id: RunId, status: Status)
    requires Known(c) && id in c.jobs
    ensures id !in FinishCore(c, id, status).rows
  {
  }

  lemma SettleCoreLeaves(c: Core, n: Name, id: RunId, adrift: set<RunId>)
    requires Sound(c, adrift) && HasRun(c, n, id)
    ensures c.jobs[id].stop == Some(CancelStop) ==> Leaves(c, SettleCore(c, id), n, id, Cancelled)
    ensures c.jobs[id].stop == Some(PauseStop) ==> Leaves(c, SettleCore(c, id), n, id, Paused)
    ensures c.jobs[id].stop == None ==> Leaves(c, SettleCore(c, id), n, id, Queued)
  {
    SettleFrees(c, id, adrift);
    RemoveFacts(c.order, id);
  }

  function Filed(s: State, id: RunId, outcome: Outcome): State
    requires Known(s.core) && id in s.core.jobs
  {
    match outcome
    case StoppedOutcome => Settle(s, id)
    case ReleasedOutcome => Release(s, id)
    case FailedOutcome => Finish(s, id, Failed)
    case CompleteOutcome => Finish(s, id, Complete)
  }

  lemma FiledLeaves(s: State, n: Name, id: RunId, outcome: Outcome, adrift: set<RunId>)
    requires Sound(s.core, adrift) && HasRun(s.core, n, id)
    requires !s.core.shards[n].local
    ensures FinishTells(s.core, n, s.core.shards[n].instance, id, outcome, Filed(s, id, outcome).core, Done)
  {
    FinishCoreLeaves(s.core, n, id, Failed, adrift);
    FinishCoreLeaves(s.core, n, id, Complete, adrift);
    SettleCoreLeaves(s.core, n, id, adrift);
  }

  lemma FinishIs(s: State, n: Name, instance: Instance, id: RunId, outcome: Outcome, now: real) returns (next: State, reply: Reply)
    requires Known(s.core)
    ensures (next, reply) == ShardFinish(s, n, instance, id, outcome, now)
    ensures if Registered(s.core, n, instance) && HasRun(s.core, n, id)
            then reply == Done && next == Filed(s.(core := Touched(s.core, n, now)), id, outcome)
            else reply != Done && next.core.jobs == s.core.jobs && next.core.order == s.core.order && next.core.rows == s.core.rows
  {
    next, reply := ShardFinish(s, n, instance, id, outcome, now).0, ShardFinish(s, n, instance, id, outcome, now).1;
  }

  lemma FinishIsTruthful(s: State, n: Name, instance: Instance, id: RunId, outcome: Outcome, now: real, adrift: set<RunId>)
    requires Sound(s.core, adrift)
    ensures var (next, reply) := ShardFinish(s, n, instance, id, outcome, now);
            FinishTells(s.core, n, instance, id, outcome, next.core, reply)
  {
    var next, reply := FinishIs(s, n, instance, id, outcome, now);
    if reply == Done {
      TouchSound(s.core, n, now, adrift);
      FiledLeaves(s.(core := Touched(s.core, n, now)), n, id, outcome, adrift);
    }
  }
}
