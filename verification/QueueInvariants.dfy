/** What every locked section of the queue keeps, one operation at a time. */
module QueueInvariants {
  import opened Seqs
  import opened Checkpoint
  import opened Queue
  import Contract

  // The order holds every job that is not finished, once each.
  ghost predicate Orderly(c: Core) {
    NoDup(c.order) && forall id :: id in c.order <==> id in c.jobs && !Terminal(c.jobs[id].status)
  }

  predicate Holds(c: Core, n: Name, id: RunId) {
    n in c.shards && c.shards[n].runId == Some(id)
  }

  predicate Names(c: Core, id: RunId, n: Name) {
    id in c.jobs && c.jobs[id].shard == Some(n)
  }

  // Ownership is a bijection: a job names a shard exactly while it runs, and a
  // shard holds a run exactly when that run names it. `adrift` are the runs a
  // local lane has let go of on its way to cancelling them.
  ghost predicate Linked(c: Core, adrift: set<RunId>) {
    && (forall id | id in c.jobs :: c.jobs[id].shard.Some? <==> c.jobs[id].status.Running? && id !in adrift)
    && (forall id | id in adrift :: IsRunning(c, id))
    && (forall n, id :: Holds(c, n, id) <==> Names(c, id, n))
  }

  // Only a running job has been asked to stop.
  ghost predicate StopsSound(c: Core) {
    forall id | id in c.jobs && c.jobs[id].stop.Some? :: c.jobs[id].status.Running?
  }

  ghost predicate Laned(c: Core) {
    && LOCAL_SHARD in c.lanes
    && (forall n | n in c.lanes :: n in c.shards)
    && (forall n | n in c.shards :: c.shards[n].local <==> n in c.lanes)
  }

  ghost predicate Sound(c: Core, adrift: set<RunId>) {
    Orderly(c) && Linked(c, adrift) && StopsSound(c) && Laned(c)
  }

  // Every lane keeps its run, and no shard has a run it did not have before
  // under the same process.
  ghost predicate Undisturbed(c: Core, d: Core) {
    && d.lanes == c.lanes
    && (forall n | n in c.lanes && n in c.shards :: n in d.shards && d.shards[n].runId == c.shards[n].runId)
    && (forall n | n in d.shards && d.shards[n].runId.Some? ::
          n in c.shards && c.shards[n].runId == d.shards[n].runId && c.shards[n].instance == d.shards[n].instance)
  }

  // d is c with the run taken off its shard, whatever else became of it.
  ghost predicate Freed(c: Core, d: Core, id: RunId) {
    && d.lanes == c.lanes && d.jobs.Keys == c.jobs.Keys && d.shards.Keys == c.shards.Keys
    && (forall x | x in c.jobs && x != id :: d.jobs[x] == c.jobs[x])
    && id in d.jobs && d.jobs[id].shard == None
    && (forall n | n in c.shards ::
          d.shards[n] == if c.shards[n].runId == Some(id) then c.shards[n].(runId := None) else c.shards[n])
  }

  lemma FreedLinked(c: Core, d: Core, id: RunId, adrift: set<RunId>)
    requires Linked(c, adrift) && Freed(c, d, id)
    ensures Linked(d, if IsRunning(d, id) then adrift + {id} else adrift - {id})
  {
    forall n, x ensures Holds(d, n, x) <==> Names(d, x, n) {
      assert Holds(c, n, x) <==> Names(c, x, n);
    }
  }

  lemma DetachFrees(c: Core, id: RunId, adrift: set<RunId>)
    requires Linked(c, adrift) && id in c.jobs
    ensures Freed(c, Detach(c, id), id)
  {
    forall n | n in c.shards ensures Detach(c, id).shards[n] ==
        if c.shards[n].runId == Some(id) then c.shards[n].(runId := None) else c.shards[n] {
      assert Holds(c, n, id) <==> Names(c, id, n);
    }
  }

  // Out of the order goes exactly the run that was finished.
  lemma DropOrderly(c: Core, id: RunId)
    requires NoDup(c.order)
    requires forall x | x != id :: x in c.order <==> x in c.jobs && !Terminal(c.jobs[x].status)
    requires id in c.jobs && Terminal(c.jobs[id].status)
    ensures Orderly(Drop(c, id))
  {
    RemoveFacts(c.order, id);
  }

  lemma UnlinkFrees(c: Core, id: RunId, adrift: set<RunId>)
    requires Linked(c, adrift) && id in c.jobs
    ensures Freed(c, Unlink(c, id), id)
    ensures Unlink(c, id).jobs[id] == c.jobs[id].(stop := None, shard := None)
    ensures Unlink(c, id).order == c.order
  {
    DetachFrees(c, id, adrift);
  }

  lemma FreedFile(c: Core, c1: Core, id: RunId, status: Status)
    requires Freed(c, c1, id) && Known(c1)
    ensures var d := FileAs(c1, id, status);
            Freed(c, d, id) && d.jobs[id] == c1.jobs[id].(status := status) && d.order == Remove(c1.order, id)
  {
  }

  lemma FinishFrees(c: Core, id: RunId, status: Status, adrift: set<RunId>)
    requires Linked(c, adrift) && id in c.jobs && Known(c)
    ensures var d := FinishCore(c, id, status);
            Freed(c, d, id) && d.order == Remove(c.order, id)
            && d.jobs[id] == c.jobs[id].(status := status, stop := None, shard := None)
  {
    UnlinkFrees(c, id, adrift);
    FreedFile(c, Unlink(c, id), id, status);
  }

  // What each answer to "what was it asked?" makes of the run.
  function Settled(stop: Option<Stop>): Status {
    if stop == Some(CancelStop) then Cancelled else if stop == Some(PauseStop) then Paused else Queued
  }

  lemma SettleFrees(c: Core, id: RunId, adrift: set<RunId>)
    requires Linked(c, adrift) && id in c.jobs && Known(c)
    ensures var d := SettleCore(c, id);
            Freed(c, d, id)
            && d.jobs[id] == c.jobs[id].(status := Settled(c.jobs[id].stop), stop := None, shard := None)
            && d.order == (if c.jobs[id].stop == Some(CancelStop) then Remove(c.order, id) else c.order)
            && d.rows == (if c.jobs[id].stop == Some(CancelStop) then c.rows - {id} else c.rows)
  {
    UnlinkFrees(c, id, adrift);
    if c.jobs[id].stop == Some(CancelStop) {
      FreedFile(c, Unlink(c, id), id, Cancelled);
    }
  }

  // ---- one lemma per operation ----------------------------------------

  lemma FreedSound(c: Core, d: Core, id: RunId, adrift: set<RunId>)
    requires Sound(c, adrift) && Freed(c, d, id) && id in c.order && d.jobs[id].stop == None
    requires d.order == if Terminal(d.jobs[id].status) then Remove(c.order, id) else c.order
    ensures Sound(d, if IsRunning(d, id) then adrift + {id} else adrift - {id})
  {
    FreedLinked(c, d, id, adrift);
    RemoveFacts(c.order, id);
  }

  lemma UnlinkSound(c: Core, id: RunId, adrift: set<RunId>)
    requires Sound(c, adrift) && IsRunning(c, id)
    ensures Sound(Unlink(c, id), adrift + {id})
  {
    UnlinkFrees(c, id, adrift);
    FreedSound(c, Unlink(c, id), id, adrift);
  }

  lemma FinishSound(c: Core, id: RunId, status: Status, adrift: set<RunId>)
    requires Sound(c, adrift) && IsRunning(c, id) && Terminal(status)
    ensures Sound(FinishCore(c, id, status), adrift - {id})
  {
    FinishFrees(c, id, status, adrift);
    FreedSound(c, FinishCore(c, id, status), id, adrift);
  }

  lemma SettleSound(c: Core, id: RunId, adrift: set<RunId>)
    requires Sound(c, adrift) && IsRunning(c, id)
    ensures Sound(SettleCore(c, id), adrift - {id})
  {
    SettleFrees(c, id, adrift);
    FreedSound(c, SettleCore(c, id), id, adrift);
  }

  // Taking a shard's run back leaves that shard without one.
  lemma GiveBackSound(c: Core, n: Name, adrift: set<RunId>)
    requires Sound(c, adrift) && n in c.shards
    ensures var d := GiveBackCore(c, n);
            Sound(d, adrift) && d.shards == c.shards[n := c.shards[n].(runId := None)] && d.lanes == c.lanes
  {
    if c.shards[n].runId.Some? {
      var id := c.shards[n].runId.value;
      assert Holds(c, n, id);
      SettleSound(c, id, adrift);
      SettleFrees(c, id, adrift);
      assert adrift - {id} == adrift;
      SoleHolder(c, n, id, adrift);
    }
  }

  lemma StartSound(c: Core, id: RunId, n: Name, adrift: set<RunId>)
    requires Sound(c, adrift) && id in c.jobs && c.jobs[id].status.Queued?
    requires n in c.shards && c.shards[n].runId == None
    ensures Sound(StartCore(c, id, n), adrift)
  {
    RemoveFacts(c.order, id);
    var d := StartCore(c, id, n);
    forall m, x ensures Holds(d, m, x) <==> Names(d, x, m) {
      assert Holds(c, m, x) <==> Names(c, x, m);
      assert Holds(c, m, id) <==> Names(c, id, m);
    }
  }

  // Nothing changed hands: the same jobs run, in the same places, and the same
  // ones are finished.
  ghost predicate Alike(c: Core, d: Core) {
    && d.lanes == c.lanes && d.jobs.Keys == c.jobs.Keys && d.shards.Keys == c.shards.Keys
    && (forall id | id in c.jobs ::
          d.jobs[id].shard == c.jobs[id].shard
          && (d.jobs[id].status.Running? <==> c.jobs[id].status.Running?)
          && (Terminal(d.jobs[id].status) <==> Terminal(c.jobs[id].status))
          && (d.jobs[id].stop.Some? ==> d.jobs[id].status.Running?))
    && (forall n | n in c.shards ::
          d.shards[n].runId == c.shards[n].runId && d.shards[n].local == c.shards[n].local
          && d.shards[n].instance == c.shards[n].instance)
    && NoDup(d.order) && (forall id :: id in d.order <==> id in c.order)
  }

  lemma AlikeSound(c: Core, d: Core, adrift: set<RunId>)
    requires Sound(c, adrift) && Alike(c, d)
    ensures Sound(d, adrift) && Undisturbed(c, d)
  {
    forall n, id ensures Holds(d, n, id) <==> Names(d, id, n) {
      assert Holds(c, n, id) <==> Names(c, id, n);
    }
  }

  lemma RelabelSound(c: Core, id: RunId, job: Job, adrift: set<RunId>)
    requires Sound(c, adrift) && id in c.jobs && job.shard == c.jobs[id].shard
    requires job.status.Running? <==> c.jobs[id].status.Running?
    requires Terminal(job.status) <==> Terminal(c.jobs[id].status)
    requires job.stop.Some? ==> job.status.Running?
    ensures Sound(WithJob(c, id, job), adrift) && Undisturbed(c, WithJob(c, id, job))
  {
    AlikeSound(c, WithJob(c, id, job), adrift);
  }

  lemma PauseSound(c: Core, id: RunId, adrift: set<RunId>)
    requires Sound(c, adrift)
    ensures Sound(PauseCore(c, id).0, adrift) && Undisturbed(c, PauseCore(c, id).0)
  {
    if PauseCore(c, id).1 == Done {
      RelabelSound(c, id, PauseCore(c, id).0.jobs[id], adrift);
    }
  }

  lemma ResumeSound(c: Core, id: RunId, adrift: set<RunId>)
    requires Sound(c, adrift)
    ensures Sound(ResumeCore(c, id).0, adrift) && Undisturbed(c, ResumeCore(c, id).0)
  {
    if ResumeCore(c, id).0 != c {
      RelabelSound(c, id, ResumeCore(c, id).0.jobs[id], adrift);
    }
  }

  lemma CancelSound(c: Core, id: RunId, adrift: set<RunId>)
    requires Sound(c, adrift)
    ensures Sound(CancelCore(c, id).0, adrift) && Undisturbed(c, CancelCore(c, id).0)
  {
    var d := CancelCore(c, id).0;
    if id in c.jobs && Pending(c.jobs[id].status) {
      var filed := WithJob(c, id, c.jobs[id].(status := Cancelled, stop := None));
      DropOrderly(filed, id);
      forall n, x ensures Holds(d, n, x) <==> Names(d, x, n) {
        assert Holds(c, n, x) <==> Names(c, x, n);
      }
    } else if id in c.jobs && c.jobs[id].status.Running? {
      RelabelSound(c, id, d.jobs[id], adrift);
    }
  }

  lemma BetweenMembers(running: seq<RunId>, waiting: seq<RunId>, at: nat, id: RunId, x: RunId)
    requires at <= |waiting|
    ensures x in running + waiting[..at] + [id] + waiting[at..] <==> x in running || x in waiting || x == id
  {
    assert waiting == waiting[..at] + waiting[at..];
  }

  lemma BetweenNoDup(running: seq<RunId>, waiting: seq<RunId>, at: nat, id: RunId)
    requires NoDup(running) && NoDup(waiting) && at <= |waiting| && id !in running && id !in waiting
    requires forall x | x in running :: x !in waiting
    ensures NoDup(running + waiting[..at] + [id] + waiting[at..])
  {
    var rest := waiting[..at] + [id] + waiting[at..];
    InsertNoDup(waiting, at, id);
    forall x | x in running ensures x !in rest {
      BetweenMembers([], waiting, at, id, x);
    }
    NoDupConcat(running, rest);
    assert running + waiting[..at] + [id] + waiting[at..] == running + (waiting[..at] + [id] + waiting[at..]);
  }

  // A moved order is a permutation of the old one.
  lemma MovedSame(c: Core, id: RunId, position: int)
    requires Orderly(c) && id in c.jobs && Pending(c.jobs[id].status)
    ensures NoDup(MovedOrder(c, id, position))
    ensures forall x :: x in MovedOrder(c, id, position) <==> x in c.order
  {
    SelectMembers(c.order, RunningIds(c));
    SelectMembers(c.order, WaitingIds(c, id));
    SelectNoDup(c.order, RunningIds(c));
    SelectNoDup(c.order, WaitingIds(c, id));
    var running := Select(c.order, RunningIds(c));
    var waiting := Select(c.order, WaitingIds(c, id));
    var at := Clamp(position, |waiting|);
    BetweenNoDup(running, waiting, at, id);
    forall x ensures x in MovedOrder(c, id, position) <==> x in c.order {
      BetweenMembers(running, waiting, at, id, x);
    }
  }

  lemma MoveSound(c: Core, id: RunId, position: int, adrift: set<RunId>)
    requires Sound(c, adrift)
    ensures Sound(MoveCore(c, id, position).0, adrift) && Undisturbed(c, MoveCore(c, id, position).0)
  {
    if id in c.jobs && Pending(c.jobs[id].status) {
      MovedSame(c, id, position);
    }
    AlikeSound(c, MoveCore(c, id, position).0, adrift);
  }

  lemma RunNextSound(c: Core, id: RunId, adrift: set<RunId>)
    requires Sound(c, adrift)
    ensures Sound(RunNextCore(c, id).0, adrift) && Undisturbed(c, RunNextCore(c, id).0)
  {
    if id in c.jobs && c.jobs[id].status.Paused? {
      var job := c.jobs[id].(status := Queued, pausedByQueue := false);
      var c1 := WithJob(c, id, job);
      RelabelSound(c, id, job, adrift);
      MoveSound(c1, id, 0, adrift);
    } else {
      MoveSound(c, id, 0, adrift);
    }
  }

  lemma PauseAllSound(c: Core, adrift: set<RunId>)
    requires Sound(c, adrift)
    ensures Sound(PauseAllCore(c), adrift) && Undisturbed(c, PauseAllCore(c))
  {
    AlikeSound(c, PauseAllCore(c), adrift);
  }

  lemma ResumeAllSound(c: Core, adrift: set<RunId>)
    requires Sound(c, adrift)
    ensures Sound(ResumeAllCore(c), adrift) && Undisturbed(c, ResumeAllCore(c))
  {
    AlikeSound(c, ResumeAllCore(c), adrift);
  }

  lemma SubmitSound(c: Core, id: RunId, request: Contract.Dict, at: real, adrift: set<RunId>)
    requires Sound(c, adrift) && id !in c.jobs
    ensures Sound(SubmitCore(c, id, request, at), adrift) && Undisturbed(c, SubmitCore(c, id, request, at))
  {
    var d := SubmitCore(c, id, request, at);
    forall n, x ensures Holds(d, n, x) <==> Names(d, x, n) {
      assert Holds(c, n, x) <==> Names(c, x, n);
    }
  }

  lemma TouchSound(c: Core, n: Name, now: real, adrift: set<RunId>)
    requires Sound(c, adrift) && n in c.shards
    ensures Sound(Touched(c, n, now), adrift) && Undisturbed(c, Touched(c, n, now))
  {
    AlikeSound(c, Touched(c, n, now), adrift);
  }

  // A shard object put in the place of one that holds no other run.
  lemma ReplaceSound(c: Core, d: Core, n: Name, shard: Shard, adrift: set<RunId>)
    requires Sound(c, adrift) && n !in c.lanes && !shard.local
    requires d == c.(pausedNames := d.pausedNames, shards := c.shards[n := shard])
    requires if n in c.shards then shard.runId == c.shards[n].runId else shard.runId == None
    requires shard.runId.Some? ==> shard.instance == c.shards[n].instance
    ensures Sound(d, adrift) && Undisturbed(c, d)
  {
    forall m, x ensures Holds(d, m, x) <==> Names(d, x, m) {
      assert Holds(c, m, x) <==> Names(c, x, m);
    }
  }

  lemma RegisterSound(s: State, n: Name, instance: Instance, now: real, adrift: set<RunId>)
    requires Sound(s.core, adrift)
    ensures var d := RegisterShard(s, n, instance, now).0.core;
            Sound(d, adrift) && Undisturbed(s.core, d)
  {
    if n !in s.core.lanes {
      var d := RegisterShard(s, n, instance, now).0.core;
      var shard := Registration(s.core, n, instance, now);
      if n in s.core.shards && s.core.shards[n].instance != instance {
        GiveBackSound(s.core, n, adrift);
        ReplaceSound(GiveBackCore(s.core, n), d, n, shard, adrift);
      } else {
        ReplaceSound(s.core, d, n, shard, adrift);
      }
    }
  }

  // Only remote shards are reaped, so no lane loses its run.
  lemma ReapOneSound(s: State, n: Name, now: real, adrift: set<RunId>)
    requires Sound(s.core, adrift)
    ensures var d := ReapOne(s, n, now).core;
            Sound(d, adrift) && Undisturbed(s.core, d)
  {
    if Silent(s.core, n, now) {
      var c := MarkOffline(s.core, n);
      AlikeSound(s.core, c, adrift);
      GiveBackSound(c, n, adrift);
    }
  }

  lemma {:induction false} ReapEachSound(s: State, visit: seq<Name>, now: real, adrift: set<RunId>)
    requires Sound(s.core, adrift)
    ensures var d := ReapEach(s, visit, now).core;
            Sound(d, adrift) && Undisturbed(s.core, d)
    decreases |visit|
  {
    if visit != [] {
      var last := |visit| - 1;
      ReapEachSound(s, visit[..last], now, adrift);
      ReapOneSound(ReapEach(s, visit[..last], now), visit[last], now, adrift);
    }
  }

  lemma ReapSound(s: State, visit: seq<Name>, now: real, adrift: set<RunId>)
    requires Sound(s.core, adrift)
    ensures var d := Reap(s, visit, now).core;
            Sound(d, adrift) && Undisturbed(s.core, d)
  {
    ReapEachSound(s, visit, now, adrift);
  }

  lemma PauseShardSound(c: Core, n: Name, adrift: set<RunId>)
    requires Sound(c, adrift)
    ensures Sound(PauseShardCore(c, n).0, adrift) && Undisturbed(c, PauseShardCore(c, n).0)
  {
    if n in c.shards {
      ShardPauseSound(c, PauseShardCore(c, n).0, Members(c, n), true, adrift);
    }
  }

  lemma ResumeShardSound(c: Core, n: Name, adrift: set<RunId>)
    requires Sound(c, adrift)
    ensures Sound(ResumeShardCore(c, n).0, adrift) && Undisturbed(c, ResumeShardCore(c, n).0)
  {
    if n in c.shards {
      ShardPauseSound(c, ResumeShardCore(c, n).0, Members(c, n), false, adrift);
    }
  }

  lemma SetShardsPausedSound(c: Core, paused: bool, adrift: set<RunId>)
    requires Sound(c, adrift)
    ensures Sound(SetShardsPausedCore(c, paused), adrift) && Undisturbed(c, SetShardsPausedCore(c, paused))
  {
    ShardPauseSound(c, SetShardsPausedCore(c, paused), c.shards.Keys, paused, adrift);
  }

  lemma SetScheduleSound(c: Core, n: Name, schedule: Schedule, adrift: set<RunId>)
    requires Sound(c, adrift)
    ensures var d := SetScheduleCore(c, n, schedule).0;
            Sound(d, adrift) && Undisturbed(c, d)
  {
    AlikeSound(c, SetScheduleCore(c, n, schedule).0, adrift);
  }

  lemma RowsSound(c: Core, d: Core, adrift: set<RunId>)
    requires Sound(c, adrift) && d == c.(rows := d.rows)
    ensures Sound(d, adrift) && Undisturbed(c, d)
  {
    AlikeSound(c, d, adrift);
  }

  lemma SyncSound(s: State, n: Name, instance: Instance, run: Option<RunId>, progressed: bool, rows: seq<Row>, now: real, wall: nat, adrift: set<RunId>)
    requires Sound(s.core, adrift)
    ensures var d := Sync(s, n, instance, run, progressed, rows, now, wall).0.core;
            Sound(d, adrift) && Undisturbed(s.core, d)
  {
    if RemoteShard(s.core, n, instance) == None {
      TouchSound(s.core, n, now, adrift);
      RowsSound(Touched(s.core, n, now), Sync(s, n, instance, run, progressed, rows, now, wall).0.core, adrift);
    }
  }

  lemma ShardPauseSound(c: Core, d: Core, names: set<Name>, paused: bool, adrift: set<RunId>)
    requires Sound(c, adrift) && d == c.(shards := WithPaused(c.shards, names, paused), pausedNames := d.pausedNames)
    ensures Sound(d, adrift) && Undisturbed(c, d)
  {
    AlikeSound(c, d, adrift);
  }

  // Forgetting a shard is harmless exactly when it holds no run: a shard that
  // has timed out but was not reaped yet is accepted all the same, and its run
  // is then left running on a shard that does not exist.
  lemma ForgetSoundIff(c: Core, n: Name, now: real, adrift: set<RunId>)
    requires Sound(c, adrift) && ForgetShardCore(c, n, now).1 == Done
    ensures Sound(ForgetShardCore(c, n, now).0, adrift) <==> c.shards[n].runId == None
  {
    var d := ForgetShardCore(c, n, now).0;
    if c.shards[n].runId.Some? {
      var id := c.shards[n].runId.value;
      assert Holds(c, n, id) && Names(c, id, n);
      assert Names(d, id, n) && !Holds(d, n, id);
    } else {
      forall m, x ensures Holds(d, m, x) <==> Names(d, x, m) {
        assert Holds(c, m, x) <==> Names(c, x, m);
      }
    }
  }

  lemma ForgetSound(c: Core, n: Name, now: real, adrift: set<RunId>)
    requires Sound(c, adrift) && (n in c.shards ==> c.shards[n].runId == None)
    ensures var d := ForgetShardCore(c, n, now).0;
            Sound(d, adrift) && Undisturbed(c, d)
  {
    if ForgetShardCore(c, n, now).1 == Done {
      ForgetSoundIff(c, n, now, adrift);
    }
  }

  // A claim that starts a run keeps one run per shard exactly when the shard
  // has none at that moment; claim does not look.
  lemma StartSoundIff(c: Core, id: RunId, n: Name, adrift: set<RunId>)
    requires Sound(c, adrift) && id in c.jobs && c.jobs[id].status.Queued? && n in c.shards
    ensures Sound(StartCore(c, id, n), adrift) <==> c.shards[n].runId == None
  {
    if c.shards[n].runId.Some? {
      var other := c.shards[n].runId.value;
      assert Holds(c, n, other) && Names(c, other, n);
      var d := StartCore(c, id, n);
      assert Names(d, other, n) && !Holds(d, n, other);
    } else {
      StartSound(c, id, n, adrift);
    }
  }

  // What restore has built from the entries read so far.
  ghost predicate Waking(c: Core) {
    && NoDup(c.order) && (forall id :: id in c.order <==> id in c.jobs)
    && (forall id | id in c.jobs ::
          c.jobs[id].shard == None && c.jobs[id].stop == None && Pending(c.jobs[id].status))
  }

  lemma AddWaking(c: Core, id: RunId, job: Job)
    requires Waking(c) && id !in c.jobs
    requires job.shard == None && job.stop == None && Pending(job.status)
    ensures Waking(WithJob(c, id, job).(order := c.order + [id]))
  {
  }

  lemma RestoreJobWaking(c: Core, e: SavedJob)
    requires Waking(c)
    ensures Waking(RestoreJob(c, e))
  {
    if !(e.runId == NO_ID || e.runId in c.jobs || e.stop == Some(CancelStop)) {
      var job := Revived(e);
      AddWaking(c, e.runId, job);
    }
  }

  lemma {:induction false} RestoreJobsWaking(c: Core, entries: seq<SavedJob>)
    requires Waking(c)
    ensures var d := RestoreJobs(c, entries);
            Waking(d) && d.shards == c.shards && d.lanes == c.lanes
    decreases |entries|
  {
    if entries != [] {
      var last := |entries| - 1;
      RestoreJobsWaking(c, entries[..last]);
      RestoreJobWaking(RestoreJobs(c, entries[..last]), entries[last]);
    }
  }

  function SavedIds(entries: seq<SavedJob>): set<RunId> {
    set e | e in entries :: e.runId
  }

  lemma {:induction false} RestoreJobsIds(c: Core, entries: seq<SavedJob>)
    ensures forall id | id in RestoreJobs(c, entries).order :: id in c.order || id in SavedIds(entries)
    decreases |entries|
  {
    if entries != [] {
      var last := |entries| - 1;
      RestoreJobsIds(c, entries[..last]);
      assert entries == entries[..last] + [entries[last]];
    }
  }

  lemma WakingSound(c: Core)
    requires Waking(c) && Laned(c) && forall n | n in c.shards :: c.shards[n].runId == None
    ensures Sound(c, {})
  {
    forall m, x ensures Holds(c, m, x) <==> Names(c, x, m) {
    }
  }

  // A restart begins with nothing running and nothing owned.
  lemma RestartSound(s: State, now: real)
    requires LOCAL_SHARD in s.core.lanes
    ensures var d := Restart(s, now).core;
            Sound(d, {}) && d.lanes == s.core.lanes && Waking(d)
            && d.shards.Keys == Elems(s.core.lanes) && forall n | n in d.shards :: d.shards[n].runId == None
  {
    var c := RestoreSettings(FreshCore(s.core.lanes, s.core.rows, now), s.disk);
    assert Waking(c) && Laned(c);
    RestoreJobsWaking(c, s.disk.jobs);
    WakingSound(Restart(s, now).core);
  }

  // The operation concerned one remote shard and left the others alone.
  ghost predicate Elsewhere(c: Core, d: Core, n: Name) {
    && d.lanes == c.lanes && d.shards.Keys == c.shards.Keys && n in c.shards && !c.shards[n].local
    && d.shards[n].instance == c.shards[n].instance && d.shards[n].local == c.shards[n].local
    && forall m | m in c.shards && m != n :: d.shards[m] == c.shards[m]
  }

  lemma ClaimBeginSound(s: State, n: Name, instance: Instance, now: real, adrift: set<RunId>)
    requires Sound(s.core, adrift) && RemoteShard(s.core, n, instance) == None
    ensures var d := ClaimBegin(s, n, instance, now).0.core;
            Sound(d, adrift) && Elsewhere(s.core, d, n) && d.shards[n].runId == None
  {
    TouchSound(s.core, n, now, adrift);
    GiveBackSound(Touched(s.core, n, now), n, adrift);
  }

  lemma ClaimEndSound(s: State, n: Name, instance: Instance, now: real, wall: nat, adrift: set<RunId>)
    requires Sound(s.core, adrift) && RemoteShard(s.core, n, instance) == None && s.core.shards[n].runId == None
    ensures var d := ClaimEnd(s, n, instance, now, wall).0.core;
            Sound(d, adrift) && Elsewhere(s.core, d, n)
  {
    TouchSound(s.core, n, now, adrift);
    var c1 := Touched(s.core, n, now);
    var run := NextRunnable(c1, true);
    if run.Some? {
      StartSound(c1, run.value, n, adrift);
    }
  }

  lemma ShardFinishSound(s: State, n: Name, instance: Instance, id: RunId, outcome: Outcome, now: real, adrift: set<RunId>)
    requires Sound(s.core, adrift) && RemoteShard(s.core, n, instance) == None
    ensures var d := ShardFinish(s, n, instance, id, outcome, now).0.core;
            Sound(d, adrift) && Elsewhere(s.core, d, n)
            && (d.shards[n].runId == None || d.shards[n].runId == s.core.shards[n].runId)
  {
    TouchSound(s.core, n, now, adrift);
    var c := Touched(s.core, n, now);
    if Owns(c, n, id) {
      assert adrift - {id} == adrift by { assert Names(c, id, n); }
      SoleHolder(c, n, id, adrift);
      if outcome.StoppedOutcome? || outcome.ReleasedOutcome? {
        SettleSound(c, id, adrift);
        SettleFrees(c, id, adrift);
      } else {
        var status := if outcome.FailedOutcome? then Failed else Complete;
        FinishSound(c, id, status, adrift);
        FinishFrees(c, id, status, adrift);
      }
    }
  }

  lemma SoleHolder(c: Core, n: Name, id: RunId, adrift: set<RunId>)
    requires Linked(c, adrift) && Holds(c, n, id)
    ensures forall m | m in c.shards && m != n :: c.shards[m].runId != Some(id)
  {
    forall m | m in c.shards && m != n ensures c.shards[m].runId != Some(id) {
      assert !Holds(c, m, id) by {
        assert Holds(c, m, id) <==> Names(c, id, m);
        assert Holds(c, n, id) <==> Names(c, id, n);
      }
    }
  }
}
