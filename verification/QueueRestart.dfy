/** A crash is a release: what restore makes of the disk, stated without the disk. */
module QueueRestart {
  import opened Seqs
  import opened Queue
  import opened QueueInvariants
  import opened QueueRuns
  import opened QueueTheorems
  import Contract

  // Every running job taken back from whoever runs it, one after another.
  function ReleaseAll(c: Core, ids: seq<RunId>): (r: Core)
    requires Known(c)
    ensures Known(r)
  {
    if ids == [] then c else ReleaseCore(ReleaseAll(c, ids[..|ids| - 1]), ids[|ids| - 1])
  }

  predicate Dropped(c: Core, id: RunId) {
    IsRunning(c, id) && c.jobs[id].stop == Some(CancelStop)
  }

  // What is left of the order once the runs being cancelled are gone.
  function Kept(c: Core): set<RunId> {
    set id | id in c.order && !Dropped(c, id)
  }

  function ReleasedJob(job: Job): Job {
    if job.status.Running? then job.(status := Settled(job.stop), stop := None, shard := None) else job
  }

  function Gone(c: Core, done: seq<RunId>): set<RunId> {
    set id | id in done && Dropped(c, id)
  }

  lemma GoneOne(c: Core, done: seq<RunId>, id: RunId)
    ensures Gone(c, done + [id]) == Gone(c, done) + (if Dropped(c, id) then {id} else {})
  {
  }

  // ---- releasing everything -------------------------------------------

  // After the first runs of the order were released.
  ghost predicate ReleasedTo(c: Core, d: Core, done: seq<RunId>) {
    && d.order == Select(c.order, Elems(c.order) - Gone(c, done))
    && d.rows == c.rows - Gone(c, done)
    && d.jobs.Keys == c.jobs.Keys
    && (forall id | id in c.jobs :: d.jobs[id] == if id in done then ReleasedJob(c.jobs[id]) else c.jobs[id])
  }

  lemma ReleasedOne(c: Core, d: Core, e: Core, done: seq<RunId>, id: RunId)
    requires NoDup(c.order) && ReleasedTo(c, d, done) && id in c.jobs && id !in done
    requires e.order == if Dropped(c, id) then Remove(d.order, id) else d.order
    requires e.rows == if Dropped(c, id) then d.rows - {id} else d.rows
    requires e.jobs == d.jobs[id := ReleasedJob(c.jobs[id])]
    ensures ReleasedTo(c, e, done + [id])
  {
    GoneOne(c, done, id);
    if !Dropped(c, id) {
      assert Gone(c, done + [id]) == Gone(c, done);
    } else {
      assert Gone(c, done + [id]) == Gone(c, done) + {id};
      SelectRemove(c.order, Gone(c, done), id);
      assert e.rows == c.rows - (Gone(c, done) + {id});
    }
  }

  lemma ReleaseEffect(d: Core, id: RunId)
    requires Sound(d, {}) && id in d.jobs
    ensures var e := ReleaseCore(d, id);
            Sound(e, {}) && e.jobs == d.jobs[id := ReleasedJob(d.jobs[id])]
            && e.order == (if Dropped(d, id) then Remove(d.order, id) else d.order)
            && e.rows == (if Dropped(d, id) then d.rows - {id} else d.rows)
  {
    if IsRunning(d, id) {
      SettleSound(d, id, {});
      SettleFrees(d, id, {});
      assert {} - {id} == {};
    }
  }

  lemma ReleaseOne(c: Core, d: Core, done: seq<RunId>, id: RunId)
    requires Sound(c, {}) && Sound(d, {}) && ReleasedTo(c, d, done) && id in c.order && id !in done
    ensures Sound(ReleaseCore(d, id), {}) && ReleasedTo(c, ReleaseCore(d, id), done + [id])
  {
    assert d.jobs[id] == c.jobs[id];
    ReleaseEffect(d, id);
    ReleasedOne(c, d, ReleaseCore(d, id), done, id);
  }

  lemma {:induction false} ReleaseAllTo(c: Core, done: seq<RunId>)
    requires Sound(c, {}) && done <= c.order
    ensures Sound(ReleaseAll(c, done), {}) && ReleasedTo(c, ReleaseAll(c, done), done)
    decreases |done|
  {
    if done == [] {
      assert Gone(c, []) == {};
      assert Elems(c.order) - {} == Elems(c.order);
      SelectAll(c.order, Elems(c.order));
      assert c.rows - {} == c.rows;
    } else {
      var last := |done| - 1;
      ReleaseAllTo(c, done[..last]);
      assert done == done[..last] + [done[last]];
      assert done[last] == c.order[last];
      ReleaseOne(c, ReleaseAll(c, done[..last]), done[..last], done[last]);
    }
  }

  // ---- reading the disk back ------------------------------------------

  // After the first runs of the order were read back, each as `woken` has it.
  ghost predicate RestoredTo(c: Core, base: Core, woken: map<RunId, Job>, d: Core, done: seq<RunId>) {
    && d.order == Select(done, Kept(c))
    && d.rows == base.rows - Gone(c, done)
    && d.jobs.Keys == Elems(d.order)
    && (forall id | id in d.order :: id in woken && d.jobs[id] == woken[id])
  }

  lemma RestoreOne(c: Core, base: Core, woken: map<RunId, Job>, d: Core, done: seq<RunId>, id: RunId, e: SavedJob)
    requires StopsSound(c) && RestoredTo(c, base, woken, d, done)
    requires id in c.order && id in c.jobs && id !in done && id != NO_ID && id in woken
    requires e.runId == id && e.stop == c.jobs[id].stop
    ensures RestoredTo(c, base, woken, RestoreAs(d, e, woken[id]), done + [id])
  {
    SelectMembers(done, Kept(c));
    SelectConcat(done, [id], Kept(c));
    GoneOne(c, done, id);
    assert id !in d.jobs;
    if c.jobs[id].stop == Some(CancelStop) {
      assert Gone(c, done + [id]) == Gone(c, done) + {id};
      assert base.rows - Gone(c, done) - {id} == base.rows - (Gone(c, done) + {id});
      assert Select(done + [id], Kept(c)) == Select(done, Kept(c));
      assert RestoreAs(d, e, woken[id]) == d.(rows := d.rows - {id});
    } else {
      assert Gone(c, done + [id]) == Gone(c, done);
      assert Select(done + [id], Kept(c)) == Select(done, Kept(c)) + [id];
      RestoreFiled(d, e, woken[id]);
    }
  }

  lemma RestoreFiled(d: Core, e: SavedJob, job: Job)
    requires e.runId !in d.jobs && e.runId != NO_ID && e.stop != Some(CancelStop) && d.jobs.Keys == Elems(d.order)
    ensures var r := RestoreAs(d, e, job);
            r.order == d.order + [e.runId] && r.rows == d.rows && r.jobs == d.jobs[e.runId := job]
            && r.jobs.Keys == Elems(r.order)
  {
    assert Elems(d.order + [e.runId]) == Elems(d.order) + {e.runId};
  }

  // Restoring with the jobs already translated.
  function RestoreEach(c: Core, entries: seq<SavedJob>, jobs: seq<Job>): Core
    requires |entries| == |jobs|
  {
    if entries == [] then c
    else
      var last := |entries| - 1;
      RestoreAs(RestoreEach(c, entries[..last], jobs[..last]), entries[last], jobs[last])
  }

  function RevivedAll(entries: seq<SavedJob>): seq<Job> {
    seq(|entries|, i requires 0 <= i < |entries| => Revived(entries[i]))
  }

  lemma {:induction false} RestoreIsEach(c: Core, entries: seq<SavedJob>)
    ensures RestoreJobs(c, entries) == RestoreEach(c, entries, RevivedAll(entries))
    decreases |entries|
  {
    if entries != [] {
      var last := |entries| - 1;
      RestoreIsEach(c, entries[..last]);
      assert RevivedAll(entries)[..last] == RevivedAll(entries[..last]);
    }
  }

  lemma {:induction false} RestoreAllTo(c: Core, base: Core, woken: map<RunId, Job>, entries: seq<SavedJob>, jobs: seq<Job>, n: nat)
    requires NoDup(c.order) && StopsSound(c) && Known(c) && entries == SaveAll(c.jobs, c.order) && n <= |entries|
    requires base.jobs == map[] && base.order == [] && NO_ID !in c.order && |jobs| == |entries|
    requires forall k | 0 <= k < |c.order| :: c.order[k] in woken && woken[c.order[k]] == jobs[k]
    ensures RestoredTo(c, base, woken, RestoreEach(base, entries[..n], jobs[..n]), c.order[..n])
    decreases n
  {
    if n == 0 {
      RestoredNone(c, base, woken);
    } else {
      RestoreAllTo(c, base, woken, entries, jobs, n - 1);
      RestoreSnoc(base, entries, jobs, n);
      RestoreNext(c, base, woken, RestoreEach(base, entries[..n - 1], jobs[..n - 1]), entries[n - 1], n);
    }
  }

  lemma RestoreNext(c: Core, base: Core, woken: map<RunId, Job>, d: Core, e: SavedJob, n: nat)
    requires NoDup(c.order) && StopsSound(c) && Known(c) && NO_ID !in c.order && 0 < n <= |c.order|
    requires c.order[n - 1] in woken && e == Save(c.order[n - 1], c.jobs[c.order[n - 1]])
    requires RestoredTo(c, base, woken, d, c.order[..n - 1])
    ensures RestoredTo(c, base, woken, RestoreAs(d, e, woken[c.order[n - 1]]), c.order[..n])
  {
    var id := c.order[n - 1];
    assert c.order[..n] == c.order[..n - 1] + [id];
    assert id in c.order;
    RestoreOne(c, base, woken, d, c.order[..n - 1], id, e);
  }

  lemma RestoredNone(c: Core, base: Core, woken: map<RunId, Job>)
    requires base.jobs == map[] && base.order == []
    ensures RestoredTo(c, base, woken, base, [])
  {
    assert Gone(c, []) == {};
    assert base.rows - {} == base.rows;
  }

  lemma RestoreSnoc(base: Core, entries: seq<SavedJob>, jobs: seq<Job>, n: nat)
    requires 0 < n <= |entries| == |jobs|
    ensures RestoreEach(base, entries[..n], jobs[..n])
         == RestoreAs(RestoreEach(base, entries[..n - 1], jobs[..n - 1]), entries[n - 1], jobs[n - 1])
  {
    assert entries[..n][..n - 1] == entries[..n - 1] && jobs[..n][..n - 1] == jobs[..n - 1];
  }

  // How a saved job comes back is how a released one looks, its request
  // translated.
  lemma RevivedIsReleased(id: RunId, job: Job)
    requires !Terminal(job.status) && (job.stop.Some? ==> job.status.Running?) && job.stop != Some(CancelStop)
    requires !job.status.Running? ==> job.shard == None
    ensures Revived(Save(id, job)) == Translated(ReleasedJob(job))
  {
    var request := Contract.Request(job.request);
  }

  function Translated(job: Job): Job {
    job.(request := Contract.Request(job.request))
  }

  // r is d with every finished job forgotten and every request translated.
  ghost predicate RestartOf(d: Core, r: Core) {
    && r.order == d.order && r.rows == d.rows && r.jobs.Keys == Elems(r.order)
    && forall id | id in r.order :: id in d.jobs && r.jobs[id] == Translated(d.jobs[id])
  }

  // The settings a restart carries over from c: "local" stands for every
  // lane, and other shards' pauses are remembered by name.
  ghost predicate SettingsOf(c: Core, r: Core) {
    && r.lanes == c.lanes && r.paused == c.paused && r.schedules == c.schedules
    && (forall n | n in r.lanes && n in r.shards :: r.shards[n].paused <==> LOCAL_SHARD in PausedShards(c))
    && r.pausedNames == PausedShards(c) - Elems(c.lanes)
  }

  lemma {:induction false} RestoreSame(c: Core, entries: seq<SavedJob>)
    ensures var d := RestoreJobs(c, entries);
            d == c.(jobs := d.jobs, order := d.order, rows := d.rows)
    decreases |entries|
  {
    if entries != [] {
      RestoreSame(c, entries[..|entries| - 1]);
    }
  }

  lemma RestoredIsReleased(c: Core, base: Core, woken: map<RunId, Job>, r: Core)
    requires Sound(c, {}) && RestoredTo(c, base, woken, r, c.order) && base.rows == c.rows
    requires forall id | id in c.order :: id in woken
               && (c.jobs[id].stop != Some(CancelStop) ==> woken[id] == Translated(ReleasedJob(c.jobs[id])))
    ensures RestartOf(ReleaseAll(c, c.order), r)
  {
    ReleaseAllTo(c, c.order);
    SelectAgree(c.order, Kept(c), Elems(c.order) - Gone(c, c.order));
    SelectMembers(c.order, Kept(c));
  }

  function Woken(c: Core): map<RunId, Job>
    requires Known(c)
  {
    map id | id in c.order :: Revived(Save(id, c.jobs[id]))
  }

  lemma WokenIsReleased(c: Core)
    requires Sound(c, {})
    ensures forall id | id in c.order && c.jobs[id].stop != Some(CancelStop) ::
              Woken(c)[id] == Translated(ReleasedJob(c.jobs[id]))
  {
    forall id | id in c.order && c.jobs[id].stop != Some(CancelStop)
      ensures Woken(c)[id] == Translated(ReleasedJob(c.jobs[id])) {
      RevivedIsReleased(id, c.jobs[id]);
    }
  }

  lemma WokenAreRevived(c: Core, entries: seq<SavedJob>)
    requires Known(c) && entries == SaveAll(c.jobs, c.order)
    ensures forall k | 0 <= k < |c.order| :: c.order[k] in Woken(c) && Woken(c)[c.order[k]] == RevivedAll(entries)[k]
  {
    forall k | 0 <= k < |c.order| ensures c.order[k] in Woken(c) && Woken(c)[c.order[k]] == RevivedAll(entries)[k] {
      assert c.order[k] in c.order;
    }
  }

  lemma RestoredJobs(c: Core, base: Core, entries: seq<SavedJob>)
    requires Sound(c, {}) && entries == SaveAll(c.jobs, c.order) && NO_ID !in c.order
    requires base.jobs == map[] && base.order == []
    ensures RestoredTo(c, base, Woken(c), RestoreJobs(base, entries), c.order)
  {
    WokenAreRevived(c, entries);
    RestoredEach(c, base, Woken(c), entries, RevivedAll(entries));
    RestoreIsEach(base, entries);
  }

  lemma RestoredEach(c: Core, base: Core, woken: map<RunId, Job>, entries: seq<SavedJob>, jobs: seq<Job>)
    requires Sound(c, {}) && entries == SaveAll(c.jobs, c.order) && NO_ID !in c.order
    requires base.jobs == map[] && base.order == [] && |jobs| == |entries|
    requires forall k | 0 <= k < |c.order| :: c.order[k] in woken && woken[c.order[k]] == jobs[k]
    ensures RestoredTo(c, base, woken, RestoreEach(base, entries, jobs), c.order)
  {
    RestoreAllTo(c, base, woken, entries, jobs, |entries|);
    assert entries[..|entries|] == entries && jobs[..|entries|] == jobs && c.order[..|entries|] == c.order;
  }

  // A crash between locked sections and a restart come to exactly this: every
  // running job released -- queued, or paused if it had been asked to pause, or
  // dropped if it had been asked to cancel -- in the same order, with the same
  // checkpoints and settings.
  lemma RestartIsRelease(s: State, now: real)
    requires Sound(s.core, {}) && s.disk == Project(s.core) && NO_ID !in s.core.order
    ensures RestartOf(ReleaseAll(s.core, s.core.order), Restart(s, now).core)
    ensures SettingsOf(s.core, Restart(s, now).core)
  {
    var c := s.core;
    var base := RestoreSettings(FreshCore(c.lanes, c.rows, now), s.disk);
    RestoredJobs(c, base, s.disk.jobs);
    RestoreSame(base, s.disk.jobs);
    WokenIsReleased(c);
    RestoredIsReleased(c, base, Woken(c), RestoreJobs(base, s.disk.jobs));
  }

  // So it is in every reachable state in which no local lane is between the two
  // halves of a cancel, whatever the crash tore in the middle of appending.
  lemma CrashIsRelease(trace: seq<System>, steps: seq<Step>, lanes: seq<Name>, start: real, i: nat, step: Step)
    requires IsRun(trace, steps, lanes, start) && i < |trace| && Adrift(trace[i]) == {} && Dies(trace[i], step)
    ensures var left := CoreOf(Left(trace[i], step));
            Known(CoreOf(trace[i])) && Known(left) && left == CoreOf(trace[i]).(rows := left.rows)
            && RestartOf(ReleaseAll(left, left.order), CoreOf(Next(trace[i], step)))
            && SettingsOf(CoreOf(trace[i]), CoreOf(Next(trace[i], step)))
  {
    RunInvariant(trace, steps, lanes, start, i);
    LeftInvariant(trace[i], step);
    DeathIsCrash(trace[i], step);
    CrashReleases(Left(trace[i], step), step.now);
    assert PausedShards(CoreOf(Left(trace[i], step))) == PausedShards(CoreOf(trace[i]));
  }

  lemma CrashReleases(sys: System, now: real)
    requires Invariant(sys) && Adrift(sys) == {}
    ensures RestartOf(ReleaseAll(CoreOf(sys), CoreOf(sys).order), CoreOf(Crash(sys, now)))
    ensures SettingsOf(CoreOf(sys), CoreOf(Crash(sys, now)))
  {
    ProjectedIff(sys.q, {});
    RestartIsRelease(sys.q, now);
  }

  // ---- and restarting again changes nothing ---------------------------

  lemma RevivedTwice(e: SavedJob)
    requires e.stop != Some(CancelStop)
    ensures Revived(Save(e.runId, Revived(e))) == Revived(e)
  {
    Contract.RequestIdempotent(e.request);
  }

  // Every job is what its own saved form comes back as.
  ghost predicate Settling(c: Core) {
    forall id | id in c.jobs :: id != NO_ID && c.jobs[id].stop == None && Revived(Save(id, c.jobs[id])) == c.jobs[id]
  }

  lemma RestoreJobSettling(c: Core, e: SavedJob)
    requires Settling(c)
    ensures Settling(RestoreJob(c, e))
  {
    if !(e.runId == NO_ID || e.runId in c.jobs || e.stop == Some(CancelStop)) {
      RevivedTwice(e);
    }
  }

  lemma {:induction false} RestoreSettling(c: Core, entries: seq<SavedJob>)
    requires Settling(c)
    ensures Settling(RestoreJobs(c, entries))
    decreases |entries|
  {
    if entries != [] {
      var last := |entries| - 1;
      RestoreSettling(c, entries[..last]);
      RestoreJobSettling(RestoreJobs(c, entries[..last]), entries[last]);
    }
  }

  lemma {:induction false} RestoreAgain(c: Core, base: Core, n: nat)
    requires Waking(c) && Settling(c) && n <= |c.order| && base.jobs == map[] && base.order == []
    ensures RestoreAgainTo(c, base, RestoreJobs(base, SaveAll(c.jobs, c.order)[..n]), n)
    decreases n
  {
    var entries := SaveAll(c.jobs, c.order);
    if n > 0 {
      RestoreAgain(c, base, n - 1);
      assert entries[..n][..n - 1] == entries[..n - 1];
      var id := c.order[n - 1];
      assert id in c.order && id in c.jobs;
      assert Revived(entries[n - 1]) == c.jobs[id];
      RestoreAgainOne(c, base, RestoreJobs(base, entries[..n - 1]), n, entries[n - 1]);
    }
  }

  ghost predicate RestoreAgainTo(c: Core, base: Core, d: Core, n: nat)
    requires n <= |c.order|
  {
    && d.order == c.order[..n] && d.rows == base.rows && d.jobs.Keys == Elems(d.order)
    && (forall id | id in d.order :: id in c.jobs && d.jobs[id] == c.jobs[id])
  }

  lemma RestoreAgainOne(c: Core, base: Core, d: Core, n: nat, e: SavedJob)
    requires NoDup(c.order) && 0 < n <= |c.order| && RestoreAgainTo(c, base, d, n - 1)
    requires e.runId == c.order[n - 1] && e.runId in c.jobs && e.runId != NO_ID && e.stop == None
    ensures RestoreAgainTo(c, base, RestoreAs(d, e, c.jobs[e.runId]), n)
  {
    assert c.order[..n] == c.order[..n - 1] + [c.order[n - 1]];
    assert e.runId !in d.order;
    assert e.runId !in d.jobs;
  }

  // Restarting a queue that was only just restarted gives the same queue, for
  // any disk whatever: what is read back is written in a form that reads back
  // to itself.
  lemma RestartTwice(s: State, now: real)
    requires LOCAL_SHARD in s.core.lanes
    ensures Restart(Restart(s, now), now).core == Restart(s, now).core
  {
    var r := Restart(s, now).core;
    var base := RestoreSettings(FreshCore(s.core.lanes, s.core.rows, now), s.disk);
    RestoreJobsWaking(base, s.disk.jobs);
    RestoreSettling(base, s.disk.jobs);
    RestoreSame(base, s.disk.jobs);
    PausesAgain(s.core, r, base, s.disk, now);
    RestartSettled(r, base.(rows := r.rows), Project(r).jobs);
  }

  lemma RestartSettled(r: Core, base: Core, entries: seq<SavedJob>)
    requires Waking(r) && Settling(r) && entries == SaveAll(r.jobs, r.order)
    requires base.jobs == map[] && base.order == [] && r == base.(jobs := r.jobs, order := r.order)
    ensures RestoreJobs(base, entries) == r
  {
    RestoreAgain(r, base, |r.order|);
    assert entries[..|r.order|] == entries && r.order[..|r.order|] == r.order;
    RestoreSame(base, entries);
    RestoreAgainSame(r, base, RestoreJobs(base, entries));
  }

  lemma RestoreAgainSame(r: Core, base: Core, d: Core)
    requires Waking(r) && RestoreAgainTo(r, base, d, |r.order|)
    requires d == base.(jobs := d.jobs, order := d.order, rows := d.rows)
    requires r == base.(jobs := r.jobs, order := r.order)
    ensures d == r
  {
    assert r.order[..|r.order|] == r.order;
    forall id ensures id in d.jobs <==> id in r.jobs {
      assert id in r.order <==> id in r.jobs;
      assert id in Elems(d.order) <==> id in d.order;
    }
    forall id | id in d.jobs ensures d.jobs[id] == r.jobs[id] {
      assert id in Elems(d.order);
    }
    assert d.jobs == r.jobs;
  }

  // The settings of a restarted queue are read back as they are.
  lemma PausesAgain(c: Core, r: Core, base: Core, saved: Saved, now: real)
    requires LOCAL_SHARD in c.lanes && Known(r)
    requires base == RestoreSettings(FreshCore(c.lanes, c.rows, now), saved)
    requires r == base.(jobs := r.jobs, order := r.order, rows := r.rows)
    ensures RestoreSettings(FreshCore(c.lanes, r.rows, now), Project(r)) == base.(rows := r.rows)
  {
    var again := RestoreSettings(FreshCore(c.lanes, r.rows, now), Project(r));
    assert LOCAL_SHARD in PausedShards(r) <==> LOCAL_SHARD in saved.pausedShards;
    assert again.pausedNames == base.pausedNames;
    assert again.shards == base.shards;
  }
}
