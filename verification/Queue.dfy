/**
 The queue of server/jobs.py on values: what each locked section of JobQueue
 does to its state. A Core is what the lock protects and the checkpoints on
 disk; a State adds what _changed derives from it -- positions, revisions and
 state.json. JobQueue.dfy proves the in-place methods equal to these functions,
 and QueueRuns.dfy proves what holds over whole runs of them.
 */
module Queue {
  import opened Seqs
  import opened Checkpoint
  import Contract

  // Ids and names are only ever compared, so numbers stand for the strings.
  type RunId = int
  type Name = int
  type Instance = int

  const NO_ID: RunId := 0
  const LOCAL_SHARD: Name := 0
  const SHARD_TIMEOUT_SECONDS: real := 60.0

  datatype Status = Queued | Running | Paused | Cancelled | Complete | Failed
  datatype Stop = PauseStop | CancelStop
  datatype Outcome = CompleteOutcome | FailedOutcome | StoppedOutcome | ReleasedOutcome

  predicate Pending(status: Status) {
    status.Queued? || status.Paused?
  }

  predicate Terminal(status: Status) {
    status.Cancelled? || status.Complete? || status.Failed?
  }

  datatype Job = Job(
    request: Contract.Dict,
    submittedAt: real,
    status: Status,
    stop: Option<Stop>,
    pausedByQueue: bool,
    shard: Option<Name>)

  datatype Shard = Shard(
    instance: Instance,
    lastSeen: real,
    local: bool,
    paused: bool,
    offline: bool,
    runId: Option<RunId>)

  // Times of day in minutes since midnight.
  datatype Schedule = Schedule(enabled: bool, start: Option<nat>, end: Option<nat>)

  // `rows` is the checkpoint file of each run that has one.
  datatype Core = Core(
    lanes: seq<Name>,
    jobs: map<RunId, Job>,
    order: seq<RunId>,
    shards: map<Name, Shard>,
    paused: bool,
    pausedNames: set<Name>,
    schedules: map<Name, Schedule>,
    rows: map<RunId, File>)

  datatype SavedJob = SavedJob(
    runId: RunId,
    request: Contract.Dict,
    submittedAt: real,
    status: Status,
    stop: Option<Stop>,
    pausedByQueue: bool)

  // state.json. A missing file restores exactly as the empty one does.
  datatype Saved = Saved(
    paused: bool,
    pausedShards: set<Name>,
    schedules: map<Name, Schedule>,
    jobs: seq<SavedJob>)

  const NothingSaved := Saved(false, {}, map[], [])

  // `places` is every job's queue_position, absent for None; a job absent from
  // `revisions` is at revision 0.
  datatype State = State(core: Core, places: map<RunId, nat>, revisions: map<RunId, nat>, disk: Saved)

  datatype Reply =
    | Done
    | RefusedQueue
    | UnknownRun
    | UnknownShard
    | Superseded
    | NotOwner
    | NoWork
    | Claimed(run: RunId)
    | Synced(shardPaused: bool, lockedOut: bool, owned: bool, stopAsked: bool)

  // Everything in the order is a job of this queue: without it the source
  // raises KeyError.
  ghost predicate Known(c: Core) {
    forall id | id in c.order :: id in c.jobs
  }

  function FileOf(c: Core, id: RunId): File {
    if id in c.rows then c.rows[id] else NoFile
  }

  // What load_rows returns for it.
  function RowsOf(c: Core, id: RunId): seq<Row> {
    LoadRows(FileOf(c, id))
  }

  // ---- positions, revisions, disk: _changed and _persist ---------------

  function PendingCount(jobs: map<RunId, Job>, order: seq<RunId>): nat
    requires forall id | id in order :: id in jobs
  {
    if order == [] then 0
    else
      var id := order[|order| - 1];
      PendingCount(jobs, order[..|order| - 1]) + if Pending(jobs[id].status) then 1 else 0
  }

  // queue_position of every pending job in the order, 1-indexed.
  function Places(jobs: map<RunId, Job>, order: seq<RunId>): (r: map<RunId, nat>)
    requires forall id | id in order :: id in jobs
    ensures forall id | id in r :: id in order
  {
    if order == [] then map[]
    else
      var id := order[|order| - 1];
      var before := Places(jobs, order[..|order| - 1]);
      if Pending(jobs[id].status) then before[id := PendingCount(jobs, order[..|order| - 1]) + 1] else before
  }

  function PlaceIn(places: map<RunId, nat>, id: RunId): Option<nat> {
    if id in places then Some(places[id]) else None
  }

  function Save(id: RunId, job: Job): SavedJob {
    SavedJob(id, job.request, job.submittedAt, job.status, job.stop, job.pausedByQueue)
  }

  function SaveAll(jobs: map<RunId, Job>, order: seq<RunId>): seq<SavedJob>
    requires forall id | id in order :: id in jobs
  {
    seq(|order|, i requires 0 <= i < |order| => Save(order[i], jobs[order[i]]))
  }

  // The pauses that survive a restart: "local" stands for every lane.
  function PausedShards(c: Core): set<Name> {
    c.pausedNames + set n | n in c.shards && c.shards[n].paused && (n !in c.lanes || n == LOCAL_SHARD)
  }

  // What _persist writes.
  function Project(c: Core): Saved
    requires Known(c)
  {
    Saved(c.paused, PausedShards(c), c.schedules, SaveAll(c.jobs, c.order))
  }

  function RevisionOf(s: State, id: RunId): nat {
    if id in s.revisions then s.revisions[id] else 0
  }

  // A job is bumped when it is touched, or in the order and moved.
  predicate Bumped(s: State, touched: set<RunId>, id: RunId)
    requires Known(s.core)
  {
    id in touched
    || (id in s.core.order && PlaceIn(Places(s.core.jobs, s.core.order), id) != PlaceIn(s.places, id))
  }

  // Every job in the order has the position _changed would give it now.
  ghost predicate PlacesCurrent(s: State)
    requires Known(s.core)
  {
    forall id | id in s.core.order ::
      PlaceIn(s.places, id) == PlaceIn(Places(s.core.jobs, s.core.order), id)
  }

  // _changed: only jobs in the order are given a new position.
  function Changed(s: State, touched: set<RunId>): (r: State)
    requires Known(s.core)
    ensures r.core == s.core && r.disk == Project(s.core) && PlacesCurrent(r)
  {
    s.(places := (s.places - Elems(s.core.order)) + Places(s.core.jobs, s.core.order),
       revisions := map id | id in s.core.jobs :: RevisionOf(s, id) + if Bumped(s, touched, id) then 1 else 0,
       disk := Project(s.core))
  }

  // Most operations change the core, call _changed once and are done; one that
  // was refused leaves everything as it was.
  function Apply(s: State, result: (Core, Reply), touched: set<RunId>): (r: State)
    requires Known(result.0)
    ensures r.core == result.0
  {
    var s1 := s.(core := result.0);
    if result.1.Done? then Changed(s1, touched) else s1
  }

  // ---- internals ------------------------------------------------------

  function WithJob(c: Core, id: RunId, job: Job): Core {
    c.(jobs := c.jobs[id := job])
  }

  function Detach(c: Core, id: RunId): Core
    requires id in c.jobs
  {
    var shard := c.jobs[id].shard;
    var c1 := WithJob(c, id, c.jobs[id].(shard := None));
    if shard.Some? && shard.value in c.shards && c.shards[shard.value].runId == Some(id)
    then c1.(shards := c.shards[shard.value := c.shards[shard.value].(runId := None)])
    else c1
  }

  // Out of the order, with its checkpoint discarded.
  function Drop(c: Core, id: RunId): (r: Core)
    ensures Known(c) ==> Known(r)
  {
    RemoveSubset(c.order, id);
    c.(order := Remove(c.order, id), rows := c.rows - {id})
  }

  lemma {:induction false} RemoveSubset(order: seq<RunId>, id: RunId)
    ensures forall x :: x in Remove(order, id) ==> x in order
  {
    if order != [] {
      RemoveSubset(order[1..], id);
      assert order == [order[0]] + order[1..];
    }
  }

  // Unlinked from its shard, with nothing asked of it any more.
  function Unlink(c: Core, id: RunId): Core
    requires id in c.jobs
  {
    var c1 := Detach(c, id);
    WithJob(c1, id, c1.jobs[id].(stop := None))
  }

  function FileAs(c: Core, id: RunId, status: Status): (r: Core)
    requires Known(c) && id in c.jobs
    ensures Known(r)
  {
    Drop(WithJob(c, id, c.jobs[id].(status := status)), id)
  }

  function FinishCore(c: Core, id: RunId, status: Status): (r: Core)
    requires Known(c) && id in c.jobs
    ensures Known(r)
  {
    FileAs(Unlink(c, id), id, status)
  }

  function Finish(s: State, id: RunId, status: Status): (r: State)
    requires Known(s.core) && id in s.core.jobs
    ensures r.core == FinishCore(s.core, id, status)
  {
    Changed(s.(core := FinishCore(s.core, id, status)), {id})
  }

  function SettleCore(c: Core, id: RunId): (r: Core)
    requires Known(c) && id in c.jobs
    ensures Known(r)
  {
    var c1 := Unlink(c, id);
    var asked := c.jobs[id].stop;
    if asked == Some(CancelStop) then FileAs(c1, id, Cancelled)
    else WithJob(c1, id, c1.jobs[id].(status := if asked == Some(PauseStop) then Paused else Queued))
  }

  function Settle(s: State, id: RunId): (r: State)
    requires Known(s.core) && id in s.core.jobs
    ensures r.core == SettleCore(s.core, id)
  {
    Changed(s.(core := SettleCore(s.core, id)), {id})
  }

  predicate IsRunning(c: Core, id: RunId) {
    id in c.jobs && c.jobs[id].status.Running?
  }

  function ReleaseCore(c: Core, id: RunId): (r: Core)
    requires Known(c)
    ensures Known(r)
  {
    if IsRunning(c, id) then SettleCore(c, id) else c
  }

  function Release(s: State, id: RunId): (r: State)
    requires Known(s.core)
    ensures r.core == ReleaseCore(s.core, id)
  {
    if IsRunning(s.core, id) then Settle(s, id) else s
  }

  // What a shard was running is taken back from it.
  function GiveBackCore(c: Core, n: Name): (r: Core)
    requires Known(c) && n in c.shards
    ensures Known(r)
  {
    if c.shards[n].runId.Some? then ReleaseCore(c, c.shards[n].runId.value) else c
  }

  function GiveBack(s: State, n: Name): (r: State)
    requires Known(s.core) && n in s.core.shards
    ensures r.core == GiveBackCore(s.core, n)
  {
    if s.core.shards[n].runId.Some? then Release(s, s.core.shards[n].runId.value) else s
  }

  // Running jobs lead the order.
  function StartCore(c: Core, id: RunId, n: Name): (r: Core)
    requires Known(c) && id in c.jobs && n in c.shards
    ensures Known(r)
  {
    RemoveSubset(c.order, id);
    WithJob(c, id, c.jobs[id].(status := Running, shard := Some(n)))
      .(order := [id] + Remove(c.order, id), shards := c.shards[n := c.shards[n].(runId := Some(id))])
  }

  function Start(s: State, id: RunId, n: Name): (r: State)
    requires Known(s.core) && id in s.core.jobs && n in s.core.shards
    ensures r.core == StartCore(s.core, id, n)
  {
    Changed(s.(core := StartCore(s.core, id, n)), {id})
  }

  predicate LocalOnly(job: Job) {
    var v := Contract.Get(job.request, "local_only");
    !(v == Contract.Null || v == Contract.Truth(false) || v == Contract.Number(0.0) || v == Contract.Text("")
      || v == Contract.List([]) || v == Contract.Nested([]))
  }

  predicate Runnable(job: Job, remote: bool) {
    job.status.Queued? && !(remote && LocalOnly(job))
  }

  function FirstRunnable(jobs: map<RunId, Job>, order: seq<RunId>, remote: bool): (r: Option<RunId>)
    requires forall id | id in order :: id in jobs
    ensures r.Some? ==> r.value in order && r.value in jobs && Runnable(jobs[r.value], remote)
  {
    if order == [] then None
    else
      var id := order[0];
      if Runnable(jobs[id], remote) then Some(id) else FirstRunnable(jobs, order[1..], remote)
  }

  function NextRunnable(c: Core, remote: bool): Option<RunId>
    requires Known(c)
  {
    if c.paused then None else FirstRunnable(c.jobs, c.order, remote)
  }

  // start > end is a window that wraps past midnight.
  predicate InWindow(now: nat, start: nat, end: nat) {
    if start <= end then start <= now < end else now >= start || now < end
  }

  predicate InLockout(c: Core, n: Name, wall: nat) {
    var key := if n in c.lanes then LOCAL_SHARD else n;
    key in c.schedules && c.schedules[key].enabled
    && c.schedules[key].start.Some? && c.schedules[key].end.Some?
    && InWindow(wall, c.schedules[key].start.value, c.schedules[key].end.value)
  }

  predicate Owns(c: Core, n: Name, id: RunId) {
    id in c.jobs && n in c.shards
    && c.jobs[id].status.Running? && c.jobs[id].shard == Some(n) && c.shards[n].runId == Some(id)
  }

  predicate ShouldStop(c: Core, id: RunId, wall: nat)
    requires id in c.jobs
  {
    var job := c.jobs[id];
    job.stop.Some?
    || (job.shard.Some? && job.shard.value in c.shards
        && (c.shards[job.shard.value].paused || InLockout(c, job.shard.value, wall)))
  }

  // ---- submitting and restoring ---------------------------------------

  function SubmitCore(c: Core, id: RunId, request: Contract.Dict, at: real): Core {
    WithJob(c, id, Job(request, at, Queued, None, false, None)).(order := c.order + [id])
  }

  function Submit(s: State, id: RunId, request: Contract.Dict, at: real): State
    requires Known(s.core)
  {
    Changed(s.(core := SubmitCore(s.core, id, request, at)), {})
  }

  function FreshCore(lanes: seq<Name>, rows: map<RunId, File>, now: real): Core {
    Core(lanes, map[], [], map n | n in lanes :: Shard(n, now, true, false, false, None), false, {}, map[], rows)
  }

  // How a saved job comes back: a running one queued, or paused if it had been
  // asked to pause.
  function Revived(entry: SavedJob): Job {
    Job(Contract.Request(entry.request), entry.submittedAt,
        if entry.status.Paused? || entry.stop == Some(PauseStop) then Paused else Queued,
        None, entry.pausedByQueue, None)
  }

  function RestoreAs(c: Core, e: SavedJob, job: Job): (r: Core)
    ensures Known(c) ==> Known(r)
  {
    if e.runId == NO_ID || e.runId in c.jobs then c
    else if e.stop == Some(CancelStop) then c.(rows := c.rows - {e.runId})
    else WithJob(c, e.runId, job).(order := c.order + [e.runId])
  }

  function RestoreJob(c: Core, e: SavedJob): (r: Core)
    ensures Known(c) ==> Known(r)
  {
    RestoreAs(c, e, Revived(e))
  }

  function RestoreJobs(c: Core, entries: seq<SavedJob>): (r: Core)
    ensures Known(c) ==> Known(r)
  {
    if entries == [] then c
    else RestoreJob(RestoreJobs(c, entries[..|entries| - 1]), entries[|entries| - 1])
  }

  // The settings half of restore.
  function RestoreSettings(c: Core, saved: Saved): Core {
    c.(paused := saved.paused,
       shards := map n | n in c.shards ::
         if n in c.lanes then c.shards[n].(paused := LOCAL_SHARD in saved.pausedShards) else c.shards[n],
       pausedNames := saved.pausedShards - Elems(c.lanes),
       schedules := saved.schedules)
  }

  function RestoreCore(c: Core, saved: Saved): (r: Core)
    ensures Known(c) ==> Known(r)
  {
    RestoreJobs(RestoreSettings(c, saved), saved.jobs)
  }

  function Restore(s: State): State
    requires Known(s.core)
  {
    Changed(s.(core := RestoreCore(s.core, s.disk)), {})
  }

  // A new process over the disk the old one left.
  function Restart(s: State, now: real): State {
    Restore(State(FreshCore(s.core.lanes, s.core.rows, now), map[], map[], s.disk))
  }

  // ---- controls -------------------------------------------------------

  function PauseCore(c: Core, id: RunId): (Core, Reply) {
    if id !in c.jobs then (c, UnknownRun)
    else
      var job := c.jobs[id];
      match job.status
      case Queued => (WithJob(c, id, job.(status := Paused, pausedByQueue := false)), Done)
      case Running =>
        if job.stop == Some(CancelStop) then (c, RefusedQueue)
        else (WithJob(c, id, job.(stop := Some(PauseStop))), Done)
      case Paused => (WithJob(c, id, job.(pausedByQueue := false)), Done)
      case _ => (c, RefusedQueue)
  }

  function ResumeCore(c: Core, id: RunId): (Core, Reply) {
    if id !in c.jobs then (c, UnknownRun)
    else
      var job := c.jobs[id];
      if Terminal(job.status) then (c, RefusedQueue)
      else if job.status.Paused? then (WithJob(c, id, job.(status := Queued, pausedByQueue := false)), Done)
      else if job.status.Running? && job.stop == Some(PauseStop) then (WithJob(c, id, job.(stop := None)), Done)
      else (c, Done)
  }

  function CancelCore(c: Core, id: RunId): (Core, Reply) {
    if id !in c.jobs then (c, UnknownRun)
    else
      var job := c.jobs[id];
      if Pending(job.status) then (Drop(WithJob(c, id, job.(status := Cancelled, stop := None)), id), Done)
      else if job.status.Running? then (WithJob(c, id, job.(stop := Some(CancelStop))), Done)
      else (c, RefusedQueue)
  }

  function Clamp(position: int, most: nat): nat {
    if position < 0 then 0 else if position > most then most else position
  }

  function RunningIds(c: Core): set<RunId>
    requires Known(c)
  {
    set id | id in c.order && c.jobs[id].status.Running?
  }

  function WaitingIds(c: Core, id: RunId): set<RunId>
    requires Known(c)
  {
    Elems(c.order) - RunningIds(c) - {id}
  }

  function MovedOrder(c: Core, id: RunId, position: int): (r: seq<RunId>)
    requires Known(c) && id in c.jobs
    ensures forall x | x in r :: x in c.jobs
  {
    var running := Select(c.order, RunningIds(c));
    var waiting := Select(c.order, WaitingIds(c, id));
    var at := Clamp(position, |waiting|);
    SelectMembers(c.order, RunningIds(c));
    SelectMembers(c.order, WaitingIds(c, id));
    running + waiting[..at] + [id] + waiting[at..]
  }

  function MoveCore(c: Core, id: RunId, position: int): (r: (Core, Reply))
    requires Known(c)
    ensures Known(r.0)
  {
    if id !in c.jobs then (c, UnknownRun)
    else if !Pending(c.jobs[id].status) then (c, RefusedQueue)
    else (c.(order := MovedOrder(c, id, position)), Done)
  }

  function RunNextCore(c: Core, id: RunId): (r: (Core, Reply))
    requires Known(c)
    ensures Known(r.0)
  {
    if id !in c.jobs then (c, UnknownRun)
    else
      var job := c.jobs[id];
      MoveCore(if job.status.Paused? then WithJob(c, id, job.(status := Queued, pausedByQueue := false)) else c, id, 0)
  }

  function PausedByQueue(job: Job): Job {
    if job.status.Running? && job.stop == None then job.(stop := Some(PauseStop), pausedByQueue := true) else job
  }

  function PauseAllCore(c: Core): Core {
    c.(paused := true,
       jobs := map id | id in c.jobs :: if id in c.order then PausedByQueue(c.jobs[id]) else c.jobs[id])
  }

  function ResumedByQueue(job: Job): Job {
    if job.status.Paused? && job.pausedByQueue then job.(status := Queued, pausedByQueue := false)
    else if job.status.Running? && job.pausedByQueue then job.(stop := None, pausedByQueue := false)
    else job
  }

  function ResumeAllCore(c: Core): Core {
    c.(paused := false,
       jobs := map id | id in c.jobs :: if id in c.order then ResumedByQueue(c.jobs[id]) else c.jobs[id])
  }

  // ---- shards: operator controls --------------------------------------

  // A pause of "local" reaches every lane.
  function Members(c: Core, n: Name): set<Name> {
    if n == LOCAL_SHARD then Elems(c.lanes) else {n}
  }

  function WithPaused(shards: map<Name, Shard>, names: set<Name>, paused: bool): map<Name, Shard> {
    map n | n in shards :: if n in names then shards[n].(paused := paused) else shards[n]
  }

  function PauseShardCore(c: Core, n: Name): (Core, Reply) {
    if n !in c.shards then (c, UnknownShard)
    else (c.(shards := WithPaused(c.shards, Members(c, n), true)), Done)
  }

  function ResumeShardCore(c: Core, n: Name): (Core, Reply) {
    if n !in c.shards then (c, UnknownShard)
    else (c.(shards := WithPaused(c.shards, Members(c, n), false), pausedNames := c.pausedNames - {n}), Done)
  }

  function SetShardsPausedCore(c: Core, paused: bool): Core {
    c.(shards := WithPaused(c.shards, c.shards.Keys, paused), pausedNames := if paused then c.pausedNames else {})
  }

  function SetScheduleCore(c: Core, n: Name, schedule: Schedule): (Core, Reply) {
    if schedule.enabled && (schedule.start.None? || schedule.end.None?) then (c, RefusedQueue)
    else if !schedule.enabled && schedule.start.None? && schedule.end.None?
    then (c.(schedules := c.schedules - {n}), Done)
    else (c.(schedules := c.schedules[n := schedule]), Done)
  }

  predicate Offline(shard: Shard, now: real) {
    !shard.local && (shard.offline || now - shard.lastSeen >= SHARD_TIMEOUT_SECONDS)
  }

  function ForgetShardCore(c: Core, n: Name, now: real): (Core, Reply) {
    if n !in c.shards then (c, UnknownShard)
    else if c.shards[n].local || !Offline(c.shards[n], now) then (c, RefusedQueue)
    else (c.(shards := c.shards - {n}, pausedNames := c.pausedNames - {n}), Done)
  }

  predicate Silent(c: Core, n: Name, now: real) {
    n in c.shards && !c.shards[n].local && !c.shards[n].offline
    && now - c.shards[n].lastSeen >= SHARD_TIMEOUT_SECONDS
  }

  function MarkOffline(c: Core, n: Name): Core
    requires n in c.shards
  {
    c.(shards := c.shards[n := c.shards[n].(offline := true)])
  }

  function ReapOne(s: State, n: Name, now: real): (r: State)
    requires Known(s.core)
    ensures Known(r.core)
  {
    if Silent(s.core, n, now) then GiveBack(s.(core := MarkOffline(s.core, n)), n) else s
  }

  // `visit` is the order the dictionary of shards is walked in.
  function ReapEach(s: State, visit: seq<Name>, now: real): (r: State)
    requires Known(s.core)
    ensures Known(r.core)
  {
    if visit == [] then s
    else ReapOne(ReapEach(s, visit[..|visit| - 1], now), visit[|visit| - 1], now)
  }

  function Reap(s: State, visit: seq<Name>, now: real): State
    requires Known(s.core)
  {
    if exists n | n in visit :: Silent(s.core, n, now)
    then Changed(ReapEach(s, visit, now), {})
    else s
  }

  // ---- shards: the protocol -------------------------------------------

  function Touched(c: Core, n: Name, now: real): Core
    requires n in c.shards
  {
    c.(shards := c.shards[n := c.shards[n].(lastSeen := now, offline := false)])
  }

  // Why this caller is not the registered remote shard, if it is not.
  function RemoteShard(c: Core, n: Name, instance: Instance): Option<Reply> {
    if n !in c.shards || c.shards[n].local then Some(UnknownShard)
    else if c.shards[n].instance != instance then Some(Superseded)
    else None
  }

  // The new Shard for a registration: a pause survives it, and so does the run
  // of a process that is only retrying.
  function Registration(c: Core, n: Name, instance: Instance, now: real): Shard {
    if n in c.shards
    then Shard(instance, now, false, c.shards[n].paused, false,
               if c.shards[n].instance == instance then c.shards[n].runId else None)
    else Shard(instance, now, false, n in c.pausedNames, false, None)
  }

  function RegisterShard(s: State, n: Name, instance: Instance, now: real): (State, Reply)
    requires Known(s.core)
  {
    if n in s.core.lanes then (s, RefusedQueue)
    else
      var shard := Registration(s.core, n, instance, now);
      var s1 := if n in s.core.shards && s.core.shards[n].instance != instance then GiveBack(s, n) else s;
      var c1 := s1.core.(pausedNames := s1.core.pausedNames - {n}, shards := s1.core.shards[n := shard]);
      (Changed(s1.(core := c1), {}), Done)
  }

  // claim up to its wait: asking for work gives back whatever the queue thought
  // this shard was running.
  function ClaimBegin(s: State, n: Name, instance: Instance, now: real): (State, Reply)
    requires Known(s.core)
  {
    match RemoteShard(s.core, n, instance)
    case Some(refusal) => (s, refusal)
    case None => (GiveBack(s.(core := Touched(s.core, n, now)), n), NoWork)
  }

  // claim from its wake-up on. Whether the shard already has a run is not
  // looked at again.
  function ClaimEnd(s: State, n: Name, instance: Instance, now: real, wall: nat): (State, Reply)
    requires Known(s.core)
  {
    match RemoteShard(s.core, n, instance)
    case Some(refusal) => (s, refusal)
    case None =>
      var s1 := s.(core := Touched(s.core, n, now));
      if s1.core.shards[n].paused || InLockout(s1.core, n, wall) || NextRunnable(s1.core, true).None?
      then (s1, NoWork)
      else
        var id := NextRunnable(s1.core, true).value;
        (Start(s1, id, n), Claimed(id))
  }

  function SyncCore(c: Core, id: RunId, rows: seq<Row>): Core {
    if rows == [] then c else c.(rows := c.rows[id := AppendRows(FileOf(c, id), rows)])
  }

  // Rows are checkpointed only under current ownership. Of a progress report
  // only the revision it bumps is state.
  function Sync(s: State, n: Name, instance: Instance, run: Option<RunId>, progressed: bool, rows: seq<Row>, now: real, wall: nat): (State, Reply) {
    match RemoteShard(s.core, n, instance)
    case Some(refusal) => (s, refusal)
    case None =>
      var c1 := Touched(s.core, n, now);
      if run.None? || !Owns(c1, n, run.value)
      then (s.(core := c1), Synced(c1.shards[n].paused, InLockout(c1, n, wall), false, false))
      else
        var s2 := s.(core := SyncCore(c1, run.value, rows));
        (if progressed then s2.(revisions := s2.revisions[run.value := RevisionOf(s2, run.value) + 1]) else s2,
         Synced(c1.shards[n].paused, InLockout(c1, n, wall), true, ShouldStop(c1, run.value, wall)))
  }

  function ShardFinish(s: State, n: Name, instance: Instance, id: RunId, outcome: Outcome, now: real): (State, Reply)
    requires Known(s.core)
  {
    match RemoteShard(s.core, n, instance)
    case Some(refusal) => (s, refusal)
    case None =>
      var s1 := s.(core := Touched(s.core, n, now));
      if !Owns(s1.core, n, id) then (s1, NotOwner)
      else
        match outcome
        case StoppedOutcome => (Settle(s1, id), Done)
        case ReleasedOutcome => (Release(s1, id), Done)
        case FailedOutcome => (Finish(s1, id, Failed), Done)
        case CompleteOutcome => (Finish(s1, id, Complete), Done)
  }

  // ---- the local lanes ------------------------------------------------

  predicate LocalReady(c: Core, n: Name, wall: nat)
    requires Known(c) && n in c.shards
  {
    !c.shards[n].paused && !InLockout(c, n, wall) && NextRunnable(c, false).Some?
  }

  // The lane's _settle_stopped does not hold the lock across a cancel: it lets
  // go after unlinking the job and takes it again in _finish.
  function LaneSettle(s: State, id: RunId): State
    requires Known(s.core) && id in s.core.jobs
  {
    if s.core.jobs[id].stop == Some(CancelStop) then s.(core := Unlink(s.core, id)) else Settle(s, id)
  }
}
