/**
 JobQueue of server/jobs.py, its fields updated in place. Every method is one
 locked section, proved equal to what Queue.dfy says it does; what is said about
 those functions over whole runs is in QueueTheorems.dfy.
 */
module JobQueue {
  import opened Seqs
  import opened Checkpoint
  import opened Queue
  import opened QueueInvariants
  import opened QueueAnswers
  import Contract

  class JobQueue {
    const lanes: seq<Name>
    var jobs: map<RunId, Job>
    var order: seq<RunId>
    var shards: map<Name, Shard>
    var paused: bool
    var pausedNames: set<Name>
    var schedules: map<Name, Schedule>
    var rows: map<RunId, File>
    var places: map<RunId, nat>
    var revisions: map<RunId, nat>
    var disk: Saved
    // The runs local lanes are in the middle of cancelling.
    ghost var adrift: set<RunId>

    function CoreView(): Core
      reads this
    {
      Core(lanes, jobs, order, shards, paused, pausedNames, schedules, rows)
    }

    function View(): State
      reads this
    {
      State(CoreView(), places, revisions, disk)
    }

    // Enough for every method to run.
    ghost predicate Ordered()
      reads this
    {
      Known(CoreView()) && NoDup(order)
    }

    ghost predicate Valid()
      reads this
      ensures Valid() ==> Ordered()
    {
      Sound(CoreView(), adrift)
    }

    constructor (lanes: seq<Name>, disk: Saved, rows: map<RunId, File>, now: real)
      requires LOCAL_SHARD in lanes
      ensures Valid() && adrift == {}
      ensures View() == State(FreshCore(lanes, rows, now), map[], map[], disk)
    {
      this.lanes := lanes;
      jobs, order, places, revisions := map[], [], map[], map[];
      shards := map n | n in lanes :: Shard(n, now, true, false, false, None);
      paused, pausedNames, schedules := false, {}, map[];
      this.rows, this.disk := rows, disk;
      adrift := {};
      new;
      WakingSound(CoreView());
    }

    // ---- _changed -----------------------------------------------------

    static lemma PlacesStep(jobs: map<RunId, Job>, order: seq<RunId>, i: nat)
      requires i < |order| && forall id | id in order :: id in jobs
      ensures order[..i + 1] == order[..i] + [order[i]]
      ensures PendingCount(jobs, order[..i + 1])
        == PendingCount(jobs, order[..i]) + if Pending(jobs[order[i]].status) then 1 else 0
      ensures Places(jobs, order[..i + 1])
        == if Pending(jobs[order[i]].status)
           then Places(jobs, order[..i])[order[i] := PendingCount(jobs, order[..i + 1])]
           else Places(jobs, order[..i])
    {
      assert order[..i + 1][..i] == order[..i];
    }

    // Positions for the order as it stands; who moved is in `bumped`.
    method Renumber(touched: set<RunId>) returns (bumped: set<RunId>)
      requires Ordered()
      modifies this`places
      ensures places == (old(places) - Elems(order)) + Places(jobs, order)
      ensures forall id | id in jobs :: id in bumped <==> Bumped(old(View()), touched, id)
    {
      ghost var was := places;
      var jobs, order := jobs, order;
      bumped := touched;
      var position := 0;
      for i := 0 to |order|
        invariant position == PendingCount(jobs, order[..i])
        invariant Renumbered(jobs, order[..i], was, places)
        invariant forall id :: id in bumped <==> id in touched || Displaced(jobs, order[..i], was, id)
      {
        var id := order[i];
        PlacesStep(jobs, order, i);
        var place := None;
        if Pending(jobs[id].status) {
          position := position + 1;
          place := Some(position);
        }
        ghost var before := places;
        if PlaceIn(places, id) != place {
          places := if place.Some? then places[id := place.value] else places - {id};
          bumped := bumped + {id};
        }
        RenumberStep(jobs, order, i, was, before, place, places);
      }
      assert order[..|order|] == order;
      SamePlaces(places, (was - Elems(order)) + Places(jobs, order));
    }

    // The positions of `order` are as they should be, all others as they were.
    static ghost predicate Renumbered(jobs: map<RunId, Job>, order: seq<RunId>, was: map<RunId, nat>, now: map<RunId, nat>)
      requires forall id | id in order :: id in jobs
    {
      forall id :: PlaceIn(now, id) == PlaceIn(if id in order then Places(jobs, order) else was, id)
    }

    static ghost predicate Displaced(jobs: map<RunId, Job>, order: seq<RunId>, was: map<RunId, nat>, id: RunId)
      requires forall id | id in order :: id in jobs
    {
      id in order && PlaceIn(Places(jobs, order), id) != PlaceIn(was, id)
    }

    static lemma RenumberStep(jobs: map<RunId, Job>, order: seq<RunId>, i: nat, was: map<RunId, nat>,
                              now: map<RunId, nat>, place: Option<nat>, next: map<RunId, nat>)
      requires i < |order| && NoDup(order) && (forall id | id in order :: id in jobs) && order[i] in jobs
      requires Renumbered(jobs, order[..i], was, now)
      requires place == if Pending(jobs[order[i]].status) then Some(PendingCount(jobs, order[..i + 1])) else None
      requires forall id :: PlaceIn(next, id) == if id == order[i] then place else PlaceIn(now, id)
      ensures Renumbered(jobs, order[..i + 1], was, next)
      ensures PlaceIn(now, order[i]) == PlaceIn(was, order[i])
      ensures forall id ::
        Displaced(jobs, order[..i + 1], was, id)
        <==> Displaced(jobs, order[..i], was, id) || (id == order[i] && place != PlaceIn(was, id))
    {
      PlacesStep(jobs, order, i);
      assert order[i] !in order[..i];
      assert order[i] in order;
      forall id ensures PlaceIn(next, id)
        == PlaceIn(if id in order[..i + 1] then Places(jobs, order[..i + 1]) else was, id) {
        assert PlaceIn(now, id) == PlaceIn(if id in order[..i] then Places(jobs, order[..i]) else was, id);
      }
    }

    static lemma SamePlaces(a: map<RunId, nat>, b: map<RunId, nat>)
      requires forall id :: PlaceIn(a, id) == PlaceIn(b, id)
      ensures a == b
    {
      forall id ensures id in a <==> id in b {
        assert PlaceIn(a, id) == PlaceIn(b, id);
      }
      forall id | id in a ensures a[id] == b[id] {
        assert PlaceIn(a, id) == PlaceIn(b, id);
      }
    }

    method NotifyChanged(touched: set<RunId>)
      requires Ordered()
      modifies this`places, this`revisions, this`disk
      ensures View() == Changed(old(View()), touched)
    {
      var bumped := Renumber(touched);
      revisions := map id | id in jobs :: (if id in revisions then revisions[id] else 0) + if id in bumped then 1 else 0;
      disk := Project(CoreView());
      assert revisions == Changed(old(View()), touched).revisions;
    }

    // ---- submitting and restoring -------------------------------------

    method Submit(id: RunId, request: Contract.Dict, at: real)
      requires Valid() && id !in jobs
      modifies this
      ensures Valid() && adrift == old(adrift)
      ensures View() == Queue.Submit(old(View()), id, request, at)
    {
      ghost var c := CoreView();
      jobs := jobs[id := Job(request, at, Queued, None, false, None)];
      order := order + [id];
      ghost var filed := View();
      assert CoreView() == SubmitCore(c, id, request, at);
      assert Ordered() by { SubmitSound(c, id, request, at, adrift); }
      NotifyChanged({});
      SubmitSound(c, id, request, at, adrift);
    }

    static lemma RestoreOneMore(c: Core, entries: seq<SavedJob>, i: nat)
      requires i < |entries|
      ensures RestoreJobs(c, entries[..i + 1])
        == RestoreAs(RestoreJobs(c, entries[..i]), entries[i], Revived(entries[i]))
    {
      assert entries[..i + 1][..i] == entries[..i];
    }

    method RestoreEntry(e: SavedJob, job: Job)
      modifies this`jobs, this`order, this`rows
      ensures CoreView() == RestoreAs(old(CoreView()), e, job)
    {
      if e.runId == NO_ID || e.runId in jobs {
        return;
      }
      if e.stop == Some(CancelStop) {
        rows := rows - {e.runId};
        return;
      }
      jobs := jobs[e.runId := job];
      order := order + [e.runId];
    }

    method RestoreEntries(entries: seq<SavedJob>)
      modifies this`jobs, this`order, this`rows
      ensures CoreView() == RestoreJobs(old(CoreView()), entries)
    {
      for i := 0 to |entries|
        invariant CoreView() == RestoreJobs(old(CoreView()), entries[..i])
      {
        RestoreOneMore(old(CoreView()), entries, i);
        RestoreEntry(entries[i], Revived(entries[i]));
      }
      assert entries[..|entries|] == entries;
    }

    // An empty queue wakes up sound.
    static lemma RestoredSound(c: Core, saved: Saved, adrift: set<RunId>)
      requires Sound(c, adrift) && c.order == [] && forall id :: id !in c.jobs
      ensures Sound(Queue.RestoreCore(c, saved), adrift)
    {
      NoneHeld(c, adrift);
      RestoreJobsWaking(Queue.RestoreSettings(c, saved), saved.jobs);
      WakingSound(Queue.RestoreCore(c, saved));
      forall x ensures x !in adrift {
        assert x in adrift ==> IsRunning(c, x);
      }
      assert adrift == {};
    }

    method RestoreSettings(saved: Saved)
      modifies this`paused, this`shards, this`pausedNames, this`schedules
      ensures CoreView() == Queue.RestoreSettings(old(CoreView()), saved)
    {
      paused := saved.paused;
      shards := map n | n in shards ::
        if n in lanes then shards[n].(paused := LOCAL_SHARD in saved.pausedShards) else shards[n];
      pausedNames := saved.pausedShards - Elems(lanes);
      schedules := saved.schedules;
    }

    method RestoreCore(saved: Saved)
      modifies this`paused, this`shards, this`pausedNames, this`schedules, this`jobs, this`order, this`rows
      ensures CoreView() == Queue.RestoreCore(old(CoreView()), saved)
    {
      RestoreSettings(saved);
      RestoreEntries(saved.jobs);
    }

    // Called once, before anything else.
    method Restore()
      requires Valid() && order == [] && forall id :: id !in jobs
      modifies this
      ensures Valid() && adrift == old(adrift)
      ensures View() == Queue.Restore(old(View()))
    {
      ghost var c := CoreView();
      var saved := disk;
      RestoreCore(saved);
      assert Ordered() by { RestoredSound(c, saved, adrift); }
      NotifyChanged({});
      RestoredSound(c, saved, adrift);
    }

    static lemma NoneHeld(c: Core, adrift: set<RunId>)
      requires Linked(c, adrift) && forall id :: id !in c.jobs
      ensures forall n | n in c.shards :: c.shards[n].runId == None
    {
      forall n | n in c.shards ensures c.shards[n].runId == None {
        if c.shards[n].runId.Some? {
          var id := c.shards[n].runId.value;
          assert Holds(c, n, id) <==> Names(c, id, n);
        }
      }
    }

    // ---- controls -----------------------------------------------------

    method Pause(id: RunId) returns (reply: Reply)
      requires Valid()
      modifies this
      ensures Valid() && adrift == old(adrift)
      ensures var r := PauseCore(old(CoreView()), id);
              reply == r.1 && View() == Apply(old(View()), r, {id})
    {
      ghost var c := CoreView();
      if id !in jobs {
        return UnknownRun;
      }
      var job := jobs[id];
      if job.status.Queued? {
        jobs := jobs[id := job.(status := Paused, pausedByQueue := false)];
      } else if job.status.Running? {
        if job.stop == Some(CancelStop) {
          return RefusedQueue;
        }
        jobs := jobs[id := job.(stop := Some(PauseStop))];
      } else if job.status.Paused? {
        jobs := jobs[id := job.(pausedByQueue := false)];
      } else {
        return RefusedQueue;
      }
      assert CoreView() == PauseCore(c, id).0;
      assert Ordered() by { PauseSound(c, id, adrift); }
      NotifyChanged({id});
      PauseSound(c, id, adrift);
      return Done;
    }

    method Resume(id: RunId) returns (reply: Reply)
      requires Valid()
      modifies this
      ensures Valid() && adrift == old(adrift)
      ensures var r := ResumeCore(old(CoreView()), id);
              reply == r.1 && View() == Apply(old(View()), r, {id})
    {
      ghost var c := CoreView();
      if id !in jobs {
        return UnknownRun;
      }
      var job := jobs[id];
      if job.status.Paused? {
        jobs := jobs[id := job.(status := Queued, pausedByQueue := false)];
      } else if job.status.Running? && job.stop == Some(PauseStop) {
        jobs := jobs[id := job.(stop := None)];
      } else if !(job.status.Queued? || job.status.Running?) {
        return RefusedQueue;
      }
      assert CoreView() == ResumeCore(c, id).0;
      assert Ordered() by { ResumeSound(c, id, adrift); }
      NotifyChanged({id});
      ResumeSound(c, id, adrift);
      return Done;
    }

    // Out of the order, with its checkpoint discarded.
    method Discard(id: RunId)
      requires NoDup(order)
      modifies this`order, this`rows
      ensures CoreView() == Drop(old(CoreView()), id) && NoDup(order)
    {
      RemoveFacts(order, id);
      order := Remove(order, id);
      rows := rows - {id};
    }

    method CancelJob(id: RunId) returns (reply: Reply)
      requires Ordered()
      modifies this`jobs, this`order, this`rows
      ensures (CoreView(), reply) == CancelCore(old(CoreView()), id)
    {
      if id !in jobs {
        return UnknownRun;
      }
      var job := jobs[id];
      if Pending(job.status) {
        jobs := jobs[id := job.(status := Cancelled, stop := None)];
        Discard(id);
      } else if job.status.Running? {
        jobs := jobs[id := job.(stop := Some(CancelStop))];
      } else {
        return RefusedQueue;
      }
      return Done;
    }

    method Cancel(id: RunId) returns (reply: Reply)
      requires Valid()
      modifies this
      ensures Valid() && adrift == old(adrift)
      ensures var r := CancelCore(old(CoreView()), id);
              Known(r.0) && reply == r.1 && View() == Apply(old(View()), r, {id})
    {
      ghost var c := CoreView();
      reply := CancelJob(id);
      assert Ordered() by { CancelSound(c, id, adrift); }
      if reply == Done {
        NotifyChanged({id});
      }
      CancelSound(c, id, adrift);
    }

    // The two comprehensions of move.
    method Split(id: RunId) returns (running: seq<RunId>, waiting: seq<RunId>)
      requires Ordered()
      ensures running == Select(order, RunningIds(CoreView()))
      ensures waiting == Select(order, WaitingIds(CoreView(), id))
    {
      running, waiting := [], [];
      var i := 0;
      while i < |order|
        invariant i <= |order|
        invariant running == Select(order[..i], RunningIds(CoreView()))
        invariant waiting == Select(order[..i], WaitingIds(CoreView(), id))
      {
        var x := order[i];
        assert order[..i + 1] == order[..i] + [x];
        SelectConcat(order[..i], [x], RunningIds(CoreView()));
        SelectConcat(order[..i], [x], WaitingIds(CoreView(), id));
        assert x in order;
        if jobs[x].status.Running? {
          running := running + [x];
        } else if x != id {
          waiting := waiting + [x];
        }
        i := i + 1;
      }
      assert order[..i] == order;
    }

    method Move(id: RunId, position: int) returns (reply: Reply)
      requires Valid()
      modifies this
      ensures Valid() && adrift == old(adrift)
      ensures var r := MoveCore(old(CoreView()), id, position);
              reply == r.1 && View() == Apply(old(View()), r, {id})
    {
      ghost var c := CoreView();
      if id !in jobs {
        return UnknownRun;
      }
      if !Pending(jobs[id].status) {
        return RefusedQueue;
      }
      var running, waiting := Split(id);
      var at := Clamp(position, |waiting|);
      order := running + waiting[..at] + [id] + waiting[at..];
      assert CoreView() == MoveCore(c, id, position).0;
      assert Ordered() by { MoveSound(c, id, position, adrift); }
      NotifyChanged({id});
      MoveSound(c, id, position, adrift);
      return Done;
    }

    method RunNext(id: RunId) returns (reply: Reply)
      requires Valid()
      modifies this
      ensures Valid() && adrift == old(adrift)
      ensures var r := RunNextCore(old(CoreView()), id);
              reply == r.1 && View() == Apply(old(View()), r, {id})
    {
      if id !in jobs {
        return UnknownRun;
      }
      var job := jobs[id];
      if job.status.Paused? {
        RelabelSound(CoreView(), id, job.(status := Queued, pausedByQueue := false), adrift);
        jobs := jobs[id := job.(status := Queued, pausedByQueue := false)];
      }
      reply := Move(id, 0);
    }

    method PauseRunning()
      requires Ordered()
      modifies this`jobs
      ensures jobs.Keys == old(jobs).Keys
      ensures forall x | x in jobs :: jobs[x] == if x in order then PausedByQueue(old(jobs)[x]) else old(jobs)[x]
    {
      ghost var was := jobs;
      for i := 0 to |order|
        invariant jobs.Keys == was.Keys
        invariant forall x | x in was :: jobs[x] == if x in order[..i] then PausedByQueue(was[x]) else was[x]
      {
        var id := order[i];
        assert id in order && order[..i + 1] == order[..i] + [id] && id !in order[..i];
        var job := jobs[id];
        if job.status.Running? && job.stop == None {
          jobs := jobs[id := job.(stop := Some(PauseStop), pausedByQueue := true)];
        }
      }
      assert order[..|order|] == order;
    }

    static lemma IsPauseAll(c: Core, was: map<RunId, Job>, jobs: map<RunId, Job>)
      requires was == c.jobs && jobs.Keys == was.Keys
      requires forall x | x in jobs :: jobs[x] == if x in c.order then PausedByQueue(was[x]) else was[x]
      ensures jobs == PauseAllCore(c).jobs
    {
      var d := PauseAllCore(c).jobs;
      assert d.Keys == jobs.Keys;
      forall x | x in jobs ensures jobs[x] == d[x] {
      }
    }

    method PauseAll()
      requires Valid()
      modifies this
      ensures Valid() && adrift == old(adrift)
      ensures View() == Apply(old(View()), (PauseAllCore(old(CoreView())), Done), {})
    {
      ghost var c := CoreView();
      PauseRunning();
      IsPauseAll(c, c.jobs, jobs);
      paused := true;
      assert CoreView() == PauseAllCore(c);
      assert Ordered() by { PauseAllSound(c, adrift); }
      NotifyChanged({});
      PauseAllSound(c, adrift);
    }

    method ResumePaused()
      requires Ordered()
      modifies this`jobs
      ensures jobs.Keys == old(jobs).Keys
      ensures forall x | x in jobs :: jobs[x] == if x in order then ResumedByQueue(old(jobs)[x]) else old(jobs)[x]
    {
      ghost var was := jobs;
      for i := 0 to |order|
        invariant jobs.Keys == was.Keys
        invariant forall x | x in was :: jobs[x] == if x in order[..i] then ResumedByQueue(was[x]) else was[x]
      {
        var id := order[i];
        assert id in order && order[..i + 1] == order[..i] + [id] && id !in order[..i];
        var job := jobs[id];
        if job.status.Paused? && job.pausedByQueue {
          jobs := jobs[id := job.(status := Queued, pausedByQueue := false)];
        } else if job.status.Running? && job.pausedByQueue {
          jobs := jobs[id := job.(stop := None, pausedByQueue := false)];
        }
      }
      assert order[..|order|] == order;
    }

    static lemma IsResumeAll(c: Core, was: map<RunId, Job>, jobs: map<RunId, Job>)
      requires was == c.jobs && jobs.Keys == was.Keys
      requires forall x | x in jobs :: jobs[x] == if x in c.order then ResumedByQueue(was[x]) else was[x]
      ensures jobs == ResumeAllCore(c).jobs
    {
      var d := ResumeAllCore(c).jobs;
      assert d.Keys == jobs.Keys;
      forall x | x in jobs ensures jobs[x] == d[x] {
      }
    }

    method ResumeAll()
      requires Valid()
      modifies this
      ensures Valid() && adrift == old(adrift)
      ensures View() == Apply(old(View()), (ResumeAllCore(old(CoreView())), Done), {})
    {
      ghost var c := CoreView();
      ResumePaused();
      IsResumeAll(c, c.jobs, jobs);
      paused := false;
      assert CoreView() == ResumeAllCore(c);
      assert Ordered() by { ResumeAllSound(c, adrift); }
      NotifyChanged({});
      ResumeAllSound(c, adrift);
    }

    // ---- shards: operator controls ------------------------------------

    method PauseMembers(members: seq<Name>, pause: bool)
      requires forall i | 0 <= i < |members| :: members[i] in shards
      modifies this`shards
      ensures shards == WithPaused(old(shards), Elems(members), pause)
    {
      for i := 0 to |members|
        invariant shards == WithPaused(old(shards), Elems(members[..i]), pause) && shards.Keys == old(shards).Keys
      {
        assert members[..i + 1] == members[..i] + [members[i]];
        shards := shards[members[i] := shards[members[i]].(paused := pause)];
      }
      assert members[..|members|] == members;
    }

    static lemma LanesRegistered(c: Core, lanes: seq<Name>)
      requires Laned(c) && lanes == c.lanes
      ensures forall i | 0 <= i < |lanes| :: lanes[i] in c.shards
    {
      forall i | 0 <= i < |lanes| ensures lanes[i] in c.shards {
        var n := lanes[i];
        assert n in lanes;
      }
    }

    method MembersOf(n: Name) returns (members: seq<Name>)
      requires Valid() && n in shards
      ensures forall i | 0 <= i < |members| :: members[i] in shards
      ensures Elems(members) == Members(CoreView(), n)
    {
      LanesRegistered(CoreView(), lanes);
      members := if n == LOCAL_SHARD then lanes else [n];
    }

    method PauseShard(n: Name) returns (reply: Reply)
      requires Valid()
      modifies this
      ensures Valid() && adrift == old(adrift)
      ensures var r := PauseShardCore(old(CoreView()), n);
              reply == r.1 && View() == Apply(old(View()), r, {})
    {
      ghost var c := CoreView();
      if n !in shards {
        return UnknownShard;
      }
      var members := MembersOf(n);
      PauseMembers(members, true);
      assert CoreView() == PauseShardCore(c, n).0;
      assert Ordered() by { PauseShardSound(c, n, adrift); }
      NotifyChanged({});
      PauseShardSound(c, n, adrift);
      return Done;
    }

    method ResumeShard(n: Name) returns (reply: Reply)
      requires Valid()
      modifies this
      ensures Valid() && adrift == old(adrift)
      ensures var r := ResumeShardCore(old(CoreView()), n);
              reply == r.1 && View() == Apply(old(View()), r, {})
    {
      ghost var c := CoreView();
      if n !in shards {
        return UnknownShard;
      }
      var members := MembersOf(n);
      PauseMembers(members, false);
      pausedNames := pausedNames - {n};
      assert CoreView() == ResumeShardCore(c, n).0;
      assert Ordered() by { ResumeShardSound(c, n, adrift); }
      NotifyChanged({});
      ResumeShardSound(c, n, adrift);
      return Done;
    }

    // `visit` is the dictionary of shards in its own order, here and below.
    method SetShardsPaused(visit: seq<Name>, pause: bool)
      requires Valid() && Elems(visit) == shards.Keys
      modifies this
      ensures Valid() && adrift == old(adrift)
      ensures View() == Apply(old(View()), (SetShardsPausedCore(old(CoreView()), pause), Done), {})
    {
      ghost var c := CoreView();
      PauseMembers(visit, pause);
      if !pause {
        pausedNames := {};
      }
      assert CoreView() == SetShardsPausedCore(c, pause);
      assert Ordered() by { SetShardsPausedSound(c, pause, adrift); }
      NotifyChanged({});
      SetShardsPausedSound(c, pause, adrift);
    }

    method SetShardSchedule(n: Name, schedule: Schedule) returns (reply: Reply)
      requires Valid()
      modifies this
      ensures Valid() && adrift == old(adrift)
      ensures var r := SetScheduleCore(old(CoreView()), n, schedule);
              reply == r.1 && View() == Apply(old(View()), r, {})
    {
      ghost var c := CoreView();
      if schedule.enabled && (schedule.start.None? || schedule.end.None?) {
        return RefusedQueue;
      }
      if !schedule.enabled && schedule.start.None? && schedule.end.None? {
        schedules := schedules - {n};
      } else {
        schedules := schedules[n := schedule];
      }
      assert CoreView() == SetScheduleCore(c, n, schedule).0;
      assert Ordered() by { SetScheduleSound(c, n, schedule, adrift); }
      NotifyChanged({});
      SetScheduleSound(c, n, schedule, adrift);
      return Done;
    }

    // Accepted for a shard that still holds a run; the queue is then no longer
    // valid, and never otherwise.
    method ForgetShard(n: Name, now: real) returns (reply: Reply)
      requires Valid()
      modifies this
      ensures adrift == old(adrift)
      ensures Valid() <==> reply != Done || old(n in shards && shards[n].runId == None)
      ensures var r := ForgetShardCore(old(CoreView()), n, now);
              reply == r.1 && View() == Apply(old(View()), r, {})
    {
      if n !in shards {
        return UnknownShard;
      }
      if shards[n].local || !Offline(shards[n], now) {
        return RefusedQueue;
      }
      ForgetSoundIff(CoreView(), n, now, adrift);
      shards := shards - {n};
      pausedNames := pausedNames - {n};
      NotifyChanged({});
      return Done;
    }

    // ---- internals ----------------------------------------------------

    method Start(id: RunId, n: Name)
      requires Ordered() && id in jobs && n in shards
      modifies this
      ensures Ordered() && adrift == old(adrift)
      ensures View() == Queue.Start(old(View()), id, n)
    {
      RemoveFacts(order, id);
      NoDupConcat([id], Remove(order, id));
      order := [id] + Remove(order, id);
      jobs := jobs[id := jobs[id].(status := Running, shard := Some(n))];
      shards := shards[n := shards[n].(runId := Some(id))];
      NotifyChanged({id});
    }

    method Detach(id: RunId)
      requires id in jobs
      modifies this`jobs, this`shards
      ensures CoreView() == Queue.Detach(old(CoreView()), id)
    {
      var job := jobs[id];
      if job.shard.Some? && job.shard.value in shards && shards[job.shard.value].runId == Some(id) {
        shards := shards[job.shard.value := shards[job.shard.value].(runId := None)];
      }
      jobs := jobs[id := job.(shard := None)];
    }

    // Filing before unlinking comes to the same.
    static lemma FiledInOrder(c: Core, id: RunId, status: Status)
      requires Known(c) && id in c.jobs
      ensures Drop(Queue.Detach(WithJob(c, id, c.jobs[id].(status := status, stop := None)), id), id)
        == FinishCore(c, id, status)
    {
      var c1 := Queue.Detach(WithJob(c, id, c.jobs[id].(status := status, stop := None)), id);
      var c2 := Queue.Unlink(c, id);
      assert c1.jobs == c2.jobs[id := c2.jobs[id].(status := status)];
    }

    method File(id: RunId, status: Status)
      requires NoDup(order) && Known(CoreView()) && id in jobs
      modifies this`jobs, this`shards, this`order, this`rows
      ensures CoreView() == FinishCore(old(CoreView()), id, status) && NoDup(order)
    {
      FiledInOrder(CoreView(), id, status);
      jobs := jobs[id := jobs[id].(status := status, stop := None)];
      Detach(id);
      Discard(id);
    }

    method Finish(id: RunId, status: Status)
      requires Ordered() && id in jobs
      modifies this
      ensures Ordered() && adrift == old(adrift) - {id}
      ensures View() == Queue.Finish(old(View()), id, status)
    {
      File(id, status);
      adrift := adrift - {id};
      NotifyChanged({id});
    }

    // _settle_stopped up to where it lets go of the lock: a run that was to be
    // cancelled is left for _finish.
    method SettleStopped(id: RunId) returns (cancelled: bool)
      requires Ordered() && id in jobs
      modifies this
      ensures Ordered() && cancelled == (old(jobs)[id].stop == Some(CancelStop))
      ensures adrift == if cancelled then old(adrift) + {id} else old(adrift) - {id}
      ensures View() == LaneSettle(old(View()), id)
    {
      var asked := jobs[id].stop;
      Unlink(id);
      if asked == Some(CancelStop) {
        adrift := adrift + {id};
        return true;
      }
      jobs := jobs[id := jobs[id].(status := if asked == Some(PauseStop) then Paused else Queued)];
      adrift := adrift - {id};
      NotifyChanged({id});
      return false;
    }

    method Unlink(id: RunId)
      requires id in jobs
      modifies this`jobs, this`shards
      ensures CoreView() == Queue.Unlink(old(CoreView()), id)
    {
      Detach(id);
      jobs := jobs[id := jobs[id].(stop := None)];
    }

    static lemma UnlinkTwice(c: Core, id: RunId)
      requires id in c.jobs
      ensures Queue.Unlink(Queue.Unlink(c, id), id) == Queue.Unlink(c, id)
    {
      assert Queue.Unlink(Queue.Unlink(c, id), id).jobs == Queue.Unlink(c, id).jobs;
    }

    // Under an outer lock the two halves of a cancel are one.
    static lemma SettleInTwo(s: State, id: RunId)
      requires Known(s.core) && id in s.core.jobs && s.core.jobs[id].stop == Some(CancelStop)
      ensures Queue.Finish(LaneSettle(s, id), id, Cancelled) == Queue.Settle(s, id)
    {
      UnlinkTwice(s.core, id);
      assert FinishCore(Queue.Unlink(s.core, id), id, Cancelled) == SettleCore(s.core, id);
    }

    method Settle(id: RunId)
      requires Ordered() && id in jobs
      modifies this
      ensures Ordered() && adrift == old(adrift) - {id}
      ensures View() == Queue.Settle(old(View()), id)
    {
      ghost var was := View();
      var cancelled := SettleStopped(id);
      if cancelled {
        SettleInTwo(was, id);
        Finish(id, Cancelled);
      }
    }

    method Release(id: RunId)
      requires Ordered()
      modifies this
      ensures Ordered() && adrift == if old(IsRunning(CoreView(), id)) then old(adrift) - {id} else old(adrift)
      ensures View() == Queue.Release(old(View()), id)
    {
      if id in jobs && jobs[id].status.Running? {
        Settle(id);
      }
    }

    method GiveBack(n: Name)
      requires Valid() && n in shards
      modifies this
      ensures Valid() && adrift == old(adrift)
      ensures View() == Queue.GiveBack(old(View()), n)
      ensures shards == old(shards)[n := old(shards)[n].(runId := None)]
    {
      GiveBackSound(CoreView(), n, adrift);
      if shards[n].runId.Some? {
        assert Holds(CoreView(), n, shards[n].runId.value) && Names(CoreView(), shards[n].runId.value, n);
        Release(shards[n].runId.value);
      }
    }

    method NextRunnable(remote: bool) returns (next: Option<RunId>)
      requires Ordered()
      ensures next == Queue.NextRunnable(CoreView(), remote)
    {
      if paused {
        return None;
      }
      var i := 0;
      while i < |order|
        invariant i <= |order|
        invariant FirstRunnable(jobs, order, remote) == FirstRunnable(jobs, order[i..], remote)
      {
        var job := jobs[order[i]];
        if job.status.Queued? && !(remote && LocalOnly(job)) {
          return Some(order[i]);
        }
        i := i + 1;
      }
      return None;
    }

    // ---- shards: the protocol -----------------------------------------

    // The body of reap's loop.
    method ReapOne(n: Name, now: real) returns (silent: bool, run: Option<RunId>)
      requires Valid() && n in shards
      modifies this
      ensures Valid() && adrift == old(adrift)
      ensures View() == Queue.ReapOne(old(View()), n, now)
      ensures silent == Silent(old(CoreView()), n, now) && run == if silent then old(shards)[n].runId else None
      ensures shards.Keys == old(shards).Keys
      ensures forall m | m in shards && m != n :: shards[m] == old(shards)[m]
    {
      var shard := shards[n];
      if shard.local || shard.offline || now - shard.lastSeen < SHARD_TIMEOUT_SECONDS {
        return false, None;
      }
      AlikeSound(CoreView(), MarkOffline(CoreView(), n), adrift);
      shards := shards[n := shard.(offline := true)];
      GiveBack(n);
      return true, shard.runId;
    }

    // The runs taken back from the shards that were found silent, in the order
    // they were visited.
    static function TakenBack(was: Core, visit: seq<Name>, now: real): seq<RunId> {
      if visit == [] then []
      else
        var n := visit[|visit| - 1];
        TakenBack(was, visit[..|visit| - 1], now)
        + if Silent(was, n, now) && was.shards[n].runId.Some? then [was.shards[n].runId.value] else []
    }

    // Which shards the loop has still to find silent does not change under it.
    static lemma ReapFound(was: Core, visit: seq<Name>, i: nat, now: real)
      requires i < |visit|
      ensures visit[..i + 1][..i] == visit[..i]
      ensures (exists n | n in visit[..i + 1] :: Silent(was, n, now))
        <==> (exists n | n in visit[..i] :: Silent(was, n, now)) || Silent(was, visit[i], now)
    {
      assert visit[..i + 1] == visit[..i] + [visit[i]];
    }

    static lemma {:induction false} NoneSilent(s: State, visit: seq<Name>, now: real)
      requires Known(s.core) && forall n | n in visit :: !Silent(s.core, n, now)
      ensures ReapEach(s, visit, now) == s
      decreases |visit|
    {
      if visit != [] {
        NoneSilent(s, visit[..|visit| - 1], now);
        assert visit[|visit| - 1] in visit;
      }
    }

    method Reap(visit: seq<Name>, now: real) returns (released: seq<RunId>)
      requires Valid() && NoDup(visit) && forall k | 0 <= k < |visit| :: visit[k] in shards
      modifies this
      ensures Valid() && adrift == old(adrift)
      ensures View() == Queue.Reap(old(View()), visit, now)
      ensures released == TakenBack(old(CoreView()), visit, now)
    {
      ghost var was := View();
      var changed := false;
      released := [];
      for i := 0 to |visit|
        invariant Valid() && adrift == old(adrift)
        invariant View() == ReapEach(was, visit[..i], now)
        invariant released == TakenBack(was.core, visit[..i], now)
        invariant shards.Keys == old(shards).Keys
        invariant forall k | i <= k < |visit| :: visit[k] in shards && shards[visit[k]] == old(shards)[visit[k]]
        invariant changed <==> exists n | n in visit[..i] :: Silent(was.core, n, now)
      {
        ReapFound(was.core, visit, i, now);
        var silent, run := ReapOne(visit[i], now);
        changed := changed || silent;
        released := released + if run.Some? then [run.value] else [];
      }
      assert visit[..|visit|] == visit;
      if changed {
        NotifyChanged({});
      } else {
        NoneSilent(was, visit, now);
      }
    }

    method RegisterShard(n: Name, instance: Instance, now: real) returns (reply: Reply)
      requires Valid()
      modifies this
      ensures Valid() && adrift == old(adrift)
      ensures (View(), reply) == Queue.RegisterShard(old(View()), n, instance, now)
    {
      if n in lanes {
        return RefusedQueue;
      }
      ghost var was := View();
      var shard := Registration(CoreView(), n, instance, now);
      if n in shards && shards[n].instance != instance {
        GiveBack(n);
      }
      pausedNames := pausedNames - {n};
      shards := shards[n := shard];
      assert Ordered() by { RegisterSound(was, n, instance, now, adrift); }
      NotifyChanged({});
      RegisterSound(was, n, instance, now, adrift);
      return Done;
    }

    method Touch(n: Name, now: real)
      requires Valid() && n in shards
      modifies this`shards
      ensures Valid() && CoreView() == Touched(old(CoreView()), n, now)
    {
      TouchSound(CoreView(), n, now, adrift);
      shards := shards[n := shards[n].(lastSeen := now, offline := false)];
    }

    method ClaimBegin(n: Name, instance: Instance, now: real) returns (reply: Reply)
      requires Valid()
      modifies this
      ensures Valid() && adrift == old(adrift)
      ensures (View(), reply) == Queue.ClaimBegin(old(View()), n, instance, now)
    {
      var refusal := RemoteShard(CoreView(), n, instance);
      if refusal.Some? {
        return refusal.value;
      }
      Touch(n, now);
      GiveBack(n);
      return NoWork;
    }

    // The queue stays valid exactly when the shard held no run as the wait
    // ended, or was given none.
    method ClaimEnd(n: Name, instance: Instance, now: real, wall: nat) returns (reply: Reply)
      requires Valid()
      modifies this
      ensures adrift == old(adrift)
      ensures Valid() <==> !reply.Claimed? || old(n in shards && shards[n].runId == None)
      ensures (View(), reply) == Queue.ClaimEnd(old(View()), n, instance, now, wall)
      ensures ClaimTells(old(CoreView()), n, instance, wall, CoreView(), reply)
    {
      ClaimIsTruthful(View(), n, instance, now, wall);
      var refusal := RemoteShard(CoreView(), n, instance);
      if refusal.Some? {
        return refusal.value;
      }
      Touch(n, now);
      if shards[n].paused || InLockout(CoreView(), n, wall) {
        return NoWork;
      }
      var next := NextRunnable(true);
      if next.None? {
        return NoWork;
      }
      StartSoundIff(CoreView(), next.value, n, adrift);
      Start(next.value, n);
      return Claimed(next.value);
    }

    method AppendRows(id: RunId, batch: seq<Row>)
      modifies this`rows
      ensures CoreView() == SyncCore(old(CoreView()), id, batch)
    {
      if batch != [] {
        rows := rows[id := Checkpoint.AppendRows(if id in rows then rows[id] else NoFile, batch)];
      }
    }

    // Rows and progress of a run the shard owns.
    method Report(id: RunId, progressed: bool, batch: seq<Row>)
      requires Valid()
      modifies this`rows, this`revisions
      ensures Valid() && CoreView() == SyncCore(old(CoreView()), id, batch)
      ensures revisions == if progressed then old(revisions)[id := RevisionOf(old(View()), id) + 1] else old(revisions)
    {
      RowsSound(CoreView(), SyncCore(CoreView(), id, batch), adrift);
      AppendRows(id, batch);
      if progressed {
        revisions := revisions[id := (if id in revisions then revisions[id] else 0) + 1];
      }
    }

    method ShardSync(n: Name, instance: Instance, run: Option<RunId>, progressed: bool, batch: seq<Row>, now: real, wall: nat) returns (reply: Reply)
      requires Valid()
      modifies this
      ensures Valid() && adrift == old(adrift)
      ensures (View(), reply) == Sync(old(View()), n, instance, run, progressed, batch, now, wall)
      ensures SyncTells(old(CoreView()), n, instance, run, wall, reply)
    {
      SyncIsTruthful(View(), n, instance, run, progressed, batch, now, wall);
      var refusal := RemoteShard(CoreView(), n, instance);
      if refusal.Some? {
        return refusal.value;
      }
      Touch(n, now);
      var owned := run.Some? && Owns(CoreView(), n, run.value);
      var stop := false;
      if owned {
        Report(run.value, progressed, batch);
        stop := ShouldStop(CoreView(), run.value, wall);
      }
      return Synced(shards[n].paused, InLockout(CoreView(), n, wall), owned, stop);
    }

    method FinishOwned(id: RunId, outcome: Outcome)
      requires Ordered() && IsRunning(CoreView(), id) && id !in adrift
      modifies this
      ensures Ordered() && adrift == old(adrift)
      ensures View() ==
        match outcome
        case StoppedOutcome => Queue.Settle(old(View()), id)
        case ReleasedOutcome => Queue.Release(old(View()), id)
        case FailedOutcome => Queue.Finish(old(View()), id, Failed)
        case CompleteOutcome => Queue.Finish(old(View()), id, Complete)
    {
      match outcome {
        case StoppedOutcome => Settle(id);
        case ReleasedOutcome => Release(id);
        case FailedOutcome => Finish(id, Failed);
        case CompleteOutcome => Finish(id, Complete);
      }
    }

    method ShardFinish(n: Name, instance: Instance, id: RunId, outcome: Outcome, now: real) returns (reply: Reply)
      requires Valid()
      modifies this
      ensures Valid() && adrift == old(adrift)
      ensures (View(), reply) == Queue.ShardFinish(old(View()), n, instance, id, outcome, now)
      ensures FinishTells(old(CoreView()), n, instance, id, outcome, CoreView(), reply)
    {
      FinishIsTruthful(View(), n, instance, id, outcome, now, adrift);
      var refusal := RemoteShard(CoreView(), n, instance);
      if refusal.Some? {
        return refusal.value;
      }
      ghost var was := View();
      Touch(n, now);
      if !Owns(CoreView(), n, id) {
        return NotOwner;
      }
      assert id !in adrift by { assert Names(CoreView(), id, n); }
      FinishOwned(id, outcome);
      ShardFinishSound(was, n, instance, id, outcome, now, adrift);
      return Done;
    }

    // ---- the local lanes ----------------------------------------------

    // The locked section of _drain: None when there is nothing for this lane.
    method LaneTake(n: Name, wall: nat) returns (next: Option<RunId>)
      requires Valid() && n in shards && shards[n].runId == None
      modifies this
      ensures Valid() && adrift == old(adrift)
      ensures next == if old(LocalReady(CoreView(), n, wall)) then old(Queue.NextRunnable(CoreView(), false)) else None
      ensures View() == if next.Some? then Queue.Start(old(View()), next.value, n) else old(View())
      ensures LaneTells(old(CoreView()), n, wall, CoreView(), next)
    {
      LaneIsTruthful(CoreView(), n, wall, if LocalReady(CoreView(), n, wall) then Queue.NextRunnable(CoreView(), false) else None);
      if shards[n].paused || InLockout(CoreView(), n, wall) {
        return None;
      }
      next := NextRunnable(false);
      if next.Some? {
        StartSound(CoreView(), next.value, n, adrift);
        Start(next.value, n);
      }
    }
  }
}
