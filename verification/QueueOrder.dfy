/** The execution order: positions, moves, "run this next", and who started when. */
module QueueOrder {
  import opened Seqs
  import opened Checkpoint
  import opened Queue
  import opened QueueInvariants
  import opened QueueRuns
  import opened QueueTheorems
  import Contract

  function PendingIds(jobs: map<RunId, Job>, order: seq<RunId>): set<RunId>
    requires forall id | id in order :: id in jobs
  {
    set id | id in order && Pending(jobs[id].status)
  }

  // The runs waiting, in the order they will be dispatched.
  function Waiting(c: Core): seq<RunId>
    requires Known(c)
  {
    Select(c.order, PendingIds(c.jobs, c.order))
  }

  // ---- positions ------------------------------------------------------

  lemma {:induction false} PlacesAreRanks(jobs: map<RunId, Job>, order: seq<RunId>)
    requires NoDup(order) && forall id | id in order :: id in jobs
    ensures var queue := Select(order, PendingIds(jobs, order)); var places := Places(jobs, order);
            PendingCount(jobs, order) == |queue| && places.Keys == Elems(queue)
            && forall k | 0 <= k < |queue| :: queue[k] in places && places[queue[k]] == k + 1
  {
    if order != [] {
      var last := |order| - 1;
      var rest, id := order[..last], order[last];
      assert order == rest + [id];
      PlacesAreRanks(jobs, rest);
      SelectConcat(rest, [id], PendingIds(jobs, order));
      SelectAgree(rest, PendingIds(jobs, order), PendingIds(jobs, rest));
      var before := Select(rest, PendingIds(jobs, rest));
      SelectMembers(rest, PendingIds(jobs, rest));
      var queue := Select(order, PendingIds(jobs, order));
      assert id !in rest;
      if Pending(jobs[id].status) {
        assert queue == before + [id];
        forall k | 0 <= k < |before| ensures queue[k] != id {
          assert before[k] in before;
        }
      } else {
        assert queue == before;
      }
    }
  }

  lemma RanksNow(s: State)
    requires Orderly(s.core) && Known(s.core) && PlacesCurrent(s)
    ensures forall k | 0 <= k < |Waiting(s.core)| :: PlaceIn(s.places, Waiting(s.core)[k]) == Some(k + 1)
    ensures forall id | id in s.core.order && s.core.jobs[id].status.Running? :: PlaceIn(s.places, id) == None
  {
    var jobs, order := s.core.jobs, s.core.order;
    PlacesAreRanks(jobs, order);
    SelectMembers(order, PendingIds(jobs, order));
    RanksOf(s.places, Places(jobs, order), order, Waiting(s.core));
  }

  // Positions that agree on the order agree on the queue in it.
  lemma RanksOf(places: map<RunId, nat>, ranks: map<RunId, nat>, order: seq<RunId>, queue: seq<RunId>)
    requires forall id | id in order :: PlaceIn(places, id) == PlaceIn(ranks, id)
    requires forall id | id in queue :: id in order
    requires forall k | 0 <= k < |queue| :: queue[k] in ranks && ranks[queue[k]] == k + 1
    ensures forall k | 0 <= k < |queue| :: PlaceIn(places, queue[k]) == Some(k + 1)
  {
    forall k | 0 <= k < |queue| ensures PlaceIn(places, queue[k]) == Some(k + 1) {
      assert queue[k] in queue;
      assert PlaceIn(ranks, queue[k]) == Some(k + 1);
    }
  }

  // In every reachable state the waiting runs are numbered 1, 2, ... in the
  // order they will be dispatched, and a running one has no number.
  lemma PositionsAreRanks(trace: seq<System>, steps: seq<Step>, lanes: seq<Name>, start: real, i: nat)
    requires IsRun(trace, steps, lanes, start) && i < |trace|
    ensures var s := trace[i].q;
            Known(s.core)
            && (forall k | 0 <= k < |Waiting(s.core)| :: PlaceIn(s.places, Waiting(s.core)[k]) == Some(k + 1))
            && (forall id | id in s.core.order && s.core.jobs[id].status.Running? :: PlaceIn(s.places, id) == None)
  {
    RunInvariant(trace, steps, lanes, start, i);
    RanksNow(trace[i].q);
  }

  // ---- moving ---------------------------------------------------------

  // The waiting runs but for id, in order.
  function Others(c: Core, id: RunId): seq<RunId>
    requires Known(c)
  {
    Select(c.order, PendingIds(c.jobs, c.order) - {id})
  }

  lemma WaitingAreOthers(c: Core, id: RunId)
    requires Orderly(c)
    ensures Select(c.order, WaitingIds(c, id)) == Others(c, id)
  {
    forall x | x in c.order ensures x in WaitingIds(c, id) <==> x in PendingIds(c.jobs, c.order) - {id} {
      assert x in c.jobs && !Terminal(c.jobs[x].status);
    }
    SelectAgree(c.order, WaitingIds(c, id), PendingIds(c.jobs, c.order) - {id});
  }

  lemma SameMembers(s: seq<RunId>, t: seq<RunId>)
    requires NoDup(s) && NoDup(t) && (forall x | x in s :: x in t) && forall x | x in t :: x in s
    ensures multiset(s) == multiset(t)
  {
    forall x ensures multiset(s)[x] == multiset(t)[x] {
      NoDupCount(s, x);
      NoDupCount(t, x);
      assert x in s <==> x in multiset(s);
      assert x in t <==> x in multiset(t);
    }
  }

  lemma MovedRunning(c: Core, id: RunId, position: int)
    requires Orderly(c) && id in c.jobs && Pending(c.jobs[id].status)
    ensures Select(MovedOrder(c, id, position), RunningIds(c)) == Select(c.order, RunningIds(c))
  {
    var running, waiting := Select(c.order, RunningIds(c)), Select(c.order, WaitingIds(c, id));
    SelectMembers(c.order, RunningIds(c));
    SelectMembers(c.order, WaitingIds(c, id));
    SelectFront(running, waiting, Clamp(position, |waiting|), id, RunningIds(c));
  }

  lemma MovedQueue(c: Core, id: RunId, position: int)
    requires Orderly(c) && id in c.jobs && Pending(c.jobs[id].status)
    ensures var at := Clamp(position, |Others(c, id)|);
            Select(MovedOrder(c, id, position), PendingIds(c.jobs, c.order))
            == Others(c, id)[..at] + [id] + Others(c, id)[at..]
  {
    WaitingAreOthers(c, id);
    var running, waiting := Select(c.order, RunningIds(c)), Others(c, id);
    SelectMembers(c.order, RunningIds(c));
    SelectMembers(c.order, PendingIds(c.jobs, c.order) - {id});
    forall y | y in RunningIds(c) ensures y !in PendingIds(c.jobs, c.order) {
    }
    SelectInserted(running, waiting, Clamp(position, |waiting|), id, PendingIds(c.jobs, c.order));
  }

  // move leaves the running runs as they are, keeps every other waiting run's
  // place relative to the rest, puts id exactly at the position asked for
  // among them -- clamped to the ends -- and loses and invents nothing.
  lemma MoveTheorem(c: Core, id: RunId, position: int)
    requires Orderly(c) && id in c.jobs && Pending(c.jobs[id].status)
    ensures var d := MoveCore(c, id, position).0; var at := Clamp(position, |Others(c, id)|);
            && d == c.(order := d.order)
            && multiset(d.order) == multiset(c.order)
            && Select(d.order, RunningIds(d)) == Select(c.order, RunningIds(c))
            && Waiting(d) == Others(c, id)[..at] + [id] + Others(c, id)[at..]
  {
    var d := MoveCore(c, id, position).0;
    MovedSame(c, id, position);
    SameMembers(c.order, d.order);
    MovedRunning(c, id, position);
    MovedQueue(c, id, position);
    assert RunningIds(d) == RunningIds(c);
    assert PendingIds(d.jobs, d.order) == PendingIds(c.jobs, c.order);
  }

  // ---- run this next --------------------------------------------------

  lemma {:induction false} FirstRunnableIs(jobs: map<RunId, Job>, order: seq<RunId>, remote: bool, k: nat)
    requires forall id | id in order :: id in jobs
    requires k < |order| && order[k] in jobs && Runnable(jobs[order[k]], remote)
    requires forall i | 0 <= i < k :: order[i] in jobs && !Runnable(jobs[order[i]], remote)
    ensures FirstRunnable(jobs, order, remote) == Some(order[k])
  {
    if k > 0 {
      var rest := order[1..];
      assert forall i | 0 <= i < k - 1 :: rest[i] == order[i + 1];
      FirstRunnableIs(jobs, rest, remote, k - 1);
    }
  }

  // run_next means it: unless the queue is paused, the run -- paused or not
  // before -- is what the next free worker is given.
  lemma RunNextIsNext(c: Core, id: RunId, remote: bool)
    requires Orderly(c) && id in c.jobs && Pending(c.jobs[id].status) && !c.paused
    requires remote ==> !LocalOnly(c.jobs[id])
    ensures RunNextCore(c, id).1 == Done && NextRunnable(RunNextCore(c, id).0, remote) == Some(id)
  {
    var d := RunNextCore(c, id).0;
    var running := Select(d.order, RunningIds(d));
    var c1 := if c.jobs[id].status.Paused?
              then WithJob(c, id, c.jobs[id].(status := Queued, pausedByQueue := false)) else c;
    var ahead := Select(c1.order, RunningIds(c1));
    SelectMembers(c1.order, RunningIds(c1));
    assert d.order[|ahead|] == id;
    forall i | 0 <= i < |ahead| ensures d.order[i] in d.jobs && !Runnable(d.jobs[d.order[i]], remote) {
      assert d.order[i] == ahead[i] && ahead[i] in ahead;
    }
    FirstRunnableIs(d.jobs, d.order, remote, |ahead|);
  }

  // ---- who started when -----------------------------------------------

  ghost predicate Ahead(order: seq<RunId>, x: RunId, y: RunId) {
    exists i, j :: 0 <= i < j < |order| && order[i] == x && order[j] == y
  }

  // Whatever runs ran before, and whatever is ahead of it was ahead of it.
  ghost predicate NoOvertaking(c: Core, d: Core) {
    (forall y | y in d.order && IsRunning(d, y) :: y in c.order && IsRunning(c, y))
    && forall x, y | Ahead(d.order, x, y) && IsRunning(d, y) :: Ahead(c.order, x, y)
  }

  lemma RemoveKeepsAhead(order: seq<RunId>, id: RunId, x: RunId, y: RunId)
    requires NoDup(order) && Ahead(Remove(order, id), x, y)
    ensures Ahead(order, x, y)
  {
    RemoveIsSelect(order, id);
    var kept := Remove(order, id);
    var i, j :| 0 <= i < j < |kept| && kept[i] == x && kept[j] == y;
    var a, b := SelectKeepsOrder(order, Elems(order) - {id}, i, j);
  }

  lemma SameOrderNoOvertaking(c: Core, d: Core)
    requires d.order == c.order
    requires forall y | y in d.order && IsRunning(d, y) :: IsRunning(c, y)
    ensures NoOvertaking(c, d)
  {
  }

  lemma RemoveNoOvertaking(c: Core, d: Core, id: RunId)
    requires NoDup(c.order) && d.order == Remove(c.order, id)
    requires forall y | y in d.order && IsRunning(d, y) :: IsRunning(c, y)
    ensures NoOvertaking(c, d)
  {
    RemoveFacts(c.order, id);
    forall x, y | Ahead(d.order, x, y) ensures Ahead(c.order, x, y) {
      RemoveKeepsAhead(c.order, id, x, y);
    }
  }

  lemma FrontOrRest(front: seq<RunId>, rest: seq<RunId>, j: nat)
    requires j < |front + rest|
    ensures j < |front| || (front + rest)[j] in rest
  {
    if j >= |front| {
      assert (front + rest)[j] == rest[j - |front|];
    }
  }

  lemma MovedAhead(order: seq<RunId>, running: set<RunId>, rest: seq<RunId>, x: RunId, y: RunId)
    requires NoDup(order) && Ahead(Select(order, running) + rest, x, y) && y !in rest
    ensures Ahead(order, x, y)
  {
    var front := Select(order, running);
    var whole := front + rest;
    var i, j :| 0 <= i < j < |whole| && whole[i] == x && whole[j] == y;
    FrontOrRest(front, rest, j);
    var a, b := SelectKeepsOrder(order, running, i, j);
  }

  lemma MoveNoOvertaking(c: Core, id: RunId, position: int)
    requires Orderly(c)
    ensures NoOvertaking(c, MoveCore(c, id, position).0)
  {
    var d := MoveCore(c, id, position).0;
    if MoveCore(c, id, position).1 == Done {
      MovedSame(c, id, position);
      var running, waiting := Select(c.order, RunningIds(c)), Select(c.order, WaitingIds(c, id));
      var at := Clamp(position, |waiting|);
      var rest := waiting[..at] + [id] + waiting[at..];
      SelectMembers(c.order, WaitingIds(c, id));
      assert d.order == running + rest;
      forall y | y in rest ensures !IsRunning(c, y) {
        assert y == id || y in waiting;
      }
      forall x, y | Ahead(d.order, x, y) && IsRunning(d, y) ensures Ahead(c.order, x, y) {
        MovedAhead(c.order, RunningIds(c), rest, x, y);
      }
    }
  }

  lemma CancelNoOvertaking(c: Core, id: RunId)
    requires Orderly(c)
    ensures NoOvertaking(c, CancelCore(c, id).0)
  {
    if id in c.jobs && Pending(c.jobs[id].status) {
      RemoveNoOvertaking(c, CancelCore(c, id).0, id);
    } else {
      SameOrderNoOvertaking(c, CancelCore(c, id).0);
    }
  }

  lemma PauseNoOvertaking(c: Core, id: RunId)
    ensures NoOvertaking(c, PauseCore(c, id).0)
  {
    SameOrderNoOvertaking(c, PauseCore(c, id).0);
  }

  lemma ResumeNoOvertaking(c: Core, id: RunId)
    ensures NoOvertaking(c, ResumeCore(c, id).0)
  {
    SameOrderNoOvertaking(c, ResumeCore(c, id).0);
  }

  lemma PauseAllNoOvertaking(c: Core)
    requires Known(c)
    ensures NoOvertaking(c, PauseAllCore(c)) && NoOvertaking(c, ResumeAllCore(c))
  {
    SameOrderNoOvertaking(c, PauseAllCore(c));
    SameOrderNoOvertaking(c, ResumeAllCore(c));
  }

  lemma RunNextNoOvertaking(c: Core, id: RunId)
    requires Orderly(c)
    ensures NoOvertaking(c, RunNextCore(c, id).0)
  {
    if id in c.jobs && c.jobs[id].status.Paused? {
      var c1 := WithJob(c, id, c.jobs[id].(status := Queued, pausedByQueue := false));
      SameOrderNoOvertaking(c, c1);
      MoveNoOvertaking(c1, id, 0);
    } else {
      MoveNoOvertaking(c, id, 0);
    }
  }

  lemma OrderControlNoOvertaking(c: Core, step: Step)
    requires Orderly(c) && (step.MoveStep? || step.RunNextStep? || step.PauseAllStep? || step.ResumeAllStep?)
    ensures NoOvertaking(c, RunControl(c, step).0)
  {
    match step
    case MoveStep(id, position) => MoveNoOvertaking(c, id, position);
    case RunNextStep(id) => RunNextNoOvertaking(c, id);
    case PauseAllStep => PauseAllNoOvertaking(c);
    case ResumeAllStep => PauseAllNoOvertaking(c);
  }

  lemma RunControlNoOvertaking(c: Core, step: Step)
    requires Orderly(c)
    ensures NoOvertaking(c, RunControl(c, step).0)
  {
    if step.MoveStep? || step.RunNextStep? || step.PauseAllStep? || step.ResumeAllStep? {
      OrderControlNoOvertaking(c, step);
    } else if step.PauseStep? {
      PauseNoOvertaking(c, step.id);
    } else if step.ResumeStep? {
      ResumeNoOvertaking(c, step.id);
    } else if step.CancelStep? {
      CancelNoOvertaking(c, step.id);
    } else {
      SameOrderNoOvertaking(c, c);
    }
  }

  lemma SettleNoOvertaking(c: Core, id: RunId, adrift: set<RunId>)
    requires Sound(c, adrift) && IsRunning(c, id)
    ensures NoOvertaking(c, SettleCore(c, id))
  {
    SettleFrees(c, id, adrift);
    if c.jobs[id].stop == Some(CancelStop) {
      RemoveNoOvertaking(c, SettleCore(c, id), id);
    } else {
      SameOrderNoOvertaking(c, SettleCore(c, id));
    }
  }

  lemma FinishNoOvertaking(c: Core, id: RunId, status: Status, adrift: set<RunId>)
    requires Sound(c, adrift) && IsRunning(c, id) && Terminal(status)
    ensures NoOvertaking(c, FinishCore(c, id, status))
  {
    FinishFrees(c, id, status, adrift);
    RemoveNoOvertaking(c, FinishCore(c, id, status), id);
  }

  lemma GiveBackNoOvertaking(c: Core, n: Name, adrift: set<RunId>)
    requires Sound(c, adrift) && n in c.shards
    ensures NoOvertaking(c, GiveBackCore(c, n))
  {
    if c.shards[n].runId.Some? {
      assert Holds(c, n, c.shards[n].runId.value);
      SettleNoOvertaking(c, c.shards[n].runId.value, adrift);
    } else {
      SameOrderNoOvertaking(c, c);
    }
  }

  lemma {:induction false} ReapNoOvertaking(s: State, visit: seq<Name>, now: real, adrift: set<RunId>)
    requires Sound(s.core, adrift)
    ensures NoOvertaking(s.core, ReapEach(s, visit, now).core)
    decreases |visit|
  {
    if visit == [] {
      SameOrderNoOvertaking(s.core, s.core);
    } else {
      var last := |visit| - 1;
      var e := ReapEach(s, visit[..last], now);
      ReapNoOvertaking(s, visit[..last], now, adrift);
      ReapEachSound(s, visit[..last], now, adrift);
      if Silent(e.core, visit[last], now) {
        var c := MarkOffline(e.core, visit[last]);
        AlikeSound(e.core, c, adrift);
        GiveBackNoOvertaking(c, visit[last], adrift);
      }
    }
  }

  lemma RegisterNoOvertaking(s: State, n: Name, instance: Instance, now: real, adrift: set<RunId>)
    requires Sound(s.core, adrift)
    ensures NoOvertaking(s.core, RegisterShard(s, n, instance, now).0.core)
  {
    SameOrderNoOvertaking(s.core, s.core);
    if n in s.core.shards {
      GiveBackNoOvertaking(s.core, n, adrift);
    }
  }

  lemma SyncNoOvertaking(s: State, n: Name, instance: Instance, run: Option<RunId>, progressed: bool, rows: seq<Row>, now: real, wall: nat)
    ensures NoOvertaking(s.core, Sync(s, n, instance, run, progressed, rows, now, wall).0.core)
  {
    SameOrderNoOvertaking(s.core, Sync(s, n, instance, run, progressed, rows, now, wall).0.core);
  }

  lemma ShardControlNoOvertaking(c: Core, step: Step)
    requires Known(c)
    ensures NoOvertaking(c, ShardControl(c, step).0)
  {
    SameOrderNoOvertaking(c, ShardControl(c, step).0);
  }

  lemma UpkeepNoOvertaking(s: State, step: Step, adrift: set<RunId>)
    requires Sound(s.core, adrift)
    ensures NoOvertaking(s.core, Upkeep(s, step).core)
  {
    SameOrderNoOvertaking(s.core, s.core);
    match step
    case ReapStep(visit, now) => ReapNoOvertaking(s, visit, now, adrift);
    case RegisterStep(n, instance, now) => RegisterNoOvertaking(s, n, instance, now, adrift);
    case SyncStep(n, instance, run, progressed, rows, now, wall) =>
      SyncNoOvertaking(s, n, instance, run, progressed, rows, now, wall);
    case _ =>
  }

  lemma ControlledNoOvertaking(s: State, step: Step, adrift: set<RunId>)
    requires Sound(s.core, adrift)
    requires step.ForgetStep? && step.n in s.core.shards ==> s.core.shards[step.n].runId == None
    ensures NoOvertaking(s.core, Controlled(s, step).core)
  {
    var s1 := Apply(s, RunControl(s.core, step), TouchedBy(step));
    RunControlNoOvertaking(s.core, step);
    RunControlSound(s.core, step, adrift);
    var s2 := Apply(s1, ShardControl(s1.core, step), {});
    assert step.ForgetStep? ==> s1.core == s.core;
    ShardControlNoOvertaking(s1.core, step);
    ShardControlSound(s1.core, step, adrift);
    UpkeepNoOvertaking(s2, step, adrift);
  }

  // Any run that stands ahead of a running one was started, and later than it.
  ghost predicate LaterAhead(sys: System) {
    && (forall id | id in sys.starts :: sys.starts[id] < sys.clock)
    && (forall y | y in CoreOf(sys).order && IsRunning(CoreOf(sys), y) :: y in sys.starts)
    && forall x, y | Ahead(CoreOf(sys).order, x, y) && IsRunning(CoreOf(sys), y) ::
      x in sys.starts && y in sys.starts && sys.starts[x] > sys.starts[y]
  }

  lemma QuietLater(sys: System, next: System)
    requires LaterAhead(sys) && NoOvertaking(CoreOf(sys), CoreOf(next))
    requires next.starts == sys.starts && next.clock == sys.clock
    ensures LaterAhead(next)
  {
  }

  lemma FrontAhead(order: seq<RunId>, id: RunId, x: RunId, y: RunId)
    requires NoDup(order) && Ahead([id] + Remove(order, id), x, y)
    ensures y in order && y != id && (x == id || Ahead(order, x, y))
  {
    var rest := Remove(order, id);
    var whole := [id] + rest;
    RemoveFacts(order, id);
    var i, j :| 0 <= i < j < |whole| && whole[i] == x && whole[j] == y;
    assert y == rest[j - 1] && y in rest;
    if i > 0 {
      assert x == rest[i - 1];
      assert Ahead(rest, x, y);
      RemoveKeepsAhead(order, id, x, y);
    }
  }

  // A start goes to the very front.
  lemma StartLater(sys: System, next: System, c: Core, id: RunId, n: Name)
    requires LaterAhead(sys) && Orderly(c) && c.order == CoreOf(sys).order && c.jobs == CoreOf(sys).jobs
    requires id in c.order && !IsRunning(c, id) && n in c.shards && CoreOf(next) == StartCore(c, id, n)
    requires next.starts == sys.starts[id := sys.clock] && next.clock == sys.clock + 1
    ensures LaterAhead(next)
  {
    forall x, y | Ahead(CoreOf(next).order, x, y) && IsRunning(CoreOf(next), y)
      ensures x in next.starts && y in next.starts && next.starts[x] > next.starts[y] {
      FrontAhead(c.order, id, x, y);
    }
    RemoveFacts(c.order, id);
  }

  lemma LaneStartLater(sys: System, n: Name, wall: nat)
    requires Owned(sys) && LaterAhead(sys)
    ensures LaterAhead(LaneStart(sys, n, wall))
  {
    if LaneAt(sys, n, Idle) && n in CoreOf(sys).shards && LocalReady(CoreOf(sys), n, wall) {
      StartLater(sys, LaneStart(sys, n, wall), CoreOf(sys), NextRunnable(CoreOf(sys), false).value, n);
    }
  }

  lemma LaneNoOvertaking(sys: System, step: Step)
    requires Owned(sys) && IsLaneStep(step) && !step.LaneStartStep?
    ensures NoOvertaking(CoreOf(sys), CoreOf(LaneNext(sys, step)))
  {
    SameOrderNoOvertaking(CoreOf(sys), CoreOf(sys));
    if LaneBusy(sys, step.n) {
      BusyHolds(sys, step.n);
      BusyNoOvertaking(sys, step, sys.threads[step.n].run);
    } else if step.LaneCancelStep? && step.n in sys.threads && sys.threads[step.n].Settling? {
      assert sys.threads[step.n].run in Adrift(sys);
      FinishNoOvertaking(CoreOf(sys), sys.threads[step.n].run, Cancelled, Adrift(sys));
    }
  }

  lemma LaneStartsNothing(sys: System, step: Step) returns (next: System)
    requires Known(CoreOf(sys)) && IsLaneStep(step) && !step.LaneStartStep?
    ensures next == LaneNext(sys, step) && next.starts == sys.starts && next.clock == sys.clock
  {
    next := LaneNext(sys, step);
  }

  lemma LaneNextLater(sys: System, step: Step)
    requires Owned(sys) && LaterAhead(sys) && IsLaneStep(step)
    ensures LaterAhead(LaneNext(sys, step))
  {
    if step.LaneStartStep? {
      LaneStartLater(sys, step.n, step.wall);
    } else {
      var next := LaneStartsNothing(sys, step);
      LaneNoOvertaking(sys, step);
      QuietLater(sys, next);
    }
  }

  lemma StopNoOvertaking(sys: System, n: Name)
    requires Owned(sys) && LaneBusy(sys, n) && IsRunning(CoreOf(sys), sys.threads[n].run)
    ensures NoOvertaking(CoreOf(sys), CoreOf(LaneStop(sys, n)))
  {
    UnlinkFrees(CoreOf(sys), sys.threads[n].run, Adrift(sys));
    SameOrderNoOvertaking(CoreOf(sys), Unlink(CoreOf(sys), sys.threads[n].run));
    SettleNoOvertaking(CoreOf(sys), sys.threads[n].run, Adrift(sys));
  }

  lemma BusyNoOvertaking(sys: System, step: Step, id: RunId)
    requires Owned(sys) && IsLaneStep(step) && !step.LaneStartStep?
    requires LaneBusy(sys, step.n) && sys.threads[step.n].run == id && IsRunning(CoreOf(sys), id)
    ensures NoOvertaking(CoreOf(sys), CoreOf(LaneNext(sys, step)))
  {
    SameOrderNoOvertaking(CoreOf(sys), CoreOf(sys));
    if step.LaneRowStep? {
      SameOrderNoOvertaking(CoreOf(sys), SyncCore(CoreOf(sys), id, [step.row]));
    } else if step.LaneStopStep? {
      StopNoOvertaking(sys, step.n);
    } else if step.LaneEndStep? && Terminal(step.status) {
      FinishNoOvertaking(CoreOf(sys), id, step.status, Adrift(sys));
    }
  }

  lemma ClaimBeginLater(sys: System, n: Name, instance: Instance, now: real)
    requires Owned(sys) && LaterAhead(sys)
    ensures LaterAhead(BeginClaim(sys, n, instance, now))
  {
    SameOrderNoOvertaking(CoreOf(sys), CoreOf(sys));
    if RemoteShard(CoreOf(sys), n, instance) == None {
      TouchSound(CoreOf(sys), n, now, Adrift(sys));
      GiveBackNoOvertaking(Touched(CoreOf(sys), n, now), n, Adrift(sys));
    }
    QuietLater(sys, BeginClaim(sys, n, instance, now));
  }

  lemma ClaimEndLater(sys: System, n: Name, instance: Instance, now: real, wall: nat)
    requires Owned(sys) && LaterAhead(sys)
    ensures LaterAhead(EndClaim(sys, n, instance, now, wall))
  {
    if (n, instance) in sys.waiting && RemoteShard(CoreOf(sys), n, instance) == None {
      var c1 := Touched(CoreOf(sys), n, now);
      var run := NextRunnable(c1, true);
      if run.Some? && ClaimEnd(sys.q, n, instance, now, wall).1.Claimed? {
        StartLater(sys, EndClaim(sys, n, instance, now, wall), c1, run.value, n);
      } else {
        SameOrderNoOvertaking(CoreOf(sys), c1);
        QuietLater(sys, EndClaim(sys, n, instance, now, wall));
      }
    }
  }

  lemma FinishLater(sys: System, n: Name, instance: Instance, id: RunId, outcome: Outcome, now: real)
    requires Owned(sys) && LaterAhead(sys)
    ensures LaterAhead(FinishRemote(sys, n, instance, id, outcome, now))
  {
    SameOrderNoOvertaking(CoreOf(sys), CoreOf(sys));
    if RemoteShard(CoreOf(sys), n, instance) == None {
      TouchSound(CoreOf(sys), n, now, Adrift(sys));
      var c1 := Touched(CoreOf(sys), n, now);
      SameOrderNoOvertaking(CoreOf(sys), c1);
      if Owns(c1, n, id) {
        if outcome.StoppedOutcome? || outcome.ReleasedOutcome? {
          SettleNoOvertaking(c1, id, Adrift(sys));
        } else {
          FinishNoOvertaking(c1, id, if outcome.FailedOutcome? then Failed else Complete, Adrift(sys));
        }
      }
    }
    QuietLater(sys, FinishRemote(sys, n, instance, id, outcome, now));
  }

  lemma RemoteNextLater(sys: System, step: Step)
    requires Owned(sys) && LaterAhead(sys) && IsRemoteStep(step)
    ensures LaterAhead(RemoteNext(sys, step))
  {
    match step
    case ClaimBeginStep(n, instance, now) => ClaimBeginLater(sys, n, instance, now);
    case ClaimEndStep(n, instance, now, wall) => ClaimEndLater(sys, n, instance, now, wall);
    case FinishStep(n, instance, id, outcome, now) => FinishLater(sys, n, instance, id, outcome, now);
  }

  lemma SubmitNoOvertaking(c: Core, id: RunId, request: Contract.Dict, at: real)
    requires Orderly(c) && id !in c.jobs
    ensures NoOvertaking(c, SubmitCore(c, id, request, at))
  {
    var d := SubmitCore(c, id, request, at);
    forall x, y | Ahead(d.order, x, y) && IsRunning(d, y) ensures Ahead(c.order, x, y) {
      var i, j :| 0 <= i < j < |d.order| && d.order[i] == x && d.order[j] == y;
      assert j < |c.order|;
    }
  }

  lemma CrashLater(sys: System, now: real)
    requires Owned(sys) && LaterAhead(sys)
    ensures LaterAhead(Crash(sys, now))
  {
    RestartSound(sys.q, now);
  }

  lemma SubmitLater(sys: System, next: System, id: RunId, request: Contract.Dict, at: real)
    requires Owned(sys) && LaterAhead(sys) && id !in CoreOf(sys).jobs
    requires next == sys.(q := Submit(sys.q, id, request, at), minted := next.minted)
    ensures LaterAhead(next)
  {
    SubmitNoOvertaking(CoreOf(sys), id, request, at);
    QuietLater(sys, next);
  }

  lemma DeathLater(sys: System, step: Step)
    requires Invariant(sys) && LaterAhead(sys) && Dies(sys, step)
    ensures LaterAhead(Crash(Left(sys, step), step.now))
  {
    LeftInvariant(sys, step);
    OtherRowsLater(sys, Left(sys, step));
    CrashLater(Left(sys, step), step.now);
  }

  lemma OtherRowsLater(sys: System, left: System)
    requires LaterAhead(sys) && left == sys.(q := sys.q.(core := CoreOf(sys).(rows := CoreOf(left).rows)))
    ensures LaterAhead(left)
  {
  }

  lemma LifeNextLater(sys: System, step: Step)
    requires Invariant(sys) && Guarded(sys, step) && LaterAhead(sys) && IsLifeStep(step)
    ensures LaterAhead(LifeNext(sys, step))
  {
    if step.SubmitStep? {
      SubmitLater(sys, LifeNext(sys, step), step.id, step.request, step.at);
    } else if Dies(sys, step) {
      DeathLater(sys, step);
    }
  }

  lemma StepLater(sys: System, step: Step)
    requires Invariant(sys) && Guarded(sys, step) && LaterAhead(sys)
    ensures LaterAhead(Next(sys, step))
  {
    if IsLaneStep(step) {
      LaneNextLater(sys, step);
    } else if IsRemoteStep(step) {
      RemoteNextLater(sys, step);
    } else if IsLifeStep(step) {
      LifeNextLater(sys, step);
    } else {
      ControlledNoOvertaking(sys.q, step, Adrift(sys));
      QuietLater(sys, sys.(q := Controlled(sys.q, step)));
    }
  }

  // In every reachable state, whatever stands ahead of a running run was itself
  // started after it.
  lemma {:induction false} AheadStartedLater(trace: seq<System>, steps: seq<Step>, lanes: seq<Name>, start: real, i: nat)
    requires IsRun(trace, steps, lanes, start) && i < |trace|
    ensures LaterAhead(trace[i])
  {
    if i > 0 {
      AheadStartedLater(trace, steps, lanes, start, i - 1);
      RunInvariant(trace, steps, lanes, start, i - 1);
      RunLeads(trace, steps, lanes, start, i - 1);
      StepLater(trace[i - 1], steps[i - 1]);
    }
  }
}
