/**
 Shards that are heard from and shards that are not: whose run is taken back when, and
 what becomes of it.
 */
module QueueSilence {
  import opened Seqs
  import opened Checkpoint
  import opened Queue
  import opened QueueInvariants
  import opened QueueAnswers

  // A remote shard of which nothing has been heard for a minute.
  predicate Overdue(c: Core, n: Name, now: real) {
    n in c.shards && !c.shards[n].local && !c.shards[n].offline && now - c.shards[n].lastSeen >= 60.0
  }

  ghost predicate TakenBack(c: Core, visit: seq<Name>, now: real, id: RunId) {
    exists n | n in visit :: Overdue(c, n, now) && HasRun(c, n, id)
  }

  // A run that is taken back is what had been asked of it.
  function AsAsked(job: Job): Job {
    job.(status := if job.stop == Some(CancelStop) then Cancelled else if job.stop == Some(PauseStop) then Paused else Queued,
         stop := None, shard := None)
  }

  // The overdue shards are offline and have nothing, every other is as it was; the runs
  // they had are taken back, every other is as it was; and of those that had been asked
  // to cancel the place in the order and the checkpoint are gone.
  ghost predicate ReapTells(c: Core, visit: seq<Name>, now: real, d: Core) {
    && d.shards.Keys == c.shards.Keys && d.jobs.Keys == c.jobs.Keys
    && (forall n | n in c.shards ::
          d.shards[n] == if n in visit && Overdue(c, n, now) then c.shards[n].(offline := true, runId := None) else c.shards[n])
    && (forall id | id in c.jobs ::
          d.jobs[id] == if TakenBack(c, visit, now, id) then AsAsked(c.jobs[id]) else c.jobs[id])
    && (forall id :: id in d.order <==> id in c.order && !Cancels(c, visit, now, id))
    && (forall id :: FileOf(d, id) == if Cancels(c, visit, now, id) then NoFile else FileOf(c, id))
  }

  ghost predicate Cancels(c: Core, visit: seq<Name>, now: real, id: RunId) {
    id in c.jobs && c.jobs[id].stop == Some(CancelStop) && TakenBack(c, visit, now, id)
  }

  // One run is given up, and is as asked.
  ghost predicate GivenUp(c: Core, d: Core, id: RunId) {
    && Freed(c, d, id) && id in c.jobs && d.jobs[id] == AsAsked(c.jobs[id])
    && (forall x :: x in d.order <==> x in c.order && !(x == id && c.jobs[id].stop == Some(CancelStop)))
    && forall x :: FileOf(d, x) == if x == id && c.jobs[id].stop == Some(CancelStop) then NoFile else FileOf(c, x)
  }

  lemma SettledIsGivenUp(c: Core, n: Name, id: RunId, adrift: set<RunId>)
    requires Sound(c, adrift) && HasRun(c, n, id)
    ensures GivenUp(c, SettleCore(c, id), id)
  {
    SettleFrees(c, id, adrift);
    RemoveFacts(c.order, id);
  }

  lemma OneHasIt(c: Core, n: Name, id: RunId, adrift: set<RunId>)
    requires Sound(c, adrift) && n in c.shards
    ensures HasRun(c, n, id) <==> c.shards[n].runId == Some(id)
    ensures HasRun(c, n, id) ==> IsRunning(c, id) && forall m | m in c.shards && c.shards[m].runId == Some(id) :: m == n
  {
    assert Holds(c, n, id) <==> Names(c, id, n);
    forall m | m in c.shards && c.shards[m].runId == Some(id) && HasRun(c, n, id) ensures m == n {
      assert Holds(c, m, id) <==> Names(c, id, m);
    }
  }

  lemma OneTells(c: Core, n: Name, id: RunId, now: real, d: Core, adrift: set<RunId>)
    requires Sound(c, adrift) && Overdue(c, n, now) && c.shards[n].runId == Some(id) && HasRun(c, n, id)
    requires GivenUp(MarkOffline(c, n), d, id)
    ensures ReapTells(c, [n], now, d)
  {
    TakenFromOne(c, n, now);
    OneHasIt(c, n, id, adrift);
    assert forall x :: HasRun(c, n, x) <==> x == id;
  }

  lemma IdleTells(c: Core, n: Name, now: real)
    requires Overdue(c, n, now) ==> c.shards[n].runId == None
    ensures ReapTells(c, [n], now, if Overdue(c, n, now) then MarkOffline(c, n) else c)
  {
    TakenFromOne(c, n, now);
  }

  lemma ReapOneTells(s: State, n: Name, now: real, adrift: set<RunId>)
    requires Sound(s.core, adrift)
    ensures ReapTells(s.core, [n], now, ReapOne(s, n, now).core)
  {
    var c := s.core;
    if Overdue(c, n, now) && c.shards[n].runId.Some? {
      var id, marked := c.shards[n].runId.value, MarkOffline(c, n);
      AlikeSound(c, marked, adrift);
      OneHasIt(c, n, id, adrift);
      OneHasIt(marked, n, id, adrift);
      SettledIsGivenUp(marked, n, id, adrift);
      OneTells(c, n, id, now, SettleCore(marked, id), adrift);
    } else {
      IdleTells(c, n, now);
    }
  }

  lemma TakenFromOne(c: Core, n: Name, now: real)
    ensures forall id :: TakenBack(c, [n], now, id) <==> Overdue(c, n, now) && HasRun(c, n, id)
  {
  }

  lemma TakenTwice(c: Core, front: seq<Name>, n: Name, now: real, e: Core, id: RunId, adrift: set<RunId>)
    requires Sound(c, adrift) && Sound(e, adrift) && ReapTells(c, front, now, e) && id in c.jobs
    ensures TakenBack(c, front + [n], now, id) <==> TakenBack(c, front, now, id) || TakenBack(e, [n], now, id)
    ensures TakenBack(e, [n], now, id) ==> e.jobs[id] == c.jobs[id] && !TakenBack(c, front, now, id)
  {
    TakenFromOne(e, n, now);
    assert forall m | m in front :: m in front + [n];
    if n in c.shards && n !in front {
      OneHasIt(c, n, id, adrift);
      OneHasIt(e, n, id, adrift);
    }
    if TakenBack(c, front, now, id) {
      var m :| m in front && Overdue(c, m, now) && HasRun(c, m, id);
      OneHasIt(c, m, id, adrift);
    }
  }

  lemma ReapTellsTwice(c: Core, front: seq<Name>, n: Name, now: real, e: Core, d: Core, adrift: set<RunId>)
    requires Sound(c, adrift) && Sound(e, adrift) && ReapTells(c, front, now, e) && ReapTells(e, [n], now, d)
    ensures ReapTells(c, front + [n], now, d)
  {
    forall id | id in c.jobs
      ensures TakenBack(c, front + [n], now, id) <==> TakenBack(c, front, now, id) || TakenBack(e, [n], now, id)
      ensures TakenBack(e, [n], now, id) ==> e.jobs[id] == c.jobs[id] && !TakenBack(c, front, now, id)
    {
      TakenTwice(c, front, n, now, e, id, adrift);
    }
    forall id ensures Cancels(c, front + [n], now, id) <==> Cancels(c, front, now, id) || Cancels(e, [n], now, id) {
    }
  }

  lemma {:induction false} ReapEachTells(s: State, visit: seq<Name>, now: real, adrift: set<RunId>)
    requires Sound(s.core, adrift)
    ensures ReapTells(s.core, visit, now, ReapEach(s, visit, now).core)
    decreases |visit|
  {
    if visit != [] {
      var front, last := visit[..|visit| - 1], visit[|visit| - 1];
      var e := ReapEach(s, front, now);
      ReapEachTells(s, front, now, adrift);
      ReapEachSound(s, front, now, adrift);
      ReapOneTells(e, last, now, adrift);
      ReapTellsTwice(s.core, front, last, now, e.core, ReapOne(e, last, now).core, adrift);
      assert front + [last] == visit;
    } else {
      assert forall id :: !TakenBack(s.core, [], now, id);
    }
  }

  // Whatever order they are visited in: exactly the overdue shards go offline and lose
  // what they had.
  lemma ReapIsTruthful(s: State, visit: seq<Name>, now: real, adrift: set<RunId>)
    requires Sound(s.core, adrift)
    ensures ReapTells(s.core, visit, now, Reap(s, visit, now).core)
  {
    ReapEachTells(s, visit, now, adrift);
    if !exists n | n in visit :: Silent(s.core, n, now) {
      assert forall n :: Overdue(s.core, n, now) <==> Silent(s.core, n, now);
      assert forall id :: !TakenBack(s.core, visit, now, id);
    }
  }

  // ---- being heard --------------------------------------------------------

  // The registered process of a shard that says anything has been heard from just now
  // and is on line; nobody else has, whatever is said in his name.
  ghost predicate HeardTells(c: Core, n: Name, instance: Instance, now: real, d: Core) {
    && d.shards.Keys == c.shards.Keys
    && forall m | m in c.shards ::
         && d.shards[m].lastSeen == (if m == n && Registered(c, n, instance) then now else c.shards[m].lastSeen)
         && d.shards[m].offline == (c.shards[m].offline && !(m == n && Registered(c, n, instance)))
  }

  ghost predicate SameHearing(c: Core, d: Core) {
    && d.shards.Keys == c.shards.Keys
    && forall m | m in c.shards :: d.shards[m].lastSeen == c.shards[m].lastSeen && d.shards[m].offline == c.shards[m].offline
  }

  lemma UnlinkIsNotHearing(c: Core, id: RunId)
    requires id in c.jobs
    ensures SameHearing(c, Unlink(c, id))
  {
  }

  lemma SettleIsNotHearing(c: Core, id: RunId)
    requires Known(c) && id in c.jobs
    ensures SameHearing(c, SettleCore(c, id))
  {
    UnlinkIsNotHearing(c, id);
    assert SettleCore(c, id).shards == Unlink(c, id).shards;
  }

  lemma FinishIsNotHearing(c: Core, id: RunId, status: Status)
    requires Known(c) && id in c.jobs
    ensures SameHearing(c, FinishCore(c, id, status))
  {
    UnlinkIsNotHearing(c, id);
    assert FinishCore(c, id, status).shards == Unlink(c, id).shards;
  }

  lemma ClaimBeginIsHeard(s: State, n: Name, instance: Instance, now: real)
    requires Known(s.core)
    ensures HeardTells(s.core, n, instance, now, ClaimBegin(s, n, instance, now).0.core)
  {
    if Registered(s.core, n, instance) {
      var c := Touched(s.core, n, now);
      if c.shards[n].runId.Some? && c.shards[n].runId.value in c.jobs {
        SettleIsNotHearing(c, c.shards[n].runId.value);
      }
    }
  }

  lemma ClaimEndIsHeard(s: State, n: Name, instance: Instance, now: real, wall: nat)
    requires Known(s.core)
    ensures HeardTells(s.core, n, instance, now, ClaimEnd(s, n, instance, now, wall).0.core)
  {
  }

  lemma SyncIsHeard(s: State, n: Name, instance: Instance, run: Option<RunId>, progressed: bool, rows: seq<Row>, now: real, wall: nat)
    ensures HeardTells(s.core, n, instance, now, Sync(s, n, instance, run, progressed, rows, now, wall).0.core)
  {
  }

  lemma FiledIsNotHearing(s: State, id: RunId, outcome: Outcome)
    requires Known(s.core) && id in s.core.jobs
    ensures SameHearing(s.core, Filed(s, id, outcome).core)
  {
    SettleIsNotHearing(s.core, id);
    FinishIsNotHearing(s.core, id, Complete);
    FinishIsNotHearing(s.core, id, Failed);
  }

  lemma FinishIsHeard(s: State, n: Name, instance: Instance, id: RunId, outcome: Outcome, now: real) returns (next: State, reply: Reply)
    requires Known(s.core)
    ensures (next, reply) == ShardFinish(s, n, instance, id, outcome, now)
    ensures HeardTells(s.core, n, instance, now, next.core)
  {
    next, reply := FinishIs(s, n, instance, id, outcome, now);
    if Registered(s.core, n, instance) && id in s.core.jobs {
      FiledIsNotHearing(s.(core := Touched(s.core, n, now)), id, outcome);
    }
  }

  // So whoever was heard from within the minute keeps what he has.
  lemma HeardKeepsItsRun(c: Core, n: Name, id: RunId, heard: real, visit: seq<Name>, now: real, d: Core, adrift: set<RunId>)
    requires Sound(c, adrift) && HasRun(c, n, id) && c.shards[n].lastSeen == heard && now - heard < 60.0
    requires ReapTells(c, visit, now, d)
    ensures d.shards[n] == c.shards[n] && d.jobs[id] == c.jobs[id] && FileOf(d, id) == FileOf(c, id) && HasRun(d, n, id)
  {
    OneHasIt(c, n, id, adrift);
    assert !Overdue(c, n, now);
    forall m | m in visit && Overdue(c, m, now) && HasRun(c, m, id) ensures m == n {
      OneHasIt(c, m, id, adrift);
    }
  }
}
