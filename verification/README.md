# Verification of the backtest queue and its neighbours

A Dafny 4.11 model of the parts of this repository where something can be lost,
done twice or computed differently the second time, and proofs that it is not --
or, where the code does lose something, of exactly when. `dafny verify
dfyconfig.toml` checks all of it.

## What is modelled

**The shard queue** (`server/jobs.py`, the heart of the project). `Queue.dfy`
says what each locked section of `JobQueue` does, on values; `JobQueue.dfy` is
the class with its fields updated in place, each method proved equal to that.
`QueueRuns.dfy` puts any interleaving of control requests, shard requests, local
lanes, reaping and crashes into one step relation, and the files after it prove
what holds over whole runs: ownership (`QueueInvariants`, `QueueRuns`), the disk
(`QueueDisk`), histories (`QueueHistory`, `QueueTheorems`), restarts
(`QueueRestart`), the order (`QueueOrder`), checkpoints (`QueueRows`), and the
places where the plain statement is false (`QueueLimits`). `QueueAnswers.dfy` says
what each answer means to whoever asked, `QueuePauses.dfy`, `QueueStops.dfy`,
`QueueSilence.dfy`, `QueueReports.dfy` and `QueueRevisions.dfy` what a pause, a
stop, silence, a report and a revision come to over whole runs. `Checkpoint.dfy`
and `Contract.dfy` are the two things it stores.

**A shard process against that queue** (`server/shard_client.py`). `Link.dfy` is
the outbox and its flags, as functions and as a class. `HandBack.dfy` runs the
client's two threads, a network that loses requests and answers, and everybody
else together; `HandBackStops.dfy` follows a stop to the process that is to hear
it, and `HandBackLimits.dfy` holds histories in which a row is lost.

**Sweeps** (`server/backtest.py`): splitting (`Bisect.dfy`), stopping and resuming
(`Sweep.dfy`), with the file the rows are kept in and attempts that die while
writing it (`SweepFiles.dfy`), in any run of the queue (`SweepRuns.dfy`), and which
result is reported (`Ranking.dfy`).

**Placing orders** (`fidelity_gateway/`): the arithmetic (`Orders.dfy`), the
protocol over all failures (`Placing.dfy`), what its callers are told
(`PlacingOutcomes.dfy`), the objects (`PlacingBroker.dfy`).

**Fast forms** against plain ones: columnar fills and vectorised cycles
(`Fills.dfy`, `Cycles.dfy`, and over the fills themselves `CyclePages.dfy`), the
history caches (`History.dfy`, `HistoryStore.dfy`, `HistoryLimits.dfy`, and against
the archives `HistoryRows.dfy`), the memoised batch loop (`Memo.dfy`).

`Seqs.dfy` holds the sequence operations they share, `Chains.dfy` how a history is
built up.

## What is assumed

- Run ids and confNums are fresh when minted; one process writes one journal for
  an account.
- A shard process has one claim outstanding at a time, and a claim it has given up
  on is not processed later (`HandBack.LateClaimHarmlessIff` says when it would do
  no harm). Its syncs, finishes and registrations may be repeated, delayed and
  reordered at will.
- An operator forgets only a shard that holds no run. Without this and the last,
  `QueueLimits.ForgettingLosesARun` and `QueueLimits.TwoClaimsLoseARun` happen.
- Simulating a configuration is a function of the configuration.
- A rewritten archive has a later modification time than what was derived from it
  (`HistoryLimits.RewriteSeenIff` says what happens otherwise) and can be read
  (`HistoryLimits.LingersIff`).
- Writes to the queue's own files succeed, and a process dies between two locked
  sections or in the middle of appending rows.

## Where the code and its documentation part

- `load_rows` says one configuration is the whole cost of a crash in the middle of
  an append. The line appended next is written onto the torn one and is lost too
  (`Checkpoint.CrashCostsTheNextRowToo`). So an attempt can finish a configuration
  and leave one more to do (`SweepFiles.FinishingCanSetBack`), and attempts that all
  finish something can go on for as long as one likes (`SweepFiles.SweepNeedNotEnd`);
  `SweepFiles.AttemptFalls` says exactly what an attempt is worth.
- A run's revision is said to be bumped on every mutation; `pause_all` and
  `resume_all` change runs and bump none (`QueueLimits.PauseAllBumpsNobody`), and
  the first half of a lane's cancel does not either (`QueueRevisions.StepSeenIff`).
- `resume_all` is said to resume what the queue paused. A running run that the queue
  had asked to pause and a person then paused too goes on running
  (`QueueReports.PersonPauseStaysIff`).
- `_start` says running runs lead the order. One of several that is given back
  keeps its place, ahead of those still running
  (`QueueLimits.RunningIsNotAPrefix`).
- `server/fills.py` says at its head that a lot is open when it has a buy and no
  sell anywhere. The code, and the model, call it open until its sells add up to
  what was bought, within a relative and an absolute 1e-9. `Fills.OpenAsDescribedIff`
  says when the two agree; ten bought and four sold (`Fills.PartlySoldIsOpen`) and a
  billionth bought (`Fills.NextToNothingIsClosed`) are inputs on which they do not.
- `fidelity_gateway/broker.py` says `snapshot` keys orders by this adapter's own ids
  where it knows one. An order of
  somebody else's whose confNum is such a decision takes the same key, and hides the
  order if it is listed later (`Placing.SnapshotCanHideAnOrder`,
  `Placing.SnapshotKeysOurOrders`).
- `server/shard_client.py` says a finish is delivered in order after a run's rows.
  `owns` and `finish` are two locked sections, and a refusal heard in between drops
  the rows but not the finish. `HandBackLimits.OneProcessCanLoseARow` is a history
  from the start in which that costs a row; `HandBack.HandBackWholeIff` says exactly
  when a hand-back does.
- `fidelity_gateway/placing_broker.py` says the id is durable before anything is
  committed. `record` appends to whatever the file ends with, and a process whose
  last write tore can place again: the next entry is then written onto the torn
  line (`Placing.PlacedAndNotJournalled`, `Placing.JournalledIff`).
- `server/backtest.py` says `cells[0]` is the configuration the fills come from. If
  a failed configuration is the first row and nothing that was run has a value to be
  ranked by, the fills are asked of the failed one (`Ranking.FailedRowCanLead`,
  `Ranking.ReportedLogIsCellsFirst`).

## Model

| member | source | states |
|---|---|---|
| `Contract.RequestCondensed` | server/contract.py:30-56 | a translated request has none of the old field names left, whatever was stored |
| `Contract.RequestFixesCondensed` | server/contract.py:30-56 | a request already in the new shape is returned unchanged, keys, values and order |
| `Contract.RequestIdempotent` | server/contract.py:30-56 | translating twice is translating once, which is what lets a restart persist what it has translated |
| `Contract.RequestSays` | server/contract.py:29-56 | every field of a translated request, and none besides: each holds what was submitted last under its own old or new name; `bayes` holds the trials as given and the seed if one was given, exactly when the strategy was bayesian and no `bayes` was there; `minimize` is true exactly when the direction was minimize and no `minimize` was there |
| `Checkpoint.AppendLoads` | server/jobs.py:335-373 | appending rows and reading back gives the old rows and the new ones exactly when the file did not end in an unfinished line |
| `Checkpoint.CrashLosesOnlyItsOwnBatch` | server/jobs.py:335-373 | a crash in the middle of an append costs only rows of that append: what loads is the old rows and a prefix of the batch |
| `Checkpoint.CrashCostsTheNextRowToo` | server/jobs.py:351-357 | the documented cost of one configuration is exceeded: the first row appended after a torn line is lost too, exactly when the cut was inside a line or before its newline |
| `Checkpoint.LinesStayIff` | server/jobs.py:335-373 | whatever appends, whole and torn, follow: every line stays if and only if the file did not end in a row without its newline, or nothing followed; else exactly that row is gone |
| `JobQueue.JobQueue.Renumber` | server/jobs.py:1283-1291 | positions become 1, 2, ... over the pending runs of the order; the runs bumped are those named and those whose position moved |
| `JobQueue.JobQueue.NotifyChanged` | server/jobs.py:1274-1295 | the whole new book-keeping: positions, revisions, and state.json as the projection of memory |
| `QueueRevisions.StepSeenIff` | server/jobs.py:1274-1295 | in a step that the process survives, a run's revision grows whenever anything of it changes, its position too, if and only if the step is not pause_all asking it, resume_all taking the queue's own pause back, or the first half of a lane's cancel |
| `QueueRevisions.WatcherMissesNothing` | server/jobs.py:567-581 | in every run: as long as the process lives and none of those three happens to a run, whoever waits for its revision to pass the one he saw misses nothing of it |
| `JobQueue.JobQueue.Submit` | server/jobs.py:587-597 | the new run goes last in the order, and the queue stays valid |
| `QueueRevisions.SubmittedIsThere` | server/jobs.py:587-597 | in every run of the queue: after a submission that run, and no other, is new; it is last, queued, with nothing asked of it, no shard, and the request that was submitted |
| `QueueRevisions.RequestIsKept` | server/jobs.py:587-660 | in every run, through whatever happens: as long as there is a run of that id it has the submission's time and its request, as submitted until the first restart and in the new field names from then on |
| `JobQueue.JobQueue.Restore` | server/jobs.py:599-660 | the loop over the saved entries, with running runs queued or paused and cancelled ones dropped, from an empty queue to a valid one |
| `JobQueue.JobQueue.Pause` | server/jobs.py:666-683 | reply and whole new state for every status; refused for a run being cancelled or finished; ownership untouched |
| `JobQueue.JobQueue.Resume` | server/jobs.py:685-701 | reply and whole new state for every status; a pause that has not landed is taken back |
| `QueueReports.PersonPauseStaysIff` | server/jobs.py:666-683 | a run that a person paused while it waited is not resumed by resume_all; one that was running goes on pausing if and only if the queue had not asked it to pause before |
| `QueueReports.ResumeUndoesPause` | server/jobs.py:666-701 | pausing and resuming leaves a running run as it was and a waiting one queued, with no mark of the queue's own pause |
| `JobQueue.JobQueue.Cancel` | server/jobs.py:703-719 | a pending run leaves the order with its checkpoint, a running one is asked, a finished one refused; the queue stays valid |
| `QueueReports.ControlsAcceptedIff` | server/jobs.py:666-719 | which runs may be paused, resumed and cancelled: no finished one, and one being cancelled may not be paused |
| `JobQueue.JobQueue.Split` | server/jobs.py:735-736 | the two comprehensions of move: the running runs, and the others but the one moved, each in order |
| `JobQueue.JobQueue.Move` | server/jobs.py:721-740 | the run is put at the clamped index behind the running runs; the queue stays valid |
| `JobQueue.JobQueue.RunNext` | server/jobs.py:742-755 | a paused run is resumed and moved to the front of the pending ones |
| `JobQueue.JobQueue.PauseAll` | server/jobs.py:757-767 | exactly the running runs not yet asked anything are asked to pause, and marked as paused by the queue |
| `JobQueue.JobQueue.ResumeAll` | server/jobs.py:769-784 | what the queue paused is queued again, and what it had asked to pause is not asked any more |
| `JobQueue.JobQueue.PauseShard` | server/jobs.py:805-813 | the shard, or every lane for "local", is paused; nothing changes hands |
| `JobQueue.JobQueue.ResumeShard` | server/jobs.py:815-825 | the same undone, with the remembered pause of that name forgotten |
| `JobQueue.JobQueue.SetShardsPaused` | server/jobs.py:888-897 | every shard at once |
| `JobQueue.JobQueue.SetShardSchedule` | server/jobs.py:839-886 | a window is set, kept switched off, or cleared; refused when switched on without both times |
| `QueuePauses.ScheduleMeans` | server/jobs.py:839-886 | after a window is set for a shard, or for "local", exactly those shards are locked out in exactly those minutes if it is enabled; refused ones and every other shard's window stay as they were |
| `QueueAnswers.WindowIsCircular` | server/jobs.py:221-230 | a minute is in a window if and only if, going round the clock from its start, one meets that minute before its end |
| `QueuePauses.PausedIff` | server/jobs.py:805-837 | in every run, whether a remote shard is paused changes in a step if and only if the step pauses it or takes its pause back; registering, claiming, falling silent and restarting the server do neither |
| `QueuePauses.PausedShardIsGivenNothing` | server/jobs.py:1001-1024 | in every run, from pause_shard until somebody takes it back no claim under that name is given a run, through registrations of any process and restarts |
| `QueuePauses.WindowsStay` | server/jobs.py:839-886 | in every run, a window stays as it was set until it is set again, restarts included |
| `QueuePauses.LockedOutStays` | server/jobs.py:1139-1157 | so a shard locked out at a time of day stays so |
| `QueuePauses.QueueStaysPaused` | server/jobs.py:757-784 | in every run, from pause_all to resume_all nobody is given a run |
| `JobQueue.JobQueue.ForgetShard` | server/jobs.py:899-910 | accepted for any offline remote shard; afterwards the queue is valid if and only if that shard held no run |
| `JobQueue.JobQueue.Start` | server/jobs.py:1212-1223 | the run leads the order, runs, and is linked to the shard both ways |
| `QueueInvariants.DetachFrees` | server/jobs.py:1225-1231 | detaching takes the run from whichever shard holds it, and from no other run or shard anything |
| `JobQueue.JobQueue.Finish` | server/jobs.py:1365-1376 | terminal status, no stop, no shard, out of the order, checkpoint discarded |
| `JobQueue.JobQueue.SettleStopped` | server/jobs.py:1246-1266 | the part under the lock: paused, queued, or unlinked and left for _finish, by what was asked |
| `JobQueue.JobQueue.Settle` | server/jobs.py:1246-1266 | under an outer lock both halves are one step |
| `JobQueue.JobQueue.Release` | server/jobs.py:1233-1244 | a running run is settled, any other call does nothing |
| `JobQueue.JobQueue.NextRunnable` | server/jobs.py:1336-1348 | the loop finds the first queued run of the order that this kind of worker may take, none while the queue is paused |
| `QueueAnswers.NextRunnableIff` | server/jobs.py:1336-1348 | a run is next if and only if the queue is not paused, it is queued and may run there, and nothing ahead of it in the order is queued and may |
| `QueueAnswers.LocalOnlyIff` | server/jobs.py:1336-1348 | a run stays on this machine if and only if its request says local_only with something Python takes for true |
| `JobQueue.JobQueue.Reap` | server/jobs.py:912-936 | every remote shard silent for the timeout is marked offline and its run taken back, in whatever order they are visited; the runs taken back are what it returns |
| `QueueSilence.ReapIsTruthful` | server/jobs.py:912-936 | in whatever order they are visited: exactly the remote shards not heard from for 60 seconds go offline and lose what they had; exactly those runs are taken back, each cancelled, paused or queued as had been asked of it, and no other run, shard, place or checkpoint changes |
| `QueueSilence.HeardKeepsItsRun` | server/jobs.py:912-936 | a shard heard from within the minute keeps its run, with its checkpoint |
| `QueueSilence.ClaimBeginIsHeard` | server/jobs.py:990-1000 | a claim counts as hearing from the registered process of that name, and from nobody else |
| `QueueSilence.ClaimEndIsHeard` | server/jobs.py:1011-1024 | so does its answer |
| `QueueSilence.SyncIsHeard` | server/jobs.py:1026-1046 | so does a sync |
| `QueueSilence.FinishIsHeard` | server/jobs.py:1067-1090 | so does a finish, accepted or not |
| `JobQueue.JobQueue.RegisterShard` | server/jobs.py:942-988 | the last registration wins: a retry keeps its run, a new process gives the old one back, a pause survives |
| `QueueReports.RegisterIsTruthful` | server/jobs.py:942-988 | refused under a lane's name alone; else the caller is the shard of that name, just heard from, with the pause the name had and the run if it is the process that had it; a run of the process before it is what had been asked of it, and no other shard changes |
| `JobQueue.JobQueue.ClaimBegin` | server/jobs.py:990-1000 | a claim first gives back whatever the queue thought the shard was running |
| `JobQueue.JobQueue.ClaimEnd` | server/jobs.py:1011-1024 | after the wait: a run for exactly the registered process of a shard that is neither paused nor in its window, of a queue that is not paused, and exactly the first run of the order that is queued and not local-only; else nothing, and nothing has happened. Afterwards the queue is valid if and only if the shard held no run at that moment or got none |
| `QueueAnswers.ClaimIsTruthful` | server/jobs.py:1011-1024 | the same of the specification: a claim answers with a run if and only if that run is the next for a shard that may take it, and then it is that shard's and first in the order |
| `JobQueue.JobQueue.ShardSync` | server/jobs.py:1026-1065 | rows reach the checkpoint only under current ownership; an answer for exactly the registered process, and in it paused, locked out, owned and stop are each true if and only if they are so: stop when the caller has the run and something is asked of it, or its shard is paused or in its window |
| `QueueAnswers.SyncIsTruthful` | server/jobs.py:1026-1065 | the same of the specification, over jobs, shards and windows |
| `QueueAnswers.ShouldStopIff` | server/jobs.py:1159-1164 | whoever has a run is to stop it if and only if something is asked of it, or its shard is paused, or the time of day is in its enabled window |
| `QueueStops.StandingIff` | server/jobs.py:666-719 | in every run, of a run that stays with its shard: after a step it is asked to stop if and only if the step asks it, or it was asked before and the step does not take everything back |
| `QueueStops.StopIsHeard` | server/jobs.py:1026-1065 | in every run: from a cancel or pause of a running run, or a pause of its shard, every sync of whoever has it answers stop, and so does the question a lane asks, until everything asked is taken back or the run is given up |
| `HandBackStops.AnswerWasGiven` | server/shard_client.py:431-439 | in every history, whatever answer a process hears is one the server gave to that very request |
| `HandBackStops.StopIsDelivered` | server/shard_client.py:304-312 | in every history: when a process hears the answer about the run it has, should_stop is true afterwards if and only if it was to stop anyway, or when the sync was served the run was not its own any more, or it was asked to stop |
| `HandBackStops.AnswerIsHeard` | server/shard_client.py:440-451 | what an answer changes: whether the shard is paused always, stop and loss only when it is about the run the process has |
| `HandBackStops.EndedIsHeard` | server/shard_client.py:383-409 | a process told that it is superseded, or unknown, stops whatever it has, and one that begins a run anew has nothing to stop it but those and its own shutdown |
| `QueueRevisions.ProgressIsSeenIff` | server/jobs.py:1328-1334 | a sync moves a run's revision if and only if it is its owner's and reports progress |
| `JobQueue.JobQueue.ShardFinish` | server/jobs.py:1067-1108 | accepted of exactly the registered process that has the run; then the run is complete, or failed, or, stopped and released, cancelled, paused or queued by what had been asked of it; refused, nothing of any run has changed |
| `QueueAnswers.FinishIsTruthful` | server/jobs.py:1067-1108 | the same of the specification: which terminal status each outcome leaves, that the shard is free, and that a finished run is out of the order with its checkpoint gone |
| `QueueReports.CompleteReportIsArchived` | server/jobs.py:1105-1108 | a complete report that is accepted is to be archived from then on, and no other outcome is |
| `QueueReports.OnlyCompleteIsArchived` | server/jobs.py:1105-1108 | in every run, on_complete is called of no run but a complete one |
| `JobQueue.JobQueue.LaneTake` | server/jobs.py:1385-1392 | the locked section of a lane: a run exactly when the lane is neither paused nor in its window and the queue is not paused, and exactly the first queued run of the order, which is then its own |
| `QueueAnswers.LaneIsTruthful` | server/jobs.py:1378-1392 | the same of the specification |
| `QueueInvariants.ForgetSoundIff` | server/jobs.py:899-910 | forgetting an offline shard keeps ownership a bijection if and only if it held no run |
| `QueueInvariants.StartSoundIff` | server/jobs.py:1212-1223 | giving a shard a run keeps one run per shard if and only if it has none at that moment |
| `QueueInvariants.RegisterSound` | server/jobs.py:942-988 | registering, retrying and superseding keep order, links and lanes sound |
| `QueueInvariants.ReapSound` | server/jobs.py:912-936 | reaping keeps them too and never takes a run from a lane |
| `QueueInvariants.ShardFinishSound` | server/jobs.py:1067-1108 | every outcome a shard can report keeps them, and concerns that shard alone |
| `QueueInvariants.MoveSound` | server/jobs.py:721-740 | moving keeps them: the order holds the same runs, once each |
| `QueueInvariants.RestartSound` | server/jobs.py:599-660 | a restart begins sound, with nothing running and nothing owned, whatever the disk says |
| `QueueRuns.StepOwned` | server/jobs.py:587-1435 | every step of the queue -- control, claim, sync, finish, register, reap, lane, crash, crash in the middle of an append -- keeps the ownership invariant, given fresh ids, one claim at a time per process, and only idle shards forgotten |
| `QueueDisk.StepDurable` | server/jobs.py:1274-1326 | every step leaves state.json the projection of memory, but for a run between the two halves of a local cancel |
| `QueueTheorems.RunInvariant` | server/jobs.py:587-1435 | the whole invariant in every state of every run |
| `QueueTheorems.OwnershipIsABijection` | server/jobs.py:1136-1137 | in every reachable state a run is running if and only if exactly one shard holds it and it names that shard back (a run between the two halves of a local cancel excepted) |
| `QueueTheorems.DiskIsTheProjection` | server/jobs.py:1297-1326 | in every reachable state the disk is exactly the projection of memory if and only if no run between the two halves of a local cancel has a cancel on disk that memory no longer has |
| `QueueTheorems.TerminalIsForever` | server/jobs.py:1365-1376 | a finished run stays as it is through every later step, report and restart, or is forgotten for good |
| `QueueTheorems.ArchivedOnce` | server/jobs.py:1107-1108 | on_complete is called at most once for a run, and only for one that is filed away |
| `QueueTheorems.CancelIsSticky` | server/jobs.py:703-719 | once cancel is asked of a running run the queue had not paused itself, it is never queued or paused again through anything, crashes included, as long as no crash between the two halves of a local cancel finds state.json without the cancel |
| `QueueTheorems.StepQuitsIff` | server/jobs.py:639-642 | a step forgets a cancel if and only if the process dies in it and state.json does not say cancel of that run, which can only be between the two halves of a local cancel |
| `QueueTheorems.CrashOverIff` | server/jobs.py:629-660 | a restart brings a run back if and only if something state.json has on it is not a cancel |
| `QueueTheorems.QuittingNeverWaits` | server/jobs.py:639-642 | what CancelIsSticky keeps means never waiting |
| `QueueTheorems.CheckpointsOnlyGrow` | server/jobs.py:1043-1059 | through every step, torn append and restart the lines of an unfinished run's checkpoint stay if and only if it did not end in a row without its newline, or nothing was written after it; then a later claim is handed every row that was in it, and otherwise every row but that one |
| `QueueRows.RowsOnlyUnderOwnership` | server/jobs.py:1026-1065 | a step that changes a checkpoint without discarding it is a sync by the owner of that run or the lane running it, appending its rows, or the owner's append cut short by a crash |
| `QueueRows.WholeUnlessTorn` | server/jobs.py:335-357 | in every reachable state a checkpoint ends in a whole line unless the process died inside one of its lines or before a newline |
| `QueueRestart.RestartIsRelease` | server/jobs.py:599-660 | restoring the disk is releasing every running run: same order, same checkpoints, same settings, requests translated |
| `QueueRestart.CrashIsRelease` | server/jobs.py:599-660 | in every reachable state with no local lane between the two halves of a cancel, dying there, in the middle of an append too, comes to that release of what is then on disk |
| `QueueRestart.RestartTwice` | server/jobs.py:599-660 | restarting a queue just restarted changes nothing, for any disk |
| `QueueOrder.PlacesAreRanks` | server/jobs.py:1274-1295 | positions are ranks among the pending runs |
| `QueueOrder.PositionsAreRanks` | server/jobs.py:1274-1295 | in every reachable state the pending runs are numbered 1, 2, ... in dispatch order and running ones have no number |
| `QueueOrder.MoveTheorem` | server/jobs.py:721-740 | move is a permutation that puts the run at the clamped index among the waiting ones and keeps every other order |
| `QueueOrder.RunNextIsNext` | server/jobs.py:742-755 | after run_next on an unpaused queue that run is what the next worker is given |
| `QueueOrder.AheadStartedLater` | server/jobs.py:1212-1223 | in every reachable state, whatever stands ahead of a running run was itself started after it |
| `QueueLimits.TwoClaimsLoseARun` | server/jobs.py:990-1024 | from a run of the queue that leaves a claim waiting: a second claim of the same process is let wait too, both are served, and the first run is left running with no shard |
| `QueueLimits.ForgettingLosesARun` | server/jobs.py:899-910 | from a run of the queue that gives a shard a run: past its timeout and not reaped it can be forgotten, and nobody holds the run |
| `QueueLimits.ResumeAllKeepsCancelIff` | server/jobs.py:779-782 | resume_all keeps a cancel asked of a running run if and only if the queue had not paused that run |
| `QueueLimits.PausedThenCancelledIsResumed` | server/jobs.py:757-784 | pause_all, cancel, resume_all: the cancel is gone |
| `QueueLimits.RunningIsNotAPrefix` | server/jobs.py:1233-1244 | a run of the queue from the start: two starts and a hand-back leave a waiting run ahead of one that runs |
| `QueueLimits.ReleaseKeepsLeadIff` | server/jobs.py:1212-1244 | where running runs lead the order, giving one back keeps that if and only if it leaves the order or nothing running stands behind it |
| `QueueLimits.CancelledKeepsItsPosition` | server/jobs.py:1283-1291 | a run cancelled while waiting keeps its old position |
| `QueueLimits.PauseAllBumpsNobody` | server/jobs.py:757-784 | pause_all and resume_all bump no revision; a run is changed by the first if and only if it runs with nothing asked, by the second if and only if the queue had paused it or asked it to |
| `QueueLimits.LocalCancelCanBeLost` | server/jobs.py:1247-1266 | from a run of the queue in which a lane's run is cancelled: after the first half of the lane's cancel anything that writes state.json, and then a crash, brings the run back queued |
| `Link.LeadingRowsLead` | server/shard_client.py:421-429 | a batch is the longest stretch of rows of one run at the head of the outbox, up to 200 |
| `Link.WorkIsNext` | server/shard_client.py:368-380 | a finish goes out only when it is first, an empty batch only when nothing is owed, and any other is of the run at the head, as long as it can be up to 200 rows |
| `Link.OnlySentLeaves` | server/shard_client.py:431-451 | whatever was appended while a sync was in flight, the entries its answer removes are the ones sent |
| `Link.WithoutRunKeeps` | server/shard_client.py:449-450 | after a refusal exactly the other runs' entries stay |
| `Link.Link.NextBatch` | server/shard_client.py:421-429 | the loop builds that batch |
| `Link.Link.ChooseWork` | server/shard_client.py:358-380 | what the sender sends next |
| `Link.Link.HearSync` | server/shard_client.py:440-451 | the locked section after a sync: entries popped, pause, stop, loss, the rest of a refused run dropped |
| `HandBack.StepHeld` | server/jobs.py:990-1024 | only a claim by a process itself makes the server hold a run for it: no other step of anyone gives it ownership |
| `HandBack.TurnSound` | server/shard_client.py:671-771 | every turn of the client, the sender, the network and everybody else keeps the account of rows: each is on a whole line of the checkpoint, still owed, or known to be dropped |
| `HandBack.SenderSafety` | server/shard_client.py:358-462 | in every history: what an answer removes is what was sent, a finish leaves after all rows, nothing is owed at the next claim |
| `HandBack.OwnedAccounted` | server/shard_client.py:438-451 | the answer to an accepted batch takes off the outbox only rows that are on whole lines of the checkpoint, or that a torn line spoilt |
| `HandBack.HandBackWholeIff` | server/shard_client.py:719-771 | in every history, whenever the server accepts a hand-back, in time or late: every row recorded since the claim is in the checkpoint if and only if each row still owed or dropped is; one served in time owes only what was dropped; the rows stay as long as the run is unfinished, unless one without its newline is written onto |
| `HandBack.HandBackLosesNothing` | server/shard_client.py:719-771 | a finish appended under ownership, of a checkpoint that was whole at the claim and with no batch called malformed, drops nothing, and every row recorded stays in the checkpoint until the run is finished |
| `HandBack.LateFinishHarmlessIff` | server/jobs.py:1067-1108 | a finish handled late changes nobody's run, place or checkpoint if and only if the process does not own that very run again |
| `HandBack.LateClaimHarmlessIff` | server/jobs.py:990-1000 | the first half of a claim handled late changes nothing if and only if the process holds no run by then |
| `HandBackLimits.OneProcessCanLoseARow` | server/shard_client.py:755-759 | a history from the start, with one process and nothing lost or repeated, in which a finish appended after a refusal hands a run back without a row recorded for it |
| `HandBackLimits.LateFinishCanLoseARow` | server/jobs.py:1067-1108 | a history from the start in which a second copy of a hand-back is handled after the run was claimed again, and gives it away without a row recorded for it |
| `Bisect.CombosCounts` | server/backtest.py:769-773 | _combos is the size of the product, without building it |
| `Bisect.SplitAxisIsWidest` | server/backtest.py:776-778 | an axis is chosen to split if and only if some axis has more than one value, and it is then the first of the widest |
| `Bisect.HalvesPartition` | server/backtest.py:787-797 | halving an axis deals the product out to the two halves |
| `Bisect.ChunksPartition` | server/backtest.py:781-797 | the chunks together hold every combination exactly as often as the space did |
| `Bisect.ChunksFit` | server/backtest.py:781-797 | no chunk holds more combinations than the cap |
| `Bisect.FirstChunkKeepsFirst` | server/backtest.py:781-797 | the first chunk starts with the first combination |
| `Bisect.BisectingKeepsTheSweep` | server/backtest.py:800-821 | the requests together sweep exactly the configurations of the original, none larger than max(cap, grid axes), the first one first |
| `Bisect.OnlyWhatMustBeSplit` | server/backtest.py:800-821 | a request is returned unchanged if and only if it is within the cap or has one combination; every part of any other has more than a third of the cap |
| `Sweep.RequestIsUniform` | server/backtest.py:1206-1212 | every configuration of a request has a value for the same parameters, which row keys rely on |
| `Sweep.KeepOnceFacts` | server/backtest.py:1217-1227 | of a checkpoint with duplicates and foreign rows exactly the configurations of this grid are kept, once each, the first row of each |
| `Sweep.KeepPrior` | server/backtest.py:1217-1227 | the loop that keeps them |
| `Sweep.ResumableSearch.Suggest` | server/backtest.py:914-929 | the unfinished configurations in grid order, each once; a stop takes none |
| `Sweep.KeptAndAheadIff` | server/backtest.py:1206-1227 | what is kept and what is suggested again make up the grid if and only if no finished configuration stands in it twice |
| `Sweep.ResumedSweepIsWhole` | server/backtest.py:1206-1291 | a sweep that ends has the rows of an uninterrupted one as a multiset, every configuration exactly once |
| `SweepFiles.AttemptFalls` | server/backtest.py:1170-1287 | an attempt takes exactly the rows that last off what is left to do, less one if it is written onto the only row of a configuration; one that is not torn takes off what it finished if and only if the file ended in a whole line or it finished nothing |
| `SweepFiles.AttemptAdvancesIff` | server/backtest.py:1170-1287 | less is left after an attempt if and only if more of its rows last than it spoils |
| `SweepFiles.SweepAccount` | server/backtest.py:1170-1291 | after any attempts, whole and torn, what is left to do is the grid less everything that lasted |
| `SweepRuns.StoppingChangesNothing` | server/backtest.py:1170-1291 | at any moment of any run of the queue, with rows lost, torn, repeated and foreign: the attempt that ends a sweep from the run's checkpoint has the rows of an uninterrupted one, every configuration once |
| `SweepFiles.SweepEnds` | server/backtest.py:1229-1287 | if in every attempt more rows last than it spoils, there are at most as many as configurations |
| `SweepFiles.UntornFalls` | server/jobs.py:335-345 | as long as no attempt dies inside a line or before a newline, every configuration an attempt finishes is one less to do |
| `SweepFiles.FinishingCanSetBack` | server/jobs.py:351-357 | a row saved without its newline, then an attempt that finishes another configuration: there is one more to do than before it |
| `SweepFiles.SweepNeedNotEnd` | server/jobs.py:351-357 | for any number of attempts, each but the first finishing a configuration and dying inside the next line, nothing is ever done |
| `Ranking.StableSortSorts` | server/backtest.py:1303 | the stable order by rank key |
| `Ranking.RankKeyOrders` | server/backtest.py:872-891 | missing metrics rank last, present ones the higher first; only rows alike in the first metric are left to the tie-break |
| `Ranking.BestOnlySink.Record` | server/backtest.py:976-991 | after any number of rows the sink holds the first of the best with a result, and that result |
| `Ranking.StreamingBestIsBatchBest` | server/backtest.py:1303-1321 | the row the sink kept is the head of the stable sort if and only if that head was finished in this attempt and has a result |
| `Ranking.HeadFailedIff` | server/backtest.py:872-891 | a configuration that could not be run is ranked first if and only if it is the first row and nothing that was run has a value in either column |
| `Ranking.ReportedLogIsCellsFirst` | server/backtest.py:1311-1373 | the cells reported are exactly the configurations that were run, each once, the better first; the trade log is that of cells[0], and cells[0] the best of what was run, if and only if the row ranked first did not fail; otherwise there is no result to report, and exactly then |
| `Ranking.CellsAreWhatRan` | server/backtest.py:1337-1366 | every configuration that was run and no other, each once, in rank order |
| `Ranking.NoColumnIff` | server/backtest.py:1295-1302 | a report is refused for its columns if and only if no row has the one it is to be ranked by, or the one for ties |
| `Ranking.FailedRowCanLead` | server/backtest.py:1295-1321 | rows the column checks let through, one failed and one that ran with its metric missing: the failed one is first, and the one cell there is has no report |
| `Orders.LimitIsWithinACent` | fidelity_gateway/broker.py:233-245 | a buy limit is at or below its price and less than a cent below, a sell the same above, both in whole cents |
| `Orders.TicketHasAPriceIff` | fidelity_gateway/broker.py:233-245 | a ticket has a positive price if and only if it is a sell or the price is a cent or more |
| `Orders.BuyIsAffordable` | fidelity_gateway/placing_broker.py:447-474 | quantity times ticket limit is at most quantity times price, at most the trade value and the ceiling; one more share would not fit |
| `Orders.BuyIsSizedIff` | fidelity_gateway/placing_broker.py:447-474 | a buy is sized if and only if the money buys one whole share at its price |
| `Orders.SellIsNeverBelowTarget` | fidelity_gateway/placing_broker.py:476-491 | a sell goes out at its target or less than a cent above, for no more than asked; no ceiling stops it |
| `Placing.WriteReadsIff` | fidelity_gateway/placing_broker.py:507-546 | a journal can be read after a write if and only if it could be before and the write left nothing, or whole lines only |
| `Placing.WriteReads` | fidelity_gateway/placing_broker.py:507-546 | a journal that can be read after a write holds what it held before and either exactly the new entry or nothing more |
| `Placing.RehydrateIsLast` | fidelity_gateway/placing_broker.py:172-198 | the map read back gives each decision the confNum of its last entry for this account |
| `Placing.StepSafe` | fidelity_gateway/placing_broker.py:243-361 | placing, failing, dying, restarting and other accounts' entries all keep what is committed known and unique |
| `Placing.PlacedAtMostOnce` | fidelity_gateway/placing_broker.py:243-361 | in every run no decision is committed twice, no two under one confNum, nothing the gates refuse |
| `Placing.JournalledIff` | fidelity_gateway/placing_broker.py:289-331 | in every run, a committed confNum is in the journal whole under its decision, from its commit on, if and only if the file ended in a whole line when it was written; otherwise it never is, and no process starts on that file again |
| `Placing.PlacedAndNotJournalled` | fidelity_gateway/placing_broker.py:507-518 | a write that tore in a process that lived on: the next order is reported placed, and no line of the journal can be read |
| `Placing.RestartKnowsEveryOrder` | fidelity_gateway/placing_broker.py:172-198 | a process starts if and only if the journal can be read, and then knows every committed order by its decision |
| `Placing.NeverPlacedAgain` | fidelity_gateway/placing_broker.py:284-299 | placing a committed decision again changes nothing |
| `Placing.KnownByItsDecision` | fidelity_gateway/broker.py:663-678 | the inverse map names a confNum by its decision if and only if the map does |
| `Placing.SnapshotKeysOurOrders` | fidelity_gateway/broker.py:663-687 | every listed order this adapter placed has its decision for a key, and is what stands there if and only if no later order in scope, not one of its own, has that decision for its confNum |
| `Placing.SnapshotCanHideAnOrder` | fidelity_gateway/broker.py:663-687 | such an order listed later: ours is nowhere in the snapshot |
| `Placing.ReadSnapshot` | fidelity_gateway/broker.py:663-687 | the loop builds that dictionary |
| `Placing.FindOrder` | fidelity_gateway/broker.py:596-613 | found if and only if the decision is known and the venue lists its confNum |
| `Placing.CommittedUnderCeiling` | fidelity_gateway/placing_broker.py:218-239 | whatever was committed as a buy costs no more than the ceiling at its ticket |
| `PlacingBroker.FileConfNumJournal.Record` | fidelity_gateway/placing_broker.py:507-518 | what can be read afterwards, whatever became of the write: all entries before and this one, or none more, if nothing or whole lines only were left; else the file is refused |
| `PlacingBroker.FileConfNumJournal.ReadAll` | fidelity_gateway/placing_broker.py:520-547 | the loop: all entries, or refused at the first unreadable line |
| `PlacingBroker.FidelityPlacingBroker.RehydrateBook` | fidelity_gateway/placing_broker.py:172-198 | the loop over this account's entries |
| `PlacingBroker.FidelityPlacingBroker.PlaceOrder` | fidelity_gateway/placing_broker.py:243-361 | gates, preview, journal, commit in that order over three objects; the outcome is true of what became of it: placed or ambiguous exactly when the request was sent, and with a clean answer or without, under the confNum the order is live under if it is; refused, not previewed, not journalled and never sent leave nothing at the venue; and what is committed stays known and unique |
| `PlacingOutcomes.OutcomeIsTruthful` | fidelity_gateway/placing_broker.py:318-361 | for every world and call: placed if and only if a request that was sent came back clean, ambiguous if and only if one that was sent did not, never sent if and only if it was made out and not sent; only the first two let anything be committed, and that under the very confNum they name, which the book then has |
| `PlacingOutcomes.RefusalIsTheFirst` | fidelity_gateway/placing_broker.py:243-299 | a refusal names the first gate that is shut |
| `PlacingOutcomes.EveryCommitWasTold` | fidelity_gateway/placing_broker.py:318-361 | in every run, every order at the venue is one whose caller was told placed or ambiguous, with its confNum |
| `PlacingOutcomes.NotToldIsNeverLive` | fidelity_gateway/placing_broker.py:318-361 | in every run, a call told anything else put nothing at the venue, and nothing ever turns up under the confNum it previewed |
| `PlacingOutcomes.NeverSentIsFinal` | fidelity_gateway/placing_broker.py:318-332 | in every run, once a decision was told never sent no order under it ever reaches the venue |
| `PlacingBroker.FidelityPlacingBroker.SubmitBuy` | fidelity_gateway/placing_broker.py:447-474 | sizing, its refusals, then place |
| `PlacingBroker.FidelityPlacingBroker.SubmitSell` | fidelity_gateway/placing_broker.py:476-491 | its refusals, then place |
| `Fills.NormalTwice` | server/fills.py:59-67 | a fill that has been stored once comes back as it is |
| `Fills.NormalKeeps` | server/fills.py:59-67 | what a fill keeps of itself when it is stored: everything but the parts of a second, a missing bar and an empty reason |
| `Fills.EpochTruncates` | server/fills.py:59-63 | a stored second is the instant's second towards zero, on both sides of the epoch |
| `Fills.FromFills` | server/fills.py:116-157 | position k decodes to fill k up to normalisation; dictionaries hold each lot and reason once; refused exactly when a code does not fit its column |
| `Fills.OpenLotRule` | server/fills.py:102-109 | bincounts over the columns decide a lot open exactly when the fund's fills do |
| `Fills.OpenAsDescribedIff` | server/fills.py:15-18 | open means bought and never sold if and only if what was bought of a lot never sold is over the tolerance and what was sold of any other is within it |
| `Fills.PartlySoldIsOpen` | server/fills.py:105-109 | ten bought and four sold: open, with a sell |
| `Fills.NextToNothingIsClosed` | server/fills.py:105-109 | a billionth bought: closed, with no sell |
| `Fills.EndDayIsWhole` | server/fills.py:79-83 | the whole of the day a range ends on is in it |
| `Fills.Select` | server/fills.py:204-229 | the mask narrowed in place selects exactly the passing positions, and so, of the fills the columns stand for, exactly the wanted ones: second, day, open or closed lot, and rsi between its bounds |
| `Fills.SelectedExactly` | server/fills.py:204-229 | in recorded order, and exactly those that pass |
| `Fills.SelectedIsWanted` | server/fills.py:204-229 | a position is selected if and only if its fill is at or after the start, on a day no later than the end, of a lot open or not as asked, and, if either bound is set, has an rsi, from the lower bound to the upper, ends included |
| `Fills.StuckAndClosedPartition` | server/fills.py:102-109 | stuck and closed split any selection by a rule over all fills, whatever else is filtered |
| `Cycles.OpeningBuysAreOpening` | server/fills.py:231-241 | unique-first and sort give one cycle per lot with a selected buy, in the order of its first selected buy |
| `Cycles.CyclesAreCycles` | server/fills.py:231-261 | each cycle is closed when a sell of it is selected, and its realized is the sum over those with a pnl |
| `Cycles.ByLotFacts` | server/fills.py:252-253 | the stable argsort groups sells by lot and keeps recorded order within one |
| `Cycles.SearchSorted` | server/fills.py:310-311 | the binary search finds the boundary |
| `Cycles.CycleRow` | server/fills.py:308-319 | the row found by binary search is the one of the definition |
| `Cycles.PagesAreTheView` | server/fills.py:291-306 | pages asked for one after another are the whole view |
| `Cycles.QueryCycles` | server/fills.py:290-306 | a page of the chosen cycles, as the page of their rows by definition |
| `CyclePages.CyclePageTells` | server/fills.py:290-319 | over the fills themselves: one row for each lot with a selected buy that is in the view, by its first selected buy; in it that buy, the lot's selected sells as recorded, open if there are none, and what they realized if any did; the page is at most 5000 of them from the offset on |
| `Cycles.QueryFills` | server/fills.py:301-306 | a page of the selected fills |
| `CyclePages.FillPageTells` | server/fills.py:301-306 | the selected fills as recorded, and of those the stretch asked for |
| `Cycles.Summarise` | server/fills.py:282-289 | closed and open add up to the cycles, and realized is the sum over the closed ones |
| `CyclePages.SummaryIsOfTheViews` | server/fills.py:282-289 | the counts are those of the closed and the open view, and realized is what the rows of the closed one realized |
| `Memo.RunAlone` | research/run_hf_sweep.py:371-391 | one worker: every suggestion recorded in order with its own answer, each combination simulated once |
| `Memo.FillBatch` | research/run_hf_sweep.py:401-423 | a batch holds distinct combinations not yet known; repeats are answered or held back |
| `Memo.Land` | research/run_hf_sweep.py:434-440 | answers recorded in whatever order they land |
| `Memo.ServeDeferred` | research/run_hf_sweep.py:441-443 | what was held back is answered from the memo |
| `Memo.RunPool` | research/run_hf_sweep.py:392-443 | every suggestion recorded exactly once with its own answer, every distinct combination simulated exactly once, nothing held back at the end, and it ends |
| `Memo.SameLines` | research/run_hf_sweep.py:371-443 | one worker and many record the same lines |
| `History.EnsureHonest` | server/history.py:246-269 | after ensure_derived the derived entry is that of the archive as it is, and it succeeds for any readable one |
| `History.ReportRowsExactly` | server/history.py:197-214 | the rows made of a report are every cell of every fund with its rank, and no other |
| `History.IndexIsRederived` | server/history.py:323-361 | index_entries is every readable archive derived anew, newest first |
| `History.NewestFirstSorts` | server/history.py:360-361 | the listing order is newest first, and entries of the same time keep the order they were found in |
| `HistoryRows.IndexSays` | server/history.py:197-214 | against the archives: as many entries as readable archives with a report are listed, each with its archive's own fields and every cell of every fund at its rank, fund by fund; newest first, and those of one time as listed |
| `History.JoinExactly` | server/history_query.py:216-235 | a joined row is exactly a row of that fund together with its own run's fields |
| `History.FundRowsAreTheJoin` | server/history_query.py:216-235 | fund_rows, cached or not, is the join over those entries |
| `HistoryRows.FundRowsSay` | server/history_query.py:216-235 | position by position against the archives: run by run as indexed, fund by fund, cell by cell |
| `HistoryRows.FundRowsExactly` | server/history_query.py:216-235 | a row is served for a fund if and only if a listed archive with a report has a fund of that ticker with that cell at that rank, and its own meta and saved_at, or its time if it has none |
| `History.StepCoherent` | server/history.py:109-361 | every save, rewrite, deletion, query and restart keeps the caches coherent |
| `History.CachesAreInvisible` | server/history_query.py:216-235 | at any moment of any life both answers are those of a program without caches |
| `HistoryRows.EveryLifeServesItsArchives` | server/history_query.py:216-235 | at any moment of any life both answers are what is in the archives |
| `History.SameGenerationSameEntries` | server/history.py:314-361 | a generation seen again means the same entries |
| `HistoryLimits.UnreadableArchiveLingers` | server/history.py:349-351 | an archive overwritten with something unreadable leaves the index but not the cached rows of its fund |
| `HistoryLimits.LingersIff` | server/history_query.py:216-235 | after any archive is so overwritten, a fund's rows are still the join of the index if and only if they are not cached under the present generation or the entry left over has no row of that fund |
| `HistoryLimits.RewriteSeenIff` | server/history.py:232-361 | after an archive is rewritten under any clock, the index is that of every archive derived anew if and only if the entry already there for that time, cached or in files that pass for fresh, says the same, or neither has a report |
| `HistoryStore.HistoryStore.EnsureDerived` | server/history.py:246-269 | succeeds exactly for an archive that can be read or whose files still pass for fresh; the derived entry is then that of the archive, and nothing but the derived files changes |
| `HistoryRows.EnsureRenewsIff` | server/history.py:232-269 | the derived files are written anew if and only if one is missing, older than the archive or of another layout; otherwise nothing is touched |
| `HistoryStore.HistoryStore.IndexEntries` | server/history.py:323-361 | the caches are updated in place and kept coherent; the entries are those derived anew, one for each listed readable archive with a report, every fund and cell of it in order |
| `HistoryStore.HistoryStore.FundRows` | server/history_query.py:216-235 | the cache is updated in place; the rows are the join of the entries derived anew, which are the archives' own cells of that fund, in order |
| `HistoryStore.HistoryStore.Save` | server/history.py:109-138 | the archive is written first, its derived files after it and perhaps only in part, and the caches stay coherent |
| `HistoryRows.SaveLeaves` | server/history.py:109-138 | a save that gets all the way leaves the index of the new archive; one that does not leaves the old index, and exactly when its files then pass for fresh |

## Left out

- JobQueue.JobQueue.Submit: does not model the display fields of a run (name, message, progress, error), whose updates beside a locked section's own state nothing else reads.
- JobQueue.JobQueue.Restore: does not model the re-sorting of `_jobs` by submission time, which only `all()` shows.
- JobQueue.JobQueue.SetShardSchedule: does not model the HH:MM parsing of the two times; a window is given in minutes.
- JobQueue.JobQueue.Reap: takes the order the dictionary of shards is walked in as a parameter.
- JobQueue.JobQueue.Start: runs and shards are values in maps of the queue, so a `Job` or `Shard` object held by somebody else while it changes is not modelled.
- QueueTheorems.CancelIsSticky: excludes a crash between the two halves of a local lane's cancel that finds state.json without the cancel, where it is false (QueueTheorems.StepQuitsIff, QueueLimits.LocalCancelCanBeLost).
- QueueTheorems.OwnershipIsABijection: excludes runs between those two halves, which are running and held by nobody.
- HandBack.HandBackWholeIff: a claim of this process that is processed after it gave up on it is excluded.
- Link.LinkState: entries of the outbox are compared by value, where the source compares identity; HandBack.SenderSafety says the entry at the head is the one that was sent.
- SweepRuns.StoppingChangesNothing: is about the grid search; replaying a Bayesian search depends on `BayesianSearch.seed_completed`, which is not part of this model.
- SweepFiles.SweepAccount: rows of a run's other funds written between two attempts at this one are not in its account.
- Sweep.ResumableSearch.Suggest: takes what should_stop answers as a parameter.
- Ranking.BestOnlySink.Record: missing and NaN metrics are both a missing value, and metrics are exact numbers.
- Ranking.ReportedLogIsCellsFirst: an error text is a flag; what `run_sweep` returns when a configuration that could not be run is run once more is not part of this model, beyond there being no result; columns other than metrics are not ranked by.
- Bisect.BisectingKeepsTheSweep: does not model component-valued parameters (`{id, params}`), which expand to one axis before anything here.
- Orders.BuyIsAffordable: is over exact numbers, not binary floating point; the tickets of extended sessions are not modelled.
- Placing.PlacedAtMostOnce: does not model an operator repairing a torn journal by hand.
- Fills.FromFills: does not model reading a timestamp from text; an instant is a count of microseconds.
- Fills.Select: does not model reading a range's bounds from text.
- Cycles.Summarise: sums are exact.
- Memo.RunPool: the search is what it answers, a sequence, which covers whatever a search that learns answered in one run; Memo.SameLines is about searches that do not learn. Penalised objectives, progress lines and the CSV are not modelled.
- History.StepCoherent: one directory, one thread; the cache of loaded fills and the translation of old archives are not modelled.
- HTTP routes, websockets, authentication and proxies: plumbing around the calls modelled here.
- The simulation engine, Optuna and pandas: evaluation is a parameter.
- Threads waiting on a condition: no claim is made that anything is ever woken. In particular a finish appended after the main server forgot the shard is never sent, so a client can wait on its outbox for good.
- Storage faults that QueueStore swallows.
- CSV export, page filters other than those above, the live trading loop, the ML tools and the status pages.
