/**
 Sweeps in the queue: whatever happens to a run -- hand-backs, restarts, torn
 appends, rows lost or sent twice -- the attempt that ends one of its funds' sweeps
 reports what one uninterrupted attempt would have.
 */
module SweepRuns {
  import opened QueueRuns
  import opened QueueTheorems
  import opened QueueRows
  import Queue
  import Seqs
  import Checkpoint
  import Bisect
  import Sweep
  import SweepFiles

  // The engine gives every configuration the row it gives it, whoever runs it: of
  // the rows anybody appends for the run in this step, those of this fund's grid.
  ghost predicate Computed(s: SweepFiles.Fund, sys: System, step: Step, id: Queue.RunId) {
    && (step.SyncStep? && step.run == Seqs.Some(id) ==> forall row | row in step.rows :: SweepFiles.Genuine(s, row))
    && (step.LaneRowStep? && LaneAt(sys, step.n, Busy(id)) ==> SweepFiles.Genuine(s, step.row))
    && (step.TornStep? && step.id == id ==> forall row | row in step.rows :: SweepFiles.Genuine(s, row))
  }

  lemma StepGenuine(s: SweepFiles.Fund, sys: System, step: Step, id: Queue.RunId)
    requires Queue.Known(CoreOf(sys)) && Computed(s, sys, step, id)
    requires SweepFiles.GenuineFile(s, Queue.FileOf(CoreOf(sys), id))
    ensures SweepFiles.GenuineFile(s, Queue.FileOf(CoreOf(Next(sys, step)), id))
  {
    var f, g := Queue.FileOf(CoreOf(sys), id), Queue.FileOf(CoreOf(Next(sys, step)), id);
    if g != Checkpoint.NoFile && g != f {
      RowsOnlyUnderOwnership(sys, step, id);
      WritesGenuine(s, sys, step, id, f, g);
    }
  }

  lemma WritesGenuine(s: SweepFiles.Fund, sys: System, step: Step, id: Queue.RunId, f: Checkpoint.File, g: Checkpoint.File)
    requires Writes(sys, step, id, f, g) && Computed(s, sys, step, id) && SweepFiles.GenuineFile(s, f)
    ensures SweepFiles.GenuineFile(s, g)
  {
    if step.SyncStep? {
      SweepFiles.AppendGenuine(s, f, step.rows);
    } else if step.LaneRowStep? {
      SweepFiles.AppendGenuine(s, f, [step.row]);
    } else {
      SweepFiles.CrashGenuine(s, f, step.rows, step.written, step.cut);
    }
  }

  lemma {:induction false} RunGenuine(s: SweepFiles.Fund, trace: seq<System>, steps: seq<Step>, lanes: seq<Queue.Name>, start: real,
                                      i: nat, id: Queue.RunId)
    requires IsRun(trace, steps, lanes, start) && i < |trace|
    requires forall k | 0 <= k < i :: Computed(s, trace[k], steps[k], id)
    ensures SweepFiles.GenuineFile(s, Queue.FileOf(CoreOf(trace[i]), id))
  {
    if i > 0 {
      RunGenuine(s, trace, steps, lanes, start, i - 1, id);
      RunLeads(trace, steps, lanes, start, i - 1);
      StepGenuine(s, trace[i - 1], steps[i - 1], id);
    }
  }

  // In every run of the queue: an attempt that starts from the run's checkpoint
  // as it is at any moment, and ends the sweep, is over the same rows as an
  // uninterrupted sweep, every configuration once.
  lemma StoppingChangesNothing(s: SweepFiles.Fund, trace: seq<System>, steps: seq<Step>, lanes: seq<Queue.Name>, start: real,
                               i: nat, id: Queue.RunId, done: seq<Bisect.Config>)
    requires IsRun(trace, steps, lanes, start) && i < |trace| && SweepFiles.Proper(s)
    requires forall k | 0 <= k < i :: Computed(s, trace[k], steps[k], id)
    requires var prior := SweepFiles.Prior(s, Queue.FileOf(CoreOf(trace[i]), id));
             Sweep.Attempt(prior, done, s.grid, s.keys) && Sweep.Complete(prior, done, s.grid, s.keys)
    ensures var all := Sweep.AllRows(SweepFiles.Prior(s, Queue.FileOf(CoreOf(trace[i]), id)), done, s.grid, s.keys, s.eval);
            && multiset(all) == multiset(Sweep.RowsFor(s.grid, s.eval))
            && forall c | c in s.grid :: multiset(Sweep.KeysOf(all, s.keys))[c] == 1
  {
    RunGenuine(s, trace, steps, lanes, start, i, id);
    SweepFiles.EndIsWhole(s, Queue.FileOf(CoreOf(trace[i]), id), done);
  }
}
