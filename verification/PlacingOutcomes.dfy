/**
 What the caller of place is told (fidelity_gateway/placing_broker.py), against
 what happened: whether the order was refused, never sent, sent and confirmed, or
 may be live.
 */
module PlacingOutcomes {
  import opened Seqs
  import opened Orders
  import opened Placing

  // Nothing speaks against sending the order.
  ghost predicate Acceptable(w: World, limits: Limits, o: Order)
    requires w.book.Some?
  {
    && o.qty > 0.0 && o.limit > 0.0 && o.symbol in limits.allowed
    && (o.side.Buy? ==> o.qty * o.limit <= limits.maxOrderValue)
    && Get(w.book.value, o.decision) == None
  }

  // Previewed, and the id safely in the journal: the commit request is made out.
  ghost predicate MadeOut(w: World, limits: Limits, o: Order, preview: Option<Id>, write: Write)
    requires w.book.Some?
  {
    Acceptable(w, limits, o) && preview.Some? && write.Written?
  }

  // What a call that ends in `next` and `outcome` tells its caller is so.
  ghost predicate Truthful(w: World, limits: Limits, o: Order, preview: Option<Id>, write: Write, fate: Fate, next: World, outcome: Outcome)
    requires w.book.Some?
  {
    && (outcome.Refused? <==> !Acceptable(w, limits, o))
    && (outcome.PreviewFailed? <==> Acceptable(w, limits, o) && preview == None)
    && (outcome.JournalFailed? <==> Acceptable(w, limits, o) && preview.Some? && !write.Written?)
    && (outcome.NeverSent? <==> MadeOut(w, limits, o, preview, write) && fate.NotSent?)
    && (outcome.Placed? <==> MadeOut(w, limits, o, preview, write) && fate.Sent? && fate.clean)
    && (outcome.Ambiguous? <==> MadeOut(w, limits, o, preview, write) && fate.Sent? && !fate.clean)
    && (outcome.Refused? || outcome.PreviewFailed? ==> next == w)
    && (outcome.JournalFailed? ==> next.book == w.book && next.committed == w.committed)
    && (outcome.NeverSent? ==> next.committed == w.committed)
    && (outcome.Placed? || outcome.Ambiguous? ==>
          preview == Some(outcome.conf)
          && next.committed == if fate.carriedOut then w.committed + [Committed(o, outcome.conf)] else w.committed)
    && (next.book.Some? && (MadeOut(w, limits, o, preview, write) ==> Get(next.book.value, o.decision) == preview))
    && (forall d | d != o.decision :: Get(next.book.value, d) == Get(w.book.value, d))
    && next.minted == w.minted + if Acceptable(w, limits, o) && preview.Some? then {preview.value} else {}
  }

  // Every call tells the truth: refused, not previewed, not journalled and never
  // sent leave nothing at the venue; it is called placed if and only if a request
  // that was sent came back clean, and ambiguous if and only if one that was sent
  // did not, under the very confNum the order is live under if it is.
  lemma OutcomeIsTruthful(w: World, account: Id, limits: Limits, o: Order, preview: Option<Id>, write: Write, fate: Fate)
    requires w.book.Some?
    ensures var (next, outcome) := Place(w, account, limits, o, preview, write, fate);
            Truthful(w, limits, o, preview, write, fate, next, outcome)
  {
    if preview.Some? {
      PutGet(w.book.value, o.decision, preview.value);
    }
  }

  // Which refusal: the first of the gates that is shut.
  lemma RefusalIsTheFirst(w: World, account: Id, limits: Limits, o: Order, preview: Option<Id>, write: Write, fate: Fate)
    requires w.book.Some?
    ensures var outcome := Place(w, account, limits, o, preview, write, fate).1;
            && (outcome == Refused(BadQuantity) <==> o.qty <= 0.0)
            && (outcome == Refused(BadPrice) <==> o.qty > 0.0 && o.limit <= 0.0)
            && (outcome == Refused(BadSymbol) <==> o.qty > 0.0 && o.limit > 0.0 && o.symbol !in limits.allowed)
            && (outcome == Refused(OverCeiling) <==>
                  o.qty > 0.0 && o.limit > 0.0 && o.symbol in limits.allowed && o.side.Buy? && o.qty * o.limit > limits.maxOrderValue)
            && (outcome == Refused(AlreadyPlaced) <==>
                  !Acceptable(w, limits, o) && Acceptable(w.(book := Some([])), limits, o))
  {
  }

  // What the caller of a step of a run is told; None when nobody called.
  function Told(w: World, account: Id, limits: Limits, step: Step): Option<Outcome> {
    if step.PlaceStep? && w.book.Some?
    then Some(Place(w, account, limits, step.order, step.preview, step.write, step.fate).1)
    else None
  }

  predicate MayBeLive(told: Option<Outcome>) {
    told.Some? && (told.value.Placed? || told.value.Ambiguous?)
  }

  // ---- over every run -----------------------------------------------------

  lemma StepCommits(w: World, account: Id, limits: Limits, step: Step)
    ensures var next, told := Next(w, account, limits, step), Told(w, account, limits, step);
            next.committed == w.committed
            || (MayBeLive(told) && step.PlaceStep? && next.committed == w.committed + [Committed(step.order, told.value.conf)])
    ensures !step.PlaceStep? ==> Next(w, account, limits, step).minted == w.minted
  {
    if step.PlaceStep? && w.book.Some? {
      OutcomeIsTruthful(w, account, limits, step.order, step.preview, step.write, step.fate);
    }
  }

  lemma RunStep(trace: seq<World>, steps: seq<Step>, account: Id, limits: Limits, k: nat)
    requires IsRun(trace, steps, account, limits) && k < |steps|
    ensures |trace| == |steps| + 1 && Fair(trace[k], account, steps[k]) && trace[k + 1] == Next(trace[k], account, limits, steps[k])
  {
  }

  // In every run, every order at the venue is one whose caller was told so: in
  // one step of its own it was placed, or called ambiguous, under its confNum.
  lemma {:induction false} EveryCommitWasTold(trace: seq<World>, steps: seq<Step>, account: Id, limits: Limits, j: nat, i: nat)
    returns (m: nat)
    requires IsRun(trace, steps, account, limits) && j < |trace| && i < |trace[j].committed|
    ensures m < j && steps[m].PlaceStep? && |trace[m].committed| == i && trace[j].committed[i].order == steps[m].order
    ensures Told(trace[m], account, limits, steps[m])
            in {Some(Placed(trace[j].committed[i].conf)), Some(Ambiguous(trace[j].committed[i].conf))}
    decreases j
  {
    assert trace[0].committed == [];
    RunStep(trace, steps, account, limits, j - 1);
    StepCommits(trace[j - 1], account, limits, steps[j - 1]);
    m := j - 1;
    if i < |trace[j - 1].committed| {
      m := EveryCommitWasTold(trace, steps, account, limits, j - 1, i);
    }
  }

  ghost predicate NothingUnder(w: World, conf: Id) {
    conf in w.minted && forall c | c in w.committed :: c.conf != conf
  }

  lemma NothingUnderStays(w: World, account: Id, limits: Limits, step: Step, conf: Id)
    requires Fair(w, account, step) && NothingUnder(w, conf)
    ensures NothingUnder(Next(w, account, limits, step), conf)
  {
    StepCommits(w, account, limits, step);
    if step.PlaceStep? && w.book.Some? {
      OutcomeIsTruthful(w, account, limits, step.order, step.preview, step.write, step.fate);
    }
  }

  lemma {:induction false} NothingUnderForGood(trace: seq<World>, steps: seq<Step>, account: Id, limits: Limits, k: nat, j: nat, conf: Id)
    requires IsRun(trace, steps, account, limits) && k <= j < |trace| && NothingUnder(trace[k], conf)
    ensures NothingUnder(trace[j], conf)
    decreases j
  {
    if k < j {
      NothingUnderForGood(trace, steps, account, limits, k, j - 1, conf);
      RunStep(trace, steps, account, limits, j - 1);
      NothingUnderStays(trace[j - 1], account, limits, steps[j - 1], conf);
    }
  }

  // Whoever is told anything but placed or ambiguous never finds that call's order
  // at the venue: the call put nothing there, and nothing ever turns up under the
  // confNum it previewed.
  lemma NotToldIsNeverLive(trace: seq<World>, steps: seq<Step>, account: Id, limits: Limits, k: nat, j: nat)
    requires IsRun(trace, steps, account, limits) && k < |steps| && k < j < |trace|
    requires Told(trace[k], account, limits, steps[k]).Some? && !MayBeLive(Told(trace[k], account, limits, steps[k]))
    ensures trace[k + 1].committed == trace[k].committed
    ensures var told := Told(trace[k], account, limits, steps[k]).value;
            told.JournalFailed? || told.NeverSent? ==>
              steps[k].preview.Some? && forall c | c in trace[j].committed :: c.conf != steps[k].preview.value
  {
    RunStep(trace, steps, account, limits, k);
    StepCommits(trace[k], account, limits, steps[k]);
    OutcomeIsTruthful(trace[k], account, limits, steps[k].order, steps[k].preview, steps[k].write, steps[k].fate);
    var told := Told(trace[k], account, limits, steps[k]).value;
    if told.JournalFailed? || told.NeverSent? {
      PreviewIsNew(trace, steps, account, limits, k);
      NothingUnderForGood(trace, steps, account, limits, k + 1, j, steps[k].preview.value);
    }
  }

  lemma PreviewIsNew(trace: seq<World>, steps: seq<Step>, account: Id, limits: Limits, k: nat)
    requires IsRun(trace, steps, account, limits) && k < |steps| && steps[k].PlaceStep? && steps[k].preview.Some?
    ensures forall c | c in trace[k].committed :: c.conf != steps[k].preview.value
  {
    RunStep(trace, steps, account, limits, k);
    RunSafe(trace, steps, account, limits, k);
    forall c | c in trace[k].committed ensures c.conf != steps[k].preview.value {
      var i :| 0 <= i < |trace[k].committed| && trace[k].committed[i] == c;
    }
  }

  // The process, and any that can read the journal, has the decision under the confNum.
  ghost predicate Settled(w: World, account: Id, decision: Id, conf: Id) {
    && (w.book.Some? ==> Get(w.book.value, decision) == Some(conf))
    && (ReadAll(w.journal).Some? ==> Get(Rehydrate(ReadAll(w.journal).value, account), decision) == Some(conf))
    && forall c | c in w.committed :: c.order.decision != decision
  }

  lemma SettledStays(w: World, account: Id, limits: Limits, step: Step, decision: Id, conf: Id)
    requires Fair(w, account, step) && Settled(w, account, decision, conf)
    ensures Settled(Next(w, account, limits, step), account, decision, conf)
  {
    StepCommits(w, account, limits, step);
    match step
    case PlaceStep(order, preview, write, fate) =>
      if w.book.Some? {
        OutcomeIsTruthful(w, account, limits, order, preview, write, fate);
        PlaceRehydrates(w, account, limits, order, preview, write, fate, decision);
      }
    case DieStep =>
    case StartStep =>
    case ForeignStep(entry, write) =>
      if ReadAll(WriteLine(w.journal, entry, write)).Some? {
        WriteRehydrates(w.journal, entry, write, account, decision);
      }
  }

  // A call for another decision, or a refused one, leaves what the journal says of this one.
  lemma PlaceRehydrates(w: World, account: Id, limits: Limits, o: Order, preview: Option<Id>, write: Write, fate: Fate, decision: Id)
    requires w.book.Some? && Get(w.book.value, decision).Some?
    ensures var next := Place(w, account, limits, o, preview, write, fate).0;
            ReadAll(next.journal).Some? ==>
              ReadAll(w.journal).Some?
              && Get(Rehydrate(ReadAll(next.journal).value, account), decision) == Get(Rehydrate(ReadAll(w.journal).value, account), decision)
  {
    var next := Place(w, account, limits, o, preview, write, fate).0;
    if next != w && ReadAll(next.journal).Some? {
      WriteRehydrates(w.journal, Entry(account, o.decision, preview.value), write, account, decision);
    }
  }

  lemma {:induction false} SettledForGood(trace: seq<World>, steps: seq<Step>, account: Id, limits: Limits, k: nat, j: nat, decision: Id, conf: Id)
    requires IsRun(trace, steps, account, limits) && k <= j < |trace| && Settled(trace[k], account, decision, conf)
    ensures Settled(trace[j], account, decision, conf)
    decreases j
  {
    if k < j {
      SettledForGood(trace, steps, account, limits, k, j - 1, decision, conf);
      RunStep(trace, steps, account, limits, j - 1);
      SettledStays(trace[j - 1], account, limits, steps[j - 1], decision, conf);
    }
  }

  // And never sent is final: no order under that decision ever reaches the venue,
  // through any retries, deaths and restarts.
  lemma NeverSentIsFinal(trace: seq<World>, steps: seq<Step>, account: Id, limits: Limits, k: nat, j: nat, c: Committed)
    requires IsRun(trace, steps, account, limits) && k < |steps| && k < j < |trace|
    requires Told(trace[k], account, limits, steps[k]) == Some(NeverSent) && c in trace[j].committed
    ensures c.order.decision != steps[k].order.decision
  {
    var w, o, preview := trace[k], steps[k].order, steps[k].preview;
    RunStep(trace, steps, account, limits, k);
    RunSafe(trace, steps, account, limits, k);
    OutcomeIsTruthful(w, account, limits, o, preview, steps[k].write, steps[k].fate);
    NeverSentSettles(w, account, limits, steps[k]);
    SettledForGood(trace, steps, account, limits, k + 1, j, o.decision, preview.value);
  }

  lemma NeverSentSettles(w: World, account: Id, limits: Limits, step: Step)
    requires Recoverable(w, account) && Told(w, account, limits, step) == Some(NeverSent)
    ensures step.preview.Some? && Settled(Next(w, account, limits, step), account, step.order.decision, step.preview.value)
  {
    var o, e := step.order, Entry(account, step.order.decision, step.preview.value);
    OutcomeIsTruthful(w, account, limits, o, step.preview, step.write, step.fate);
    if ReadAll(WriteLine(w.journal, e, Written)).Some? {
      WriteRehydrates(w.journal, e, Written, account, o.decision);
    }
    forall c | c in w.committed ensures c.order.decision != o.decision {
      var i :| 0 <= i < |w.committed| && w.committed[i] == c;
    }
  }
}
