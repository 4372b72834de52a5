/**
 The objects of fidelity_gateway/placing_broker.py, updated in place: the journal
 file, the venue and the adapter between them. Placing.dfy says what each call
 comes to; this proves the calls come to that.
 */
module PlacingBroker {
  import opened Seqs
  import opened Orders
  import opened Placing
  import opened PlacingOutcomes

  class FileConfNumJournal {
    var lines: seq<Line>
    var tail: Option<Line>

    function View(): Journal
      reads this
    {
      Journal(lines, tail)
    }

    constructor ()
      ensures View() == Journal([], None)
    {
      lines, tail := [], None;
    }

    // Opened, written, flushed and closed for one record; `fate` is what the
    // file system makes of that.
    method Record(entry: Entry, fate: Write) returns (ok: bool)
      modifies this
      ensures View() == WriteLine(old(View()), entry, fate) && ok == fate.Written?
      ensures Placing.ReadAll(View()).Some?
              <==> old(Placing.ReadAll(View())).Some? && (fate.NothingWritten? || (old(tail) == None && !fate.Torn?))
      ensures Placing.ReadAll(View()).Some? ==>
                Placing.ReadAll(View()).value
                == old(Placing.ReadAll(View())).value + if fate.NothingWritten? then [] else [entry]
    {
      WriteReadsIff(View(), entry, fate);
      ghost var before := View();
      var line := if tail == None then Whole(entry) else Junk;
      match fate {
        case NothingWritten =>
        case Torn => tail := Some(Junk);
        case Unended => tail := Some(line);
        case Written => lines, tail := lines + [line], None;
        case WrittenButFailed => lines, tail := lines + [line], None;
      }
      ok := fate.Written?;
      if Placing.ReadAll(View()).Some? {
        WriteReads(before, entry, fate);
      }
    }

    method ReadAll() returns (entries: Option<seq<Entry>>)
      ensures entries == Placing.ReadAll(View())
    {
      entries := ReadLines(AllLines(View()));
    }

    static method ReadLines(lines: seq<Line>) returns (entries: Option<seq<Entry>>)
      ensures entries == Entries(lines)
    {
      var read: seq<Entry> := [];
      var i: nat := 0;
      while i < |lines|
        invariant i <= |lines| && Entries(lines[..i]) == Some(read)
      {
        assert lines[..i + 1][..i] == lines[..i];
        if lines[i].Junk? {
          ReadableLines(lines);
          return None;
        }
        read := read + [lines[i].entry];
        i := i + 1;
      }
      assert lines[..i] == lines;
      return Some(read);
    }
  }

  // Fidelity, as far as placing goes: ids it has minted, orders it has carried
  // out.
  class Venue {
    var minted: set<Id>
    var committed: seq<Committed>

    constructor ()
      ensures minted == {} && committed == []
    {
      minted, committed := {}, [];
    }

    // previewSrvc: commits nothing.
    method Preview(id: Option<Id>) returns (conf: Option<Id>)
      modifies this`minted
      ensures conf == id && minted == if id.Some? then old(minted) + {id.value} else old(minted)
    {
      conf := id;
      if id.Some? {
        minted := minted + {id.value};
      }
    }

    // placeOrder.
    method Commit(order: Order, conf: Id, carriedOut: bool)
      modifies this`committed
      ensures committed == if carriedOut then old(committed) + [Committed(order, conf)] else old(committed)
    {
      if carriedOut {
        committed := committed + [Committed(order, conf)];
      }
    }
  }

  class FidelityPlacingBroker {
    const account: Id
    const limits: Limits
    const journal: FileConfNumJournal
    const venue: Venue
    var decisionToConf: Book

    function View(): World
      reads this, journal, venue
    {
      World(Some(decisionToConf), journal.View(), venue.minted, venue.committed)
    }

    constructor (account: Id, limits: Limits, journal: FileConfNumJournal, venue: Venue)
      ensures this.account == account && this.limits == limits && this.journal == journal && this.venue == venue
      ensures decisionToConf == []
    {
      this.account, this.limits, this.journal, this.venue := account, limits, journal, venue;
      decisionToConf := [];
    }

    // The end of __init__: an adapter whose journal cannot be read is refused.
    method RehydrateBook() returns (ok: bool)
      requires decisionToConf == []
      modifies this
      ensures ok == ReadAll(journal.View()).Some?
      ensures decisionToConf == if ok then Rehydrate(ReadAll(journal.View()).value, account) else []
      ensures ok ==> World(Some(decisionToConf), journal.View(), venue.minted, venue.committed)
                     == Next(old(View()).(book := None), account, limits, StartStep)
    {
      var entries := journal.ReadAll();
      if entries == None {
        return false;
      }
      decisionToConf := BookOf(entries.value, account);
      return true;
    }

    static method BookOf(entries: seq<Entry>, account: Id) returns (book: Book)
      ensures book == Rehydrate(entries, account)
    {
      book := [];
      var i: nat := 0;
      while i < |entries|
        invariant i <= |entries| && book == Rehydrate(entries[..i], account)
      {
        assert entries[..i + 1][..i] == entries[..i];
        if entries[i].account == account {
          book := Put(book, entries[i].decision, entries[i].conf);
        }
        i := i + 1;
      }
      assert entries[..i] == entries;
    }

    // Preview, journal, commit -- in that order. `preview`, `write` and `fate`
    // are what the venue, the disk and the network make of the three.
    method PlaceOrder(o: Order, preview: Option<Id>, write: Write, fate: Fate) returns (outcome: Outcome)
      modifies this, journal, venue
      ensures (View(), outcome) == Place(old(View()), account, limits, o, preview, write, fate)
      ensures Truthful(old(View()), limits, o, preview, write, fate, View(), outcome)
      ensures old(Safe(View(), account, limits)) && (preview.Some? ==> preview.value !in old(venue.minted)) ==>
                Safe(View(), account, limits)
    {
      OutcomeIsTruthful(View(), account, limits, o, preview, write, fate);
      if Safe(View(), account, limits) && (preview.Some? ==> preview.value !in venue.minted) {
        StepSafe(View(), account, limits, PlaceStep(o, preview, write, fate));
      }
      var refusal := Gates(limits, o);
      if refusal.Some? {
        return Refused(refusal.value);
      }
      if Get(decisionToConf, o.decision).Some? {
        return Refused(AlreadyPlaced);
      }
      var minted := venue.Preview(preview);
      if minted == None {
        return PreviewFailed;
      }
      var conf := minted.value;
      var ok := journal.Record(Entry(account, o.decision, conf), write);
      if !ok {
        return JournalFailed;
      }
      decisionToConf := Put(decisionToConf, o.decision, conf);
      if fate.NotSent? {
        return NeverSent;
      }
      venue.Commit(o, conf, fate.carriedOut);
      return if fate.clean then Placed(conf) else Ambiguous(conf);
    }

    method SubmitBuy(symbol: Id, tradeValue: real, decision: Option<Id>, limit: Option<real>, quote: real,
                     preview: Option<Id>, write: Write, fate: Fate) returns (outcome: Outcome)
      requires quote > 0.0
      modifies this, journal, venue
      ensures var sized := SizeBuy(symbol, tradeValue, decision, limit, quote);
              (View(), outcome) == if sized.Unsized? then (old(View()), Refused(sized.refusal))
                                   else Place(old(View()), account, limits, sized.order, preview, write, fate)
    {
      if tradeValue <= 0.0 {
        return Refused(BadQuantity);
      }
      if limit.Some? && limit.value <= 0.0 {
        return Refused(BadPrice);
      }
      if decision == None {
        return Refused(NoDecision);
      }
      var price := if limit.Some? then limit.value else quote;
      var qty := (tradeValue / price).Floor;
      if qty < 1 {
        return Refused(NotOneShare);
      }
      outcome := PlaceOrder(Order(symbol, Buy, qty as real, price, decision.value), preview, write, fate);
    }

    method SubmitSell(symbol: Id, qty: real, decision: Option<Id>, target: real,
                      preview: Option<Id>, write: Write, fate: Fate) returns (outcome: Outcome)
      modifies this, journal, venue
      ensures var sized := SizeSell(symbol, qty, decision, target);
              (View(), outcome) == if sized.Unsized? then (old(View()), Refused(sized.refusal))
                                   else Place(old(View()), account, limits, sized.order, preview, write, fate)
    {
      if qty <= 0.0 {
        return Refused(BadQuantity);
      }
      if decision == None {
        return Refused(NoDecision);
      }
      outcome := PlaceOrder(Order(symbol, Sell, qty, target, decision.value), preview, write, fate);
    }
  }
}
