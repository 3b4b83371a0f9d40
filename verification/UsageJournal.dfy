/** The journal alone (agent/runtime_events.go, agent/runtime_state.go): if every turn is recorded, the usage
    records since the last reset account for everything used, checkpoints or not. */
module UsageJournal {
  import opened Prelude
  import opened Replay
  import opened ReplayLaws
  import opened UsageLedger

  /** The books with their checkpoint lost. */
  function Bare(b: Books): (r: Books) {
    b.(draft := NO_USAGE, published := NO_USAGE, after := LastReset(b.journal, b.stream))
  }

  ghost predicate Accounts(b: Books, h: History) {
    AllStored(h.log) ==> OnRecord(Bare(b)) == Spent(h.log)
  }

  lemma BareShape(b: Books)
    requires Shape(b)
    ensures Shape(Bare(b))
  {
  }

  /** Recording a fact of the own stream, or any fact of another one. */
  lemma {:induction false} BareJournaled(b: Books, stream: Name, body: Body)
    requires Shape(b) && !(stream == b.stream && (body.SessionReset? || body.UsageRecorded?))
    ensures OnRecord(Bare(Journaled(b, stream, body))) == OnRecord(Bare(b))
  {
    BareShape(b);
    AppendToTail(Bare(b), stream, body);
    SameReset(b, stream, body);
    hide Tail, LastReset, CountAll, Shape;
    assert Tail(b.journal, b.stream, Bare(b).after) + [] == Tail(b.journal, b.stream, Bare(b).after);
  }

  lemma SameReset(b: Books, stream: Name, body: Body)
    requires !(stream == b.stream && body.SessionReset?)
    ensures LastReset(Journaled(b, stream, body).journal, b.stream) == LastReset(b.journal, b.stream)
  {
    LastResetSnoc(b.journal, Event(NextAt(b), stream, body), b.stream);
  }

  lemma {:induction false} BareRecorded(b: Books, request: Name, tokens: Tokens)
    requires Shape(b) && request != NoName
    ensures OnRecord(Bare(Journaled(b, b.stream, UsageRecorded(request, tokens))))
         == Counted(OnRecord(Bare(b)), Request(request), tokens)
  {
    BareShape(b);
    RecordAppended(Bare(b), request, tokens);
    SameReset(b, b.stream, UsageRecorded(request, tokens));
    hide Tail, LastReset, CountAll, Shape, Counted;
  }

  lemma {:induction false} BareCheckpointed(b: Books, u: Usage)
    requires Shape(b)
    ensures OnRecord(Bare(Checkpointed(b, u))) == OnRecord(Bare(b))
  {
    BareJournaled(b, b.stream, OtherFact);
    hide Tail, LastReset, CountAll, Shape;
  }

  lemma {:induction false} JournaledShape(b: Books, request: Name, tokens: Tokens)
    requires Shape(b)
    ensures Shape(Journaled(b, b.stream, UsageRecorded(request, tokens)))
  {
    AppendToTail(b, b.stream, UsageRecorded(request, tokens));
  }

  lemma {:induction false} BareCharges(b: Books, u: Usage, charges: seq<Charge>)
    requires Shape(b) && OnRecord(Bare(b)) == u
    ensures var r := ChargesRecorded(b, u, charges); Shape(r) && OnRecord(Bare(r)) == Charged(u, charges)
    decreases |charges|
  {
    hide Shape, OnRecord, Bare, Journaled;
    if charges != [] {
      var c := charges[0];
      if c.request == NoName || Request(c.request) in u.requests {
        BareCharges(b, u, charges[1..]);
      } else {
        var next := Journaled(b, b.stream, UsageRecorded(c.request, c.tokens));
        JournaledShape(b, c.request, c.tokens);
        BareRecorded(b, c.request, c.tokens);
        BareCharges(next, Counted(u, Request(c.request), c.tokens), charges[1..]);
      }
    }
  }

  lemma {:induction false} BareReset(b: Books)
    requires Shape(b)
    ensures OnRecord(Bare(Reset(b, true))) == NO_USAGE
  {
    var c := Journaled(b, b.stream, SessionReset);
    LastResetSnoc(b.journal, Event(NextAt(b), b.stream, SessionReset), b.stream);
    NothingBehind(c.journal, c.stream, LastReset(c.journal, c.stream), |c.journal|);
    assert OnRecord(Bare(c)) == NO_USAGE;
    BareCheckpointed(c.(after := |c.journal|), NO_USAGE);
  }

  lemma SpentNothing()
    ensures Spent([]) == NO_USAGE
  {
  }

  // ----- Every step -----

  lemma {:induction false} TurnAccounts(b: Books, h: History, request: Name, tokens: Tokens, stored: bool)
    requires Right(b, h) && Accounts(b, h) && request != NoName
    ensures Accounts(TakeTurn(b, request, tokens, stored), Remember(h, Turn(request, tokens, stored)))
  {
    var e := Entry(request, tokens, stored);
    var counted := b.(draft := Counted(b.draft, Request(request), tokens));
    if stored && AllStored(h.log + [e]) {
      assert AllStored(h.log) by { assert forall i :: 0 <= i < |h.log| ==> (h.log + [e])[i] == h.log[i]; }
      BareRecorded(counted, request, tokens);
      SpentSnoc(h.log, e);
    } else {
      assert (h.log + [e])[|h.log|] == e;
    }
    hide OnRecord, Spent, Shape, Journaled;
  }

  lemma {:induction false} CompactionAccounts(b: Books, h: History, charges: seq<Charge>)
    requires Right(b, h) && Accounts(b, h) && Settled(b)
    ensures Accounts(Compact(b, charges, true), Remember(h, Compaction(charges, true)))
  {
    hide OnRecord, Spent, Shape, Saved, Bare, ChargesRecorded, Charged, Entries, Checkpointed;
    var log := h.log + Entries(charges);
    if AllStored(log) {
      assert AllStored(h.log) by { assert forall i :: 0 <= i < |h.log| ==> log[i] == h.log[i]; }
      SettledMeans(b, h);
      BareCharges(b, b.published, charges);
      BareCheckpointed(ChargesRecorded(b, b.published, charges), Charged(b.published, charges));
      SpentCharges(h.log, charges);
    }
  }

  lemma {:induction false} StepAccounts(b: Books, h: History, s: Step)
    requires Right(b, h) && Careful(b, s) && Accounts(b, h)
    ensures Accounts(Apply(b, s), Remember(h, s))
  {
    hide OnRecord, Spent, Shape, Saved, Settled;
    match s {
      case Turn(request, tokens, stored) => TurnAccounts(b, h, request, tokens, stored);
      case PublishDraft(stored) => BareCheckpointed(b, b.draft);
      case Compaction(charges, stored) =>
        if stored {
          CompactionAccounts(b, h, charges);
        }
      case Begin =>
      case Clear(stored) =>
        BareReset(b);
        SpentNothing();
      case Elsewhere(other, body) => BareJournaled(b, other, body);
    }
  }

  lemma {:induction false} RunAccounts(b: Books, h: History, steps: seq<Step>)
    requires Right(b, h) && AllCareful(b, steps) && Accounts(b, h)
    ensures Accounts(Execute(b, steps), Remembered(h, steps))
    decreases |steps|
  {
    hide Right, Apply, Careful, Remember, Accounts;
    if steps != [] {
      StepKeepsBooks(b, h, steps[0]);
      StepAccounts(b, h, steps[0]);
      RunAccounts(Apply(b, steps[0]), Remember(h, steps[0]), steps[1..]);
    }
  }

  /** After every careful run in which each turn was recorded, a crash that loses the checkpoint loses no usage:
      the records of the journal since the last reset, those of compactions included, add up to the draft. */
  lemma {:induction false} JournalAccountsForAll(stream: Name, steps: seq<Step>)
    requires AllCareful(New(stream), steps) && AllStored(Remembered(NOTHING_YET, steps).log)
    ensures var b := Execute(New(stream), steps);
            AfterCrash(Bare(b)) == b.draft
  {
    hide Execute, Remembered, AllCareful, Spent, Shape, OnRecord, AfterCrash;
    var b, h := Execute(New(stream), steps), Remembered(NOTHING_YET, steps);
    NewBooksAreRight(stream);
    NewAccounts(stream);
    RunKeepsBooks(New(stream), NOTHING_YET, steps);
    RunAccounts(New(stream), NOTHING_YET, steps);
    BareShape(b);
    CrashFindsRecord(Bare(b));
  }

  lemma NewAccounts(stream: Name)
    ensures Accounts(New(stream), NOTHING_YET)
  {
    SpentNothing();
  }
}
