/** Usage across crashes (agent/messages.go, agent/runtime_events.go, agent/runtime_state.go,
    agent/state_replay.go): turns count usage in the draft and journal it, checkpoints publish the
    draft, and recovery is compared with what the requests of the session really used. */
module UsageLedger {
  import opened Prelude
  import opened Replay
  import opened ReplayLaws

  datatype Books = Books(stream: Name, draft: Usage, published: Usage, after: nat, journal: seq<Event>)

  function New(stream: Name): (b: Books) {
    Books(stream, NO_USAGE, NO_USAGE, 0, [])
  }

  function NextAt(b: Books): (n: nat) {
    |b.journal| + 1
  }

  function Journaled(b: Books, stream: Name, body: Body): (r: Books) {
    b.(journal := b.journal + [Event(NextAt(b), stream, body)])
  }

  /** An assistant turn: counted in the draft, then recorded in the journal if the append works. */
  function TakeTurn(b: Books, request: Name, tokens: Tokens, stored: bool): (r: Books) {
    var counted := b.(draft := Counted(b.draft, Request(request), tokens));
    if stored then Journaled(counted, b.stream, UsageRecorded(request, tokens)) else counted
  }

  /** A checkpoint of the given usage. */
  function Checkpointed(b: Books, u: Usage): (r: Books) {
    Journaled(b, b.stream, OtherFact).(draft := u, published := u, after := NextAt(b))
  }

  function Publish(b: Books, stored: bool): (r: Books) {
    if stored then Checkpointed(b, b.draft) else b
  }

  /** What one request of a compaction used. */
  datatype Charge = Charge(request: Name, tokens: Tokens)

  /** The requests of a compaction that have a name are counted one after the other. */
  function Charged(u: Usage, charges: seq<Charge>): (r: Usage)
    decreases |charges|
  {
    if charges == [] then u
    else
      var c := charges[0];
      Charged(if c.request == NoName then u else Counted(u, Request(c.request), c.tokens), charges[1..])
  }

  /** A record for every request that was new when it was counted. */
  function ChargesRecorded(b: Books, u: Usage, charges: seq<Charge>): (r: Books)
    decreases |charges|
  {
    if charges == [] then b
    else
      var c := charges[0];
      if c.request == NoName || Request(c.request) in u.requests then ChargesRecorded(b, u, charges[1..])
      else ChargesRecorded(Journaled(b, b.stream, UsageRecorded(c.request, c.tokens)),
                           Counted(u, Request(c.request), c.tokens), charges[1..])
  }

  /** A compaction adds its own requests to the published usage and checkpoints that. */
  function Compact(b: Books, charges: seq<Charge>, stored: bool): (r: Books) {
    if !stored then b
    else Checkpointed(ChargesRecorded(b, b.published, charges), Charged(b.published, charges))
  }

  /** A new run starts from the published usage. */
  function BeginRun(b: Books): (r: Books) {
    b.(draft := b.published)
  }

  function Reset(b: Books, stored: bool): (r: Books) {
    if !stored then b else Checkpointed(Journaled(b, b.stream, SessionReset), NO_USAGE)
  }

  /** The usage found after a crash: the last checkpoint replayed with the whole journal. */
  function AfterCrash(b: Books): (u: Usage) {
    var reset := LastReset(b.journal, b.stream);
    Recovered(Snapshot(1, 0, [], [], b.published, 0, 0), Own(b.journal, b.stream, reset), reset, b.after).usage
  }

  datatype Step =
    | Turn(request: Name, tokens: Tokens, stored: bool)
    | PublishDraft(stored: bool)
    | Compaction(charges: seq<Charge>, stored: bool)
    | Begin
    | Clear(stored: bool)
    | Elsewhere(other: Name, body: Body)

  function Apply(b: Books, s: Step): (r: Books) {
    match s
    case Turn(request, tokens, stored) => TakeTurn(b, request, tokens, stored)
    case PublishDraft(stored) => Publish(b, stored)
    case Compaction(charges, stored) => Compact(b, charges, stored)
    case Begin => BeginRun(b)
    case Clear(stored) => Reset(b, stored)
    case Elsewhere(other, body) => Journaled(b, other, body)
  }

  // ----- What was really used -----

  /** One request of the session, and whether its record reached the journal at once. */
  datatype Entry = Entry(request: Name, tokens: Tokens, stored: bool)

  /** The requests since the last reset; the first `mark` of them precede the last checkpoint. */
  datatype History = History(log: seq<Entry>, mark: nat)

  const NOTHING_YET := History([], 0)

  function Entries(charges: seq<Charge>): (log: seq<Entry>) {
    if charges == [] then []
    else (if charges[0].request == NoName then [] else [Entry(charges[0].request, charges[0].tokens, true)])
         + Entries(charges[1..])
  }

  function Remember(h: History, s: Step): (r: History) {
    match s
    case Turn(request, tokens, stored) => h.(log := h.log + [Entry(request, tokens, stored)])
    case PublishDraft(stored) => if stored then h.(mark := |h.log|) else h
    case Compaction(charges, stored) =>
      if stored then History(h.log + Entries(charges), |h.log| + |Entries(charges)|) else h
    case Begin => h
    case Clear(stored) => if stored then NOTHING_YET else h
    case Elsewhere(_, _) => h
  }

  predicate IsFirst(log: seq<Entry>, i: nat)
    requires i < |log|
  {
    forall j :: 0 <= j < i ==> log[j].request != log[i].request
  }

  /** The sum over the requests of the tokens of their first entry. */
  function SumFirst(log: seq<Entry>, n: nat): (t: Tokens)
    requires n <= |log|
  {
    if n == 0 then ZERO
    else Plus(SumFirst(log, n - 1), if IsFirst(log, n - 1) then log[n - 1].tokens else ZERO)
  }

  function Requests(log: seq<Entry>): (s: set<Key>) {
    set e | e in log :: Request(e.request)
  }

  function Spent(log: seq<Entry>): (u: Usage) {
    Usage(SumFirst(log, |log|), Requests(log))
  }

  function StoredOnly(log: seq<Entry>): (r: seq<Entry>) {
    if log == [] then []
    else StoredOnly(log[..|log| - 1]) + if log[|log| - 1].stored then [log[|log| - 1]] else []
  }

  /** What a crash must not lose: all entries before the checkpoint and the journaled ones behind it. */
  function Saved(h: History): (log: seq<Entry>)
    requires h.mark <= |h.log|
  {
    h.log[..h.mark] + StoredOnly(h.log[h.mark..])
  }

  lemma {:induction false} SumFirstPrefix(log: seq<Entry>, e: Entry, n: nat)
    requires n <= |log|
    ensures SumFirst(log + [e], n) == SumFirst(log, n)
  {
    if n > 0 {
      SumFirstPrefix(log, e, n - 1);
      assert forall j :: 0 <= j < n ==> (log + [e])[j] == log[j];
    }
  }

  lemma RequestsSnoc(log: seq<Entry>, e: Entry)
    ensures Requests(log + [e]) == Requests(log) + {Request(e.request)}
    ensures Request(e.request) in Requests(log) <==> !IsFirst(log + [e], |log|)
  {
    assert forall x :: x in log + [e] <==> x in log || x == e;
    if Request(e.request) in Requests(log) {
      var x :| x in log && x.request == e.request;
      var j :| 0 <= j < |log| && log[j] == x;
      assert (log + [e])[j] == x;
    }
    if !IsFirst(log + [e], |log|) {
      var j :| 0 <= j < |log| && (log + [e])[j].request == e.request;
      assert log[j] in log;
    }
  }

  /** One more entry counts exactly if its request is new. */
  lemma {:induction false} SpentSnoc(log: seq<Entry>, e: Entry)
    ensures Spent(log + [e]) == Counted(Spent(log), Request(e.request), e.tokens)
  {
    SumFirstPrefix(log, e, |log|);
    RequestsSnoc(log, e);
    assert (log + [e])[|log|] == e;
    hide IsFirst, Requests;
    if Request(e.request) in Requests(log) {
      assert Requests(log) + {Request(e.request)} == Requests(log);
    }
  }

  lemma {:induction false} SpentCharges(log: seq<Entry>, charges: seq<Charge>)
    ensures Spent(log + Entries(charges)) == Charged(Spent(log), charges)
    decreases |charges|
  {
    hide Spent;
    if charges == [] {
      assert log + [] == log;
    } else {
      var c := charges[0];
      if c.request == NoName {
        SpentCharges(log, charges[1..]);
        assert [] + Entries(charges[1..]) == Entries(charges[1..]);
      } else {
        var e := Entry(c.request, c.tokens, true);
        SpentSnoc(log, e);
        SpentCharges(log + [e], charges[1..]);
        Assoc(log, [e], Entries(charges[1..]));
      }
    }
  }

  lemma {:induction false} NoNewRequests(log: seq<Entry>, n: nat)
    requires n <= |log| && Requests(log) <= Requests(log[..n])
    ensures Spent(log) == Spent(log[..n])
    decreases |log|
  {
    if n == |log| {
      assert log[..n] == log;
    } else {
      var before, e := log[..|log| - 1], log[|log| - 1];
      assert before + [e] == log && before[..n] == log[..n];
      RequestsSnoc(before, e);
      PrefixRequests(before, n);
      NoNewRequests(before, n);
      SpentSnoc(before, e);
      hide Spent, Requests, IsFirst;
    }
  }

  lemma PrefixRequests(log: seq<Entry>, n: nat)
    requires n <= |log|
    ensures Requests(log[..n]) <= Requests(log)
  {
    assert forall x :: x in log[..n] ==> x in log;
  }

  // ----- The books against the history -----

  predicate Numbered(journal: seq<Event>) {
    forall i :: 0 <= i < |journal| ==> journal[i].at == i + 1
  }

  /** The records behind the last checkpoint. */
  function Tail(journal: seq<Event>, stream: Name, after: nat): (r: seq<Event>)
    ensures AllUsage(r)
  {
    NewUsage(Own(journal, stream, LastReset(journal, stream)), after)
  }

  predicate Shape(b: Books) {
    Numbered(b.journal) && b.after <= |b.journal| && LastReset(b.journal, b.stream) <= b.after
  }

  /** The checkpoint and the records behind it. */
  function OnRecord(b: Books): (u: Usage) {
    CountAll(b.published, Tail(b.journal, b.stream, b.after))
  }

  /** The draft holds everything used, the checkpoint everything used before it, and the journal
      supplies the rest as far as it was stored. */
  predicate Right(b: Books, h: History) {
    && Shape(b) && h.mark <= |h.log|
    && b.draft == Spent(h.log) && b.published == Spent(h.log[..h.mark]) && OnRecord(b) == Spent(Saved(h))
  }

  /** Everything counted has been published. */
  predicate Settled(b: Books) {
    b.draft.requests <= b.published.requests
  }

  /** Requests have names, other writers use other streams, and a compaction or a new run finds the
      draft published. */
  predicate Careful(b: Books, s: Step) {
    match s
    case Turn(request, _, _) => request != NoName
    case Compaction(_, stored) => stored ==> Settled(b)
    case Begin => Settled(b)
    case Elsewhere(other, _) => other != b.stream
    case _ => true
  }

  lemma {:induction false} OwnSnoc(journal: seq<Event>, e: Event, stream: Name, reset: nat)
    ensures Own(journal + [e], stream, reset) ==
            Own(journal, stream, reset) + if e.stream == stream && e.at > reset then [e] else []
    decreases |journal|
  {
    if journal == [] {
      assert journal + [e] == [e] && [e][1..] == [];
    } else {
      assert (journal + [e])[0] == journal[0] && (journal + [e])[1..] == journal[1..] + [e];
      var first := if journal[0].stream == stream && journal[0].at > reset then [journal[0]] else [];
      var last := if e.stream == stream && e.at > reset then [e] else [];
      assert Own(journal + [e], stream, reset) == first + Own(journal[1..] + [e], stream, reset);
      assert Own(journal, stream, reset) == first + Own(journal[1..], stream, reset);
      hide Own;
      OwnSnoc(journal[1..], e, stream, reset);
      Assoc(first, Own(journal[1..], stream, reset), last);
    }
  }

  lemma {:induction false} NewUsageSnoc(own: seq<Event>, e: Event, after: nat)
    ensures NewUsage(own + [e], after) ==
            NewUsage(own, after) + if e.body.UsageRecorded? && e.at > after then [e] else []
    decreases |own|
  {
    if own == [] {
      assert own + [e] == [e] && [e][1..] == [];
    } else {
      assert (own + [e])[0] == own[0] && (own + [e])[1..] == own[1..] + [e];
      var first := if own[0].body.UsageRecorded? && own[0].at > after then [own[0]] else [];
      var last := if e.body.UsageRecorded? && e.at > after then [e] else [];
      assert NewUsage(own + [e], after) == first + NewUsage(own[1..] + [e], after);
      assert NewUsage(own, after) == first + NewUsage(own[1..], after);
      hide NewUsage;
      NewUsageSnoc(own[1..], e, after);
      Assoc(first, NewUsage(own[1..], after), last);
    }
  }

  lemma {:induction false} OwnIsIn(journal: seq<Event>, stream: Name, reset: nat)
    ensures forall e :: e in Own(journal, stream, reset) ==> e in journal
    decreases |journal|
  {
    if journal != [] {
      OwnIsIn(journal[1..], stream, reset);
    }
  }

  lemma {:induction false} NoneLater(own: seq<Event>, after: nat)
    requires forall e :: e in own ==> e.at <= after
    ensures NewUsage(own, after) == []
  {
    if own != [] {
      NoneLater(own[1..], after);
    }
  }

  /** Nothing in the journal lies behind its end. */
  lemma NothingBehind(journal: seq<Event>, stream: Name, reset: nat, after: nat)
    requires Numbered(journal) && |journal| <= after
    ensures NewUsage(Own(journal, stream, reset), after) == []
  {
    OwnIsIn(journal, stream, reset);
    NoneLater(Own(journal, stream, reset), after);
  }

  lemma LastResetSnoc(journal: seq<Event>, e: Event, stream: Name)
    ensures LastReset(journal + [e], stream) ==
            if e.stream == stream && e.body.SessionReset? then e.at else LastReset(journal, stream)
  {
    assert (journal + [e])[..|journal|] == journal;
  }

  /** Appending an event that is no reset of this stream extends the tail by at most that event. */
  lemma {:induction false} AppendToTail(b: Books, stream: Name, body: Body)
    requires Shape(b) && !(stream == b.stream && body.SessionReset?)
    ensures var c := Journaled(b, stream, body);
            && Shape(c) && Tail(c.journal, b.stream, b.after) == Tail(b.journal, b.stream, b.after)
                 + if stream == b.stream && body.UsageRecorded? then [Event(NextAt(b), stream, body)] else []
  {
    var e, reset := Event(NextAt(b), stream, body), LastReset(b.journal, b.stream);
    LastResetSnoc(b.journal, e, b.stream);
    OwnSnoc(b.journal, e, b.stream, reset);
    NewUsageSnoc(Own(b.journal, b.stream, reset), e, b.after);
    hide Own, NewUsage, LastReset;
    if stream != b.stream {
      assert Own(b.journal, b.stream, reset) + [] == Own(b.journal, b.stream, reset);
    }
  }

  lemma {:induction false} RecordAppended(b: Books, request: Name, tokens: Tokens)
    requires Shape(b) && request != NoName
    ensures var c := Journaled(b, b.stream, UsageRecorded(request, tokens));
            Shape(c) && OnRecord(c) == Counted(OnRecord(b), Request(request), tokens)
  {
    hide Own, NewUsage, LastReset, CountAll, Numbered;
    AppendToTail(b, b.stream, UsageRecorded(request, tokens));
    CountAllSnoc(b.published, Tail(b.journal, b.stream, b.after),
                 Event(NextAt(b), b.stream, UsageRecorded(request, tokens)));
  }

  /** A checkpoint is all that recovery needs. */
  lemma {:induction false} CheckpointRecords(b: Books, u: Usage)
    requires Numbered(b.journal) && LastReset(b.journal, b.stream) <= |b.journal|
    ensures Shape(Checkpointed(b, u)) && OnRecord(Checkpointed(b, u)) == u
  {
    var c := Checkpointed(b, u);
    LastResetSnoc(b.journal, Event(NextAt(b), b.stream, OtherFact), b.stream);
    NothingBehind(c.journal, c.stream, LastReset(c.journal, c.stream), c.after);
  }

  lemma {:induction false} ElsewhereRecords(b: Books, other: Name, body: Body)
    requires Shape(b) && other != b.stream
    ensures Shape(Journaled(b, other, body)) && OnRecord(Journaled(b, other, body)) == OnRecord(b)
  {
    AppendToTail(b, other, body);
    hide Tail, LastReset, CountAll, Numbered;
    assert Tail(b.journal, b.stream, b.after) + [] == Tail(b.journal, b.stream, b.after);
  }

  lemma SavedSnoc(h: History, e: Entry)
    requires h.mark <= |h.log|
    ensures h.log[..h.mark] == (h.log + [e])[..h.mark]
    ensures Saved(h.(log := h.log + [e])) == Saved(h) + if e.stored then [e] else []
  {
    var rest := h.log[h.mark..];
    assert (h.log + [e])[h.mark..] == rest + [e] && (rest + [e])[..|rest|] == rest;
    Assoc(h.log[..h.mark], StoredOnly(rest), if e.stored then [e] else []);
  }

  lemma SavedAll(log: seq<Entry>)
    ensures Saved(History(log, |log|)) == log && log[..|log|] == log
  {
  }

  lemma {:induction false} TurnKeeps(b: Books, h: History, request: Name, tokens: Tokens, stored: bool)
    requires Right(b, h) && request != NoName
    ensures Right(TakeTurn(b, request, tokens, stored), Remember(h, Turn(request, tokens, stored)))
  {
    hide Numbered, LastReset, Tail, Spent, CountAll, Saved;
    var e := Entry(request, tokens, stored);
    var c := b.(draft := Counted(b.draft, Request(request), tokens));
    SpentSnoc(h.log, e);
    SavedSnoc(h, e);
    assert Shape(c) && OnRecord(c) == OnRecord(b);
    if stored {
      RecordAppended(c, request, tokens);
      SpentSnoc(Saved(h), e);
    } else {
      assert Saved(h) + [] == Saved(h);
    }
  }

  lemma {:induction false} PublishKeeps(b: Books, h: History)
    requires Right(b, h)
    ensures Right(Publish(b, true), Remember(h, PublishDraft(true)))
  {
    hide LastReset, Tail, Spent, CountAll, Saved, Journaled;
    CheckpointRecords(b, b.draft);
    SavedAll(h.log);
  }

  lemma {:induction false} ResetKeeps(b: Books, h: History)
    requires Right(b, h)
    ensures Right(Reset(b, true), NOTHING_YET)
  {
    LastResetSnoc(b.journal, Event(NextAt(b), b.stream, SessionReset), b.stream);
    CheckpointRecords(Journaled(b, b.stream, SessionReset), NO_USAGE);
    hide Tail, CountAll, LastReset, OnRecord, Shape;
    SavedAll([]);
  }

  /** The draft and the checkpoint agree exactly when no request is missing in the checkpoint. */
  lemma {:induction false} SettledMeans(b: Books, h: History)
    requires Right(b, h)
    ensures Settled(b) <==> b.draft == b.published
    ensures b.published.requests <= b.draft.requests
  {
    hide Shape, OnRecord, Saved;
    PrefixRequests(h.log, h.mark);
    if Settled(b) {
      NoNewRequests(h.log, h.mark);
    }
  }

  lemma {:induction false} ChargesShape(b: Books, u: Usage, charges: seq<Charge>)
    requires Numbered(b.journal)
    ensures var r := ChargesRecorded(b, u, charges);
            && Numbered(r.journal) && |b.journal| <= |r.journal| && r.stream == b.stream
            && LastReset(r.journal, b.stream) == LastReset(b.journal, b.stream)
    decreases |charges|
  {
    hide LastReset;
    if charges != [] {
      var c := charges[0];
      if c.request == NoName || Request(c.request) in u.requests {
        ChargesShape(b, u, charges[1..]);
      } else {
        var record := UsageRecorded(c.request, c.tokens);
        LastResetSnoc(b.journal, Event(NextAt(b), b.stream, record), b.stream);
        ChargesShape(Journaled(b, b.stream, record), Counted(u, Request(c.request), c.tokens), charges[1..]);
      }
    }
  }

  /** What a compaction leaves on record. */
  lemma {:induction false} CompactRecords(b: Books, charges: seq<Charge>)
    requires Shape(b)
    ensures var c := Compact(b, charges, true);
            Shape(c) && OnRecord(c) == c.published == c.draft == Charged(b.published, charges)
  {
    hide LastReset, Tail, CountAll, ChargesRecorded, Charged;
    ChargesShape(b, b.published, charges);
    CheckpointRecords(ChargesRecorded(b, b.published, charges), Charged(b.published, charges));
  }

  lemma {:induction false} CompactKeeps(b: Books, h: History, charges: seq<Charge>)
    requires Right(b, h) && Settled(b)
    ensures Right(Compact(b, charges, true), Remember(h, Compaction(charges, true)))
  {
    hide Spent, Saved, Compact, OnRecord, Shape, Charged, Entries;
    SettledMeans(b, h);
    CompactRecords(b, charges);
    SpentCharges(h.log, charges);
    SavedAll(h.log + Entries(charges));
  }

  /** Every careful step keeps draft, checkpoint and journal right for what was really used. */
  lemma {:induction false} StepKeepsBooks(b: Books, h: History, s: Step)
    requires Right(b, h) && Careful(b, s)
    ensures Right(Apply(b, s), Remember(h, s))
  {
    match s {
      case Turn(request, tokens, stored) => TurnKeeps(b, h, request, tokens, stored);
      case PublishDraft(stored) =>
        if stored {
          PublishKeeps(b, h);
        }
      case Compaction(charges, stored) =>
        if stored {
          CompactKeeps(b, h, charges);
        }
      case Begin =>
        SettledMeans(b, h);
      case Clear(stored) =>
        if stored {
          ResetKeeps(b, h);
        }
      case Elsewhere(other, body) => ElsewhereRecords(b, other, body);
    }
  }

  lemma {:induction false} CrashFindsRecord(b: Books)
    requires Shape(b)
    ensures AfterCrash(b) == OnRecord(b)
  {
    var reset := LastReset(b.journal, b.stream);
    ReplayedUsage(Snapshot(1, 0, [], [], b.published, 0, 0), Own(b.journal, b.stream, reset), reset, b.after);
  }

  function Execute(b: Books, steps: seq<Step>): (r: Books)
    decreases |steps|
  {
    if steps == [] then b else Execute(Apply(b, steps[0]), steps[1..])
  }

  function Remembered(h: History, steps: seq<Step>): (r: History)
    decreases |steps|
  {
    if steps == [] then h else Remembered(Remember(h, steps[0]), steps[1..])
  }

  predicate AllCareful(b: Books, steps: seq<Step>)
    decreases |steps|
  {
    steps == [] || (Careful(b, steps[0]) && AllCareful(Apply(b, steps[0]), steps[1..]))
  }

  lemma {:induction false} RunKeepsBooks(b: Books, h: History, steps: seq<Step>)
    requires Right(b, h) && AllCareful(b, steps)
    ensures Right(Execute(b, steps), Remembered(h, steps))
    decreases |steps|
  {
    hide Right, Apply, Careful, Remember;
    if steps != [] {
      StepKeepsBooks(b, h, steps[0]);
      RunKeepsBooks(Apply(b, steps[0]), Remember(h, steps[0]), steps[1..]);
    }
  }

  lemma NewBooksAreRight(stream: Name)
    ensures Right(New(stream), NOTHING_YET)
  {
    SavedAll([]);
  }

  predicate AllStored(log: seq<Entry>) {
    forall i :: 0 <= i < |log| ==> log[i].stored
  }

  lemma {:induction false} StoredOnlyAll(log: seq<Entry>)
    requires AllStored(log)
    ensures StoredOnly(log) == log
  {
    if log != [] {
      StoredOnlyAll(log[..|log| - 1]);
      assert log[..|log| - 1] + [log[|log| - 1]] == log;
    }
  }

  /** Whenever the process stops, the draft is what the requests since the last reset used, each
      counted once; recovery finds exactly the part of it that was checkpointed or journaled; and
      nothing is missing if every turn since the checkpoint was stored. */
  lemma {:induction false} RecoveryIsExact(stream: Name, steps: seq<Step>)
    requires AllCareful(New(stream), steps)
    ensures var b, h := Execute(New(stream), steps), Remembered(NOTHING_YET, steps);
            && h.mark <= |h.log| && b.draft == Spent(h.log) && AfterCrash(b) == Spent(Saved(h))
            && (AllStored(h.log[h.mark..]) ==> AfterCrash(b) == b.draft)
  {
    var b, h := Execute(New(stream), steps), Remembered(NOTHING_YET, steps);
    hide Execute, Remembered, AllCareful, Spent, Shape, OnRecord, AfterCrash;
    NewBooksAreRight(stream);
    RunKeepsBooks(New(stream), NOTHING_YET, steps);
    CrashFindsRecord(b);
    if AllStored(h.log[h.mark..]) {
      StoredOnlyAll(h.log[h.mark..]);
      assert h.log[..h.mark] + h.log[h.mark..] == h.log;
    }
  }

  // ----- Why compactions and new runs must find the draft published -----

  lemma CountedApart(a: Usage, b: Usage, k: Key, t: Tokens)
    requires a != b && k !in a.requests && k !in b.requests
    ensures Counted(a, k, t) != Counted(b, k, t)
  {
    if a.requests != b.requests {
      var x :| (x in a.requests) != (x in b.requests);
      assert (x in a.requests + {k}) != (x in b.requests + {k});
    }
  }

  lemma {:induction false} ChargedApart(a: Usage, b: Usage, charges: seq<Charge>)
    requires a != b
    requires forall c :: c in charges ==> (Request(c.request) in a.requests <==> Request(c.request) in b.requests)
    ensures Charged(a, charges) != Charged(b, charges)
    decreases |charges|
  {
    if charges != [] {
      var c, rest := charges[0], charges[1..];
      assert c in charges && forall x :: x in rest ==> x in charges;
      if c.request == NoName || Request(c.request) in a.requests {
        ChargedApart(a, b, rest);
      } else {
        CountedApart(a, b, Request(c.request), c.tokens);
        ChargedApart(Counted(a, Request(c.request), c.tokens), Counted(b, Request(c.request), c.tokens), rest);
      }
    }
  }

  /** After a compaction recovery finds everything used if and only if no counted request was
      missing in the checkpoint; the requests of the compaction itself are none of those. */
  lemma {:induction false} CompactionExactly(b: Books, h: History, charges: seq<Charge>)
    requires Right(b, h)
    requires forall c :: c in charges ==>
               (Request(c.request) in b.draft.requests <==> Request(c.request) in b.published.requests)
    ensures AfterCrash(Compact(b, charges, true)) == Spent(h.log + Entries(charges)) <==> Settled(b)
  {
    hide Spent, Saved, Compact, OnRecord, Shape, AfterCrash, Charged, Entries;
    CompactRecords(b, charges);
    CrashFindsRecord(Compact(b, charges, true));
    SpentCharges(h.log, charges);
    SettledMeans(b, h);
    if !Settled(b) {
      ChargedApart(b.published, b.draft, charges);
    }
  }

  /** A new run knows everything used, and its next checkpoint keeps it, if and only if no counted
      request was missing in the checkpoint it starts from. */
  lemma {:induction false} BeginExactly(b: Books, h: History)
    requires Right(b, h)
    ensures BeginRun(b).draft == Spent(h.log) <==> Settled(b)
    ensures AfterCrash(Publish(BeginRun(b), true)) == Spent(h.log) <==> Settled(b)
  {
    hide Spent, Saved, OnRecord, Journaled, AfterCrash;
    SettledMeans(b, h);
    CheckpointRecords(BeginRun(b), b.published);
    CrashFindsRecord(Publish(BeginRun(b), true));
  }

  /** When every turn since the checkpoint was stored, that condition can be read off the journal:
      no record behind the checkpoint names a request the checkpoint does not know. */
  lemma {:induction false} SettledInJournal(b: Books, h: History)
    requires Right(b, h) && AllStored(h.log[h.mark..])
    ensures Settled(b) <==> Keys(Tail(b.journal, b.stream, b.after)) <= b.published.requests
  {
    hide Spent, Shape, Tail, CountAll, SumNew;
    StoredOnlyAll(h.log[h.mark..]);
    assert h.log[..h.mark] + h.log[h.mark..] == h.log;
    EachRequestCountsOnce(b.published, Tail(b.journal, b.stream, b.after));
  }

  lemma {:induction false} TwoSteps(b: Books, s: Step, t: Step)
    ensures Execute(b, [s, t]) == Apply(Apply(b, s), t)
  {
    hide Apply;
    assert [s, t][1..] == [t] && [t][1..] == [];
    assert Execute(Apply(b, s), [t]) == Execute(Apply(Apply(b, s), t), []);
  }

  /** A turn that is journaled but not yet published is forgotten by the next compaction, and by the
      first checkpoint of the next run. */
  lemma {:induction false} UnpublishedUsageIsLost(stream: Name, request: Name, other: Name, tokens: Tokens,
      more: Tokens)
    requires request != NoName && other != NoName && other != request
    ensures AfterCrash(Execute(New(stream), [Turn(request, tokens, true), Compaction([Charge(other, more)], true)])) ==
            Usage(Plus(ZERO, more), {Request(other)})
    ensures AfterCrash(Publish(Execute(New(stream), [Turn(request, tokens, true), Begin]), true)) == NO_USAGE
  {
    hide AfterCrash, Execute, Compact, Publish, New;
    TwoSteps(New(stream), Turn(request, tokens, true), Compaction([Charge(other, more)], true));
    TwoSteps(New(stream), Turn(request, tokens, true), Begin);
    OneTurn(stream, request, tokens);
    var b := TakeTurn(New(stream), request, tokens, true);
    LostByCompaction(b, other, more);
    LostByBegin(b);
  }

  lemma {:induction false} OneTurn(stream: Name, request: Name, tokens: Tokens)
    requires request != NoName
    ensures var b := TakeTurn(New(stream), request, tokens, true); Shape(b) && b.published == NO_USAGE
  {
    NewBooksAreRight(stream);
    TurnKeeps(New(stream), NOTHING_YET, request, tokens, true);
    hide Shape;
  }

  lemma {:induction false} LostByCompaction(b: Books, other: Name, more: Tokens)
    requires Shape(b) && b.published == NO_USAGE && other != NoName
    ensures AfterCrash(Compact(b, [Charge(other, more)], true)) == Usage(Plus(ZERO, more), {Request(other)})
  {
    var charges := [Charge(other, more)];
    assert charges[1..] == [];
    assert Charged(NO_USAGE, charges) == Counted(NO_USAGE, Request(other), more);
    hide AfterCrash, OnRecord, Shape, Compact;
    CompactRecords(b, charges);
    CrashFindsRecord(Compact(b, charges, true));
  }

  lemma {:induction false} LostByBegin(b: Books)
    requires Shape(b) && b.published == NO_USAGE
    ensures AfterCrash(Publish(BeginRun(b), true)) == NO_USAGE
  {
    hide AfterCrash, OnRecord;
    CheckpointRecords(BeginRun(b), b.published);
    CrashFindsRecord(Publish(BeginRun(b), true));
  }
}
