/** Rebuilding an agent from a checkpoint and the journal behind it (agent/state_replay.go). */
module Replay {
  import opened Prelude

  datatype Tokens = Tokens(input: nat, output: nat, cacheRead: nat, cacheCreate: nat, server: nat)

  function Plus(a: Tokens, b: Tokens): (r: Tokens) {
    Tokens(a.input + b.input, a.output + b.output, a.cacheRead + b.cacheRead, a.cacheCreate + b.cacheCreate,
        a.server + b.server)
  }

  const ZERO := Tokens(0, 0, 0, 0, 0)

  /** A usage record is keyed by its request, or by its event if it names none. */
  datatype Key = Request(name: Name) | OfEvent(at: nat)

  datatype Usage = Usage(total: Tokens, requests: set<Key>)

  const NO_USAGE := Usage(ZERO, {})

  function Counted(u: Usage, k: Key, t: Tokens): (r: Usage) {
    if k in u.requests then u else Usage(Plus(u.total, t), u.requests + {k})
  }

  datatype MessageId = Known(name: Name) | AtEvent(at: nat) | ResultOf(call: Name) | CallOf(call: Name)

  datatype Message = Message(id: MessageId, uses: set<Name>, results: set<Name>, transient: bool, compaction: bool)

  datatype Author = ByUser | ByAssistant | ByContext

  datatype Body =
    | SessionReset
    | Appended(author: Author, message: Message)
    | Planned(call: Name)
    | ToolDone(call: Name, readable: bool)
    | UsageRecorded(request: Name, tokens: Tokens)
    | ContextReplaced(view: seq<Message>)
    | OtherFact

  datatype Event = Event(at: nat, stream: Name, body: Body)

  datatype Snapshot = Snapshot(generation: nat, revision: nat, messages: seq<Message>, transcript: seq<Message>,
                               usage: Usage, turns: nat, userTurns: nat)

  // ----- Reading the journal -----

  /** Position of the stream's last reset, 0 if there is none. */
  function LastReset(events: seq<Event>, stream: Name): (n: nat) {
    if events == [] then 0
    else
      var e := events[|events| - 1];
      if e.stream == stream && e.body.SessionReset? then e.at else LastReset(events[..|events| - 1], stream)
  }

  /** The stream's own events after a position. */
  function Own(events: seq<Event>, stream: Name, reset: nat): (r: seq<Event>)
    decreases |events|
  {
    if events == [] then []
    else
      (if events[0].stream == stream && events[0].at > reset then [events[0]] else [])
      + Own(events[1..], stream, reset)
  }

  function PlannedCalls(own: seq<Event>): (s: set<Name>) {
    set e | e in own && e.body.Planned? :: e.body.call
  }

  /** Calls of assistant messages that come after the checkpoint. */
  function FutureCalls(own: seq<Event>, after: nat): (s: set<Name>) {
    set e, id | e in own && e.at > after && e.body.Appended? && e.body.author == ByAssistant
        && id in e.body.message.uses :: id
  }

  function ResultsIn(ms: seq<Message>): (s: set<Name>) {
    set m, id | m in ms && id in m.results :: id
  }

  function ResultsAppended(own: seq<Event>): (s: set<Name>) {
    set e, id | e in own && e.body.Appended? && id in e.body.message.results :: id
  }

  // ----- The main pass -----

  datatype Facts = Facts(after: nat, planned: set<Name>, future: set<Name>, represented: set<Name>)

  datatype Pass = Pass(messages: seq<Message>, transcript: seq<Message>, toolSeen: set<Name>, usage: Usage,
      turns: nat, userTurns: nat)

  predicate HasId(ms: seq<Message>, id: MessageId) {
    exists m :: m in ms && m.id == id
  }

  function Noted(transcript: seq<Message>, m: Message): (r: seq<Message>) {
    if m.transient || m.compaction || HasId(transcript, m.id) then transcript else transcript + [m]
  }

  function CallMessage(call: Name): (m: Message) {
    Message(CallOf(call), {call}, {}, false, false)
  }

  function ResultMessage(call: Name): (m: Message) {
    Message(ResultOf(call), {}, {call}, false, false)
  }

  /** A journaled message that has no id of its own is named after its event. */
  function Named(e: Event): (m: Message)
    requires e.body.Appended?
  {
    if e.body.message.id == Known(NoName) then e.body.message.(id := AtEvent(e.at)) else e.body.message
  }

  function ReplayMessage(f: Facts, p: Pass, e: Event): (r: Pass)
    requires e.body.Appended?
  {
    var m := Named(e);
    var q := p.(transcript := Noted(p.transcript, m));
    if e.at <= f.after || HasId(p.messages, m.id) then q
    else
      var request := e.body.author == ByUser && !m.transient && m.results == {};
      q.(messages := p.messages + [m],
         userTurns := if request then p.userTurns + 1 else p.userTurns,
         turns := if e.body.author == ByAssistant then p.turns + 1 else p.turns)
  }

  /** A call whose assistant message was never journaled is put back before its result. */
  function WithCall(f: Facts, p: Pass, e: Event): (r: Pass)
    requires e.body.ToolDone?
  {
    var call := e.body.call;
    if e.at > f.after && call !in f.future && call in f.planned && !(exists m :: m in p.messages && call in m.uses)
    then p.(messages := p.messages + [CallMessage(call)], transcript := Noted(p.transcript, CallMessage(call)))
    else p
  }

  function ReplayTool(f: Facts, p: Pass, e: Event): (r: Pass)
    requires e.body.ToolDone?
  {
    var call := e.body.call;
    if call in f.represented then p
    else
      var q := WithCall(f, p, e);
      if !e.body.readable then q
      else
        var shown := if e.at > f.after && call !in q.toolSeen
                     then q.(messages := q.messages + [ResultMessage(call)], toolSeen := q.toolSeen + {call}) else q;
        shown.(transcript := Noted(shown.transcript, ResultMessage(call)))
  }

  function KeyOf(e: Event): (k: Key)
    requires e.body.UsageRecorded?
  {
    if e.body.request == NoName then OfEvent(e.at) else Request(e.body.request)
  }

  function ReplayEvent(f: Facts, p: Pass, e: Event): (r: Pass) {
    match e.body
    case Appended(_, _) => ReplayMessage(f, p, e)
    case ToolDone(_, _) => ReplayTool(f, p, e)
    case UsageRecorded(_, tokens) => if e.at <= f.after then p else p.(usage := Counted(p.usage, KeyOf(e), tokens))
    case ContextReplaced(view) => if e.at <= f.after then p else p.(messages := view)
    case _ => p
  }

  function ReplayAll(f: Facts, p: Pass, own: seq<Event>): (r: Pass)
    decreases |own|
  {
    if own == [] then p else ReplayAll(f, ReplayEvent(f, p, own[0]), own[1..])
  }

  /** Working messages the transcript does not show yet. */
  function Captured(transcript: seq<Message>, messages: seq<Message>): (r: seq<Message>)
    decreases |messages|
  {
    if messages == [] then transcript else Captured(Noted(transcript, messages[0]), messages[1..])
  }

  function FactsOf(own: seq<Event>, after: nat, transcript: seq<Message>): (f: Facts) {
    Facts(after, PlannedCalls(own), FutureCalls(own, after), ResultsIn(transcript) + ResultsAppended(own))
  }

  function StartOf(base: Snapshot, reset: nat, after: nat): (p: Pass) {
    var transcript := if reset > 0 then [] else base.transcript;
    if reset > after then Pass([], transcript, {}, NO_USAGE, 0, 0)
    else Pass(base.messages, transcript, ResultsIn(base.messages), base.usage, base.turns, base.userTurns)
  }

  /** The replayed state as a function of the checkpoint, the position of the last reset and the
      stream's own events after it. */
  function Recovered(base: Snapshot, own: seq<Event>, reset: nat, after: nat): (r: Snapshot) {
    var effective := if reset > after then reset else after;
    var start := StartOf(base, reset, after);
    var p := ReplayAll(FactsOf(own, effective, start.transcript), start, own);
    Snapshot(if reset > after then base.generation + 1 else base.generation, base.revision,
             p.messages, Captured(p.transcript, p.messages), p.usage, p.turns, p.userTurns)
  }

  // ----- The passes as loops -----

  method FindLastReset(events: seq<Event>, stream: Name) returns (reset: nat)
    ensures reset == LastReset(events, stream)
  {
    reset := 0;
    for i := 0 to |events|
      invariant reset == LastReset(events[..i], stream)
    {
      assert events[..i + 1][..i] == events[..i];
      if events[i].stream == stream && events[i].body.SessionReset? {
        reset := events[i].at;
      }
    }
    assert events[..|events|] == events;
  }

  /** One pass over all events that collects what the main pass needs to know. */
  method CollectFacts(events: seq<Event>, stream: Name, reset: nat, after: nat,
      transcript: seq<Message>) returns (f: Facts)
    ensures f == FactsOf(Own(events, stream, reset), after, transcript)
  {
    hide Own;
    var planned: set<Name>, future: set<Name>, represented := {}, {}, ResultsIn(transcript);
    ghost var own := Own(events, stream, reset);
    ghost var done: seq<Event> := [];
    assert events[0..] == events;
    for i := 0 to |events|
      invariant done + Own(events[i..], stream, reset) == own
      invariant planned == PlannedCalls(done) && future == FutureCalls(done, after)
      invariant represented == ResultsIn(transcript) + ResultsAppended(done)
    {
      OwnStep(events, stream, reset, i);
      var e := events[i];
      if e.stream == stream && e.at > reset {
        FactsStep(done, e, after);
        if e.body.Planned? {
          planned := planned + {e.body.call};
        }
        if e.body.Appended? {
          represented := represented + e.body.message.results;
          if e.at > after && e.body.author == ByAssistant {
            future := future + e.body.message.uses;
          }
        }
        done := done + [e];
      }
    }
    OwnNothing(events[|events|..], stream, reset);
    f := Facts(after, planned, future, represented);
  }

  lemma OwnNothing(events: seq<Event>, stream: Name, reset: nat)
    requires events == []
    ensures Own(events, stream, reset) == []
  {
  }

  lemma OwnStep(events: seq<Event>, stream: Name, reset: nat, i: nat)
    requires i < |events|
    ensures Own(events[i..], stream, reset) ==
            if events[i].stream == stream && events[i].at > reset
            then [events[i]] + Own(events[i + 1..], stream, reset) else Own(events[i + 1..], stream, reset)
  {
    assert events[i..][1..] == events[i + 1..];
    assert [] + Own(events[i + 1..], stream, reset) == Own(events[i + 1..], stream, reset);
  }

  lemma FactsStep(done: seq<Event>, e: Event, after: nat)
    ensures PlannedCalls(done + [e]) == PlannedCalls(done) + if e.body.Planned? then {e.body.call} else {}
    ensures FutureCalls(done + [e], after) == FutureCalls(done, after)
            + if e.at > after && e.body.Appended? && e.body.author == ByAssistant then e.body.message.uses else {}
    ensures ResultsAppended(done + [e]) == ResultsAppended(done) + if e.body.Appended? then e.body.message.results
        else {}
  {
    var all := done + [e];
    assert forall x :: x in all <==> x in done || x == e;
  }

  method MainPass(events: seq<Event>, stream: Name, reset: nat, f: Facts, start: Pass) returns (p: Pass)
    ensures p == ReplayAll(f, start, Own(events, stream, reset))
  {
    hide Own, ReplayEvent, ReplayAll;
    p := start;
    assert events[0..] == events;
    for i := 0 to |events|
      invariant ReplayAll(f, p, Own(events[i..], stream, reset)) == ReplayAll(f, start, Own(events, stream, reset))
    {
      OwnStep(events, stream, reset, i);
      if events[i].stream == stream && events[i].at > reset {
        ReplayStep(f, p, events[i], Own(events[i + 1..], stream, reset));
        p := ReplayEvent(f, p, events[i]);
      }
    }
    OwnNothing(events[|events|..], stream, reset);
    ReplayNothing(f, p);
  }

  lemma ReplayNothing(f: Facts, p: Pass)
    ensures ReplayAll(f, p, []) == p
  {
  }

  lemma ReplayStep(f: Facts, p: Pass, e: Event, rest: seq<Event>)
    ensures ReplayAll(f, p, [e] + rest) == ReplayAll(f, ReplayEvent(f, p, e), rest)
  {
    assert ([e] + rest)[1..] == rest;
  }

  method Capture(transcript: seq<Message>, messages: seq<Message>) returns (r: seq<Message>)
    ensures r == Captured(transcript, messages)
  {
    hide Noted;
    r := transcript;
    assert messages[0..] == messages;
    for i := 0 to |messages|
      invariant Captured(r, messages[i..]) == Captured(transcript, messages)
    {
      assert messages[i..][1..] == messages[i + 1..];
      r := Noted(r, messages[i]);
    }
  }

  /** Replay depends only on the checkpoint and on the stream's own events after its last reset. */
  method ReplayAgentState(base: Snapshot, events: seq<Event>, after: nat, stream: Name) returns (r: Snapshot)
    ensures var reset := LastReset(events, stream);
            r == Recovered(base, Own(events, stream, reset), reset, after)
  {
    var reset := FindLastReset(events, stream);
    var effective := if reset > after then reset else after;
    var start := StartOf(base, reset, after);
    var facts := CollectFacts(events, stream, reset, effective, start.transcript);
    var p := MainPass(events, stream, reset, facts, start);
    var transcript := Capture(p.transcript, p.messages);
    var generation := base.generation;
    if reset > after {
      generation := generation + 1;
    }
    r := Snapshot(generation, base.revision, p.messages, transcript, p.usage, p.turns, p.userTurns);
  }
}
