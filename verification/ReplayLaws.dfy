/** What replay guarantees, and why a crash between recording usage and checkpointing it loses and
    repeats nothing. */
module ReplayLaws {
  import opened Prelude
  import opened Replay

  // ----- The transcript -----

  predicate DistinctIds(ms: seq<Message>) {
    forall i, j :: 0 <= i < j < |ms| ==> ms[i].id != ms[j].id
  }

  lemma NotedKeepsDistinct(t: seq<Message>, m: Message)
    requires DistinctIds(t)
    ensures DistinctIds(Noted(t, m)) && t <= Noted(t, m)
  {
    if Noted(t, m) != t {
      forall i | 0 <= i < |t| ensures t[i].id != m.id {
        assert t[i] in t;
      }
    }
  }

  lemma {:induction false} EventKeepsTranscript(f: Facts, p: Pass, e: Event)
    requires DistinctIds(p.transcript)
    ensures DistinctIds(ReplayEvent(f, p, e).transcript) && p.transcript <= ReplayEvent(f, p, e).transcript
  {
    hide Noted, DistinctIds;
    if e.body.Appended? {
      NotedKeepsDistinct(p.transcript, Named(e));
    } else if e.body.ToolDone? {
      NotedKeepsDistinct(p.transcript, CallMessage(e.body.call));
      NotedKeepsDistinct(p.transcript, ResultMessage(e.body.call));
      NotedKeepsDistinct(Noted(p.transcript, CallMessage(e.body.call)), ResultMessage(e.body.call));
    }
  }

  lemma {:induction false} PassKeepsTranscript(f: Facts, p: Pass, own: seq<Event>)
    requires DistinctIds(p.transcript)
    ensures DistinctIds(ReplayAll(f, p, own).transcript) && p.transcript <= ReplayAll(f, p, own).transcript
    decreases |own|
  {
    hide DistinctIds, ReplayEvent;
    if own != [] {
      EventKeepsTranscript(f, p, own[0]);
      PassKeepsTranscript(f, ReplayEvent(f, p, own[0]), own[1..]);
    }
  }

  lemma {:induction false} CaptureKeepsDistinct(t: seq<Message>, messages: seq<Message>)
    requires DistinctIds(t)
    ensures DistinctIds(Captured(t, messages)) && t <= Captured(t, messages)
    decreases |messages|
  {
    hide DistinctIds, Noted;
    if messages != [] {
      NotedKeepsDistinct(t, messages[0]);
      CaptureKeepsDistinct(Noted(t, messages[0]), messages[1..]);
    }
  }

  /** Transcript ids stay distinct, and without a reset the checkpointed transcript is kept as a
      prefix. */
  lemma TranscriptIdsStayDistinct(base: Snapshot, own: seq<Event>, reset: nat, after: nat)
    requires DistinctIds(base.transcript)
    ensures DistinctIds(Recovered(base, own, reset, after).transcript)
    ensures reset == 0 ==> base.transcript <= Recovered(base, own, reset, after).transcript
  {
    var effective := if reset > after then reset else after;
    var start := StartOf(base, reset, after);
    var f := FactsOf(own, effective, start.transcript);
    var p := ReplayAll(f, start, own);
    PassKeepsTranscript(f, start, own);
    CaptureKeepsDistinct(p.transcript, p.messages);
  }

  // ----- Tools that finished without their assistant message -----

  predicate Uses(ms: seq<Message>, call: Name) {
    exists m :: m in ms && call in m.uses
  }

  /** Every result of the call stands behind a message that made the call. */
  predicate Called(ms: seq<Message>, call: Name) {
    forall k :: 0 <= k < |ms| && call in ms[k].results ==> Uses(ms[..k], call)
  }

  predicate Replaces(e: Event, after: nat) {
    e.body.ContextReplaced? && e.at > after
  }

  /** Where the pass starts over: the last view that replaces the messages, or the first messages. */
  function LastView(ms: seq<Message>, own: seq<Event>, after: nat): (r: seq<Message>)
    decreases |own|
  {
    if own == [] then ms
    else LastView(if Replaces(own[0], after) then own[0].body.view else ms, own[1..], after)
  }

  /** The call was planned, and neither its message nor its result was journaled later. */
  predicate OnlyPlanned(f: Facts, call: Name) {
    call in f.planned && call !in f.future && call !in f.represented
  }

  predicate NoneAppends(own: seq<Event>, call: Name) {
    forall e :: e in own && e.body.Appended? ==> call !in e.body.message.results
  }

  lemma CalledSnoc(ms: seq<Message>, m: Message, call: Name)
    ensures Called(ms + [m], call) <==> Called(ms, call) && (call in m.results ==> Uses(ms, call))
  {
    var all := ms + [m];
    assert all[..|ms|] == ms;
    assert forall k :: 0 <= k < |ms| ==> all[..k] == ms[..k] && all[k] == ms[k];
    if Called(all, call) {
      forall k | 0 <= k < |ms| && call in ms[k].results ensures Uses(ms[..k], call) {
        assert call in all[k].results;
      }
      assert all[|ms|] == m;
    }
  }

  lemma {:induction false} ToolKeepsCalled(f: Facts, p: Pass, e: Event, call: Name)
    requires e.body.ToolDone? && OnlyPlanned(f, call)
    ensures Called(ReplayTool(f, p, e).messages, call) <==> Called(p.messages, call)
    ensures e.body.call == call && e.at > f.after ==> Uses(ReplayTool(f, p, e).messages, call)
  {
    hide Called;
    var q := WithCall(f, p, e);
    var done := e.body.call;
    CalledSnoc(p.messages, CallMessage(done), call);
    CalledSnoc(q.messages, ResultMessage(done), call);
    if done == call && e.at > f.after {
      CallIsThere(f, p, e);
      if ReplayTool(f, p, e).messages != q.messages {
        UsesSnoc(q.messages, ResultMessage(done), call);
      }
    }
  }

  lemma UsesSnoc(ms: seq<Message>, m: Message, call: Name)
    requires Uses(ms, call)
    ensures Uses(ms + [m], call)
  {
    var u :| u in ms && call in u.uses;
    assert u in ms + [m];
  }

  lemma CallIsThere(f: Facts, p: Pass, e: Event)
    requires e.body.ToolDone? && e.at > f.after && OnlyPlanned(f, e.body.call)
    ensures Uses(WithCall(f, p, e).messages, e.body.call)
  {
    var q := WithCall(f, p, e);
    if q.messages != p.messages {
      assert q.messages[|p.messages|] == CallMessage(e.body.call);
    }
  }

  lemma {:induction false} EventKeepsCalled(f: Facts, p: Pass, e: Event, call: Name)
    requires OnlyPlanned(f, call) && !Replaces(e, f.after)
    requires e.body.Appended? ==> call !in e.body.message.results
    ensures Called(ReplayEvent(f, p, e).messages, call) <==> Called(p.messages, call)
  {
    hide Called;
    if e.body.Appended? {
      CalledSnoc(p.messages, Named(e), call);
    } else if e.body.ToolDone? {
      ToolKeepsCalled(f, p, e, call);
    }
  }

  lemma {:induction false} ViewsAgree(a: seq<Message>, b: seq<Message>, own: seq<Event>, after: nat, call: Name)
    requires Called(a, call) <==> Called(b, call)
    ensures Called(LastView(a, own, after), call) <==> Called(LastView(b, own, after), call)
    decreases |own|
  {
    hide Called;
    if own != [] && !Replaces(own[0], after) {
      ViewsAgree(a, b, own[1..], after, call);
    }
  }

  /** Over the whole pass: the results put back for a call that was only planned stand behind that
      call if and only if the last view that replaced the messages (or the checkpoint, if none did)
      already has each of its results of that call behind the call. */
  lemma {:induction false} PutBackResultsHaveCalls(f: Facts, p: Pass, own: seq<Event>, call: Name)
    requires OnlyPlanned(f, call) && NoneAppends(own, call)
    ensures Called(ReplayAll(f, p, own).messages, call) <==> Called(LastView(p.messages, own, f.after), call)
    decreases |own|
  {
    hide Called, ReplayEvent;
    if own != [] {
      var e, q := own[0], ReplayEvent(f, p, own[0]);
      assert forall x :: x in own[1..] ==> x in own;
      PutBackResultsHaveCalls(f, q, own[1..], call);
      if Replaces(e, f.after) {
        ReplacedMessages(f, p, e);
      } else {
        EventKeepsCalled(f, p, e, call);
        ViewsAgree(q.messages, p.messages, own[1..], f.after, call);
      }
    }
  }

  lemma ReplacedMessages(f: Facts, p: Pass, e: Event)
    requires Replaces(e, f.after)
    ensures ReplayEvent(f, p, e).messages == e.body.view
  {
  }

  predicate KeepsView(own: seq<Event>, after: nat) {
    forall e :: e in own ==> !Replaces(e, after)
  }

  lemma {:induction false} EventGrows(f: Facts, p: Pass, e: Event)
    requires !Replaces(e, f.after) && p.toolSeen <= ResultsIn(p.messages)
    ensures var q := ReplayEvent(f, p, e); p.messages <= q.messages && q.toolSeen <= ResultsIn(q.messages)
  {
    var q := ReplayEvent(f, p, e);
    assert p.messages <= q.messages;
    forall id | id in q.toolSeen ensures id in ResultsIn(q.messages) {
      if id in p.toolSeen {
        var m :| m in p.messages && id in m.results;
        assert m in q.messages;
      } else {
        assert q.messages[|q.messages| - 1] == ResultMessage(id);
      }
    }
  }

  lemma {:induction false} PassGrows(f: Facts, p: Pass, own: seq<Event>)
    requires KeepsView(own, f.after) && p.toolSeen <= ResultsIn(p.messages)
    ensures p.messages <= ReplayAll(f, p, own).messages
    decreases |own|
  {
    hide ReplayEvent, ResultsIn;
    if own != [] {
      EventGrows(f, p, own[0]);
      assert forall x :: x in own[1..] ==> x in own;
      PassGrows(f, ReplayEvent(f, p, own[0]), own[1..]);
    }
  }

  lemma PrefixHas(a: seq<Message>, b: seq<Message>, call: Name)
    requires a <= b
    ensures Uses(a, call) ==> Uses(b, call)
    ensures call in ResultsIn(a) ==> call in ResultsIn(b)
  {
    assert forall m :: m in a ==> m in b;
  }

  lemma {:induction false} ToolIsBack(f: Facts, p: Pass, e: Event)
    requires e.body.ToolDone? && e.at > f.after && OnlyPlanned(f, e.body.call) && p.toolSeen <= ResultsIn(p.messages)
    ensures Uses(ReplayEvent(f, p, e).messages, e.body.call)
    ensures e.body.readable ==> e.body.call in ResultsIn(ReplayEvent(f, p, e).messages)
  {
    ToolKeepsCalled(f, p, e, e.body.call);
    if e.body.readable {
      EventGrows(f, p, e);
    }
  }

  /** Unless the messages are replaced, a finished tool that was only planned comes back with its
      call, and with its result if that can be read. */
  lemma {:induction false} FinishedToolsComeBack(f: Facts, p: Pass, own: seq<Event>, i: nat)
    requires KeepsView(own, f.after) && p.toolSeen <= ResultsIn(p.messages)
    requires i < |own| && own[i].body.ToolDone? && own[i].at > f.after && OnlyPlanned(f, own[i].body.call)
    ensures Uses(ReplayAll(f, p, own).messages, own[i].body.call)
    ensures own[i].body.readable ==> own[i].body.call in ResultsIn(ReplayAll(f, p, own).messages)
    decreases |own|
  {
    hide ReplayEvent, ResultsIn, Uses, OnlyPlanned;
    var q := ReplayEvent(f, p, own[0]);
    assert forall x :: x in own[1..] ==> x in own;
    EventGrows(f, p, own[0]);
    if i == 0 {
      ToolIsBack(f, p, own[0]);
      PassGrows(f, q, own[1..]);
      PrefixHas(q.messages, ReplayAll(f, q, own[1..]).messages, own[0].body.call);
    } else {
      FinishedToolsComeBack(f, q, own[1..], i - 1);
    }
  }

  /** In the recovered state: an only planned tool that finished behind the checkpoint, with no
      replaced view behind it, comes back with its call, and its results stand behind the call if
      and only if they did so in the checkpointed messages. */
  lemma {:induction false} RecoveredToolsHaveCalls(base: Snapshot, own: seq<Event>, reset: nat, after: nat, i: nat)
    requires i < |own| && own[i].body.ToolDone?
    requires var effective := if reset > after then reset else after;
             var f := FactsOf(own, effective, StartOf(base, reset, after).transcript);
             KeepsView(own, effective) && own[i].at > effective && OnlyPlanned(f, own[i].body.call)
    ensures var messages, call := Recovered(base, own, reset, after).messages, own[i].body.call;
            && Uses(messages, call) && (own[i].body.readable ==> call in ResultsIn(messages))
            && (Called(messages, call) <==> Called(StartOf(base, reset, after).messages, call))
  {
    hide Called, Uses, ReplayEvent;
    var effective := if reset > after then reset else after;
    var start := StartOf(base, reset, after);
    var f := FactsOf(own, effective, start.transcript);
    FinishedToolsComeBack(f, start, own, i);
    PutBackResultsHaveCalls(f, start, own, own[i].body.call);
    SameView(start.messages, own, effective);
  }

  lemma {:induction false} SameView(ms: seq<Message>, own: seq<Event>, after: nat)
    requires KeepsView(own, after)
    ensures LastView(ms, own, after) == ms
    decreases |own|
  {
    if own != [] {
      assert forall x :: x in own[1..] ==> x in own;
      SameView(ms, own[1..], after);
    }
  }

  // ----- Usage -----

  /** Usage records after a position, in order. */
  function NewUsage(own: seq<Event>, after: nat): (r: seq<Event>)
    ensures forall e :: e in r ==> e.body.UsageRecorded? && e.at > after && e in own
  {
    if own == [] then []
    else (if own[0].body.UsageRecorded? && own[0].at > after then [own[0]] else []) + NewUsage(own[1..], after)
  }

  predicate AllUsage(records: seq<Event>) {
    forall e :: e in records ==> e.body.UsageRecorded?
  }

  function CountAll(u: Usage, records: seq<Event>): (r: Usage)
    requires AllUsage(records)
    decreases |records|
  {
    if records == [] then u
    else CountAll(Counted(u, KeyOf(records[0]), records[0].body.tokens), records[1..])
  }

  lemma {:induction false} PassCountsUsage(f: Facts, p: Pass, own: seq<Event>)
    ensures ReplayAll(f, p, own).usage == CountAll(p.usage, NewUsage(own, f.after))
    decreases |own|
  {
    if own != [] {
      var e, rest := own[0], NewUsage(own[1..], f.after);
      var q := ReplayEvent(f, p, e);
      PassCountsUsage(f, q, own[1..]);
      if e.body.UsageRecorded? && e.at > f.after {
        assert NewUsage(own, f.after) == [e] + rest && ([e] + rest)[1..] == rest;
      } else {
        assert q.usage == p.usage;
        assert NewUsage(own, f.after) == rest;
      }
    }
  }

  /** Replayed usage is the checkpointed usage (or none, after a later reset) plus the new records. */
  lemma ReplayedUsage(base: Snapshot, own: seq<Event>, reset: nat, after: nat)
    ensures Recovered(base, own, reset, after).usage ==
            if reset > after then CountAll(NO_USAGE, NewUsage(own, reset))
                else CountAll(base.usage, NewUsage(own, after))
  {
    var effective := if reset > after then reset else after;
    var start := StartOf(base, reset, after);
    PassCountsUsage(FactsOf(own, effective, start.transcript), start, own);
  }

  /** The first record of its request, and not yet in the checkpoint. */
  predicate IsNew(records: seq<Event>, i: nat, counted: set<Key>)
    requires AllUsage(records) && i < |records|
  {
    KeyOf(records[i]) !in counted && forall j :: 0 <= j < i ==> KeyOf(records[j]) != KeyOf(records[i])
  }

  /** The sum over the first records of the requests that are new. */
  function SumNew(records: seq<Event>, n: nat, counted: set<Key>): (t: Tokens)
    requires AllUsage(records) && n <= |records|
  {
    if n == 0 then ZERO
    else Plus(SumNew(records, n - 1, counted), if IsNew(records, n - 1, counted) then records[n - 1].body.tokens
        else ZERO)
  }

  function Keys(records: seq<Event>): (s: set<Key>)
    requires AllUsage(records)
  {
    set e | e in records :: KeyOf(e)
  }

  lemma {:induction false} CountAllSnoc(u: Usage, records: seq<Event>, e: Event)
    requires AllUsage(records) && e.body.UsageRecorded?
    ensures AllUsage(records + [e])
    ensures CountAll(u, records + [e]) == Counted(CountAll(u, records), KeyOf(e), e.body.tokens)
    decreases |records|
  {
    assert forall x :: x in records + [e] ==> x in records || x == e;
    if records == [] {
      assert ([e])[1..] == [] && records + [e] == [e];
    } else {
      assert (records + [e])[0] == records[0] && (records + [e])[1..] == records[1..] + [e];
      CountAllSnoc(Counted(u, KeyOf(records[0]), records[0].body.tokens), records[1..], e);
    }
  }

  lemma CountOne(u: Usage, sum: Tokens, keys: set<Key>, k: Key, t: Tokens)
    ensures var isNew := k !in u.requests && k !in keys;
            Counted(Usage(Plus(u.total, sum), u.requests + keys), k, t) ==
              Usage(Plus(u.total, Plus(sum, if isNew then t else ZERO)), u.requests + (keys + {k}))
  {
    assert (u.requests + keys) + {k} == u.requests + (keys + {k});
    if k in u.requests || k in keys {
      assert u.requests + keys == u.requests + (keys + {k});
    }
  }

  lemma KeysGrow(records: seq<Event>, n: nat)
    requires AllUsage(records) && n < |records|
    ensures AllUsage(records[..n]) && AllUsage(records[..n + 1])
    ensures Keys(records[..n + 1]) == Keys(records[..n]) + {KeyOf(records[n])}
  {
    assert records[..n + 1] == records[..n] + [records[n]];
    assert forall e :: e in records[..n + 1] <==> e in records[..n] || e == records[n];
    assert forall e :: e in records[..n] ==> e in records;
  }

  lemma {:induction false} CountsPrefix(u: Usage, records: seq<Event>, n: nat)
    requires AllUsage(records) && n <= |records|
    ensures AllUsage(records[..n])
    ensures CountAll(u, records[..n]) == Usage(Plus(u.total, SumNew(records, n, u.requests)), u.requests
        + Keys(records[..n]))
    decreases n
  {
    if n == 0 {
      assert u.requests + Keys(records[..0]) == u.requests;
    } else {
      hide CountAll, Keys, Counted, Plus;
      var e := records[n - 1];
      CountsPrefix(u, records, n - 1);
      assert records[..n] == records[..n - 1] + [e];
      KeysGrow(records, n - 1);
      CountAllSnoc(u, records[..n - 1], e);
      KeysBefore(records, n - 1);
      CountOne(u, SumNew(records, n - 1, u.requests), Keys(records[..n - 1]), KeyOf(e), e.body.tokens);
    }
  }

  lemma KeysBefore(records: seq<Event>, n: nat)
    requires AllUsage(records) && n < |records|
    ensures AllUsage(records[..n])
    ensures KeyOf(records[n]) in Keys(records[..n]) <==>
            exists j :: 0 <= j < n && KeyOf(records[j]) == KeyOf(records[n])
  {
    assert forall e :: e in records[..n] ==> e in records;
    if KeyOf(records[n]) in Keys(records[..n]) {
      var e :| e in records[..n] && KeyOf(e) == KeyOf(records[n]);
      var j :| 0 <= j < n && records[..n][j] == e;
      assert records[j] == e;
    }
    if j :| 0 <= j < n && KeyOf(records[j]) == KeyOf(records[n]) {
      assert records[..n][j] == records[j] && records[j] in records[..n];
    }
  }

  /** Every request is counted once: the total grows by the first record of each request that the
      checkpoint did not know, and by nothing else. */
  lemma EachRequestCountsOnce(u: Usage, records: seq<Event>)
    requires AllUsage(records)
    ensures CountAll(u, records) == Usage(Plus(u.total, SumNew(records, |records|, u.requests)), u.requests
        + Keys(records))
  {
    CountsPrefix(u, records, |records|);
    assert records[..|records|] == records;
  }
}
