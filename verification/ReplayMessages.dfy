/** What replay brings back (agent/state_replay.go): which messages and which transcript a restart finds, read
    off the journal. */
module ReplayMessages {
  import opened Prelude
  import opened Replay
  import opened ReplayLaws

  // ----- The working messages -----

  /** The messages before event `n`, when event `i` has added `added[i]`. */
  function Present(first: seq<Message>, own: seq<Event>, after: nat, added: seq<seq<Message>>, n: nat)
    : (r: seq<Message>)
    requires n <= |own| == |added|
  {
    if n == 0 then first
    else if Replaces(own[n - 1], after) then own[n - 1].body.view
    else Present(first, own, after, added, n - 1) + added[n - 1]
  }

  /** A readable result of this call was journaled behind the position and before event `i`. */
  predicate DoneBefore(own: seq<Event>, after: nat, i: nat, call: Name)
    requires i <= |own|
  {
    exists j :: 0 <= j < i && IsReadable(own[j], after, call)
  }

  predicate IsReadable(e: Event, after: nat, call: Name) {
    e.body.ToolDone? && e.body.readable && e.at > after && e.body.call == call
  }

  /** What event `i` adds to the messages shown so far: a message whose id is not there yet; for a finished
      tool whose result no message holds, the planned call if nobody makes it, and the first readable
      result. */
  function Brought(f: Facts, p: Pass, own: seq<Event>, i: nat, shown: seq<Message>): (r: seq<Message>)
    requires i < |own|
  {
    var e := own[i];
    if e.at <= f.after then []
    else
      match e.body
      case Appended(_, _) => if HasId(shown, Named(e).id) then [] else [Named(e)]
      case ToolDone(call, readable) =>
        if call in f.represented then []
        else
          var first := readable && call !in p.toolSeen && !DoneBefore(own, f.after, i, call);
          (if call in f.planned && call !in f.future && !Uses(shown, call)
           then [Message(CallOf(call), {call}, {}, false, false)] else [])
          + (if first then [Message(ResultOf(call), {}, {call}, false, false)] else [])
      case _ => []
  }

  /** Every event has added exactly what it brings. */
  ghost predicate Explains(f: Facts, p: Pass, own: seq<Event>, added: seq<seq<Message>>) {
    && |added| == |own|
    && forall i :: 0 <= i < |own| ==>
         added[i] == Brought(f, p, own, i, Present(p.messages, own, f.after, added, i))
  }

  /** Journaled messages that are new. */
  predicate IsNewMessage(own: seq<Event>, added: seq<seq<Message>>, i: nat)
    requires i < |own| == |added|
  {
    own[i].body.Appended? && added[i] != []
  }

  function AssistantTurns(own: seq<Event>, added: seq<seq<Message>>, n: nat): (k: nat)
    requires n <= |own| == |added|
  {
    if n == 0 then 0
    else
      AssistantTurns(own, added, n - 1)
      + if IsNewMessage(own, added, n - 1) && own[n - 1].body.author == ByAssistant then 1 else 0
  }

  /** Requests of the user: neither transient nor carrying results. */
  function Requests(own: seq<Event>, added: seq<seq<Message>>, n: nat): (k: nat)
    requires n <= |own| == |added|
  {
    if n == 0 then 0
    else
      var b := own[n - 1].body;
      Requests(own, added, n - 1)
      + if IsNewMessage(own, added, n - 1) && b.author == ByUser && !b.message.transient && b.message.results == {}
        then 1 else 0
  }

  lemma {:induction false} ReplaySnoc(f: Facts, p: Pass, own: seq<Event>, e: Event)
    ensures ReplayAll(f, p, own + [e]) == ReplayEvent(f, ReplayAll(f, p, own), e)
    decreases |own|
  {
    hide ReplayEvent;
    if own == [] {
      assert own + [e] == [e] && [e][1..] == [];
      ReplayNothing(f, ReplayEvent(f, p, e));
    } else {
      assert (own + [e])[0] == own[0] && (own + [e])[1..] == own[1..] + [e];
      ReplaySnoc(f, ReplayEvent(f, p, own[0]), own[1..], e);
    }
  }

  lemma {:induction false} PresentPrefix(first: seq<Message>, own: seq<Event>, after: nat, added: seq<seq<Message>>,
                                         e: Event, a: seq<Message>, n: nat)
    requires n <= |own| == |added|
    ensures Present(first, own + [e], after, added + [a], n) == Present(first, own, after, added, n)
  {
    if n > 0 {
      PresentPrefix(first, own, after, added, e, a, n - 1);
    }
  }

  lemma BroughtPrefix(f: Facts, p: Pass, own: seq<Event>, e: Event, i: nat, shown: seq<Message>)
    requires i < |own|
    ensures Brought(f, p, own + [e], i, shown) == Brought(f, p, own, i, shown)
  {
    assert forall j :: 0 <= j < |own| ==> (own + [e])[j] == own[j];
  }

  lemma {:induction false} CountsPrefixed(own: seq<Event>, added: seq<seq<Message>>, e: Event, a: seq<Message>, n: nat)
    requires n <= |own| == |added|
    ensures AssistantTurns(own + [e], added + [a], n) == AssistantTurns(own, added, n)
    ensures Requests(own + [e], added + [a], n) == Requests(own, added, n)
  {
    if n > 0 {
      CountsPrefixed(own, added, e, a, n - 1);
    }
  }

  /** The pass and its account agree. */
  ghost predicate Agree(f: Facts, p: Pass, own: seq<Event>, added: seq<seq<Message>>, q: Pass) {
    && Explains(f, p, own, added)
    && q.messages == Present(p.messages, own, f.after, added, |own|)
    && (forall c :: c in q.toolSeen <==> c in p.toolSeen || (c !in f.represented && DoneBefore(own, f.after, |own|, c)))
    && q.turns == p.turns + AssistantTurns(own, added, |own|)
    && q.userTurns == p.userTurns + Requests(own, added, |own|)
  }

  lemma {:induction false} EventBrings(f: Facts, p: Pass, own: seq<Event>, added: seq<seq<Message>>, q: Pass, e: Event)
    requires Agree(f, p, own, added, q)
    ensures var a := Brought(f, p, own + [e], |own|, q.messages);
            var r := ReplayEvent(f, q, e);
            && r.messages == (if Replaces(e, f.after) then e.body.view else q.messages + a)
            && r.turns == q.turns + (if e.body.Appended? && a != [] && e.body.author == ByAssistant then 1 else 0)
            && r.userTurns == q.userTurns + (if e.body.Appended? && a != [] && e.body.author == ByUser
                 && !e.body.message.transient && e.body.message.results == {} then 1 else 0)
            && (forall c :: c in r.toolSeen <==>
                  c in q.toolSeen || (c !in f.represented && IsReadable(e, f.after, c)))
  {
    hide Noted, Explains;
    var all := own + [e];
    assert all[|own|] == e;
    forall c ensures DoneBefore(all, f.after, |own|, c) <==> DoneBefore(own, f.after, |own|, c) {
      DonePrefix(own, e, f.after, c);
    }
  }

  lemma DonePrefix(own: seq<Event>, e: Event, after: nat, c: Name)
    ensures DoneBefore(own + [e], after, |own|, c) <==> DoneBefore(own, after, |own|, c)
  {
    var all := own + [e];
    if j :| 0 <= j < |own| && IsReadable(own[j], after, c) {
      assert all[j] == own[j];
    }
  }

  lemma {:induction false} ExplainsSnoc(f: Facts, p: Pass, own: seq<Event>, added: seq<seq<Message>>, e: Event)
    requires Explains(f, p, own, added)
    ensures var a := Brought(f, p, own + [e], |own|, Present(p.messages, own, f.after, added, |own|));
            Explains(f, p, own + [e], added + [a])
  {
    var a := Brought(f, p, own + [e], |own|, Present(p.messages, own, f.after, added, |own|));
    var all, more := own + [e], added + [a];
    hide Brought, Present;
    forall i | 0 <= i < |all| ensures more[i] == Brought(f, p, all, i, Present(p.messages, all, f.after, more, i)) {
      PresentPrefix(p.messages, own, f.after, added, e, a, i);
      if i < |own| {
        BroughtPrefix(f, p, own, e, i, Present(p.messages, own, f.after, added, i));
      }
    }
  }

  lemma {:induction false} AgreeSnoc(f: Facts, p: Pass, own: seq<Event>, added: seq<seq<Message>>, q: Pass, e: Event)
    requires Agree(f, p, own, added, q)
    ensures var a := Brought(f, p, own + [e], |own|, q.messages);
            Agree(f, p, own + [e], added + [a], ReplayEvent(f, q, e))
  {
    var a := Brought(f, p, own + [e], |own|, q.messages);
    var all, more := own + [e], added + [a];
    EventBrings(f, p, own, added, q, e);
    ExplainsSnoc(f, p, own, added, e);
    hide ReplayEvent, Brought, Explains, DoneBefore, IsReadable, Present, AssistantTurns, Requests, Replaces;
    assert |all| == |own| + 1;
    PresentSnoc(p.messages, own, f.after, added, e, a);
    CountsSnoc(own, added, e, a);
    DoneSnoc(own, e, f.after);
  }

  lemma {:induction false} PresentSnoc(first: seq<Message>, own: seq<Event>, after: nat, added: seq<seq<Message>>,
                                       e: Event, a: seq<Message>)
    requires |own| == |added|
    ensures Present(first, own + [e], after, added + [a], |own| + 1) ==
            if Replaces(e, after) then e.body.view else Present(first, own, after, added, |own|) + a
  {
    PresentPrefix(first, own, after, added, e, a, |own|);
    assert (own + [e])[|own|] == e && (added + [a])[|own|] == a;
  }

  lemma {:induction false} CountsSnoc(own: seq<Event>, added: seq<seq<Message>>, e: Event, a: seq<Message>)
    requires |own| == |added|
    ensures AssistantTurns(own + [e], added + [a], |own| + 1) ==
            AssistantTurns(own, added, |own|)
            + if e.body.Appended? && a != [] && e.body.author == ByAssistant then 1 else 0
    ensures Requests(own + [e], added + [a], |own| + 1) ==
            Requests(own, added, |own|) + if e.body.Appended? && a != [] && e.body.author == ByUser
              && !e.body.message.transient && e.body.message.results == {} then 1 else 0
  {
    CountsPrefixed(own, added, e, a, |own|);
    assert (own + [e])[|own|] == e && (added + [a])[|own|] == a;
  }

  lemma DoneSnoc(own: seq<Event>, e: Event, after: nat)
    ensures forall c :: DoneBefore(own + [e], after, |own| + 1, c) <==>
                        DoneBefore(own, after, |own|, c) || IsReadable(e, after, c)
  {
    var all := own + [e];
    forall c
      ensures DoneBefore(all, after, |own| + 1, c) <==> DoneBefore(own, after, |own|, c) || IsReadable(e, after, c)
    {
      assert all[|own|] == e && forall j :: 0 <= j < |own| ==> all[j] == own[j];
    }
  }

  /** The whole pass: its messages are those that its events add, one after the other, to the first messages
      or to the last view that replaced them; its counters grow by the new messages of the assistant and the
      new requests of the user. */
  lemma {:induction false} PassIsExplained(f: Facts, p: Pass, own: seq<Event>) returns (added: seq<seq<Message>>)
    ensures Explains(f, p, own, added)
    ensures var q := ReplayAll(f, p, own);
            && q.messages == Present(p.messages, own, f.after, added, |own|)
            && q.turns == p.turns + AssistantTurns(own, added, |own|)
            && q.userTurns == p.userTurns + Requests(own, added, |own|)
  {
    added := Explain(f, p, own);
  }

  lemma {:induction false} Explain(f: Facts, p: Pass, own: seq<Event>) returns (added: seq<seq<Message>>)
    ensures Agree(f, p, own, added, ReplayAll(f, p, own))
    decreases |own|
  {
    if own == [] {
      added := [];
    } else {
      var front, e := own[..|own| - 1], own[|own| - 1];
      assert own == front + [e];
      var before := Explain(f, p, front);
      hide Agree, ReplayEvent;
      ReplaySnoc(f, p, front, e);
      AgreeSnoc(f, p, front, before, ReplayAll(f, p, front), e);
      added := before + [Brought(f, p, own, |front|, ReplayAll(f, p, front).messages)];
    }
  }

  // ----- What that means -----

  /** The part of the journal behind the last replacing view. */
  function ViewStart(own: seq<Event>, after: nat): (n: nat)
    ensures n <= |own|
  {
    if own == [] then 0
    else if Replaces(own[|own| - 1], after) then |own|
    else ViewStart(own[..|own| - 1], after)
  }

  function Flat(added: seq<seq<Message>>): (r: seq<Message>) {
    if added == [] then [] else Flat(added[..|added| - 1]) + added[|added| - 1]
  }

  lemma {:induction false} LastViewSnoc(ms: seq<Message>, own: seq<Event>, e: Event, after: nat)
    ensures LastView(ms, own + [e], after) == if Replaces(e, after) then e.body.view else LastView(ms, own, after)
    decreases |own|
  {
    if own == [] {
      assert own + [e] == [e] && [e][1..] == [];
    } else {
      assert (own + [e])[0] == own[0] && (own + [e])[1..] == own[1..] + [e];
      LastViewSnoc(if Replaces(own[0], after) then own[0].body.view else ms, own[1..], e, after);
    }
  }

  /** The last view, and behind it everything added since, in journal order. */
  lemma {:induction false} PresentIsViewAndRest(
      first: seq<Message>, own: seq<Event>, after: nat, added: seq<seq<Message>>)
    requires |own| == |added|
    ensures Present(first, own, after, added, |own|) ==
            LastView(first, own, after) + Flat(added[ViewStart(own, after)..])
    decreases |own|
  {
    if own == [] {
      assert LastView(first, own, after) + [] == LastView(first, own, after);
    } else {
      var front, e := own[..|own| - 1], own[|own| - 1];
      var before, a := added[..|added| - 1], added[|added| - 1];
      assert own == front + [e] && added == before + [a];
      LastViewSnoc(first, front, e, after);
      PresentPrefix(first, front, after, before, e, a, |front|);
      if Replaces(e, after) {
        assert added[|own|..] == [] && LastView(first, own, after) + [] == LastView(first, own, after);
      } else {
        PresentIsViewAndRest(first, front, after, before);
        var n := ViewStart(front, after);
        assert added[n..] == before[n..] + [a];
        assert added[n..][..|added[n..]| - 1] == before[n..];
        Assoc(LastView(first, front, after), Flat(before[n..]), a);
      }
    }
  }

  lemma {:induction false} FlatHas(added: seq<seq<Message>>, i: nat, m: Message)
    requires i < |added| && m in added[i]
    ensures m in Flat(added)
  {
    if i < |added| - 1 {
      FlatHas(added[..|added| - 1], i, m);
    }
  }

  lemma {:induction false} StaysPresent(first: seq<Message>, own: seq<Event>, after: nat, added: seq<seq<Message>>,
                                        i: nat, n: nat, m: Message)
    requires i <= n <= |own| == |added| && m in Present(first, own, after, added, i)
    requires forall j :: i <= j < n ==> !Replaces(own[j], after)
    ensures m in Present(first, own, after, added, n)
    decreases n
  {
    if i < n {
      StaysPresent(first, own, after, added, i, n - 1, m);
    }
  }

  lemma {:induction false} ViewStartMeans(own: seq<Event>, after: nat)
    ensures forall j :: ViewStart(own, after) <= j < |own| ==> !Replaces(own[j], after)
    ensures ViewStart(own, after) > 0 ==> Replaces(own[ViewStart(own, after) - 1], after)
  {
    if own != [] && !Replaces(own[|own| - 1], after) {
      ViewStartMeans(own[..|own| - 1], after);
    }
  }

  /** Nothing is lost: every message journaled behind the position and behind the last replacing view is
      there again, itself or one with its id that was there before it. */
  lemma {:induction false} JournaledMessagesComeBack(f: Facts, p: Pass, own: seq<Event>, i: nat)
    requires ViewStart(own, f.after) <= i < |own| && own[i].body.Appended? && own[i].at > f.after
    ensures HasId(ReplayAll(f, p, own).messages, Named(own[i]).id)
  {
    var added := PassIsExplained(f, p, own);
    ViewStartMeans(own, f.after);
    var shown, id := Present(p.messages, own, f.after, added, i), Named(own[i]).id;
    assert added[i] == Brought(f, p, own, i, shown);
    hide ReplayAll, Explains, Present, ViewStart;
    var m: Message;
    if HasId(shown, id) {
      m :| m in shown && m.id == id;
      StaysPresent(p.messages, own, f.after, added, i, |own|, m);
    } else {
      m := Named(own[i]);
      NextPresent(p.messages, own, f.after, added, i);
      assert added[i][0] == m && m in shown + added[i];
      StaysPresent(p.messages, own, f.after, added, i + 1, |own|, m);
    }
  }

  lemma NextPresent(first: seq<Message>, own: seq<Event>, after: nat, added: seq<seq<Message>>, i: nat)
    requires i < |own| == |added| && !Replaces(own[i], after)
    ensures Present(first, own, after, added, i + 1) == Present(first, own, after, added, i) + added[i]
  {
  }

  /** Messages without an id of their own are told apart by the position of their event. */
  lemma NamesAreApart(e: Event, g: Event)
    requires e.body.Appended? && g.body.Appended? && e.at != g.at
    requires e.body.message.id == Known(NoName)
    ensures Named(e) == e.body.message.(id := Named(e).id) && Named(e).id == AtEvent(e.at)
    ensures Named(g).id == Named(e).id ==> g.body.message.id == AtEvent(e.at)
    ensures g.body.message.id != Known(NoName) ==> Named(g) == g.body.message
  {
  }

  // ----- The transcript -----

  predicate Lasting(m: Message) {
    !m.transient && !m.compaction
  }

  /** What event `i` offers to the transcript: its message; for a finished tool whose result no message holds,
      the call it has put back and its readable result. */
  function Offered(f: Facts, own: seq<Event>, added: seq<seq<Message>>, i: nat): (r: seq<Message>)
    requires i < |own| == |added|
  {
    match own[i].body
    case Appended(_, _) => [Named(own[i])]
    case ToolDone(call, readable) =>
      if call in f.represented then []
      else
        (if CallMessage(call) in added[i] then [CallMessage(call)] else [])
        + if readable then [ResultMessage(call)] else []
    case _ => []
  }

  function AllOffered(f: Facts, own: seq<Event>, added: seq<seq<Message>>, n: nat): (r: seq<Message>)
    requires n <= |own| == |added|
  {
    if n == 0 then [] else AllOffered(f, own, added, n - 1) + Offered(f, own, added, n - 1)
  }

  lemma {:induction false} CapturedConcat(t: seq<Message>, a: seq<Message>, b: seq<Message>)
    ensures Captured(t, a + b) == Captured(Captured(t, a), b)
    decreases |a|
  {
    hide Noted;
    if a == [] {
      assert a + b == b;
    } else {
      assert (a + b)[0] == a[0] && (a + b)[1..] == a[1..] + b;
      CapturedConcat(Noted(t, a[0]), a[1..], b);
    }
  }

  lemma {:induction false} CapturedFew(t: seq<Message>, a: Message, b: Message)
    ensures Captured(t, []) == t && Captured(t, [a]) == Noted(t, a) && Captured(t, [a, b]) == Noted(Noted(t, a), b)
  {
    hide Noted;
    assert [a][1..] == [] && [a, b][1..] == [b] && [b][1..] == [];
    assert Captured(t, [a, b]) == Captured(Noted(t, a), [b]);
    assert Captured(Noted(t, a), [b]) == Captured(Noted(Noted(t, a), b), []);
  }

  /** The entries of `ms` that get into the transcript `t`: lasting ones that are the first with their id. */
  predicate GetsIn(t: seq<Message>, ms: seq<Message>, j: nat)
    requires j < |ms|
  {
    Lasting(ms[j]) && !HasId(t, ms[j].id) && forall i :: 0 <= i < j && Lasting(ms[i]) ==> ms[i].id != ms[j].id
  }

  function Entering(t: seq<Message>, ms: seq<Message>, n: nat): (r: seq<Message>)
    requires n <= |ms|
  {
    if n == 0 then [] else Entering(t, ms, n - 1) + if GetsIn(t, ms, n - 1) then [ms[n - 1]] else []
  }

  lemma {:induction false} EnteringIds(t: seq<Message>, ms: seq<Message>, n: nat, id: MessageId)
    requires n <= |ms|
    ensures HasId(t + Entering(t, ms, n), id) <==>
            HasId(t, id) || exists i :: 0 <= i < n && Lasting(ms[i]) && ms[i].id == id
  {
    if n == 0 {
      assert t + [] == t;
    } else {
      EnteringIds(t, ms, n - 1, id);
      EnteringIds(t, ms, n - 1, ms[n - 1].id);
      var before := Entering(t, ms, n - 1);
      hide Entering;
      EnteringStep(t, ms, n);
      if GetsIn(t, ms, n - 1) {
        assert t + Entering(t, ms, n) == (t + before) + [ms[n - 1]];
        HasIdSnoc(t + before, ms[n - 1], id);
      } else {
        assert t + Entering(t, ms, n) == t + before;
      }
    }
  }

  lemma EnteringStep(t: seq<Message>, ms: seq<Message>, n: nat)
    requires 0 < n <= |ms|
    ensures Entering(t, ms, n) ==
            if GetsIn(t, ms, n - 1) then Entering(t, ms, n - 1) + [ms[n - 1]] else Entering(t, ms, n - 1)
  {
    assert Entering(t, ms, n - 1) + [] == Entering(t, ms, n - 1);
  }

  lemma HasIdSnoc(t: seq<Message>, m: Message, id: MessageId)
    ensures HasId(t + [m], id) <==> HasId(t, id) || m.id == id
  {
    if HasId(t, id) {
      var x :| x in t && x.id == id;
      assert x in t + [m];
    }
    if m.id == id {
      assert m in t + [m];
    }
  }

  lemma {:induction false} CapturedPrefix(t: seq<Message>, ms: seq<Message>, n: nat)
    requires n <= |ms|
    ensures Captured(t, ms[..n]) == t + Entering(t, ms, n)
  {
    if n == 0 {
      assert t + [] == t;
    } else {
      CapturedPrefix(t, ms, n - 1);
      var m, before := ms[n - 1], t + Entering(t, ms, n - 1);
      assert ms[..n] == ms[..n - 1] + [m];
      CapturedConcat(t, ms[..n - 1], [m]);
      CapturedFew(before, m, m);
      EnteringIds(t, ms, n - 1, m.id);
      EnteringStep(t, ms, n);
      hide Captured, Entering, HasId;
      assert GetsIn(t, ms, n - 1) ==> before + [m] == t + (Entering(t, ms, n - 1) + [m]);
    }
  }

  /** Capturing adds, in order, exactly the lasting messages that are the first with their id. */
  lemma {:induction false} CapturedExactly(t: seq<Message>, ms: seq<Message>)
    ensures Captured(t, ms) == t + Entering(t, ms, |ms|)
  {
    hide Captured, Entering;
    CapturedPrefix(t, ms, |ms|);
    assert ms[..|ms|] == ms;
  }

  /** The call of a finished tool is put back exactly if it is among what the event brings. */
  lemma {:induction false} CallIsBrought(f: Facts, p: Pass, own: seq<Event>, e: Event, q: Pass)
    requires e.body.ToolDone? && e.body.call !in f.represented
    ensures var call := e.body.call;
            CallMessage(call) in Brought(f, p, own + [e], |own|, q.messages) <==>
              e.at > f.after && call in f.planned && call !in f.future && !Uses(q.messages, call)
  {
    hide DoneBefore, Uses;
    assert (own + [e])[|own|] == e;
    var a, call := Brought(f, p, own + [e], |own|, q.messages), e.body.call;
    if e.at > f.after && call in f.planned && call !in f.future && !Uses(q.messages, call) {
      assert a[0] == CallMessage(call);
    } else {
      assert a == [] || a == [ResultMessage(call)];
    }
  }

  lemma {:induction false} ToolOffers(f: Facts, q: Pass, e: Event, put: bool)
    requires e.body.ToolDone? && e.body.call !in f.represented
    requires put <==>
             e.at > f.after && e.body.call in f.planned && e.body.call !in f.future && !Uses(q.messages, e.body.call)
    ensures var call := e.body.call;
            ReplayTool(f, q, e).transcript == Captured(q.transcript,
              (if put then [CallMessage(call)] else []) + if e.body.readable then [ResultMessage(call)] else [])
  {
    var call, t := e.body.call, q.transcript;
    hide Noted, Captured;
    assert WithCall(f, q, e).transcript == if put then Noted(t, CallMessage(call)) else t;
    CapturedFew(t, CallMessage(call), ResultMessage(call));
    CapturedFew(t, ResultMessage(call), ResultMessage(call));
    assert [CallMessage(call)] + [ResultMessage(call)] == [CallMessage(call), ResultMessage(call)];
    assert [CallMessage(call)] + [] == [CallMessage(call)] && [] + [ResultMessage(call)] == [ResultMessage(call)];
  }

  lemma {:induction false} EventOffers(f: Facts, p: Pass, own: seq<Event>, added: seq<seq<Message>>, q: Pass, e: Event)
    requires |own| == |added|
    ensures var a := Brought(f, p, own + [e], |own|, q.messages);
            ReplayEvent(f, q, e).transcript == Captured(q.transcript, Offered(f, own + [e], added + [a], |own|))
  {
    var a := Brought(f, p, own + [e], |own|, q.messages);
    assert (own + [e])[|own|] == e && (added + [a])[|own|] == a;
    hide Noted, Captured, Brought, Uses, ReplayTool;
    match e.body {
      case Appended(_, _) => CapturedFew(q.transcript, Named(e), Named(e));
      case ToolDone(call, readable) =>
        CapturedFew(q.transcript, CallMessage(call), CallMessage(call));
        if call !in f.represented {
          CallIsBrought(f, p, own, e, q);
          ToolOffers(f, q, e, CallMessage(call) in a);
        } else {
          NothingOffered(f, q, e);
        }
      case _ => CapturedFew(q.transcript, CallMessage(0), CallMessage(0));
    }
  }

  lemma NothingOffered(f: Facts, q: Pass, e: Event)
    requires e.body.ToolDone? && e.body.call in f.represented
    ensures ReplayTool(f, q, e) == q
  {
  }

  lemma {:induction false} OffersPrefix(
      f: Facts, own: seq<Event>, added: seq<seq<Message>>, e: Event, a: seq<Message>, n: nat)
    requires n <= |own| == |added|
    ensures AllOffered(f, own + [e], added + [a], n) == AllOffered(f, own, added, n)
  {
    if n > 0 {
      OffersPrefix(f, own, added, e, a, n - 1);
    }
  }

  lemma {:induction false} TranscriptIsOffered(f: Facts, p: Pass, own: seq<Event>) returns (added: seq<seq<Message>>)
    ensures Agree(f, p, own, added, ReplayAll(f, p, own))
    ensures ReplayAll(f, p, own).transcript == Captured(p.transcript, AllOffered(f, own, added, |own|))
    decreases |own|
  {
    if own == [] {
      added := [];
      assert Captured(p.transcript, []) == p.transcript;
    } else {
      var front, e := own[..|own| - 1], own[|own| - 1];
      assert own == front + [e];
      var before := TranscriptIsOffered(f, p, front);
      var q := ReplayAll(f, p, front);
      var a := Brought(f, p, own, |front|, q.messages);
      added := before + [a];
      hide Agree, ReplayEvent, Brought, Offered, Captured, ReplayAll;
      ReplaySnoc(f, p, front, e);
      AgreeSnoc(f, p, front, before, q, e);
      AgreeLength(f, p, front, before, q);
      EventOffers(f, p, front, before, q, e);
      OffersPrefix(f, front, before, e, a, |front|);
      CapturedConcat(p.transcript, AllOffered(f, front, before, |front|), Offered(f, own, added, |front|));
    }
  }

  lemma AgreeLength(f: Facts, p: Pass, own: seq<Event>, added: seq<seq<Message>>, q: Pass)
    requires Agree(f, p, own, added, q)
    ensures |own| == |added| && Explains(f, p, own, added)
  {
  }

  // ----- The recovered state -----

  function Position(reset: nat, after: nat): (n: nat) {
    if reset > after then reset else after
  }

  /** The reset that counts is the last one of the own stream, if there is any. */
  lemma {:induction false} ResetSays(events: seq<Event>, stream: Name)
    ensures var n := LastReset(events, stream);
            || (n == 0 && forall i :: 0 <= i < |events| ==> !IsReset(events[i], stream))
            || exists i :: 0 <= i < |events| && IsReset(events[i], stream) && events[i].at == n
                           && forall j :: i < j < |events| ==> !IsReset(events[j], stream)
  {
    if events != [] {
      var k := |events| - 1;
      ResetSays(events[..k], stream);
      if !IsReset(events[k], stream) && !(forall i :: 0 <= i < k ==> !IsReset(events[..k][i], stream)) {
        var i :| 0 <= i < k && IsReset(events[..k][i], stream) && events[..k][i].at == LastReset(events[..k], stream)
                 && forall j :: i < j < k ==> !IsReset(events[..k][j], stream);
        assert forall j :: i < j < k ==> events[..k][j] == events[j];
        assert events[i] == events[..k][i];
      } else if !IsReset(events[k], stream) {
        assert forall i :: 0 <= i < k ==> events[..k][i] == events[i];
      }
    }
  }

  predicate IsReset(e: Event, stream: Name) {
    e.stream == stream && e.body.SessionReset?
  }

  /** The events that count are all those of the own stream behind the reset, in order. */
  lemma {:induction false} OwnSays(events: seq<Event>, stream: Name, reset: nat)
    ensures forall e :: multiset(Own(events, stream, reset))[e] ==
                        if e.stream == stream && e.at > reset then multiset(events)[e] else 0
    ensures InOrder(Own(events, stream, reset), events)
    decreases |events|
  {
    if events == [] {
      InOrderItself<Event>([]);
    } else {
      OwnSays(events[1..], stream, reset);
      assert events == [events[0]] + events[1..];
      var rest := Own(events[1..], stream, reset);
      hide InOrder;
      InOrderCons(rest, events[1..], events[0]);
      InOrderMore(rest, events[1..], events[0]);
      assert [] + rest == rest;
    }
  }

  /** What a restart starts from: the checkpoint, except that a reset behind it empties everything and any
      reset at all empties the transcript; and which calls have their results there. */
  lemma StartSays(base: Snapshot, reset: nat, after: nat, call: Name)
    ensures var p := StartOf(base, reset, after);
            && p.transcript == (if reset == 0 then base.transcript else [])
            && p.messages == (if reset <= after then base.messages else [])
            && p.usage == (if reset <= after then base.usage else Usage(ZERO, {}))
            && p.turns == (if reset <= after then base.turns else 0)
            && p.userTurns == (if reset <= after then base.userTurns else 0)
            && (call in p.toolSeen <==> exists m :: m in p.messages && call in m.results)
  {
  }

  /** What the pass knows in advance of a call: whether it was planned, whether an assistant message still to
      come makes it, and whether a message of the transcript or the journal holds its result. */
  lemma FactsSay(own: seq<Event>, after: nat, transcript: seq<Message>, call: Name)
    ensures var f := FactsOf(own, after, transcript);
            && f.after == after
            && (call in f.planned <==> exists e :: e in own && e.body == Planned(call))
            && (call in f.future <==> exists e :: e in own && e.at > after && Makes(e, call))
            && (call in f.represented <==>
                  (exists m :: m in transcript && call in m.results) || exists e :: e in own && Holds(e, call))
  {
    var f := FactsOf(own, after, transcript);
    if call in f.future {
      var e, id :| e in own && e.at > after && e.body.Appended? && e.body.author == ByAssistant
                   && id in e.body.message.uses && id == call;
      assert Makes(e, call);
    }
    if call in ResultsAppended(own) {
      var e, id :| e in own && e.body.Appended? && id in e.body.message.results && id == call;
      assert Holds(e, call);
    }
  }

  /** An assistant message that makes the call. */
  predicate Makes(e: Event, call: Name) {
    e.body.Appended? && e.body.author == ByAssistant && call in e.body.message.uses
  }

  predicate Holds(e: Event, call: Name) {
    e.body.Appended? && call in e.body.message.results
  }

  /** Two usage records are taken for the same request exactly if they name the same one; records that name
      none are only taken for themselves. */
  lemma SameRequestExactly(e: Event, g: Event)
    requires e.body.UsageRecorded? && g.body.UsageRecorded?
    ensures KeyOf(e) == KeyOf(g) <==>
            e.body.request == g.body.request && (e.body.request == NoName ==> e.at == g.at)
  {
  }

  /** What a restart finds, read off the journal: the last view that replaced the messages, or the first
      messages, and behind it what each later event adds, in journal order; the transcript with every lasting
      message of the journal and of the working messages that is the first with its id; and the counters
      grown by the new messages of the assistant and the new requests. */
  lemma {:induction false} RecoveredIsJournaled(base: Snapshot, own: seq<Event>, reset: nat, after: nat)
    returns (added: seq<seq<Message>>)
    ensures |added| == |own|
    ensures var n, start := Position(reset, after), StartOf(base, reset, after);
            var f := FactsOf(own, n, start.transcript);
            var r := Recovered(base, own, reset, after);
            && Explains(f, start, own, added)
            && r.messages == LastView(start.messages, own, n) + Flat(added[ViewStart(own, n)..])
            && (var offers := AllOffered(f, own, added, |own|) + r.messages;
                r.transcript == start.transcript + Entering(start.transcript, offers, |offers|))
            && r.turns == start.turns + AssistantTurns(own, added, |own|)
            && r.userTurns == start.userTurns + Requests(own, added, |own|)
            && r.generation == base.generation + (if reset > after then 1 else 0) && r.revision == base.revision
  {
    var n, start := Position(reset, after), StartOf(base, reset, after);
    var f := FactsOf(own, n, start.transcript);
    added := TranscriptIsOffered(f, start, own);
    var p := ReplayAll(f, start, own);
    var r := Recovered(base, own, reset, after);
    assert r.messages == p.messages && r.transcript == Captured(p.transcript, p.messages);
    assert f.after == n;
    hide ReplayAll, StartOf, FactsOf, Explains, Captured, Entering, AllOffered;
    PresentIsViewAndRest(start.messages, own, n, added);
    var offers := AllOffered(f, own, added, |own|);
    CapturedConcat(start.transcript, offers, p.messages);
    CapturedExactly(start.transcript, offers + p.messages);
  }
}
