/** Converting a history into the chat format of an OpenAI-compatible provider (api/client.go),
    and the pairing theorem for the whole repair pipeline. */
module ProviderChat {
  import opened Prelude
  import opened Messages
  import opened Normalize
  import opened ImmediateResults
  import opened ImmediateLaws

  /** Entries of the converted chat. An entry shows its texts joined by line breaks. */
  datatype Entry =
    | Say(role: Role, texts: seq<Text>)
    | CallTools(calls: seq<Name>, inputs: seq<Text>, texts: seq<Text>)
    | Answered(id: Name, content: Text, isError: bool)

  const LOST_BEFORE_RETRY: Text := 6

  function CallIds(bs: seq<Block>): (r: seq<Name>) {
    if bs == [] then [] else (if bs[0].ToolUse? then [bs[0].id] else []) + CallIds(bs[1..])
  }

  function Inputs(bs: seq<Block>): (r: seq<Text>) {
    if bs == [] then [] else (if bs[0].ToolUse? then [bs[0].input] else []) + Inputs(bs[1..])
  }

  function Texts(bs: seq<Block>): (r: seq<Text>) {
    if bs == [] then [] else (if bs[0].Text? then [bs[0].text] else []) + Texts(bs[1..])
  }

  predicate HasText(bs: seq<Block>) {
    exists b :: b in bs && b.Text?
  }

  predicate HasToolResult(bs: seq<Block>) {
    exists b :: b in bs && b.ToolResult?
  }

  /** A user message made of expected results and system hints only, with at least one result. */
  predicate IsCarrier(m: Message, expected: set<Name>) {
    && m.role == User && m.content.Blocks?
    && (forall b :: b in BlocksOf(m) ==> (b.ToolResult? && b.id in expected) || (b.Text? && b.hint))
    && HasToolResult(BlocksOf(m))
  }

  function ToolEntries(bs: seq<Block>): (r: seq<Entry>) {
    if bs == [] then []
    else (if bs[0].ToolResult? then [Answered(bs[0].id, bs[0].content, bs[0].isError)] else []) + ToolEntries(bs[1..])
  }

  function Matched(bs: seq<Block>): (r: set<Name>) {
    set b | b in bs && b.ToolResult? :: b.id
  }

  /** One consumed carrier: its tool entries, then its hints as a user entry. */
  function CarrierEntries(m: Message): (r: seq<Entry>) {
    ToolEntries(BlocksOf(m)) + if HasText(BlocksOf(m)) then [Say(User, Texts(BlocksOf(m)))] else []
  }

  /** How many messages are consumed as carriers for the expected calls. */
  function Consumed(ms: seq<Message>, expected: set<Name>): (n: nat)
    ensures n <= |ms|
  {
    if ms == [] || !IsCarrier(ms[0], expected) then 0
    else 1 + Consumed(ms[1..], expected - Matched(BlocksOf(ms[0])))
  }

  function ConsumedEntries(ms: seq<Message>, expected: set<Name>): (r: seq<Entry>) {
    if ms == [] || !IsCarrier(ms[0], expected) then []
    else CarrierEntries(ms[0]) + ConsumedEntries(ms[1..], expected - Matched(BlocksOf(ms[0])))
  }

  function StillExpected(ms: seq<Message>, expected: set<Name>): (r: set<Name>) {
    if ms == [] || !IsCarrier(ms[0], expected) then expected
    else StillExpected(ms[1..], expected - Matched(BlocksOf(ms[0])))
  }

  predicate IsLeast(x: Name, s: set<Name>) {
    x in s && forall y :: y in s ==> x <= y
  }

  lemma {:induction false} ThereIsALeast(s: set<Name>) returns (least: Name)
    requires s != {}
    ensures IsLeast(least, s)
  {
    least :| least in s;
    if s != {least} {
      var z := ThereIsALeast(s - {least});
      forall y | y in s ensures (if z < least then z else least) <= y {
        assert y == least || y in s - {least};
      }
      if z < least {
        least := z;
      }
    }
  }

  lemma LeastExists(s: set<Name>)
    requires s != {}
    ensures exists x :: IsLeast(x, s)
  {
    var x := ThereIsALeast(s);
  }

  /** Fallback entries for calls nobody answered, in sorted order. */
  function Fallbacks(missing: set<Name>): (r: seq<Entry>) {
    if missing == {} then []
    else
      LeastExists(missing);
      var x :| x in missing && IsLeast(x, missing);
      [Answered(x, LOST_BEFORE_RETRY, false)] + Fallbacks(missing - {x})
  }

  function PlainEntries(m: Message): (r: seq<Entry>) {
    if m.content.Plain? then [Say(m.role, [m.content.text])]
    else if m.role == User && HasToolResult(BlocksOf(m)) then
      if HasText(BlocksOf(m)) then [Say(User, Texts(BlocksOf(m)))] else []
    else if HasText(BlocksOf(m)) || m.role != System then [Say(m.role, Texts(BlocksOf(m)))]
    else []
  }

  function CallEntry(m: Message): (e: Entry) {
    CallTools(CallIds(BlocksOf(m)), Inputs(BlocksOf(m)), Texts(BlocksOf(m)))
  }

  function Expected(calls: seq<Name>): (r: set<Name>) {
    set id | id in calls && id != NoName
  }

  function Converted(ms: seq<Message>): (r: seq<Entry>)
    decreases |ms|
  {
    if ms == [] then []
    else
      var calls := CallIds(BlocksOf(ms[0]));
      if ms[0].role == Assistant && calls != [] then
        var n := Consumed(ms[1..], Expected(calls));
        [CallEntry(ms[0])] + ConsumedEntries(ms[1..], Expected(calls))
        + Fallbacks(StillExpected(ms[1..], Expected(calls))) + Converted(ms[1 + n..])
      else PlainEntries(ms[0]) + Converted(ms[1..])
  }

  // ----- The conversion loop -----

  method ConvertMessages(messages: seq<Message>) returns (converted: seq<Entry>)
    ensures converted == Converted(messages)
  {
    hide Converted, CallIds, PlainEntries, CallEntry, Consumed, ConsumedEntries, StillExpected, Fallbacks;
    converted := [];
    var i := 0;
    assert messages[0..] == messages;
    while i < |messages|
      invariant 0 <= i <= |messages|
      invariant converted + Converted(messages[i..]) == Converted(messages)
    {
      var msg := messages[i];
      ConvertedStep(messages, i);
      var calls := CallIds(BlocksOf(msg));
      i := i + 1;
      if msg.role == Assistant && calls != [] {
        var entries, j, missing := ConsumeCarriers(messages, i, Expected(calls));
        converted := converted + [CallEntry(msg)] + entries + Fallbacks(missing);
        i := j;
      } else {
        converted := converted + PlainEntries(msg);
      }
    }
    ConvertedNil(messages[i..]);
  }

  lemma ConvertedNil(ms: seq<Message>)
    requires ms == []
    ensures Converted(ms) == []
  {
  }

  lemma {:induction false} ConvertedStep(ms: seq<Message>, i: nat)
    requires i < |ms|
    ensures var calls := CallIds(BlocksOf(ms[i]));
            var j := i + 1 + Consumed(ms[i + 1..], Expected(calls));
            Converted(ms[i..]) ==
              if ms[i].role == Assistant && calls != []
              then [CallEntry(ms[i])] + ConsumedEntries(ms[i + 1..], Expected(calls))
                   + Fallbacks(StillExpected(ms[i + 1..], Expected(calls))) + Converted(ms[j..])
              else PlainEntries(ms[i]) + Converted(ms[i + 1..])
  {
    hide CallIds, PlainEntries, CallEntry, ConsumedEntries, StillExpected, Fallbacks, Consumed;
    var n := Consumed(ms[i + 1..], Expected(CallIds(BlocksOf(ms[i]))));
    assert ms[i..][1..] == ms[i + 1..] && ms[i..][1 + n..] == ms[i + 1 + n..];
  }

  method ConsumeCarriers(messages: seq<Message>, from: nat, wanted: set<Name>)
    returns (entries: seq<Entry>, j: nat, missing: set<Name>)
    requires from <= |messages|
    ensures j == from + Consumed(messages[from..], wanted)
    ensures entries == ConsumedEntries(messages[from..], wanted)
    ensures missing == StillExpected(messages[from..], wanted)
  {
    entries, j, missing := [], from, wanted;
    hide IsCarrier, CarrierEntries, Matched;
    while j < |messages|
      invariant from <= j <= |messages|
      invariant Consumed(messages[from..], wanted) == j - from + Consumed(messages[j..], missing)
      invariant ConsumedEntries(messages[from..], wanted) == entries + ConsumedEntries(messages[j..], missing)
      invariant StillExpected(messages[from..], wanted) == StillExpected(messages[j..], missing)
    {
      assert messages[j..][1..] == messages[j + 1..];
      if !IsCarrier(messages[j], missing) {
        break;
      }
      entries := entries + CarrierEntries(messages[j]);
      missing := missing - Matched(BlocksOf(messages[j]));
      j := j + 1;
    }
  }

  // ----- Well-formed chats -----

  /** Calls `ids` are answered by exactly the leading entries of `chat`, in order. */
  predicate AnswersInOrder(ids: seq<Name>, chat: seq<Entry>) {
    |ids| <= |chat| && forall i :: 0 <= i < |ids| ==> chat[i].Answered? && chat[i].id == ids[i]
  }

  /** Each entry with calls c1..cn is followed immediately by exactly n tool entries answering
      c1..cn in order, and no tool entry occurs anywhere else. */
  predicate WellPaired(chat: seq<Entry>)
    decreases |chat|
  {
    if chat == [] then true
    else match chat[0]
      case Say(_, _) => WellPaired(chat[1..])
      case CallTools(ids, _, _) => AnswersInOrder(ids, chat[1..]) && WellPaired(chat[1 + |ids|..])
      case Answered(_, _, _) => false
  }

  lemma {:induction false} NeverStartsWithAnswer(ms: seq<Message>)
    ensures Converted(ms) != [] ==> !Converted(ms)[0].Answered?
    decreases |ms|
  {
    if ms != [] && !(ms[0].role == Assistant && CallIds(BlocksOf(ms[0])) != []) {
      NeverStartsWithAnswer(ms[1..]);
    }
  }

  lemma {:induction false} CallIdsNamed(bs: seq<Block>)
    ensures NoName !in CallIds(bs) ==> UseIds(bs) == CallIds(bs)
    ensures |UseIds(bs)| <= |CallIds(bs)|
    ensures |UseIds(bs)| == |CallIds(bs)| ==> NoName !in CallIds(bs)
  {
    if bs != [] {
      CallIdsNamed(bs[1..]);
    }
  }

  lemma {:induction false} InCallIds(bs: seq<Block>, id: Name)
    ensures id in CallIds(bs) <==> exists b :: b in bs && b.ToolUse? && b.id == id
    ensures id in UseIds(bs) <==> id != NoName && id in CallIds(bs)
  {
    if bs != [] {
      InCallIds(bs[1..], id);
      assert bs == [bs[0]] + bs[1..];
      if id in CallIds(bs[1..]) {
        var b :| b in bs[1..] && b.ToolUse? && b.id == id;
        assert b in bs;
      }
      if bs[0].ToolUse? && bs[0].id == id {
        assert bs[0] in bs;
      }
    }
  }

  lemma NamedUsesMeans(m: Message)
    requires m.role == Assistant
    ensures NamedUses(m) <==> NoName !in CallIds(BlocksOf(m))
    ensures Expected(CallIds(BlocksOf(m))) == AsSet(UseIds(BlocksOf(m)))
  {
    InCallIds(BlocksOf(m), NoName);
    forall id ensures id in Expected(CallIds(BlocksOf(m))) <==> id in AsSet(UseIds(BlocksOf(m))) {
      InCallIds(BlocksOf(m), id);
    }
  }

  lemma {:induction false} EntriesOfAnswers(bs: seq<Block>, ids: seq<Name>)
    requires |bs| == |ids| && forall i :: 0 <= i < |bs| ==> bs[i].ToolResult? && bs[i].id == ids[i]
    ensures |ToolEntries(bs)| == |bs| && AnswersInOrder(ids, ToolEntries(bs)) && Matched(bs) == AsSet(ids)
  {
    if bs != [] {
      EntriesOfAnswers(bs[1..], ids[1..]);
      assert bs == [bs[0]] + bs[1..] && ids == [ids[0]] + ids[1..];
      assert Matched(bs) == {bs[0].id} + Matched(bs[1..]);
      assert AsSet(ids) == {ids[0]} + AsSet(ids[1..]);
      forall i | 0 <= i < |ids| ensures ToolEntries(bs)[i].Answered? && ToolEntries(bs)[i].id == ids[i] {
        if i > 0 {
          assert ToolEntries(bs)[i] == ToolEntries(bs[1..])[i - 1] && ids[i] == ids[1..][i - 1];
        }
      }
    }
  }

  lemma NoCarrier(m: Message, none: set<Name>)
    requires none == {}
    ensures !IsCarrier(m, none)
  {
    if HasToolResult(BlocksOf(m)) {
      var b :| b in BlocksOf(m) && b.ToolResult?;
      assert b.id !in none;
    }
  }

  lemma {:induction false} NothingExpected(ms: seq<Message>, none: set<Name>)
    requires none == {}
    ensures Consumed(ms, none) == 0 && ConsumedEntries(ms, none) == [] && StillExpected(ms, none) == {}
  {
    if ms != [] {
      NoCarrier(ms[0], none);
    }
  }

  /** The carrier behind a call is consumed whole, and nothing after it is. */
  lemma {:induction false} CarrierIsConsumed(ids: seq<Name>, found: map<Name, Block>, tail: seq<Message>)
    requires ids != [] && OwnResults(found)
    ensures var ms := [Carrier(ids, found)] + tail;
            && Consumed(ms, AsSet(ids)) == 1 && StillExpected(ms, AsSet(ids)) == {}
            && ConsumedEntries(ms, AsSet(ids)) == ToolEntries(Answers(ids, found))
            && |ToolEntries(Answers(ids, found))| == |ids|
            && AnswersInOrder(ids, ToolEntries(Answers(ids, found)))
  {
    var m, bs := Carrier(ids, found), Answers(ids, found);
    var ms := [m] + tail;
    EntriesOfAnswers(bs, ids);
    CarrierAccepted(ids, found);
    assert ms[0] == m && ms[1..] == tail;
    assert AsSet(ids) - Matched(bs) == {};
    NothingExpected(tail, AsSet(ids) - Matched(bs));
    hide IsCarrier, Answers, ToolEntries, Matched, AsSet;
    assert ConsumedEntries(ms, AsSet(ids)) == CarrierEntries(m) + [];
  }

  lemma {:induction false} CarrierAccepted(ids: seq<Name>, found: map<Name, Block>)
    requires ids != [] && OwnResults(found)
    ensures IsCarrier(Carrier(ids, found), AsSet(ids)) && !HasText(BlocksOf(Carrier(ids, found)))
  {
    var bs := BlocksOf(Carrier(ids, found));
    forall b | b in bs ensures b.ToolResult? && b.id in AsSet(ids) {
      var i :| 0 <= i < |bs| && bs[i] == b;
      assert b == if ids[i] in found then found[ids[i]] else Synthetic(ids[i]);
    }
    assert bs[0] in bs;
  }

  // ----- The pairing theorem -----

  lemma {:induction false} WellPairedCalls(call: Entry, answers: seq<Entry>, tail: seq<Entry>)
    requires call.CallTools? && AnswersInOrder(call.calls, answers) && |answers| == |call.calls|
    ensures WellPaired([call] + answers + tail) <==> WellPaired(tail)
  {
    var chat := [call] + answers + tail;
    assert chat[1..] == answers + tail && chat[1 + |call.calls|..] == tail;
  }

  /** Fewer answers than calls cannot be well paired, whatever follows. */
  lemma {:induction false} TooFewAnswers(call: Entry, answers: seq<Entry>, tail: seq<Entry>)
    requires call.CallTools? && |answers| < |call.calls| && (tail != [] ==> !tail[0].Answered?)
    ensures !WellPaired([call] + answers + tail)
  {
    var chat := [call] + answers + tail;
    assert chat[1..] == answers + tail;
    if |answers + tail| >= |call.calls| {
      assert (answers + tail)[|answers|] == tail[0];
    }
  }

  lemma NoFallbacks()
    ensures Fallbacks({}) == []
  {
  }

  /** A calling message whose expected results are all consumed from what follows it. */
  lemma {:induction false} ConvertedCall(head: Message, following: seq<Message>, entries: seq<Entry>, n: nat)
    requires var calls := CallIds(BlocksOf(head));
             && head.role == Assistant && calls != [] && n <= |following|
             && Consumed(following, Expected(calls)) == n && ConsumedEntries(following, Expected(calls)) == entries
             && StillExpected(following, Expected(calls)) == {}
    ensures Converted([head] + following) == [CallEntry(head)] + entries + Converted(following[n..])
  {
    hide *;
    var out := [head] + following;
    assert out[0] == head && out[1..] == following && out[1 + n..] == following[n..] && out[0..] == out;
    ConvertedStep(out, 0);
    NoFallbacks();
    assert [CallEntry(head)] + entries + [] == [CallEntry(head)] + entries;
  }

  /** A call followed by its carrier converts to the call and its answers, in order. */
  lemma {:induction false} CallingChat(head: Message, found: map<Name, Block>, tail: seq<Message>)
    requires Calls(head) && OwnResults(found)
    ensures var ids := UseIds(BlocksOf(head));
            && Converted([head] + [Carrier(ids, found)] + tail) ==
                 [CallEntry(head)] + ToolEntries(Answers(ids, found)) + Converted(tail)
            && |ToolEntries(Answers(ids, found))| == |ids|
            && AnswersInOrder(ids, ToolEntries(Answers(ids, found)))
  {
    var ids := UseIds(BlocksOf(head));
    assert ids != [] && head.role == Assistant;
    hide *;
    CallIdsNamed(BlocksOf(head));
    CarrierIsConsumed(ids, found, tail);
    NamedUsesMeans(head);
    var carried := [Carrier(ids, found)] + tail;
    assert [head] + [Carrier(ids, found)] + tail == [head] + carried && carried[1..] == tail;
    ConvertedCall(head, carried, ToolEntries(Answers(ids, found)), 1);
  }

  lemma {:induction false} CallingConversion(ms: seq<Message>)
    requires ms != [] && Calls(ms[0])
    ensures var ids := UseIds(BlocksOf(ms[0]));
            var s := SweepMessages(AsSet(ids), ms[1..]);
            && Converted(Enforced(ms)) ==
                 [CallEntry(ms[0])] + ToolEntries(Answers(ids, s.found)) + Converted(Enforced(s.rest))
            && |ToolEntries(Answers(ids, s.found))| == |ids|
            && AnswersInOrder(ids, ToolEntries(Answers(ids, s.found)))
  {
    var ids := UseIds(BlocksOf(ms[0]));
    var s := SweepMessages(AsSet(ids), ms[1..]);
    var tail := Enforced(s.rest);
    EnforcedStep(ms);
    SweepOwnResults(AsSet(ids), ms[1..]);
    CallingHasBlocks(ms[0]);
    CallingChat(ms[0], s.found, tail);
    hide *;
    assert Enforced(ms) == [ms[0]] + [Carrier(ids, s.found)] + tail;
  }

  lemma {:induction false} SilentConversion(ms: seq<Message>)
    requires ms != [] && !Calls(ms[0]) && BlocksOf(ms[0]) != []
    requires ms[0].role == Assistant ==> CallIds(BlocksOf(ms[0])) == []
    ensures Converted(Enforced(ms)) == PlainEntries(ms[0]) + Converted(Enforced(ms[1..]))
  {
    EnforcedStep(ms);
    var out := Enforced(ms);
    ConvertedStep(out, 0);
    assert out[1..] == Enforced(ms[1..]) && out[0..] == out;
  }

  /** A message whose calls are all unnamed gets no answer at all. */
  lemma {:induction false} UnnamedConversion(ms: seq<Message>)
    requires ms != [] && !Calls(ms[0]) && ms[0].role == Assistant && CallIds(BlocksOf(ms[0])) != []
    ensures Converted(Enforced(ms)) == [CallEntry(ms[0])] + Converted(Enforced(ms[1..]))
    ensures BlocksOf(ms[0]) != []
  {
    var bs := BlocksOf(ms[0]);
    assert UseIds(bs) == [] && bs != [];
    EnforcedStep(ms);
    NamedUsesMeans(ms[0]);
    assert Expected(CallIds(bs)) == {};
    hide *;
    var following := Enforced(ms[1..]);
    NothingExpected(following, {});
    ConvertedCall(ms[0], following, [], 0);
    assert following[0..] == following;
    assert [CallEntry(ms[0])] + [] == [CallEntry(ms[0])];
  }

  lemma {:induction false} PlainIsPaired(m: Message, tail: seq<Entry>)
    ensures WellPaired(PlainEntries(m) + tail) <==> WellPaired(tail)
  {
    var es := PlainEntries(m);
    if es == [] {
      assert es + tail == tail;
    } else {
      assert (es + tail)[1..] == tail;
    }
  }

  /** The converted chat is well paired if and only if every call an assistant message makes has
      a name. Names may repeat, and results may be missing, misplaced, repeated or left over. */
  lemma {:induction false} ChatIsPairedExactly(ms: seq<Message>)
    ensures WellPaired(Converted(Enforced(ms))) <==> AllNamed(ms)
    decreases |ms|
  {
    hide Converted, Enforced, ToolEntries, UseIds, CallIds, SweepMessages, Answers, AsSet, WellPaired,
      AllNamed, NamedUses, PlainEntries, AllBlocks;
    if ms == [] {
      EmptyChat();
    } else {
      var head := ms[0];
      AllNamedCons(ms);
      CallIdsNamed(BlocksOf(head));
      if head.role == Assistant {
        NamedUsesMeans(head);
      } else {
        OthersAreNamed(head);
      }
      if Calls(head) {
        var ids := UseIds(BlocksOf(head));
        var s := SweepMessages(AsSet(ids), ms[1..]);
        CallingConversion(ms);
        ChatIsPairedExactly(s.rest);
        SweepKeepsNamed(AsSet(ids), ms[1..]);
        NeverStartsWithAnswer(Enforced(s.rest));
        var answers, tail := ToolEntries(Answers(ids, s.found)), Converted(Enforced(s.rest));
        if NoName !in CallIds(BlocksOf(head)) {
          WellPairedCalls(CallEntry(head), answers, tail);
        } else {
          TooFewAnswers(CallEntry(head), answers, tail);
        }
      } else if head.role == Assistant && CallIds(BlocksOf(head)) != [] {
        UnnamedConversion(ms);
        NeverStartsWithAnswer(Enforced(ms[1..]));
        var tail := Converted(Enforced(ms[1..]));
        assert [CallEntry(head)] + [] + tail == [CallEntry(head)] + tail;
        TooFewAnswers(CallEntry(head), [], tail);
      } else {
        ChatIsPairedExactly(ms[1..]);
        if BlocksOf(head) == [] {
          EnforcedStep(ms);
        } else {
          SilentConversion(ms);
          PlainIsPaired(head, Converted(Enforced(ms[1..])));
        }
      }
    }
  }

  lemma EmptyChat()
    ensures Enforced([]) == [] && Converted([]) == [] && WellPaired([]) && AllNamed([])
  {
  }

  lemma OthersAreNamed(m: Message)
    requires m.role != Assistant
    ensures NamedUses(m)
  {
  }

  lemma {:induction false} SweepKeepsNamed(needed: set<Name>, ms: seq<Message>)
    ensures AllNamed(SweepMessages(needed, ms).rest) <==> AllNamed(ms)
    decreases |ms|
  {
    hide SweepMessages, AllNamed, ClaimBlocks;
    if ms == [] {
      SweepNothing(needed, ms);
    } else {
      var c := ClaimBlocks(needed, BlocksOf(ms[0]));
      var s := SweepMessages(needed, ms);
      SweepStep(needed, ms, 0);
      assert ms[0..] == ms;
      SweepKeepsNamed(needed - c.found.Keys, ms[1..]);
      AllNamedCons(ms);
      AllNamedCons(s.rest);
      KeptIsNamed(needed, ms[0]);
      assert s.rest[1..] == SweepMessages(needed - c.found.Keys, ms[1..]).rest;
    }
  }

  lemma {:induction false} ClaimKeepsUses(needed: set<Name>, bs: seq<Block>, b: Block)
    requires b.ToolUse?
    ensures b in ClaimBlocks(needed, bs).kept <==> b in bs
    decreases |bs|
  {
    if bs != [] {
      assert bs == [bs[0]] + bs[1..];
      if bs[0].ToolResult? && bs[0].id in needed {
        ClaimKeepsUses(needed - {bs[0].id}, bs[1..], b);
      } else {
        ClaimKeepsUses(needed, bs[1..], b);
      }
    }
  }

  lemma KeptIsNamed(needed: set<Name>, m: Message)
    ensures NamedUses(Keep(m, ClaimBlocks(needed, BlocksOf(m)).kept)) <==> NamedUses(m)
  {
    var kept := ClaimBlocks(needed, BlocksOf(m)).kept;
    KeptMessage(m, kept);
    forall b: Block | b.ToolUse? ensures b in kept <==> b in BlocksOf(m) {
      ClaimKeepsUses(needed, BlocksOf(m), b);
    }
  }
}
