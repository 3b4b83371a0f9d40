/** What a converted chat holds besides the answers: one entry per message that says something, in order
    and with its text (api/client.go, agent/normalize.go). */
module ChatOutline {
  import opened Prelude
  import opened Messages
  import opened ImmediateResults
  import opened ImmediateLaws
  import opened ImmediateHistory
  import opened ProviderChat

  // ----- The outline of a chat -----

  /** The entries that are no answers, in order. */
  function Outline(chat: seq<Entry>): (r: seq<Entry>) {
    if chat == [] then [] else (if chat[0].Answered? then [] else [chat[0]]) + Outline(chat[1..])
  }

  lemma {:induction false} OutlineConcat(a: seq<Entry>, b: seq<Entry>)
    ensures Outline(a + b) == Outline(a) + Outline(b)
  {
    if a == [] {
      assert a + b == b;
    } else {
      assert (a + b)[0] == a[0] && (a + b)[1..] == a[1..] + b;
      var first := if a[0].Answered? then [] else [a[0]];
      assert Outline(a + b) == first + Outline(a[1..] + b) && Outline(a) == first + Outline(a[1..]);
      hide Outline;
      OutlineConcat(a[1..], b);
      Assoc(first, Outline(a[1..]), Outline(b));
    }
  }

  predicate MakesCalls(m: Message) {
    m.role == Assistant && exists b :: b in BlocksOf(m) && b.ToolUse?
  }

  /** A message without calls is shown if it has text, or if it is from the user or the assistant and, when
      from the user, carries no results. */
  predicate Speaks(m: Message) {
    || m.content.Plain?
    || HasText(BlocksOf(m))
    || m.role == Assistant
    || (m.role == User && !HasToolResult(BlocksOf(m)))
  }

  function SpokenTexts(m: Message): (r: seq<Text>) {
    if m.content.Plain? then [m.content.text] else Texts(BlocksOf(m))
  }

  /** What the chat shows of a message. */
  function Shown(m: Message): (r: seq<Entry>) {
    if MakesCalls(m) then [CallTools(CallIds(BlocksOf(m)), Inputs(BlocksOf(m)), Texts(BlocksOf(m)))]
    else if Speaks(m) then [Say(m.role, SpokenTexts(m))]
    else []
  }

  function AllShown(ms: seq<Message>): (r: seq<Entry>) {
    if ms == [] then [] else Shown(ms[0]) + AllShown(ms[1..])
  }

  lemma {:induction false} AllShownConcat(a: seq<Message>, b: seq<Message>)
    ensures AllShown(a + b) == AllShown(a) + AllShown(b)
  {
    if a == [] {
      assert a + b == b;
    } else {
      assert (a + b)[0] == a[0] && (a + b)[1..] == a[1..] + b;
      hide Shown;
      AllShownConcat(a[1..], b);
      Assoc(Shown(a[0]), AllShown(a[1..]), AllShown(b));
    }
  }

  lemma {:induction false} CallsHaveIds(bs: seq<Block>)
    ensures CallIds(bs) != [] <==> exists b :: b in bs && b.ToolUse?
  {
    if bs != [] {
      CallsHaveIds(bs[1..]);
      assert bs == [bs[0]] + bs[1..];
      if bs[0].ToolUse? {
        assert bs[0] in bs;
      }
      if b :| b in bs[1..] && b.ToolUse? {
        assert b in bs;
      }
    }
  }

  lemma {:induction false} TextsAreThere(bs: seq<Block>)
    ensures Texts(bs) != [] <==> HasText(bs)
  {
    if bs != [] {
      TextsAreThere(bs[1..]);
      assert bs == [bs[0]] + bs[1..];
      if bs[0].Text? {
        assert bs[0] in bs;
      }
      if b :| b in bs[1..] && b.Text? {
        assert b in bs;
      }
    }
  }

  lemma {:induction false} NoOutlineInAnswers(bs: seq<Block>)
    ensures Outline(ToolEntries(bs)) == []
  {
    if bs != [] {
      NoOutlineInAnswers(bs[1..]);
      var first := if bs[0].ToolResult? then [Answered(bs[0].id, bs[0].content, bs[0].isError)] else [];
      assert Outline(first) == [];
      OutlineConcat(first, ToolEntries(bs[1..]));
    }
  }

  lemma {:induction false} NoOutlineInFallbacks(missing: set<Name>)
    ensures Outline(Fallbacks(missing)) == []
  {
    if missing != {} {
      var all := Fallbacks(missing);
      var x := all[0].id;
      assert all == [all[0]] + Fallbacks(missing - {x}) && all[0].Answered?;
      NoOutlineInFallbacks(missing - {x});
      assert all[1..] == Fallbacks(missing - {x});
    }
  }

  lemma {:induction false} PlainIsShown(m: Message)
    requires !(m.role == Assistant && CallIds(BlocksOf(m)) != [])
    ensures Outline(PlainEntries(m)) == Shown(m)
  {
    CallsHaveIds(BlocksOf(m));
    hide CallIds, Texts;
    var es := PlainEntries(m);
    if es != [] {
      assert es[1..] == [];
    }
  }

  lemma {:induction false} CarrierIsShown(m: Message, expected: set<Name>)
    requires IsCarrier(m, expected)
    ensures Outline(CarrierEntries(m)) == Shown(m)
  {
    NoOutlineInAnswers(BlocksOf(m));
    var said := if HasText(BlocksOf(m)) then [Say(User, Texts(BlocksOf(m)))] else [];
    OutlineConcat(ToolEntries(BlocksOf(m)), said);
    hide ToolEntries, Texts;
    assert Outline(said) == said;
    assert [] + said == said;
  }

  lemma {:induction false} ConsumedAreShown(ms: seq<Message>, expected: set<Name>)
    ensures Outline(ConsumedEntries(ms, expected)) == AllShown(ms[..Consumed(ms, expected)])
    decreases |ms|
  {
    hide Shown, Outline, CarrierEntries, IsCarrier;
    if ms == [] || !IsCarrier(ms[0], expected) {
      assert ms[..0] == [];
      NothingShown();
    } else {
      var rest := expected - Matched(BlocksOf(ms[0]));
      var n := Consumed(ms[1..], rest);
      ConsumedAreShown(ms[1..], rest);
      CarrierIsShown(ms[0], expected);
      OutlineConcat(CarrierEntries(ms[0]), ConsumedEntries(ms[1..], rest));
      assert ms[..1 + n][0] == ms[0] && ms[..1 + n][1..] == ms[1..][..n];
    }
  }

  lemma NothingShown()
    ensures Outline([]) == [] && AllShown([]) == []
  {
  }

  /** For every list of messages: besides the answers, the chat holds exactly what is shown of each message,
      in the order of the messages. */
  lemma {:induction false} ChatShowsMessages(ms: seq<Message>)
    ensures Outline(Converted(ms)) == AllShown(ms)
    decreases |ms|
  {
    hide Shown, Outline, PlainEntries, CallEntry, Fallbacks, Converted;
    hide Consumed, ConsumedEntries, StillExpected, CallIds;
    if ms == [] {
      ConvertedNil(ms);
      NothingShown();
    } else {
      ConvertedStep(ms, 0);
      assert ms[0..] == ms;
      var calls := CallIds(BlocksOf(ms[0]));
      if ms[0].role == Assistant && calls != [] {
        var n := Consumed(ms[1..], Expected(calls));
        ChatShowsMessages(ms[1 + n..]);
        CallingShown(ms, n);
      } else {
        ChatShowsMessages(ms[1..]);
        PlainIsShown(ms[0]);
        OutlineConcat(PlainEntries(ms[0]), Converted(ms[1..]));
      }
    }
  }

  lemma {:induction false} CallIsShown(m: Message)
    requires m.role == Assistant && CallIds(BlocksOf(m)) != []
    ensures Outline([CallEntry(m)]) == Shown(m)
  {
    CallsHaveIds(BlocksOf(m));
    hide CallIds, Texts, Inputs;
    assert [CallEntry(m)][1..] == [];
  }

  lemma {:induction false} CallingShown(ms: seq<Message>, n: nat)
    requires ms != [] && ms[0].role == Assistant && CallIds(BlocksOf(ms[0])) != []
    requires n == Consumed(ms[1..], Expected(CallIds(BlocksOf(ms[0]))))
    requires Outline(Converted(ms[1 + n..])) == AllShown(ms[1 + n..])
    ensures var expected := Expected(CallIds(BlocksOf(ms[0])));
            var used, lost := ConsumedEntries(ms[1..], expected), Fallbacks(StillExpected(ms[1..], expected));
            Outline([CallEntry(ms[0])] + used + lost + Converted(ms[1 + n..])) == AllShown(ms)
  {
    hide Shown, Outline, CallEntry, Fallbacks, Converted, Consumed, ConsumedEntries, StillExpected, CallIds, AllShown;
    var expected := Expected(CallIds(BlocksOf(ms[0])));
    var call, used := [CallEntry(ms[0])], ConsumedEntries(ms[1..], expected);
    var lost, tail := Fallbacks(StillExpected(ms[1..], expected)), Converted(ms[1 + n..]);
    OutlineConcat(call + used + lost, tail);
    OutlineConcat(call + used, lost);
    OutlineConcat(call, used);
    CallIsShown(ms[0]);
    ConsumedAreShown(ms[1..], expected);
    NoOutlineInFallbacks(StillExpected(ms[1..], expected));
    ShownPieces(ms, n);
  }

  lemma {:induction false} ShownPieces(ms: seq<Message>, n: nat)
    requires ms != [] && n <= |ms[1..]|
    ensures AllShown(ms) == Shown(ms[0]) + AllShown(ms[1..][..n]) + [] + AllShown(ms[1 + n..])
  {
    hide Shown;
    assert ms[1..] == ms[1..][..n] + ms[1 + n..];
    AllShownConcat(ms[1..][..n], ms[1 + n..]);
    Assoc(Shown(ms[0]), AllShown(ms[1..][..n]), AllShown(ms[1 + n..]));
  }

  // ----- What the parts of an entry are -----

  /** Names, inputs and texts are read block by block: a call contributes its name and its input, a text
      block its text, every other block nothing. */
  lemma {:induction false} PartsOfBlocks(a: seq<Block>, b: Block)
    ensures CallIds(a + [b]) == CallIds(a) + if b.ToolUse? then [b.id] else []
    ensures Inputs(a + [b]) == Inputs(a) + if b.ToolUse? then [b.input] else []
    ensures Texts(a + [b]) == Texts(a) + if b.Text? then [b.text] else []
  {
    if a == [] {
      assert a + [b] == [b] && [b][1..] == [];
    } else {
      assert (a + [b])[0] == a[0] && (a + [b])[1..] == a[1..] + [b];
      PartsOfBlocks(a[1..], b);
    }
  }

  lemma {:induction false} TextsConcat(a: seq<Block>, b: seq<Block>)
    ensures Texts(a + b) == Texts(a) + Texts(b)
  {
    if a == [] {
      assert a + b == b;
    } else {
      assert (a + b)[0] == a[0] && (a + b)[1..] == a[1..] + b;
      var first := if a[0].Text? then [a[0].text] else [];
      assert Texts(a + b) == first + Texts(a[1..] + b) && Texts(a) == first + Texts(a[1..]);
      hide Texts;
      TextsConcat(a[1..], b);
      Assoc(first, Texts(a[1..]), Texts(b));
    }
  }

  /** None of them depends on the results among the blocks. */
  lemma {:induction false} PartsOfOthers(bs: seq<Block>)
    ensures CallIds(NonResults(bs)) == CallIds(bs) && Inputs(NonResults(bs)) == Inputs(bs)
    ensures Texts(NonResults(bs)) == Texts(bs)
  {
    if bs != [] {
      PartsOfOthers(bs[1..]);
      var others := NonResults(bs);
      if !bs[0].ToolResult? {
        assert others[0] == bs[0] && others[1..] == NonResults(bs[1..]);
      } else {
        assert others == NonResults(bs[1..]);
      }
    }
  }

  lemma {:induction false} OthersOrResults(bs: seq<Block>)
    ensures bs != [] <==> NonResults(bs) != [] || HasToolResult(bs)
  {
    if bs != [] && bs[0].ToolResult? {
      assert bs[0] in bs;
    }
  }

  lemma {:induction false} ResultOfIsThere(id: Name, bs: seq<Block>)
    ensures ResultsOf(id, bs) != [] <==> exists b :: b in bs && b.ToolResult? && b.id == id
  {
    if bs != [] {
      ResultOfIsThere(id, bs[1..]);
      assert bs == [bs[0]] + bs[1..];
      if bs[0].ToolResult? && bs[0].id == id {
        assert bs[0] in bs;
      }
      if b :| b in bs[1..] && b.ToolResult? && b.id == id {
        assert b in bs;
      }
    }
  }

  lemma {:induction false} HasResultOf(bs: seq<Block>)
    ensures HasToolResult(bs) <==> exists id :: ResultsOf(id, bs) != []
  {
    hide ResultsOf;
    if b :| b in bs && b.ToolResult? {
      ResultOfIsThere(b.id, bs);
    }
    if id :| ResultsOf(id, bs) != [] {
      ResultOfIsThere(id, bs);
    }
  }

  // ----- The outline of a repaired history, read off the history -----

  /** A result of message `k` is left there: earlier calls have claimed fewer results of its name than the
      message holds. */
  ghost predicate LeftOver(ms: seq<Message>, k: nat)
    requires k < |ms|
  {
    exists id :: Owed(id, ms[..k]) < |ResultsOf(id, BlocksOf(ms[k]))|
  }

  /** What the chat shows of message `k`. A message of the user or the assistant without text and calls
      counts if it has blocks other than results, or, for the assistant, results that are left; for the
      user only if none are left. */
  ghost function ShownAt(ms: seq<Message>, k: nat): (r: seq<Entry>)
    requires k < |ms|
  {
    var m := ms[k];
    var bs := BlocksOf(m);
    if MakesCalls(m) then [CallTools(CallIds(bs), Inputs(bs), Texts(bs))]
    else if HasText(bs) then [Say(m.role, Texts(bs))]
    else if m.role == System then []
    else if m.role == User && LeftOver(ms, k) then []
    else if NonResults(bs) != [] || LeftOver(ms, k) then [Say(m.role, [])]
    else []
  }

  ghost function ShownFrom(ms: seq<Message>, k: nat := 0): (r: seq<Entry>)
    requires k <= |ms|
    decreases |ms| - k
  {
    if k == |ms| then [] else ShownAt(ms, k) + ShownFrom(ms, k + 1)
  }

  lemma {:induction false} ReachedParts(ms: seq<Message>, k: nat, out: seq<Message>)
    requires k < |ms| && Reached(ms, k, out)
    ensures out[0].role == ms[k].role && NonResults(BlocksOf(out[0])) == NonResults(BlocksOf(ms[k]))
    ensures HasToolResult(BlocksOf(out[0])) <==> LeftOver(ms, k)
  {
    hide ResultsOf, UseIds, Owed, NonResults, HasToolResult;
    assert ms[k..][0] == ms[k];
    assert Without(NoName, Owed(NoName, ms[..k]), ms[k..], out);
    HasResultOf(BlocksOf(out[0]));
    if id :| ResultsOf(id, BlocksOf(out[0])) != [] {
      LeftOne(ms, k, out, id);
    }
    if id :| Owed(id, ms[..k]) < |ResultsOf(id, BlocksOf(ms[k]))| {
      LeftOne(ms, k, out, id);
    }
  }

  lemma {:induction false} LeftOne(ms: seq<Message>, k: nat, out: seq<Message>, id: Name)
    requires k < |ms| && Reached(ms, k, out)
    ensures ResultsOf(id, BlocksOf(out[0])) != [] <==> Owed(id, ms[..k]) < |ResultsOf(id, BlocksOf(ms[k]))|
  {
    hide ResultsOf, UseIds, Owed, NonResults;
    assert ms[k..][0] == ms[k];
    assert Without(id, Owed(id, ms[..k]), ms[k..], out);
    DropMore(ResultsOf(id, BlocksOf(ms[k])), Owed(id, ms[..k]), 0);
  }

  lemma {:induction false} HasTextOfOthers(bs: seq<Block>)
    ensures HasText(bs) <==> HasText(NonResults(bs))
  {
    TextsAreThere(bs);
    TextsAreThere(NonResults(bs));
    PartsOfOthers(bs);
  }

  /** Blocks that differ in results only. */
  lemma {:induction false} SameOthers(a: seq<Block>, b: seq<Block>)
    requires NonResults(a) == NonResults(b)
    ensures CallIds(a) == CallIds(b) && Inputs(a) == Inputs(b) && Texts(a) == Texts(b) && (HasText(a) <==> HasText(b))
    ensures (exists x :: x in a && x.ToolUse?) <==> (exists x :: x in b && x.ToolUse?)
  {
    hide CallIds, Inputs, Texts, HasText, NonResults;
    PartsOfOthers(a);
    PartsOfOthers(b);
    HasTextOfOthers(a);
    HasTextOfOthers(b);
    CallsHaveIds(a);
    CallsHaveIds(b);
  }

  /** What is shown of a message the pass has reached. */
  lemma {:induction false} ReachedShown(ms: seq<Message>, k: nat, out: seq<Message>)
    requires k < |ms| && Reached(ms, k, out)
    ensures BlocksOf(out[0]) != [] ==> Shown(out[0]) == ShownAt(ms, k)
    ensures BlocksOf(out[0]) == [] ==> ShownAt(ms, k) == []
  {
    var a, b := BlocksOf(out[0]), BlocksOf(ms[k]);
    hide Reached, CallIds, Inputs, Texts, NonResults, LeftOver, HasToolResult;
    ReachedParts(ms, k, out);
    SameOthers(a, b);
    OthersOrResults(a);
    TextsAreThere(a);
    if a == [] {
      NothingInside();
    }
  }

  lemma NothingInside()
    ensures NonResults([]) == [] && !HasText([])
  {
  }

  lemma {:induction false} CarrierShowsNothing(ids: seq<Name>, found: map<Name, Block>)
    requires ids != [] && OwnResults(found)
    ensures Shown(Carrier(ids, found)) == []
  {
    CarrierAccepted(ids, found);
  }

  lemma {:induction false} EnforcedShown(ms: seq<Message>, k: nat, out: seq<Message>)
    requires k <= |ms| && Reached(ms, k, out)
    ensures AllShown(Enforced(out)) == ShownFrom(ms, k)
    decreases |ms| - k
  {
    hide Shown, ShownAt, Without, SweepMessages, UseIds, Answers, Enforced, AsSet;
    if k == |ms| {
      EnforcedNil(out);
    } else {
      ReachedHead(ms, k, out);
      ReachedShown(ms, k, out);
      EnforcedStep(out);
      if Calls(ms[k]) {
        var ids := CalledIn(ms[k]);
        var s := SweepMessages(AsSet(ids), out[1..]);
        ReachedCalling(ms, k, out);
        EnforcedShown(ms, k + 1, s.rest);
        SweepOwnResults(AsSet(ids), out[1..]);
        CarrierShowsNothing(ids, s.found);
        CallingHasBlocks(out[0]);
        TwoShown(out[0], Carrier(ids, s.found), Enforced(s.rest));
      } else {
        ReachedSilent(ms, k, out);
        EnforcedShown(ms, k + 1, out[1..]);
        if BlocksOf(out[0]) != [] {
          assert ([out[0]] + Enforced(out[1..]))[1..] == Enforced(out[1..]);
        }
      }
    }
  }

  lemma {:induction false} TwoShown(a: Message, b: Message, tail: seq<Message>)
    requires Shown(b) == []
    ensures AllShown([a] + [b] + tail) == Shown(a) + AllShown(tail)
  {
    hide Shown;
    var all := [a] + [b] + tail;
    assert all[0] == a && all[1..] == [b] + tail && all[1..][0] == b && all[1..][1..] == tail;
    assert [] + AllShown(tail) == AllShown(tail);
  }

  /** For every history: besides the answers, the chat of the repaired history holds, in order, the calls of
      each calling message and one entry for each other message that says something, all read off the
      history itself. */
  lemma {:induction false} ChatShowsHistory(ms: seq<Message>)
    ensures Outline(Converted(Enforced(ms))) == ShownFrom(ms)
  {
    hide Reached, Converted, Enforced, Outline;
    ChatShowsMessages(Enforced(ms));
    StartsReached(ms);
    EnforcedShown(ms, 0, ms);
  }

  // ----- No text is lost -----

  function ChatTexts(chat: seq<Entry>): (r: seq<Text>) {
    if chat == [] then []
    else (if chat[0].Answered? then [] else chat[0].texts) + ChatTexts(chat[1..])
  }

  lemma {:induction false} OutlineKeepsTexts(chat: seq<Entry>)
    ensures ChatTexts(Outline(chat)) == ChatTexts(chat)
  {
    if chat != [] {
      OutlineKeepsTexts(chat[1..]);
      var outline := Outline(chat);
      if !chat[0].Answered? {
        assert outline[0] == chat[0] && outline[1..] == Outline(chat[1..]);
      } else {
        assert outline == Outline(chat[1..]);
      }
    }
  }

  lemma {:induction false} ShownAtTexts(ms: seq<Message>, k: nat)
    requires k < |ms|
    ensures ChatTexts(ShownAt(ms, k)) == Texts(BlocksOf(ms[k]))
  {
    TextsAreThere(BlocksOf(ms[k]));
    hide Texts, CallIds, Inputs, LeftOver, HasText;
    var e := ShownAt(ms, k);
    if e != [] {
      assert e[1..] == [];
    }
  }

  lemma {:induction false} ShownTexts(ms: seq<Message>, k: nat)
    requires k <= |ms|
    ensures ChatTexts(ShownFrom(ms, k)) == Texts(AllBlocks(ms[k..]))
    decreases |ms| - k
  {
    hide ShownAt, Texts, ChatTexts;
    if k == |ms| {
      NoTexts();
    } else {
      ShownTexts(ms, k + 1);
      ShownAtTexts(ms, k);
      ChatTextsConcat(ShownAt(ms, k), ShownFrom(ms, k + 1));
      assert ms[k..][0] == ms[k] && ms[k..][1..] == ms[k + 1..];
      TextsConcat(BlocksOf(ms[k]), AllBlocks(ms[k + 1..]));
    }
  }

  lemma NoTexts()
    ensures ChatTexts([]) == [] && Texts([]) == []
  {
  }

  lemma {:induction false} ChatTextsConcat(a: seq<Entry>, b: seq<Entry>)
    ensures ChatTexts(a + b) == ChatTexts(a) + ChatTexts(b)
  {
    if a == [] {
      assert a + b == b;
    } else {
      assert (a + b)[0] == a[0] && (a + b)[1..] == a[1..] + b;
      var first := if a[0].Answered? then [] else a[0].texts;
      assert ChatTexts(a + b) == first + ChatTexts(a[1..] + b) && ChatTexts(a) == first + ChatTexts(a[1..]);
      hide ChatTexts;
      ChatTextsConcat(a[1..], b);
      Assoc(first, ChatTexts(a[1..]), ChatTexts(b));
    }
  }

  /** The chat of a repaired history shows every text of its blocks exactly once, in order. */
  lemma {:induction false} ChatKeepsTexts(ms: seq<Message>)
    ensures ChatTexts(Converted(Enforced(ms))) == Texts(AllBlocks(ms))
  {
    hide Converted, Enforced, Outline, ChatTexts, Texts, ShownFrom;
    ChatShowsHistory(ms);
    OutlineKeepsTexts(Converted(Enforced(ms)));
    ShownTexts(ms, 0);
    assert ms[0..] == ms;
  }

  // ----- Whatever the history, every named call is answered -----

  /** The calls answered before the next entry with calls. */
  function Leading(chat: seq<Entry>): (s: set<Name>) {
    if chat == [] || chat[0].CallTools? then {}
    else (if chat[0].Answered? then {chat[0].id} else {}) + Leading(chat[1..])
  }

  /** Behind every entry with calls, and before the next one, exactly its named calls are answered. */
  predicate Covered(chat: seq<Entry>) {
    chat == [] || ((chat[0].CallTools? ==> Leading(chat[1..]) == Expected(chat[0].calls)) && Covered(chat[1..]))
  }

  predicate NoCalls(chat: seq<Entry>) {
    forall i :: 0 <= i < |chat| ==> !chat[i].CallTools?
  }

  lemma {:induction false} LeadingConcat(a: seq<Entry>, b: seq<Entry>)
    requires NoCalls(a)
    ensures Leading(a + b) == Leading(a) + Leading(b) && (Covered(a + b) <==> Covered(b))
  {
    if a == [] {
      assert a + b == b;
    } else {
      assert (a + b)[0] == a[0] && (a + b)[1..] == a[1..] + b;
      LeadingConcat(a[1..], b);
    }
  }

  lemma {:induction false} EntriesAnswer(bs: seq<Block>)
    ensures NoCalls(ToolEntries(bs)) && Leading(ToolEntries(bs)) == Matched(bs)
  {
    if bs != [] {
      EntriesAnswer(bs[1..]);
      assert bs == [bs[0]] + bs[1..];
      var es := ToolEntries(bs);
      if bs[0].ToolResult? {
        assert es[1..] == ToolEntries(bs[1..]);
        assert Matched(bs) == {bs[0].id} + Matched(bs[1..]);
      } else {
        assert es == ToolEntries(bs[1..]);
        assert Matched(bs) == Matched(bs[1..]);
      }
    }
  }

  lemma {:induction false} CarrierAnswers(m: Message, expected: set<Name>)
    requires IsCarrier(m, expected)
    ensures NoCalls(CarrierEntries(m)) && Leading(CarrierEntries(m)) == Matched(BlocksOf(m)) <= expected
  {
    EntriesAnswer(BlocksOf(m));
    var said := if HasText(BlocksOf(m)) then [Say(User, Texts(BlocksOf(m)))] else [];
    LeadingConcat(ToolEntries(BlocksOf(m)), said);
    assert Leading(said) == {};
    assert Matched(BlocksOf(m)) + {} == Matched(BlocksOf(m));
  }

  lemma {:induction false} ConsumedAnswer(ms: seq<Message>, expected: set<Name>)
    ensures NoCalls(ConsumedEntries(ms, expected))
    ensures Leading(ConsumedEntries(ms, expected)) + StillExpected(ms, expected) == expected
    decreases |ms|
  {
    hide IsCarrier, CarrierEntries, Matched;
    if ms != [] && IsCarrier(ms[0], expected) {
      var matched := Matched(BlocksOf(ms[0]));
      CarrierAnswers(ms[0], expected);
      ConsumedAnswer(ms[1..], expected - matched);
      LeadingConcat(CarrierEntries(ms[0]), ConsumedEntries(ms[1..], expected - matched));
      assert matched + (expected - matched) == expected;
    }
  }

  /** A fallback for every missing call, in sorted order, each with the same text. */
  lemma {:induction false} FallbacksAnswer(missing: set<Name>)
    ensures var f := Fallbacks(missing);
            && |f| == |missing| && NoCalls(f) && Leading(f) == missing
            && (forall i :: 0 <= i < |f| ==>
                  f[i].Answered? && f[i].id in missing && f[i].content == LOST_BEFORE_RETRY && !f[i].isError)
            && (forall i, j :: 0 <= i < j < |f| ==> f[i].id < f[j].id)
  {
    if missing != {} {
      var f := Fallbacks(missing);
      var x := f[0].id;
      assert f == [Answered(x, LOST_BEFORE_RETRY, false)] + Fallbacks(missing - {x}) && IsLeast(x, missing);
      FallbacksAnswer(missing - {x});
      assert f[1..] == Fallbacks(missing - {x});
    }
  }

  lemma {:induction false} PlainAnswersNothing(m: Message)
    ensures NoCalls(PlainEntries(m)) && Leading(PlainEntries(m)) == {}
  {
    hide Texts;
  }

  /** For every list of messages, repaired or not: behind every entry with calls exactly its named calls are
      answered, and nothing is answered before the first such entry. */
  lemma {:induction false} AnswersCoverCalls(ms: seq<Message>)
    ensures Covered(Converted(ms)) && Leading(Converted(ms)) == {}
    decreases |ms|
  {
    hide Covered, Leading, PlainEntries, CallEntry, Fallbacks, Converted;
    hide Consumed, ConsumedEntries, StillExpected, CallIds;
    if ms == [] {
      ConvertedNil(ms);
      NothingCovered();
    } else {
      ConvertedStep(ms, 0);
      assert ms[0..] == ms;
      var calls := CallIds(BlocksOf(ms[0]));
      if ms[0].role == Assistant && calls != [] {
        var n := Consumed(ms[1..], Expected(calls));
        AnswersCoverCalls(ms[1 + n..]);
        var used, lost := ConsumedEntries(ms[1..], Expected(calls)), Fallbacks(StillExpected(ms[1..], Expected(calls)));
        var tail := Converted(ms[1 + n..]);
        ConsumedAnswer(ms[1..], Expected(calls));
        FallbacksAnswer(StillExpected(ms[1..], Expected(calls)));
        CoveredCall(CallEntry(ms[0]), used, lost, tail) by { CallEntryCalls(ms[0]); }
        CallEntryCalls(ms[0]);
      } else {
        AnswersCoverCalls(ms[1..]);
        PlainAnswersNothing(ms[0]);
        LeadingConcat(PlainEntries(ms[0]), Converted(ms[1..]));
      }
    }
  }

  lemma NothingCovered()
    ensures Covered([]) && Leading([]) == {}
  {
  }

  lemma CallEntryCalls(m: Message)
    ensures CallEntry(m).CallTools? && CallEntry(m).calls == CallIds(BlocksOf(m))
  {
  }

  lemma {:induction false} CoveredCall(call: Entry, used: seq<Entry>, lost: seq<Entry>, tail: seq<Entry>)
    requires call.CallTools? && NoCalls(used) && NoCalls(lost) && Covered(tail) && Leading(tail) == {}
    requires Leading(used) + Leading(lost) == Expected(call.calls)
    ensures Covered([call] + used + lost + tail) && Leading([call] + used + lost + tail) == {}
  {
    var chat := [call] + used + lost + tail;
    assert chat[0] == call && chat[1..] == used + (lost + tail);
    LeadingConcat(lost, tail);
    LeadingConcat(used, lost + tail);
    assert Leading(used) + (Leading(lost) + {}) == Leading(used) + Leading(lost);
  }
}
