/** Which results of a history reach the provider as answers, for every list of messages (api/client.go). */
module ChatCarriers {
  import opened Prelude
  import opened Messages
  import opened ProviderChat

  /** A user message that brings results of open calls and besides these only hints. */
  predicate Carries(m: Message, open: set<Name>) {
    && m.role == User && m.content.Blocks?
    && (exists b :: b in m.content.blocks && b.ToolResult?)
    && forall b :: b in m.content.blocks ==> if b.ToolResult? then b.id in open else b.Text? && b.hint
  }

  /** The calls answered by the first `n` messages. */
  function AnsweredIn(ms: seq<Message>, n: nat): (s: set<Name>)
    requires n <= |ms|
  {
    set j, b | 0 <= j < n && b in BlocksOf(ms[j]) && b.ToolResult? :: b.id
  }

  /** The first `n` messages carry results, each of calls that the ones before it left open, and the next
      message does not. */
  predicate CarriersEnd(ms: seq<Message>, expected: set<Name>, n: nat) {
    && n <= |ms|
    && (forall k :: 0 <= k < n ==> Carries(ms[k], expected - AnsweredIn(ms, k)))
    && (n < |ms| ==> !Carries(ms[n], expected - AnsweredIn(ms, n)))
  }

  lemma CarriesMeans(m: Message, open: set<Name>)
    ensures Carries(m, open) <==> IsCarrier(m, open)
  {
  }

  lemma {:induction false} AnsweredCons(ms: seq<Message>, n: nat)
    requires 0 < n <= |ms|
    ensures AnsweredIn(ms, n) == Matched(BlocksOf(ms[0])) + AnsweredIn(ms[1..], n - 1)
  {
    forall id ensures id in AnsweredIn(ms, n) <==> id in Matched(BlocksOf(ms[0])) + AnsweredIn(ms[1..], n - 1) {
      if id in AnsweredIn(ms, n) {
        var j, b :| 0 <= j < n && b in BlocksOf(ms[j]) && b.ToolResult? && b.id == id;
        assert j > 0 ==> ms[1..][j - 1] == ms[j];
      }
      if id in AnsweredIn(ms[1..], n - 1) {
        var j, b :| 0 <= j < n - 1 && b in BlocksOf(ms[1..][j]) && b.ToolResult? && b.id == id;
        assert b in BlocksOf(ms[j + 1]);
      }
      if id in Matched(BlocksOf(ms[0])) {
        var b :| b in BlocksOf(ms[0]) && b.ToolResult? && b.id == id;
      }
    }
  }

  lemma {:induction false} ConsumedEnds(ms: seq<Message>, expected: set<Name>)
    ensures CarriersEnd(ms, expected, Consumed(ms, expected))
    ensures StillExpected(ms, expected) == expected - AnsweredIn(ms, Consumed(ms, expected))
    decreases |ms|
  {
    var n := Consumed(ms, expected);
    if ms != [] {
      CarriesMeans(ms[0], expected);
    }
    if n == 0 {
      assert AnsweredIn(ms, 0) == {} && expected - {} == expected;
    } else {
      var rest := expected - Matched(BlocksOf(ms[0]));
      ConsumedEnds(ms[1..], rest);
      hide Carries, Matched, IsCarrier;
      assert AnsweredIn(ms, 0) == {} && expected - {} == expected;
      forall k | 0 < k <= n ensures expected - AnsweredIn(ms, k) == rest - AnsweredIn(ms[1..], k - 1) {
        AnsweredCons(ms, k);
      }
      hide AnsweredIn;
      assert forall k :: 0 < k < |ms| ==> ms[k] == ms[1..][k - 1];
    }
  }

  /** The conversion takes messages behind calls as carriers exactly as far as they bring nothing but results
      of calls that are still open, and hints; the calls then left are those without a result there. */
  lemma {:induction false} ConsumedExactly(ms: seq<Message>, expected: set<Name>, n: nat)
    ensures Consumed(ms, expected) == n <==> CarriersEnd(ms, expected, n)
    ensures StillExpected(ms, expected) == expected - AnsweredIn(ms, Consumed(ms, expected))
  {
    hide Carries, Consumed, StillExpected, AnsweredIn;
    ConsumedEnds(ms, expected);
  }

  // ----- What the answers say -----

  /** The tool entries of a chat, in order. */
  function Replies(chat: seq<Entry>): (r: seq<Entry>) {
    if chat == [] then [] else (if chat[0].Answered? then [chat[0]] else []) + Replies(chat[1..])
  }

  lemma {:induction false} RepliesConcat(a: seq<Entry>, b: seq<Entry>)
    ensures Replies(a + b) == Replies(a) + Replies(b)
    decreases |a|
  {
    if a == [] {
      assert a + b == b;
    } else {
      assert (a + b)[0] == a[0] && (a + b)[1..] == a[1..] + b;
      RepliesConcat(a[1..], b);
    }
  }

  /** The results among some blocks, each as a tool entry. */
  function Told(bs: seq<Block>): (r: seq<Entry>) {
    if bs == [] then []
    else
      var b := bs[|bs| - 1];
      Told(bs[..|bs| - 1]) + if b.ToolResult? then [Answered(b.id, b.content, b.isError)] else []
  }

  lemma {:induction false} ToldConcat(a: seq<Block>, b: seq<Block>)
    ensures Told(a + b) == Told(a) + Told(b)
    decreases |b|
  {
    if b == [] {
      assert a + b == a;
    } else {
      assert (a + b)[..|a + b| - 1] == a + b[..|b| - 1];
      ToldConcat(a, b[..|b| - 1]);
    }
  }

  lemma {:induction false} EntriesAreTold(bs: seq<Block>)
    ensures Replies(ToolEntries(bs)) == ToolEntries(bs) == Told(bs)
    decreases |bs|
  {
    if bs != [] {
      assert bs == [bs[0]] + bs[1..];
      ToldConcat([bs[0]], bs[1..]);
      assert [bs[0]][..0] == [];
      EntriesAreTold(bs[1..]);
      var head := if bs[0].ToolResult? then [Answered(bs[0].id, bs[0].content, bs[0].isError)] else [];
      RepliesConcat(head, ToolEntries(bs[1..]));
      assert head != [] ==> head[1..] == [];
    }
  }

  lemma {:induction false} CarrierReplies(m: Message)
    ensures Replies(CarrierEntries(m)) == Told(BlocksOf(m))
  {
    var said := if HasText(BlocksOf(m)) then [Say(User, Texts(BlocksOf(m)))] else [];
    RepliesConcat(ToolEntries(BlocksOf(m)), said);
    assert said != [] ==> said[1..] == [];
    EntriesAreTold(BlocksOf(m));
  }

  lemma {:induction false} ConsumedReplies(ms: seq<Message>, expected: set<Name>)
    ensures Replies(ConsumedEntries(ms, expected)) == Told(AllBlocks(ms[..Consumed(ms, expected)]))
    decreases |ms|
  {
    hide CarrierEntries, Matched, IsCarrier;
    var n := Consumed(ms, expected);
    if n == 0 {
      assert ms[..0] == [];
    } else {
      var rest := expected - Matched(BlocksOf(ms[0]));
      ConsumedReplies(ms[1..], rest);
      CarrierReplies(ms[0]);
      RepliesConcat(CarrierEntries(ms[0]), ConsumedEntries(ms[1..], rest));
      assert ms[..n][0] == ms[0] && ms[..n][1..] == ms[1..][..n - 1];
      ToldConcat(BlocksOf(ms[0]), AllBlocks(ms[1..][..n - 1]));
    }
  }

  /** For every list of messages: behind a message with calls come the results that the carriers bring, each
      with its content and error mark, in order, and then a note of loss for every named call without one. */
  lemma {:induction false} AnswersAreCarried(ms: seq<Message>, n: nat) returns (used: seq<Entry>)
    requires ms != [] && ms[0].role == Assistant && CallIds(BlocksOf(ms[0])) != []
    requires CarriersEnd(ms[1..], Expected(CallIds(BlocksOf(ms[0]))), n)
    ensures var open := Expected(CallIds(BlocksOf(ms[0]))) - AnsweredIn(ms[1..], n);
            && Replies(used) == Told(AllBlocks(ms[1..][..n]))
            && Converted(ms) == [CallEntry(ms[0])] + used + Fallbacks(open) + Converted(ms[1 + n..])
  {
    var expected := Expected(CallIds(BlocksOf(ms[0])));
    ConsumedExactly(ms[1..], expected, n);
    used := ConsumedEntries(ms[1..], expected);
    ConsumedReplies(ms[1..], expected);
    hide CarriersEnd, AnsweredIn, Consumed, ConsumedEntries, StillExpected;
    hide Replies, Told, AllBlocks, CallEntry, Fallbacks;
  }
}
