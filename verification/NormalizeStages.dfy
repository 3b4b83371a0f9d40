/** The early stages of normalisation (agent/normalize.go) lose no text, no call and no result. */
module NormalizeStages {
  import opened Prelude
  import opened Messages
  import opened Normalize

  // ----- The stages as loops -----

  /** The blocks that pass a rule, in order. */
  method SelectBlocks(blocks: seq<Block>, keep: Block -> bool) returns (kept: seq<Block>)
    ensures kept == Select(blocks, keep)
  {
    hide Select;
    kept := [];
    assert blocks[0..] == blocks;
    for i := 0 to |blocks|
      invariant kept + Select(blocks[i..], keep) == Select(blocks, keep)
    {
      SelectStep(blocks, keep, i);
      if keep(blocks[i]) {
        kept := kept + [blocks[i]];
      }
    }
    SelectNothing(blocks[|blocks|..], keep);
  }

  lemma SelectNothing(bs: seq<Block>, keep: Block -> bool)
    requires bs == []
    ensures Select(bs, keep) == []
  {
  }

  lemma SelectStep(bs: seq<Block>, keep: Block -> bool, i: nat)
    requires i < |bs|
    ensures Select(bs[i..], keep) == if keep(bs[i]) then [bs[i]] + Select(bs[i + 1..], keep)
        else Select(bs[i + 1..], keep)
  {
    assert bs[i..][1..] == bs[i + 1..];
    assert [] + Select(bs[i + 1..], keep) == Select(bs[i + 1..], keep);
  }

  /** Attachments first, everything else after them, message by message. */
  method MoveAttachments(messages: seq<Message>) returns (out: seq<Message>)
    ensures out == ReorderAttachments(messages)
  {
    out := [];
    assert messages[0..] == messages;
    for i := 0 to |messages|
      invariant out + ReorderAttachments(messages[i..]) == ReorderAttachments(messages)
    {
      var msg := messages[i];
      assert messages[i..][1..] == messages[i + 1..];
      var next := msg;
      if msg.content.Blocks? {
        var attachments := SelectBlocks(BlocksOf(msg), (b: Block) => b.Attachment?);
        var others := SelectBlocks(BlocksOf(msg), (b: Block) => !b.Attachment?);
        next := WithBlocks(msg, attachments + others);
      }
      assert next == ReorderMessage(msg);
      out := out + [next];
    }
  }

  method DropVirtual(messages: seq<Message>) returns (out: seq<Message>)
    ensures out == FilterVirtual(messages)
  {
    hide FilterVirtual;
    out := [];
    assert messages[0..] == messages;
    for i := 0 to |messages|
      invariant out + FilterVirtual(messages[i..]) == FilterVirtual(messages)
    {
      FilterStep(messages, i);
      if !messages[i].isVirtual {
        out := out + [messages[i]];
      }
    }
    FilterNothing(messages[|messages|..]);
  }

  lemma FilterNothing(ms: seq<Message>)
    requires ms == []
    ensures FilterVirtual(ms) == []
  {
  }

  lemma FilterStep(ms: seq<Message>, i: nat)
    requires i < |ms|
    ensures FilterVirtual(ms[i..]) ==
            if ms[i].isVirtual then FilterVirtual(ms[i + 1..]) else [ms[i]] + FilterVirtual(ms[i + 1..])
  {
    assert ms[i..][1..] == ms[i + 1..];
    assert [] + FilterVirtual(ms[i + 1..]) == FilterVirtual(ms[i + 1..]);
  }

  /** One message of a stage that drops blocks; a message left without blocks goes too. */
  method SelectInMessage(msg: Message, keep: Block -> bool) returns (piece: seq<Message>)
    ensures piece == SelectMessage(msg, keep)
  {
    if msg.content.Plain? {
      return [msg];
    }
    var filtered := SelectBlocks(BlocksOf(msg), keep);
    return if filtered == [] then [] else [WithBlocks(msg, filtered)];
  }

  method DropInternal(messages: seq<Message>, rejected: set<AttachmentKind>) returns (out: seq<Message>)
    ensures out == StripInternal(messages, rejected)
  {
    hide SelectMessage;
    out := [];
    assert messages[0..] == messages;
    for i := 0 to |messages|
      invariant out + StripInternal(messages[i..], rejected) == StripInternal(messages, rejected)
    {
      assert messages[i..][1..] == messages[i + 1..];
      var piece := SelectInMessage(messages[i], (b: Block) => !b.Internal? && !(b.Attachment? && b.kind in rejected));
      Assoc(out, piece, StripInternal(messages[i + 1..], rejected));
      out := out + piece;
    }
  }

  method DropThinking(messages: seq<Message>, supported: bool) returns (out: seq<Message>)
    ensures out == HandleThinking(messages, supported)
  {
    hide SelectMessage;
    out := [];
    assert messages[0..] == messages;
    for i := 0 to |messages|
      invariant out + HandleThinking(messages[i..], supported) == HandleThinking(messages, supported)
    {
      assert messages[i..][1..] == messages[i + 1..];
      var strip := messages[i].role == User || !supported;
      var piece := SelectInMessage(messages[i], (b: Block) => !(b.Thinking? && strip));
      Assoc(out, piece, HandleThinking(messages[i + 1..], supported));
      out := out + piece;
    }
  }

  // ----- What they keep -----

  predicate IsCore(b: Block) {
    b.Text? || b.ToolUse? || b.ToolResult?
  }

  /** The text, the calls and the results among some blocks. */
  function Core(bs: seq<Block>): (r: seq<Block>) {
    if bs == [] then [] else (if IsCore(bs[0]) then [bs[0]] else []) + Core(bs[1..])
  }

  lemma {:induction false} CoreConcat(a: seq<Block>, b: seq<Block>)
    ensures Core(a + b) == Core(a) + Core(b)
    decreases |a|
  {
    if a == [] {
      assert a + b == b;
    } else {
      assert (a + b)[0] == a[0] && (a + b)[1..] == a[1..] + b;
      var first := if IsCore(a[0]) then [a[0]] else [];
      assert Core(a + b) == first + Core(a[1..] + b) && Core(a) == first + Core(a[1..]);
      hide Core;
      CoreConcat(a[1..], b);
      Assoc(first, Core(a[1..]), Core(b));
    }
  }

  /** Selecting blocks by a rule that spares the core keeps the core. */
  lemma {:induction false} CoreSelect(bs: seq<Block>, keep: Block -> bool)
    requires forall b: Block :: IsCore(b) ==> keep(b)
    ensures Core(Select(bs, keep)) == Core(bs)
  {
    if bs != [] {
      CoreSelect(bs[1..], keep);
      var rest := Select(bs[1..], keep);
      assert ([bs[0]] + rest)[1..] == rest;
      assert [] + rest == rest;
    }
  }

  lemma {:induction false} NoCoreSelected(bs: seq<Block>, keep: Block -> bool)
    requires forall b: Block :: IsCore(b) ==> !keep(b)
    ensures Core(Select(bs, keep)) == []
  {
    if bs != [] {
      NoCoreSelected(bs[1..], keep);
      var rest := Select(bs[1..], keep);
      assert ([bs[0]] + rest)[1..] == rest;
      assert [] + rest == rest;
    }
  }

  lemma CoreOfReordered(m: Message)
    ensures Core(BlocksOf(ReorderMessage(m))) == Core(BlocksOf(m))
  {
    if m.content.Blocks? {
      var bs := BlocksOf(m);
      var first, second := Select(bs, (b: Block) => b.Attachment?), Select(bs, (b: Block) => !b.Attachment?);
      CoreConcat(first, second);
      NoCoreSelected(bs, (b: Block) => b.Attachment?);
      CoreSelect(bs, (b: Block) => !b.Attachment?);
    }
  }

  lemma CoreOfSelected(m: Message, keep: Block -> bool)
    requires forall b: Block :: IsCore(b) ==> keep(b)
    ensures Core(AllBlocks(SelectMessage(m, keep))) == Core(BlocksOf(m))
  {
    CoreSelect(BlocksOf(m), keep);
    OneHead(m);
    OneHead(WithBlocks(m, Select(BlocksOf(m), keep)));
  }

  lemma {:induction false} ReorderKeepsCore(ms: seq<Message>)
    ensures Core(AllBlocks(ReorderAttachments(ms))) == Core(AllBlocks(ms))
  {
    if ms != [] {
      ReorderKeepsCore(ms[1..]);
      CoreOfReordered(ms[0]);
      var rest := ReorderAttachments(ms[1..]);
      assert ([ReorderMessage(ms[0])] + rest)[1..] == rest;
      CoreConcat(BlocksOf(ReorderMessage(ms[0])), AllBlocks(rest));
      CoreConcat(BlocksOf(ms[0]), AllBlocks(ms[1..]));
    }
  }

  lemma {:induction false} StripKeepsCore(ms: seq<Message>, rejected: set<AttachmentKind>)
    ensures Core(AllBlocks(StripInternal(ms, rejected))) == Core(AllBlocks(ms))
  {
    if ms != [] {
      StripKeepsCore(ms[1..], rejected);
      var keep := (b: Block) => !b.Internal? && !(b.Attachment? && b.kind in rejected);
      CoreOfSelected(ms[0], keep);
      OneStage(ms, SelectMessage(ms[0], keep), StripInternal(ms[1..], rejected));
    }
  }

  lemma {:induction false} ThinkingKeepsCore(ms: seq<Message>, supported: bool)
    ensures Core(AllBlocks(HandleThinking(ms, supported))) == Core(AllBlocks(ms))
  {
    if ms != [] {
      ThinkingKeepsCore(ms[1..], supported);
      var strip := ms[0].role == User || !supported;
      var keep := (b: Block) => !(b.Thinking? && strip);
      CoreOfSelected(ms[0], keep);
      OneStage(ms, SelectMessage(ms[0], keep), HandleThinking(ms[1..], supported));
    }
  }

  lemma {:induction false} OneStage(ms: seq<Message>, first: seq<Message>, rest: seq<Message>)
    requires ms != [] && Core(AllBlocks(first)) == Core(BlocksOf(ms[0]))
        && Core(AllBlocks(rest)) == Core(AllBlocks(ms[1..]))
    ensures Core(AllBlocks(first + rest)) == Core(AllBlocks(ms))
  {
    assert AllBlocks(ms) == BlocksOf(ms[0]) + AllBlocks(ms[1..]);
    hide AllBlocks, Core;
    AllBlocksConcat(first, rest);
    CoreConcat(AllBlocks(first), AllBlocks(rest));
    CoreConcat(BlocksOf(ms[0]), AllBlocks(ms[1..]));
  }

  // ----- Order -----

  lemma {:induction false} CoreOthersInOrder(bs: seq<Block>)
    ensures InOrder(NonResults(Core(bs)), NonResults(bs))
  {
    if bs == [] {
      InOrderItself<Block>([]);
    } else {
      CoreOthersInOrder(bs[1..]);
      var x, a, b := bs[0], NonResults(Core(bs[1..])), NonResults(bs[1..]);
      OthersStep(bs);
      hide NonResults, Core, InOrder;
      if x.Text? || x.ToolUse? {
        InOrderCons(a, b, x);
      } else if !x.ToolResult? {
        InOrderMore(a, b, x);
      }
    }
  }

  lemma OthersStep(bs: seq<Block>)
    requires bs != []
    ensures NonResults(bs) == if bs[0].ToolResult? then NonResults(bs[1..]) else [bs[0]] + NonResults(bs[1..])
    ensures NonResults(Core(bs)) ==
            if bs[0].Text? || bs[0].ToolUse? then [bs[0]] + NonResults(Core(bs[1..])) else NonResults(Core(bs[1..]))
  {
    var rest := Core(bs[1..]);
    assert ([bs[0]] + rest)[1..] == rest && [] + rest == rest;
  }
}
