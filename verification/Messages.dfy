/** Conversation messages as lists of content blocks, and the repairs that leave no tool call
    and no tool result alone (agent/messages.go, agent/normalize.go). */
module Messages {
  import opened Prelude

  datatype Role = User | Assistant | System

  datatype AttachmentKind = Image | Document | File

  datatype Block =
    | Text(text: Text, hint: bool)
    | ToolUse(id: Name, input: Text)
    | ToolResult(id: Name, content: Text, isError: bool)
    | Attachment(kind: AttachmentKind, body: Text)
    | Thinking(body: Text)
    | Internal(body: Text)

  /** Content is either a plain string or a list of blocks. */
  datatype Content = Plain(text: Text) | Blocks(blocks: seq<Block>)

  datatype Message = Message(role: Role, mid: Name, isVirtual: bool, content: Content)

  /** Plain text counts as no blocks at all. */
  function BlocksOf(m: Message): (r: seq<Block>) {
    if m.content.Blocks? then m.content.blocks else []
  }

  function WithBlocks(m: Message, bs: seq<Block>): (r: Message) {
    m.(content := Blocks(bs))
  }

  function AllBlocks(ms: seq<Message>): (r: seq<Block>) {
    if ms == [] then [] else BlocksOf(ms[0]) + AllBlocks(ms[1..])
  }

  /** Names of tool calls, and of answered calls; the empty name is never counted. */
  function UseNames(bs: seq<Block>): (r: set<Name>) {
    set b | b in bs && b.ToolUse? && b.id != NoName :: b.id
  }

  function ResultNames(bs: seq<Block>): (r: set<Name>) {
    set b | b in bs && b.ToolResult? && b.id != NoName :: b.id
  }

  function OrphanUses(ms: seq<Message>): (r: set<Name>) {
    UseNames(AllBlocks(ms)) - ResultNames(AllBlocks(ms))
  }

  function OrphanResults(ms: seq<Message>): (r: set<Name>) {
    ResultNames(AllBlocks(ms)) - UseNames(AllBlocks(ms))
  }

  /** Every named call has a result and every named result has a call. */
  predicate NoOrphans(ms: seq<Message>) {
    UseNames(AllBlocks(ms)) == ResultNames(AllBlocks(ms))
  }

  lemma {:induction false} AllBlocksConcat(a: seq<Message>, b: seq<Message>)
    ensures AllBlocks(a + b) == AllBlocks(a) + AllBlocks(b)
  {
    if a == [] {
      assert a + b == b;
    } else {
      assert (a + b)[0] == a[0] && (a + b)[1..] == a[1..] + b;
      assert AllBlocks(a + b) == BlocksOf(a[0]) + AllBlocks(a[1..] + b)
          && AllBlocks(a) == BlocksOf(a[0]) + AllBlocks(a[1..]);
      hide AllBlocks, BlocksOf;
      AllBlocksConcat(a[1..], b);
      Assoc(BlocksOf(a[0]), AllBlocks(a[1..]), AllBlocks(b));
    }
  }

  lemma NamesConcat(a: seq<Block>, b: seq<Block>)
    ensures UseNames(a + b) == UseNames(a) + UseNames(b)
    ensures ResultNames(a + b) == ResultNames(a) + ResultNames(b)
  {
  }

  lemma {:induction false} InAllBlocks(ms: seq<Message>, b: Block)
    ensures b in AllBlocks(ms) <==> exists i :: 0 <= i < |ms| && b in BlocksOf(ms[i])
  {
    if ms != [] {
      InAllBlocks(ms[1..], b);
      if b in AllBlocks(ms[1..]) {
        var i :| 0 <= i < |ms[1..]| && b in BlocksOf(ms[1..][i]);
        assert b in BlocksOf(ms[i + 1]);
      }
      if i :| 0 <= i < |ms| && b in BlocksOf(ms[i]) {
        if i > 0 {
          assert ms[1..][i - 1] == ms[i];
        }
      }
    }
  }

  // ----- Repair before normalisation: drop lone results, answer lone calls -----

  const NO_RESULT: Text := 2

  function DropResults(bs: seq<Block>, orphans: set<Name>): (r: seq<Block>) {
    if bs == [] then []
    else (if bs[0].ToolResult? && bs[0].id in orphans then [] else [bs[0]]) + DropResults(bs[1..], orphans)
  }

  function AnswerUses(bs: seq<Block>, orphans: set<Name>): (r: seq<Block>) {
    if bs == [] then []
    else (if bs[0].ToolUse? && bs[0].id in orphans then [ToolResult(bs[0].id, NO_RESULT, false)] else [])
         + AnswerUses(bs[1..], orphans)
  }

  function RepairMessage(m: Message, loneUses: set<Name>, loneResults: set<Name>): (r: seq<Message>) {
    if m.content.Plain? then [m]
    else
      var kept, answers := DropResults(BlocksOf(m), loneResults), AnswerUses(BlocksOf(m), loneUses);
      (if kept != [] then [WithBlocks(m, kept)] else [])
      + if answers != [] then [Message(User, NoName, false, Blocks(answers))] else []
  }

  function RepairAll(ms: seq<Message>, loneUses: set<Name>, loneResults: set<Name>): (r: seq<Message>) {
    if ms == [] then [] else RepairMessage(ms[0], loneUses, loneResults) + RepairAll(ms[1..], loneUses, loneResults)
  }

  function Repaired(ms: seq<Message>): (r: seq<Message>) {
    if OrphanUses(ms) == {} && OrphanResults(ms) == {} then ms else RepairAll(ms, OrphanUses(ms), OrphanResults(ms))
  }

  method RepairOrphanTools(messages: seq<Message>) returns (repaired: seq<Message>)
    ensures repaired == Repaired(messages)
  {
    var loneUses, loneResults := OrphanUses(messages), OrphanResults(messages);
    if loneUses == {} && loneResults == {} {
      return messages;
    }
    repaired := [];
    hide OrphanUses, OrphanResults, RepairMessage;
    for i := 0 to |messages|
      invariant repaired + RepairAll(messages[i..], loneUses, loneResults) == RepairAll(messages, loneUses, loneResults)
    {
      assert messages[i..][1..] == messages[i + 1..];
      var piece := RepairOne(messages[i], loneUses, loneResults);
      repaired := repaired + piece;
    }
  }

  /** The two block loops of the repair, for one message. */
  method RepairOne(msg: Message, loneUses: set<Name>, loneResults: set<Name>) returns (piece: seq<Message>)
    ensures piece == RepairMessage(msg, loneUses, loneResults)
  {
    if msg.content.Plain? {
      return [msg];
    }
    var newContent := KeepBlocks(msg.content.blocks, loneResults);
    var synthetic := SyntheticResults(msg.content.blocks, loneUses);
    piece := if newContent != [] then [WithBlocks(msg, newContent)] else [];
    if synthetic != [] {
      piece := piece + [Message(User, NoName, false, Blocks(synthetic))];
    }
  }

  method KeepBlocks(blocks: seq<Block>, loneResults: set<Name>) returns (newContent: seq<Block>)
    ensures newContent == DropResults(blocks, loneResults)
  {
    hide DropResults;
    newContent := [];
    assert blocks[0..] == blocks;
    for j := 0 to |blocks|
      invariant newContent + DropResults(blocks[j..], loneResults) == DropResults(blocks, loneResults)
    {
      DropStep(blocks, loneResults, j);
      if !(blocks[j].ToolResult? && blocks[j].id in loneResults) {
        newContent := newContent + [blocks[j]];
      }
    }
    DropNothing(blocks[|blocks|..], loneResults);
  }

  lemma DropNothing(bs: seq<Block>, orphans: set<Name>)
    requires bs == []
    ensures DropResults(bs, orphans) == []
  {
  }

  lemma DropStep(bs: seq<Block>, orphans: set<Name>, j: nat)
    requires j < |bs|
    ensures DropResults(bs[j..], orphans) ==
            if bs[j].ToolResult? && bs[j].id in orphans then DropResults(bs[j + 1..], orphans)
            else [bs[j]] + DropResults(bs[j + 1..], orphans)
  {
    assert bs[j..][1..] == bs[j + 1..];
    assert [] + DropResults(bs[j + 1..], orphans) == DropResults(bs[j + 1..], orphans);
  }

  method SyntheticResults(blocks: seq<Block>, loneUses: set<Name>) returns (synthetic: seq<Block>)
    ensures synthetic == AnswerUses(blocks, loneUses)
  {
    synthetic := [];
    for j := 0 to |blocks|
      invariant synthetic + AnswerUses(blocks[j..], loneUses) == AnswerUses(blocks, loneUses)
    {
      assert blocks[j..][1..] == blocks[j + 1..];
      if blocks[j].ToolUse? && blocks[j].id in loneUses {
        synthetic := synthetic + [ToolResult(blocks[j].id, NO_RESULT, false)];
      }
    }
  }

  lemma {:induction false} DropResultsNames(bs: seq<Block>, orphans: set<Name>)
    requires orphans !! UseNames(bs) && NoName !in orphans
    ensures UseNames(DropResults(bs, orphans)) == UseNames(bs)
    ensures ResultNames(DropResults(bs, orphans)) == ResultNames(bs) - orphans
  {
    if bs != [] {
      var head := if bs[0].ToolResult? && bs[0].id in orphans then [] else [bs[0]];
      assert bs == [bs[0]] + bs[1..];
      NamesConcat([bs[0]], bs[1..]);
      NamesConcat(head, DropResults(bs[1..], orphans));
      DropResultsNames(bs[1..], orphans);
    }
  }

  lemma {:induction false} AnswerUsesNames(bs: seq<Block>, orphans: set<Name>)
    requires NoName !in orphans
    ensures UseNames(AnswerUses(bs, orphans)) == {}
    ensures ResultNames(AnswerUses(bs, orphans)) == UseNames(bs) * orphans
  {
    if bs != [] {
      var head := if bs[0].ToolUse? && bs[0].id in orphans then [ToolResult(bs[0].id, NO_RESULT, false)] else [];
      assert bs == [bs[0]] + bs[1..];
      NamesConcat([bs[0]], bs[1..]);
      NamesConcat(head, AnswerUses(bs[1..], orphans));
      AnswerUsesNames(bs[1..], orphans);
    }
  }

  /** The blocks that are not tool results, in order. */
  function NonResults(bs: seq<Block>): (r: seq<Block>) {
    if bs == [] then [] else (if bs[0].ToolResult? then [] else [bs[0]]) + NonResults(bs[1..])
  }

  lemma {:induction false} NonResultsConcat(a: seq<Block>, b: seq<Block>)
    ensures NonResults(a + b) == NonResults(a) + NonResults(b)
  {
    if a == [] {
      assert a + b == b;
    } else {
      assert (a + b)[0] == a[0] && (a + b)[1..] == a[1..] + b;
      var first := if a[0].ToolResult? then [] else [a[0]];
      assert NonResults(a + b) == first + NonResults(a[1..] + b) && NonResults(a) == first + NonResults(a[1..]);
      hide NonResults;
      NonResultsConcat(a[1..], b);
      Assoc(first, NonResults(a[1..]), NonResults(b));
    }
  }

  lemma {:induction false} DropResultsKeepsOthers(bs: seq<Block>, orphans: set<Name>)
    ensures NonResults(DropResults(bs, orphans)) == NonResults(bs)
  {
    if bs != [] {
      var head := if bs[0].ToolResult? && bs[0].id in orphans then [] else [bs[0]];
      NonResultsConcat(head, DropResults(bs[1..], orphans));
      DropResultsKeepsOthers(bs[1..], orphans);
    }
  }

  lemma {:induction false} AnswerUsesOnlyResults(bs: seq<Block>, orphans: set<Name>)
    ensures NonResults(AnswerUses(bs, orphans)) == []
  {
    if bs != [] {
      var head := if bs[0].ToolUse? && bs[0].id in orphans then [ToolResult(bs[0].id, NO_RESULT, false)] else [];
      NonResultsConcat(head, AnswerUses(bs[1..], orphans));
      AnswerUsesOnlyResults(bs[1..], orphans);
    }
  }

  lemma RepairMessageBlocks(m: Message, loneUses: set<Name>, loneResults: set<Name>)
    ensures AllBlocks(RepairMessage(m, loneUses, loneResults)) ==
            DropResults(BlocksOf(m), loneResults) + AnswerUses(BlocksOf(m), loneUses)
  {
    if m.content.Blocks? {
      var kept, answers := DropResults(BlocksOf(m), loneResults), AnswerUses(BlocksOf(m), loneUses);
      var a := if kept != [] then [WithBlocks(m, kept)] else [];
      var b := if answers != [] then [Message(User, NoName, false, Blocks(answers))] else [];
      AllBlocksConcat(a, b);
      assert AllBlocks(a) == kept && AllBlocks(b) == answers;
    } else {
      assert AllBlocks([m]) == [];
    }
  }

  lemma EmptyNames()
    ensures UseNames([]) == {} && ResultNames([]) == {} && NonResults([]) == []
  {
  }

  lemma {:induction false} RepairAllNames(ms: seq<Message>, loneUses: set<Name>, loneResults: set<Name>)
    requires NoName !in loneUses && NoName !in loneResults && loneResults !! UseNames(AllBlocks(ms))
    ensures var bs, out := AllBlocks(ms), AllBlocks(RepairAll(ms, loneUses, loneResults));
            && UseNames(out) == UseNames(bs)
            && ResultNames(out) == ResultNames(bs) - loneResults + UseNames(bs) * loneUses
  {
    hide UseNames, ResultNames, DropResults, AnswerUses, RepairMessage;
    EmptyNames();
    if ms != [] {
      var bs, rest := BlocksOf(ms[0]), AllBlocks(ms[1..]);
      var tail := RepairAll(ms[1..], loneUses, loneResults);
      var kept, answers := DropResults(bs, loneResults), AnswerUses(bs, loneUses);
      NamesConcat(bs, rest);
      RepairAllNames(ms[1..], loneUses, loneResults);
      DropResultsNames(bs, loneResults);
      AnswerUsesNames(bs, loneUses);
      RepairMessageBlocks(ms[0], loneUses, loneResults);
      AllBlocksConcat(RepairMessage(ms[0], loneUses, loneResults), tail);
      NamesConcat(kept, answers);
      NamesConcat(kept + answers, AllBlocks(tail));
    }
  }

  lemma {:induction false} RepairAllKeepsOthers(ms: seq<Message>, loneUses: set<Name>, loneResults: set<Name>)
    ensures NonResults(AllBlocks(RepairAll(ms, loneUses, loneResults))) == NonResults(AllBlocks(ms))
  {
    hide NonResults, DropResults, AnswerUses, RepairMessage;
    if ms != [] {
      var bs, tail := BlocksOf(ms[0]), RepairAll(ms[1..], loneUses, loneResults);
      var kept, answers := DropResults(bs, loneResults), AnswerUses(bs, loneUses);
      NonResultsConcat(bs, AllBlocks(ms[1..]));
      RepairAllKeepsOthers(ms[1..], loneUses, loneResults);
      DropResultsKeepsOthers(bs, loneResults);
      AnswerUsesOnlyResults(bs, loneUses);
      RepairMessageBlocks(ms[0], loneUses, loneResults);
      AllBlocksConcat(RepairMessage(ms[0], loneUses, loneResults), tail);
      NonResultsConcat(kept, answers);
      NonResultsConcat(kept + answers, AllBlocks(tail));
    }
  }

  /** After the repair every call is answered and every result has its call; nothing but tool
      results was added or dropped; and a second repair changes nothing. */
  lemma RepairLeavesNoOrphans(ms: seq<Message>)
    ensures NoOrphans(Repaired(ms))
    ensures NonResults(AllBlocks(Repaired(ms))) == NonResults(AllBlocks(ms))
    ensures Repaired(Repaired(ms)) == Repaired(ms)
  {
    RepairAllNames(ms, OrphanUses(ms), OrphanResults(ms));
    RepairAllKeepsOthers(ms, OrphanUses(ms), OrphanResults(ms));
    var out := Repaired(ms);
    assert UseNames(AllBlocks(out)) == ResultNames(AllBlocks(out));
    assert OrphanUses(out) == {} && OrphanResults(out) == {};
  }
}
