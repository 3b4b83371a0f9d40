/** What the repair of lone calls and results makes of a history, message by message (agent/messages.go). */
module RepairLaws {
  import opened Prelude
  import opened Messages

  /** Calls are made by the assistant and answered by the user. */
  predicate Proper(m: Message) {
    forall b :: b in BlocksOf(m) ==> (b.ToolUse? ==> m.role == Assistant) && (b.ToolResult? ==> m.role == User)
  }

  predicate AllProper(ms: seq<Message>) {
    forall i :: 0 <= i < |ms| ==> Proper(ms[i])
  }

  /** The calls among `ids`, in order. */
  function CallsIn(bs: seq<Block>, ids: set<Name>): (r: seq<Name>) {
    if bs == [] then []
    else CallsIn(bs[..|bs| - 1], ids)
         + (var b := bs[|bs| - 1]; if b.ToolUse? && b.id in ids then [b.id] else [])
  }

  /** The results of `ids`, in order. */
  function ResultsIn(bs: seq<Block>, ids: set<Name>): (r: seq<Block>) {
    if bs == [] then []
    else ResultsIn(bs[..|bs| - 1], ids)
         + (var b := bs[|bs| - 1]; if b.ToolResult? && b.id in ids then [b] else [])
  }

  /** A user message that answers exactly these calls, in order. */
  predicate Answers(m: Message, calls: seq<Name>) {
    && m.role == User && m.mid == NoName && !m.isVirtual
    && m.content == Blocks(seq(|calls|, i requires 0 <= i < |calls| => ToolResult(calls[i], NO_RESULT, false)))
  }

  /** Behind every message with lone calls comes a message that answers exactly these. */
  predicate AnsweredAtOnce(out: seq<Message>, lone: set<Name>) {
    forall k :: 0 <= k < |out| && CallsIn(BlocksOf(out[k]), lone) != [] ==>
      k + 1 < |out| && Answers(out[k + 1], CallsIn(BlocksOf(out[k]), lone))
  }

  predicate NoneEmpty(out: seq<Message>) {
    forall k :: 0 <= k < |out| ==> out[k].content != Blocks([])
  }

  // ----- One message -----

  lemma {:induction false} CallsConcat(a: seq<Block>, b: seq<Block>, ids: set<Name>)
    ensures CallsIn(a + b, ids) == CallsIn(a, ids) + CallsIn(b, ids)
    ensures ResultsIn(a + b, ids) == ResultsIn(a, ids) + ResultsIn(b, ids)
    decreases |b|
  {
    if b == [] {
      assert a + b == a;
    } else {
      var k := |b| - 1;
      assert (a + b)[..|a + b| - 1] == a + b[..k];
      CallsConcat(a, b[..k], ids);
    }
  }

  lemma OneBlock(b: Block, ids: set<Name>)
    ensures CallsIn([b], ids) == if b.ToolUse? && b.id in ids then [b.id] else []
    ensures ResultsIn([b], ids) == if b.ToolResult? && b.id in ids then [b] else []
  {
    assert [b][..0] == [];
  }

  lemma {:induction false} DropKeeps(bs: seq<Block>, gone: set<Name>, ids: set<Name>)
    ensures CallsIn(DropResults(bs, gone), ids) == CallsIn(bs, ids)
    ensures ids !! gone ==> ResultsIn(DropResults(bs, gone), ids) == ResultsIn(bs, ids)
    ensures forall b :: b in DropResults(bs, gone) ==> b in bs
  {
    if bs != [] {
      var head := if bs[0].ToolResult? && bs[0].id in gone then [] else [bs[0]];
      assert bs == [bs[0]] + bs[1..];
      CallsConcat([bs[0]], bs[1..], ids);
      CallsConcat(head, DropResults(bs[1..], gone), ids);
      OneBlock(bs[0], ids);
      DropKeeps(bs[1..], gone, ids);
    }
  }

  lemma {:induction false} AnswersAre(bs: seq<Block>, lone: set<Name>)
    ensures var calls := CallsIn(bs, lone);
            AnswerUses(bs, lone)
            == seq(|calls|, i requires 0 <= i < |calls| => ToolResult(calls[i], NO_RESULT, false))
  {
    if bs != [] {
      assert bs == [bs[0]] + bs[1..];
      CallsConcat([bs[0]], bs[1..], lone);
      OneBlock(bs[0], lone);
      AnswersAre(bs[1..], lone);
    }
  }

  lemma {:induction false} NothingFound(bs: seq<Block>, ids: set<Name>)
    requires forall b :: b in bs ==> b.ToolResult? && b.id !in ids
    ensures CallsIn(bs, ids) == [] && ResultsIn(bs, ids) == []
  {
    if bs != [] {
      NothingFound(bs[..|bs| - 1], ids);
    }
  }

  lemma {:induction false} PieceIsAnswered(m: Message, loneUses: set<Name>, loneResults: set<Name>)
    ensures var piece := RepairMessage(m, loneUses, loneResults);
            AnsweredAtOnce(piece, loneUses) && NoneEmpty(piece) && (Proper(m) ==> AllProper(piece))
  {
    hide CallsIn, DropResults, AnswerUses;
    var bs := BlocksOf(m);
    var kept, answers := DropResults(bs, loneResults), AnswerUses(bs, loneUses);
    DropKeeps(bs, loneResults, loneUses);
    AnswersAre(bs, loneUses);
    AnswersCallNothing(answers, loneUses);
    NoCallsInNothing(loneUses);
  }

  lemma {:induction false} AnswersCallNothing(bs: seq<Block>, ids: set<Name>)
    requires forall b :: b in bs ==> b.ToolResult?
    ensures CallsIn(bs, ids) == []
  {
    if bs != [] {
      assert bs[|bs| - 1] in bs;
      AnswersCallNothing(bs[..|bs| - 1], ids);
    }
  }

  lemma NoCallsInNothing(ids: set<Name>)
    ensures CallsIn([], ids) == []
  {
  }

  lemma {:induction false} PieceKeepsResults(m: Message, loneUses: set<Name>, loneResults: set<Name>, ids: set<Name>)
    requires ids !! loneUses && ids !! loneResults
    ensures ResultsIn(AllBlocks(RepairMessage(m, loneUses, loneResults)), ids) == ResultsIn(BlocksOf(m), ids)
  {
    hide ResultsIn, DropResults, AnswerUses, AllBlocks, RepairMessage, CallsIn;
    var bs := BlocksOf(m);
    RepairMessageBlocks(m, loneUses, loneResults);
    CallsConcat(DropResults(bs, loneResults), AnswerUses(bs, loneUses), ids);
    DropKeeps(bs, loneResults, ids);
    AnswersAre(bs, loneUses);
    AnswersAreLone(bs, loneUses);
    NothingFound(AnswerUses(bs, loneUses), ids);
  }

  lemma {:induction false} AnswersAreLone(bs: seq<Block>, lone: set<Name>)
    ensures forall b :: b in AnswerUses(bs, lone) ==> b.ToolResult? && b.id in lone
  {
    if bs != [] {
      AnswersAreLone(bs[1..], lone);
    }
  }

  // ----- The whole history -----

  lemma AnsweredConcat(a: seq<Message>, b: seq<Message>, lone: set<Name>)
    requires AnsweredAtOnce(a, lone) && AnsweredAtOnce(b, lone)
    ensures AnsweredAtOnce(a + b, lone)
  {
    var all := a + b;
    forall k | 0 <= k < |all| && CallsIn(BlocksOf(all[k]), lone) != []
      ensures k + 1 < |all| && Answers(all[k + 1], CallsIn(BlocksOf(all[k]), lone))
    {
      if k < |a| {
        assert all[k] == a[k] && all[k + 1] == a[k + 1];
      } else {
        assert all[k] == b[k - |a|] && all[k + 1] == b[k - |a| + 1];
      }
    }
  }

  lemma {:induction false} AllAnswered(ms: seq<Message>, loneUses: set<Name>, loneResults: set<Name>)
    ensures var out := RepairAll(ms, loneUses, loneResults);
            AnsweredAtOnce(out, loneUses) && NoneEmpty(out) && (AllProper(ms) ==> AllProper(out))
  {
    hide CallsIn, RepairMessage, Proper, AnsweredAtOnce;
    if ms == [] {
      NothingToAnswer(loneUses);
    } else {
      PieceIsAnswered(ms[0], loneUses, loneResults);
      AllAnswered(ms[1..], loneUses, loneResults);
      AnsweredConcat(RepairMessage(ms[0], loneUses, loneResults), RepairAll(ms[1..], loneUses, loneResults), loneUses);
    }
  }

  lemma NothingToAnswer(lone: set<Name>)
    ensures AnsweredAtOnce([], lone)
  {
  }

  lemma {:induction false} AllKeepResults(ms: seq<Message>, loneUses: set<Name>, loneResults: set<Name>, ids: set<Name>)
    requires ids !! loneUses && ids !! loneResults
    ensures ResultsIn(AllBlocks(RepairAll(ms, loneUses, loneResults)), ids) == ResultsIn(AllBlocks(ms), ids)
  {
    hide ResultsIn, RepairMessage, CallsIn;
    if ms != [] {
      var piece, rest := RepairMessage(ms[0], loneUses, loneResults), RepairAll(ms[1..], loneUses, loneResults);
      AllBlocksConcat(piece, rest);
      CallsConcat(AllBlocks(piece), AllBlocks(rest), ids);
      CallsConcat(BlocksOf(ms[0]), AllBlocks(ms[1..]), ids);
      PieceKeepsResults(ms[0], loneUses, loneResults, ids);
      AllKeepResults(ms[1..], loneUses, loneResults, ids);
    }
  }

  /** Where the repair puts things: every message with lone calls is followed at once by a user message that
      answers exactly these calls in order; no message is left empty by a repair; the results of answered
      calls stay as they are, in order; and calls and results stay with the roles they belong to. */
  lemma {:induction false} RepairAnswersAtOnce(ms: seq<Message>)
    ensures var out, answered := Repaired(ms), UseNames(AllBlocks(ms)) * ResultNames(AllBlocks(ms));
            && AnsweredAtOnce(out, OrphanUses(ms))
            && (NoneEmpty(ms) || !NoOrphans(ms) ==> NoneEmpty(out))
            && ResultsIn(AllBlocks(out), answered) == ResultsIn(AllBlocks(ms), answered)
            && (AllProper(ms) ==> AllProper(out))
  {
    hide CallsIn, ResultsIn, AllBlocks, UseNames, ResultNames, RepairAll, Proper, Answers;
    if OrphanUses(ms) == {} && OrphanResults(ms) == {} {
      NoCallsAmongNone(ms);
    } else {
      AllAnswered(ms, OrphanUses(ms), OrphanResults(ms));
      AllKeepResults(ms, OrphanUses(ms), OrphanResults(ms), UseNames(AllBlocks(ms)) * ResultNames(AllBlocks(ms)));
    }
  }

  lemma {:induction false} NoCallsAmongNone(ms: seq<Message>)
    ensures AnsweredAtOnce(ms, {})
  {
    forall k | 0 <= k < |ms| ensures CallsIn(BlocksOf(ms[k]), {}) == [] {
      NoCallOfNone(BlocksOf(ms[k]));
    }
  }

  lemma {:induction false} NoCallOfNone(bs: seq<Block>)
    ensures CallsIn(bs, {}) == []
  {
    if bs != [] {
      NoCallOfNone(bs[..|bs| - 1]);
    }
  }
}
