/** The whole repair pipeline (agent/normalize.go) in front of the provider conversion. */
module NormalizePipeline {
  import opened Prelude
  import opened Messages
  import opened Normalize
  import opened ToolPairings
  import opened PairingRepair
  import opened NormalizeStages
  import opened ImmediateResults
  import opened ImmediateLaws
  import opened ImmediateHistory
  import opened ProviderChat

  /** The stages that only drop or move blocks of no interest to tool pairing. */
  function Staged(ms: seq<Message>, rejected: set<AttachmentKind>, supportsThinking: bool): (r: seq<Message>) {
    HandleThinking(StripInternal(FilterVirtual(ReorderAttachments(ms)), rejected), supportsThinking)
  }

  /** Whatever order the orphan repairs take, the result converts to a well-paired chat if and
      only if every call of a non-virtual assistant message has a name. The text and the calls of
      all non-virtual messages survive in order, and nothing but calls of lone results is added to
      the blocks that are no results. */
  method NormalizeMessages(messages: seq<Message>, rejected: set<AttachmentKind>, supportsThinking: bool)
    returns (normalized: seq<Message>)
    ensures WellPaired(Converted(normalized)) <==> AllNamed(FilterVirtual(messages))
    ensures InOrder(NonResults(Core(AllBlocks(FilterVirtual(messages)))), NonResults(AllBlocks(normalized)))
    ensures var staged := Staged(messages, rejected, supportsThinking);
            forall b :: b in NonResults(AllBlocks(normalized)) ==>
              b in AllBlocks(staged) || b in UnknownCalls(OrphanResults(staged))
    ensures exists paired :: NoOrphans(paired) && normalized == Enforced(paired)
  {
    hide *;
    var reordered := MoveAttachments(messages);
    var visible := DropVirtual(reordered);
    var stripped := DropInternal(visible, rejected);
    var staged := DropThinking(stripped, supportsThinking);
    StagedMeans(messages, rejected, supportsThinking);
    StagesKeepNames(messages, rejected, supportsThinking);
    StagesKeepCore(messages, rejected, supportsThinking);
    var merged := MergeSplitMessages(staged);
    MergeKeepsBlocks(staged);
    var paired := FixToolPairings(merged);
    normalized := EnforceImmediateToolResults(paired);
    ChatIsPairedExactly(paired);
    KeepsOrderOfOthers(paired);
    OthersComeFrom(staged, merged, paired);
    CoreOthersInOrder(AllBlocks(staged));
    InOrderTrans(NonResults(Core(AllBlocks(staged))), NonResults(AllBlocks(staged)), NonResults(AllBlocks(paired)));
  }

  lemma StagedMeans(ms: seq<Message>, rejected: set<AttachmentKind>, supportsThinking: bool)
    ensures Staged(ms, rejected, supportsThinking)
         == HandleThinking(StripInternal(FilterVirtual(ReorderAttachments(ms)), rejected), supportsThinking)
  {
  }

  /** The early stages keep the text, the calls and the results of the non-virtual messages. */
  lemma {:induction false} StagesKeepCore(ms: seq<Message>, rejected: set<AttachmentKind>, supportsThinking: bool)
    ensures Core(AllBlocks(Staged(ms, rejected, supportsThinking))) == Core(AllBlocks(FilterVirtual(ms)))
  {
    hide *;
    StagedMeans(ms, rejected, supportsThinking);
    ReorderFilterCommute(ms);
    ReorderKeepsCore(FilterVirtual(ms));
    var filtered := FilterVirtual(ReorderAttachments(ms));
    StripKeepsCore(filtered, rejected);
    ThinkingKeepsCore(StripInternal(filtered, rejected), supportsThinking);
  }

  lemma {:induction false} OthersComeFrom(staged: seq<Message>, merged: seq<Message>, paired: seq<Message>)
    requires AllBlocks(merged) == AllBlocks(staged)
    requires multiset(AllBlocks(paired)) == multiset(AllBlocks(merged))
               + multiset(LostResults(OrphanUses(merged))) + multiset(UnknownCalls(OrphanResults(merged)))
    ensures forall b :: b in NonResults(AllBlocks(paired)) ==>
              b in AllBlocks(staged) || b in UnknownCalls(OrphanResults(staged))
  {
    hide AllBlocks;
    forall b | b in NonResults(AllBlocks(paired))
      ensures b in AllBlocks(staged) || b in UnknownCalls(OrphanResults(staged))
    {
      OthersAreBlocks(AllBlocks(paired), b);
      assert b in multiset(AllBlocks(paired));
      assert b !in LostResults(OrphanUses(merged));
    }
  }

  lemma {:induction false} OthersAreBlocks(bs: seq<Block>, b: Block)
    requires b in NonResults(bs)
    ensures b in bs && !b.ToolResult?
  {
    if !(bs[0] == b && !b.ToolResult?) {
      OthersAreBlocks(bs[1..], b);
    }
  }

  lemma {:induction false} StagesKeepNames(ms: seq<Message>, rejected: set<AttachmentKind>, supportsThinking: bool)
    ensures AllNamed(Staged(ms, rejected, supportsThinking)) <==> AllNamed(FilterVirtual(ms))
  {
    hide *;
    StagedMeans(ms, rejected, supportsThinking);
    ReorderFilterCommute(ms);
    ReorderNamed(FilterVirtual(ms));
    var filtered := FilterVirtual(ReorderAttachments(ms));
    StripNamed(filtered, rejected);
    ThinkingNamed(StripInternal(filtered, rejected), supportsThinking);
  }

  // ----- What the answers say -----

  function OnlyAnswers(chat: seq<Entry>): (r: seq<Entry>) {
    if chat == [] then [] else (if chat[0].Answered? then [chat[0]] else []) + OnlyAnswers(chat[1..])
  }

  lemma {:induction false} OnlyAnswersConcat(a: seq<Entry>, b: seq<Entry>)
    ensures OnlyAnswers(a + b) == OnlyAnswers(a) + OnlyAnswers(b)
  {
    if a == [] {
      assert a + b == b;
    } else {
      assert (a + b)[0] == a[0] && (a + b)[1..] == a[1..] + b;
      var first := if a[0].Answered? then [a[0]] else [];
      assert OnlyAnswers(a + b) == first + OnlyAnswers(a[1..] + b) && OnlyAnswers(a) == first + OnlyAnswers(a[1..]);
      hide OnlyAnswers;
      OnlyAnswersConcat(a[1..], b);
      Assoc(first, OnlyAnswers(a[1..]), OnlyAnswers(b));
    }
  }

  lemma {:induction false} ToolEntriesAreAnswers(bs: seq<Block>)
    ensures OnlyAnswers(ToolEntries(bs)) == ToolEntries(bs)
  {
    if bs != [] {
      ToolEntriesAreAnswers(bs[1..]);
      var first := if bs[0].ToolResult? then [Answered(bs[0].id, bs[0].content, bs[0].isError)] else [];
      assert OnlyAnswers(first) == first;
      OnlyAnswersConcat(first, ToolEntries(bs[1..]));
    }
  }

  lemma {:induction false} ToolEntriesConcat(a: seq<Block>, b: seq<Block>)
    ensures ToolEntries(a + b) == ToolEntries(a) + ToolEntries(b)
  {
    if a == [] {
      assert a + b == b;
    } else {
      assert (a + b)[0] == a[0] && (a + b)[1..] == a[1..] + b;
      var first := if a[0].ToolResult? then [Answered(a[0].id, a[0].content, a[0].isError)] else [];
      assert ToolEntries(a + b) == first + ToolEntries(a[1..] + b) && ToolEntries(a) == first + ToolEntries(a[1..]);
      hide ToolEntries;
      ToolEntriesConcat(a[1..], b);
      Assoc(first, ToolEntries(a[1..]), ToolEntries(b));
    }
  }

  lemma NoAnswersInCall(call: Entry)
    requires call.CallTools?
    ensures OnlyAnswers([call]) == []
  {
  }

  lemma NoAnswersInPlain(m: Message)
    ensures OnlyAnswers(PlainEntries(m)) == []
  {
  }

  lemma {:induction false} CallAnswers(call: Entry, bs: seq<Block>, tail: seq<Entry>)
    requires call.CallTools?
    ensures OnlyAnswers([call] + ToolEntries(bs) + tail) == ToolEntries(bs) + OnlyAnswers(tail)
  {
    hide *;
    OnlyAnswersConcat([call] + ToolEntries(bs), tail);
    OnlyAnswersConcat([call], ToolEntries(bs));
    NoAnswersInCall(call);
    ToolEntriesAreAnswers(bs);
  }

  /** The tool entries of the chat are, in order, the answers the pass inserts; none is added by
      the fallback path. */
  lemma {:induction false} ChatAnswers(ms: seq<Message>)
    ensures OnlyAnswers(Converted(Enforced(ms))) == ToolEntries(Inserted(ms))
    decreases |ms|
  {
    hide Converted, Enforced, ToolEntries, UseIds, CallIds, SweepMessages, Answers, AsSet, PlainEntries, OnlyAnswers;
    if ms == [] {
      EmptyChat();
      assert OnlyAnswers([]) == ToolEntries([]) by {
        ToolEntriesAreAnswers([]);
        NothingConverted();
      }
    } else if Calls(ms[0]) {
      var ids := UseIds(BlocksOf(ms[0]));
      var s := SweepMessages(AsSet(ids), ms[1..]);
      CallingConversion(ms);
      ChatAnswers(s.rest);
      CallAnswers(CallEntry(ms[0]), Answers(ids, s.found), Converted(Enforced(s.rest)));
      ToolEntriesConcat(Answers(ids, s.found), Inserted(s.rest));
    } else {
      ChatAnswers(ms[1..]);
      SilentAnswers(ms);
    }
  }

  lemma NothingConverted()
    ensures OnlyAnswers([]) == [] && ToolEntries([]) == []
  {
  }

  lemma {:induction false} SilentAnswers(ms: seq<Message>)
    requires ms != [] && !Calls(ms[0])
    ensures OnlyAnswers(Converted(Enforced(ms))) == OnlyAnswers(Converted(Enforced(ms[1..])))
  {
    hide Converted, Enforced, ToolEntries, UseIds, CallIds, SweepMessages, Answers, AsSet, PlainEntries, OnlyAnswers;
    var tail := Converted(Enforced(ms[1..]));
    var calls := CallIds(BlocksOf(ms[0]));
    if ms[0].role == Assistant && calls != [] {
      UnnamedConversion(ms);
      NoAnswersInCall(CallEntry(ms[0]));
      OnlyAnswersConcat([CallEntry(ms[0])], tail);
    } else if BlocksOf(ms[0]) == [] {
      EnforcedStep(ms);
    } else {
      SilentConversion(ms);
      NoAnswersInPlain(ms[0]);
      OnlyAnswersConcat(PlainEntries(ms[0]), tail);
    }
  }

  /** Every call of the chat is answered by the first result behind its message that no earlier call
      of the same name has claimed, and by a synthetic failure exactly when there is none. */
  lemma {:induction false} ChatAnswersFollowHistory(ms: seq<Message>)
    ensures var entries, answers := OnlyAnswers(Converted(Enforced(ms))), AnswersFrom(ms);
            && |entries| == |answers|
            && forall i :: 0 <= i < |answers| ==>
                 answers[i].ToolResult? && entries[i] == Answered(answers[i].id, answers[i].content, answers[i].isError)
  {
    hide OnlyAnswers, Converted, Enforced, AnswersFrom, Inserted;
    ChatAnswers(ms);
    AnswersFollowHistory(ms);
    InsertedAreResults(ms);
    EntriesOneByOne(Inserted(ms));
  }

  lemma {:induction false} InsertedAreResults(ms: seq<Message>)
    ensures forall i :: 0 <= i < |Inserted(ms)| ==> Inserted(ms)[i].ToolResult?
    decreases |ms|
  {
    hide SweepMessages, UseIds, AsSet;
    if ms != [] {
      if Calls(ms[0]) {
        var ids := UseIds(BlocksOf(ms[0]));
        InsertedAreResults(SweepMessages(AsSet(ids), ms[1..]).rest);
        SweepOwnResults(AsSet(ids), ms[1..]);
      } else {
        InsertedAreResults(ms[1..]);
      }
    }
  }

  lemma {:induction false} EntriesOneByOne(bs: seq<Block>)
    requires forall i :: 0 <= i < |bs| ==> bs[i].ToolResult?
    ensures |ToolEntries(bs)| == |bs|
    ensures forall i :: 0 <= i < |bs| ==> ToolEntries(bs)[i] == Answered(bs[i].id, bs[i].content, bs[i].isError)
  {
    if bs != [] {
      EntriesOneByOne(bs[1..]);
      assert ToolEntries(bs) == [Answered(bs[0].id, bs[0].content, bs[0].isError)] + ToolEntries(bs[1..]);
    }
  }
}
