/** Pairing every call with a result and every result with a call (agent/normalize.go). */
module PairingRepair {
  import opened Prelude
  import opened Messages
  import opened Normalize
  import opened ToolPairings
  import opened PairingShape

  method FindToolUse(ms: seq<Message>, id: Name) returns (idx: nat)
    requires id in UseNames(AllBlocks(ms))
    ensures idx < |ms| && HasUse(ms[idx], id) && forall k :: 0 <= k < idx ==> !HasUse(ms[k], id)
  {
    idx := 0;
    UseIsSomewhere(ms, id);
    while !HasUse(ms[idx], id)
      invariant 0 <= idx < |ms|
      invariant forall k :: 0 <= k < idx ==> !HasUse(ms[k], id)
      invariant exists k :: idx <= k < |ms| && HasUse(ms[k], id)
      decreases |ms| - idx
    {
      idx := idx + 1;
    }
  }

  method FindToolResult(ms: seq<Message>, id: Name) returns (idx: nat)
    requires id in ResultNames(AllBlocks(ms))
    ensures idx < |ms| && HasResult(ms[idx], id) && forall k :: 0 <= k < idx ==> !HasResult(ms[k], id)
  {
    idx := 0;
    ResultIsSomewhere(ms, id);
    while !HasResult(ms[idx], id)
      invariant 0 <= idx < |ms|
      invariant forall k :: 0 <= k < idx ==> !HasResult(ms[k], id)
      invariant exists k :: idx <= k < |ms| && HasResult(ms[k], id)
      decreases |ms| - idx
    {
      idx := idx + 1;
    }
  }

  lemma UseIsSomewhere(ms: seq<Message>, id: Name)
    requires id in UseNames(AllBlocks(ms))
    ensures exists k :: 0 <= k < |ms| && HasUse(ms[k], id)
  {
    var b :| b in AllBlocks(ms) && b.ToolUse? && b.id == id;
    InAllBlocks(ms, b);
    var i :| 0 <= i < |ms| && b in BlocksOf(ms[i]);
    assert HasUse(ms[i], id);
  }

  lemma ResultIsSomewhere(ms: seq<Message>, id: Name)
    requires id in ResultNames(AllBlocks(ms))
    ensures exists k :: 0 <= k < |ms| && HasResult(ms[k], id)
  {
    var b :| b in AllBlocks(ms) && b.ToolResult? && b.id == id;
    InAllBlocks(ms, b);
    var i :| 0 <= i < |ms| && b in BlocksOf(ms[i]);
    assert HasResult(ms[i], id);
  }

  /** Whatever order the orphan sets are walked in, no orphan is left, a history without orphans
      is returned as it is, and unnamed calls stay as visible as before. All messages stay in order, made-up
      results come behind the blocks of user messages, made-up calls before those of assistant messages, or
      either in messages of their own; and where calls are the assistant's and results the user's, each made-up
      result is in the message behind its call and each made-up call in the message before its result. */
  method FixToolPairings(messages: seq<Message>) returns (repaired: seq<Message>)
    ensures NoOrphans(repaired)
    ensures NoOrphans(messages) ==> repaired == messages
    ensures AllNamed(repaired) <==> AllNamed(messages)
    ensures InOrder(NonResults(AllBlocks(messages)), NonResults(AllBlocks(repaired)))
    ensures multiset(AllBlocks(repaired)) == multiset(AllBlocks(messages))
              + multiset(LostResults(OrphanUses(messages))) + multiset(UnknownCalls(OrphanResults(messages)))
    ensures Shaped(messages, repaired, OrphanUses(messages), OrphanResults(messages))
  {
    hide AllBlocks, NonResults, AllNamed, UseNames, ResultNames, InOrder, LostResults, UnknownCalls, Shaped;
    var loneUses, loneResults := OrphanUses(messages), OrphanResults(messages);
    if loneUses == {} && loneResults == {} {
      NothingLost();
      InOrderItself(NonResults(AllBlocks(messages)));
      ShapeStarts(messages);
      return messages;
    }
    var answered := AnswerLoneUses(messages, loneUses);
    repaired := NameLoneResults(answered, loneResults, messages, loneUses);
  }

  lemma NothingLost()
    ensures multiset(LostResults({})) == multiset{} && multiset(UnknownCalls({})) == multiset{}
  {
  }

  /** `out` is `messages` with a synthetic result for each call in `done`. */
  ghost predicate AnswersLost(messages: seq<Message>, out: seq<Message>, done: set<Name>) {
    && UseNames(AllBlocks(out)) == UseNames(AllBlocks(messages))
    && ResultNames(AllBlocks(out)) == ResultNames(AllBlocks(messages)) + done
    && (AllNamed(out) <==> AllNamed(messages))
    && NonResults(AllBlocks(out)) == NonResults(AllBlocks(messages))
    && multiset(AllBlocks(out)) == multiset(AllBlocks(messages)) + multiset(LostResults(done))
  }

  method AnswerLoneUses(messages: seq<Message>, orphans: set<Name>) returns (out: seq<Message>)
    requires orphans <= UseNames(AllBlocks(messages))
    ensures AnswersLost(messages, out, orphans) && Shaped(messages, out, orphans, {})
  {
    hide *;
    NothingAnswered(messages);
    ShapeStarts(messages);
    out := messages;
    var todo, done: set<Name> := orphans, {};
    while todo != {}
      invariant todo + done == orphans && todo !! done && AnswersLost(messages, out, done)
      invariant Shaped(messages, out, done, {})
      decreases todo
    {
      var id :| id in todo;
      UsesRemain(messages, out, done, orphans, id);
      var idx := FindToolUse(out, id);
      AnswerOne(messages, out, done, id, idx);
      ShapeAnswer(messages, out, done, {}, id, idx);
      out := InjectResultAfter(out, idx, LostResult(id));
      todo, done := todo - {id}, done + {id};
    }
    assert done == orphans;
  }

  lemma UsesRemain(messages: seq<Message>, out: seq<Message>, done: set<Name>, orphans: set<Name>, id: Name)
    requires AnswersLost(messages, out, done) && id in orphans && orphans <= UseNames(AllBlocks(messages))
    ensures id in UseNames(AllBlocks(out)) && id != NoName
  {
  }

  lemma {:induction false} AnswerOne(messages: seq<Message>, out: seq<Message>, done: set<Name>, id: Name, idx: nat)
    requires AnswersLost(messages, out, done) && idx < |out| && id !in done && id != NoName
    ensures AnswersLost(messages, InjectResultAfter(out, idx, LostResult(id)), done + {id})
  {
    hide AllBlocks, UseNames, ResultNames, AllNamed, NonResults, InjectResultAfter, LostResults, InOrder, IsInsertion;
    var next := InjectResultAfter(out, idx, LostResult(id));
    InjectResultEffect(out, idx, LostResult(id));
    InjectResultInserts(out, idx, LostResult(id));
    InsertionEffect(AllBlocks(out), AllBlocks(next), LostResult(id));
    SingleName(LostResult(id));
    OneLostResult(done, id);
  }

  /** `out` is `messages` with a synthetic call for each result in `done`. */
  ghost predicate NamesLost(messages: seq<Message>, out: seq<Message>, done: set<Name>) {
    && UseNames(AllBlocks(out)) == UseNames(AllBlocks(messages)) + done
    && ResultNames(AllBlocks(out)) == ResultNames(AllBlocks(messages))
    && (AllNamed(out) <==> AllNamed(messages))
    && InOrder(NonResults(AllBlocks(messages)), NonResults(AllBlocks(out)))
    && multiset(AllBlocks(out)) == multiset(AllBlocks(messages)) + multiset(UnknownCalls(done))
  }

  lemma {:induction false} NothingAnswered(messages: seq<Message>)
    ensures AnswersLost(messages, messages, {}) && NamesLost(messages, messages, {})
  {
    hide AllBlocks, UseNames, ResultNames, NonResults, InOrder, AllNamed;
    NothingLost();
    InOrderItself(NonResults(AllBlocks(messages)));
  }

  method NameLoneResults(messages: seq<Message>, orphans: set<Name>, ghost first: seq<Message>,
      ghost answered: set<Name>) returns (out: seq<Message>)
    requires orphans <= ResultNames(AllBlocks(messages)) && Shaped(first, messages, answered, {})
    ensures NamesLost(messages, out, orphans) && Shaped(first, out, answered, orphans)
  {
    hide *;
    NothingAnswered(messages);
    out := messages;
    var todo, done: set<Name> := orphans, {};
    while todo != {}
      invariant todo + done == orphans && todo !! done && NamesLost(messages, out, done)
      invariant Shaped(first, out, answered, done)
      decreases todo
    {
      var id :| id in todo;
      ResultsRemain(messages, out, done, orphans, id);
      var idx := FindToolResult(out, id);
      NameOne(messages, out, done, id, idx);
      ShapeName(first, out, answered, done, id, idx);
      out := InjectUseBefore(out, idx, UnknownCall(id));
      todo, done := todo - {id}, done + {id};
    }
    assert done == orphans;
  }

  lemma ResultsRemain(messages: seq<Message>, out: seq<Message>, done: set<Name>, orphans: set<Name>, id: Name)
    requires NamesLost(messages, out, done) && id in orphans && orphans <= ResultNames(AllBlocks(messages))
    ensures id in ResultNames(AllBlocks(out)) && id != NoName
  {
  }

  lemma {:induction false} NameOne(messages: seq<Message>, out: seq<Message>, done: set<Name>, id: Name, idx: nat)
    requires NamesLost(messages, out, done) && idx < |out| && id !in done && id != NoName
    ensures NamesLost(messages, InjectUseBefore(out, idx, UnknownCall(id)), done + {id})
  {
    hide AllBlocks, UseNames, ResultNames, AllNamed, NonResults, InjectUseBefore, UnknownCalls, InOrder, IsInsertion;
    var next := InjectUseBefore(out, idx, UnknownCall(id));
    InjectUseEffect(out, idx, UnknownCall(id));
    InjectUseInserts(out, idx, UnknownCall(id));
    InsertionEffect(AllBlocks(out), AllBlocks(next), UnknownCall(id));
    OneUnknownCall(done, id);
  }

  lemma SingleName(b: Block)
    requires b.ToolResult?
    ensures ResultNames([b]) == if b.id == NoName then {} else {b.id}
  {
  }
}
