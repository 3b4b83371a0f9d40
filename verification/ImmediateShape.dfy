/** Where the pass for immediate results puts the answers, and whose they are (agent/normalize.go). */
module ImmediateShape {
  import opened Prelude
  import opened Messages
  import opened RepairLaws
  import opened ImmediateResults

  /** An unnamed, visible user message with one result for each call of `m`, in order. */
  predicate Follows(m: Message, c: Message) {
    && c.role == User && c.mid == NoName && !c.isVirtual && c.content.Blocks?
    && |c.content.blocks| == |UseIds(BlocksOf(m))|
    && forall i :: 0 <= i < |c.content.blocks| ==>
         c.content.blocks[i].ToolResult? && c.content.blocks[i].id == UseIds(BlocksOf(m))[i]
  }

  predicate Placed(out: seq<Message>) {
    forall k :: 0 <= k < |out| && Calls(out[k]) ==> k + 1 < |out| && Follows(out[k], out[k + 1])
  }

  /** What is found for a call is a result of that call. */
  predicate Fitting(found: map<Name, Block>) {
    forall id :: id in found ==> found[id].ToolResult? && found[id].id == id
  }

  lemma {:induction false} ClaimFits(needed: set<Name>, bs: seq<Block>)
    ensures var c := ClaimBlocks(needed, bs); Fitting(c.found) && forall b :: b in c.kept ==> b in bs
    decreases |bs|
  {
    if bs != [] {
      if bs[0].ToolResult? && bs[0].id in needed {
        ClaimFits(needed - {bs[0].id}, bs[1..]);
      } else {
        ClaimFits(needed, bs[1..]);
      }
    }
  }

  lemma {:induction false} SweepFits(needed: set<Name>, ms: seq<Message>)
    ensures var s := SweepMessages(needed, ms); Fitting(s.found) && (AllProper(ms) ==> AllProper(s.rest))
    decreases |ms|
  {
    if ms != [] {
      var c := ClaimBlocks(needed, BlocksOf(ms[0]));
      ClaimFits(needed, BlocksOf(ms[0]));
      SweepFits(needed - c.found.Keys, ms[1..]);
      hide ClaimBlocks;
      assert Proper(ms[0]) ==> Proper(Keep(ms[0], c.kept));
    }
  }

  lemma CarrierFollows(m: Message, found: map<Name, Block>)
    requires Fitting(found)
    ensures var c := Carrier(UseIds(BlocksOf(m)), found); Follows(m, c) && Proper(c) && !Calls(c)
  {
  }

  lemma PlacedBehind(a: Message, out: seq<Message>)
    requires Placed(out) && !Calls(a)
    ensures Placed([a] + out)
  {
    var all := [a] + out;
    forall k | 0 <= k < |all| && Calls(all[k]) ensures k + 1 < |all| && Follows(all[k], all[k + 1]) {
      assert all[k] == out[k - 1] && all[k + 1] == out[k];
    }
  }

  lemma PlacedCall(a: Message, c: Message, out: seq<Message>)
    requires Placed(out) && Follows(a, c) && !Calls(c)
    ensures Placed([a, c] + out)
  {
    PlacedBehind(c, out);
    var all := [a, c] + out;
    assert all == [a] + ([c] + out);
    forall k | 0 <= k < |all| && Calls(all[k]) ensures k + 1 < |all| && Follows(all[k], all[k + 1]) {
      assert k > 0 ==> all[k] == ([c] + out)[k - 1] && all[k + 1] == ([c] + out)[k];
    }
  }

  /** For every history: behind each message with named calls comes at once a user message that answers exactly
      these, in order; and if calls are the assistant's and results the user's before, they still are. */
  lemma {:induction false} AnswersArePlaced(ms: seq<Message>)
    ensures Placed(Enforced(ms)) && (AllProper(ms) ==> AllProper(Enforced(ms)))
    decreases |ms|
  {
    hide SweepMessages, Carrier, Placed, Proper, Calls;
    if ms == [] {
      NothingPlaced();
    } else if BlocksOf(ms[0]) == [] {
      AnswersArePlaced(ms[1..]);
    } else if !Calls(ms[0]) {
      AnswersArePlaced(ms[1..]);
      PlacedBehind(ms[0], Enforced(ms[1..]));
    } else {
      var ids := UseIds(BlocksOf(ms[0]));
      var s := SweepMessages(AsSet(ids), ms[1..]);
      SweepFits(AsSet(ids), ms[1..]);
      CarrierFollows(ms[0], s.found);
      AnswersArePlaced(s.rest);
      PlacedCall(ms[0], Carrier(ids, s.found), Enforced(s.rest));
    }
  }

  lemma NothingPlaced()
    ensures Placed([])
  {
  }
}
