/** The pass that moves every tool result directly behind its call, and makes up a result where
    none follows (agent/normalize.go, EnforceImmediateToolResults). */
module ImmediateResults {
  import opened Prelude
  import opened Messages

  const INTERRUPTED: Text := 5

  function Synthetic(id: Name): (b: Block) {
    ToolResult(id, INTERRUPTED, false)
  }

  /** The named calls of a block list, in order. */
  function UseIds(bs: seq<Block>): (r: seq<Name>)
    ensures NoName !in r
  {
    if bs == [] then [] else (if bs[0].ToolUse? && bs[0].id != NoName then [bs[0].id] else []) + UseIds(bs[1..])
  }

  function AsSet(ids: seq<Name>): (r: set<Name>) {
    set id | id in ids
  }

  /** Taking the first result of every needed call out of a block list... */
  datatype Claim = Claim(found: map<Name, Block>, kept: seq<Block>)

  function ClaimBlocks(needed: set<Name>, bs: seq<Block>): (c: Claim)
    ensures c.found.Keys <= needed
    decreases |bs|
  {
    if bs == [] then Claim(map[], [])
    else if bs[0].ToolResult? && bs[0].id in needed then
      var c := ClaimBlocks(needed - {bs[0].id}, bs[1..]);
      Claim(c.found[bs[0].id := bs[0]], c.kept)
    else
      var c := ClaimBlocks(needed, bs[1..]);
      Claim(c.found, [bs[0]] + c.kept)
  }

  /** ...and out of a whole history. */
  datatype Sweep = Sweep(found: map<Name, Block>, rest: seq<Message>)

  function Keep(m: Message, kept: seq<Block>): (r: Message) {
    if kept == BlocksOf(m) then m else WithBlocks(m, kept)
  }

  function SweepMessages(needed: set<Name>, ms: seq<Message>): (s: Sweep)
    ensures |s.rest| == |ms| && s.found.Keys <= needed
    decreases |ms|
  {
    if ms == [] then Sweep(map[], [])
    else
      var c := ClaimBlocks(needed, BlocksOf(ms[0]));
      var s := SweepMessages(needed - c.found.Keys, ms[1..]);
      Sweep(c.found + s.found, [Keep(ms[0], c.kept)] + s.rest)
  }

  function Answers(ids: seq<Name>, found: map<Name, Block>): (r: seq<Block>) {
    seq(|ids|, i requires 0 <= i < |ids| => if ids[i] in found then found[ids[i]] else Synthetic(ids[i]))
  }

  function Carrier(ids: seq<Name>, found: map<Name, Block>): (m: Message) {
    Message(User, NoName, false, Blocks(Answers(ids, found)))
  }

  predicate Calls(m: Message) {
    m.role == Assistant && UseIds(BlocksOf(m)) != []
  }

  function Enforced(ms: seq<Message>): (r: seq<Message>)
    decreases |ms|
  {
    if ms == [] then []
    else if BlocksOf(ms[0]) == [] then Enforced(ms[1..])
    else if !Calls(ms[0]) then [ms[0]] + Enforced(ms[1..])
    else
      var ids := UseIds(BlocksOf(ms[0]));
      var s := SweepMessages(AsSet(ids), ms[1..]);
      [ms[0], Carrier(ids, s.found)] + Enforced(s.rest)
  }

  // ----- The in-place algorithm -----

  method EnforceImmediateToolResults(messages: seq<Message>) returns (out: seq<Message>)
    ensures out == Enforced(messages)
  {
    hide UseIds, Answers, Enforced, SweepMessages, AsSet;
    var working := new Message[|messages|](i requires 0 <= i < |messages| => messages[i]);
    out := [];
    var i := 0;
    assert working[0..] == messages;
    while i < working.Length
      invariant 0 <= i <= working.Length
      invariant out + Enforced(working[i..]) == Enforced(messages)
    {
      var msg := working[i];
      EnforcedStep(working[i..]);
      assert working[i..][1..] == working[i + 1..];
      if BlocksOf(msg) != [] {
        out := out + [msg];
        var toolUseIDs := UseIds(BlocksOf(msg));
        if msg.role == Assistant && toolUseIDs != [] {
          var found := SweepTail(working, i + 1, AsSet(toolUseIDs));
          out := out + [Carrier(toolUseIDs, found)];
        }
      }
      i := i + 1;
    }
    EnforcedNil(working[i..]);
  }

  lemma EnforcedNil(ms: seq<Message>)
    requires ms == []
    ensures Enforced(ms) == []
  {
  }

  /** One round of the outer loop. */
  lemma EnforcedStep(ms: seq<Message>)
    requires ms != []
    ensures var ids := UseIds(BlocksOf(ms[0]));
            var s := SweepMessages(AsSet(ids), ms[1..]);
            Enforced(ms) ==
              if BlocksOf(ms[0]) == [] then Enforced(ms[1..])
              else if ms[0].role != Assistant || ids == [] then [ms[0]] + Enforced(ms[1..])
              else [ms[0]] + [Carrier(ids, s.found)] + Enforced(s.rest)
  {
    var ids := UseIds(BlocksOf(ms[0]));
    var s := SweepMessages(AsSet(ids), ms[1..]);
    assert [ms[0], Carrier(ids, s.found)] == [ms[0]] + [Carrier(ids, s.found)];
  }

  /** The inner loop over the later messages; it stops once nothing is needed any more. */
  method SweepTail(working: array<Message>, from: nat, wanted: set<Name>) returns (found: map<Name, Block>)
    requires from <= working.Length
    modifies working
    ensures working[..from] == old(working[..from])
    ensures found == SweepMessages(wanted, old(working[from..])).found
    ensures working[from..] == SweepMessages(wanted, old(working[from..])).rest
  {
    hide SweepMessages, ClaimBlocks, Keep, Swept, BlocksOf;
    ghost var tail := working[from..];
    ghost var total := SweepMessages(wanted, tail);
    ghost var done: seq<Message> := [];
    found := map[];
    var needed := wanted;
    var j := from;
    assert tail[0..] == tail;
    SweptNone(total);
    while j < working.Length && needed != {}
      invariant from <= j <= working.Length && |done| == j - from
      invariant forall k :: 0 <= k < from ==> working[k] == old(working[k])
      invariant forall k :: 0 <= k < |done| ==> working[from + k] == done[k]
      invariant forall k :: j <= k < working.Length ==> working[k] == tail[k - from]
      invariant Swept(total, found, done, SweepMessages(needed, tail[j - from..]))
    {
      SweepStep(needed, tail, j - from);
      var kept, claimed := ClaimMethod(needed, BlocksOf(working[j]));
      ghost var s := SweepMessages(needed - claimed.Keys, tail[j - from + 1..]);
      SweptOn(total, found, done, claimed, Keep(working[j], kept), s);
      found := found + claimed;
      needed := needed - claimed.Keys;
      working[j] := Keep(working[j], kept);
      done := done + [working[j]];
      j := j + 1;
    }
    SweepNothing(needed, tail[j - from..]);
    SweptAll(total, found, done, tail[j - from..]);
    assert working[from..] == done + tail[j - from..];
  }

  /** What is done and what is left make up the whole sweep. */
  ghost predicate Swept(total: Sweep, found: map<Name, Block>, done: seq<Message>, left: Sweep) {
    found + left.found == total.found && done + left.rest == total.rest
  }

  lemma SweptNone(total: Sweep)
    ensures Swept(total, map[], [], total)
  {
  }

  lemma SweptAll(total: Sweep, found: map<Name, Block>, done: seq<Message>, rest: seq<Message>)
    requires Swept(total, found, done, Sweep(map[], rest))
    ensures found == total.found && done + rest == total.rest
  {
  }

  lemma SweptOn(total: Sweep, found: map<Name, Block>, done: seq<Message>, claimed: map<Name, Block>, m: Message,
      s: Sweep)
    requires Swept(total, found, done, Sweep(claimed + s.found, [m] + s.rest))
    ensures Swept(total, found + claimed, done + [m], s)
  {
    Assoc(done, [m], s.rest);
    assert found + (claimed + s.found) == (found + claimed) + s.found;
  }

  lemma SweepStep(needed: set<Name>, ms: seq<Message>, k: nat)
    requires k < |ms|
    ensures var c := ClaimBlocks(needed, BlocksOf(ms[k]));
            var s := SweepMessages(needed - c.found.Keys, ms[k + 1..]);
            SweepMessages(needed, ms[k..]) == Sweep(c.found + s.found, [Keep(ms[k], c.kept)] + s.rest)
  {
    assert ms[k..][1..] == ms[k + 1..];
  }

  method ClaimMethod(wanted: set<Name>, blocks: seq<Block>) returns (kept: seq<Block>, found: map<Name, Block>)
    ensures kept == ClaimBlocks(wanted, blocks).kept && found == ClaimBlocks(wanted, blocks).found
  {
    hide ClaimBlocks;
    kept, found := [], map[];
    var needed := wanted;
    assert blocks[0..] == blocks;
    for k := 0 to |blocks|
      invariant needed == wanted - found.Keys
      invariant found + ClaimBlocks(needed, blocks[k..]).found == ClaimBlocks(wanted, blocks).found
      invariant kept + ClaimBlocks(needed, blocks[k..]).kept == ClaimBlocks(wanted, blocks).kept
    {
      var block := blocks[k];
      ClaimStep(needed, blocks, k);
      if block.ToolResult? && block.id in needed {
        PutApart(found, ClaimBlocks(needed - {block.id}, blocks[k + 1..]).found, block.id, block);
        found := found[block.id := block];
        needed := needed - {block.id};
      } else {
        kept := kept + [block];
      }
    }
    ClaimNone(needed, blocks[|blocks|..]);
  }

  lemma ClaimNone(needed: set<Name>, bs: seq<Block>)
    requires bs == []
    ensures ClaimBlocks(needed, bs) == Claim(map[], [])
  {
  }

  lemma ClaimStep(needed: set<Name>, bs: seq<Block>, k: nat)
    requires k < |bs|
    ensures ClaimBlocks(needed, bs[k..]) ==
            if bs[k].ToolResult? && bs[k].id in needed
            then var c := ClaimBlocks(needed - {bs[k].id}, bs[k + 1..]); Claim(c.found[bs[k].id := bs[k]], c.kept)
            else var c := ClaimBlocks(needed, bs[k + 1..]); Claim(c.found, [bs[k]] + c.kept)
  {
    assert bs[k..][1..] == bs[k + 1..];
  }

  lemma PutApart(f: map<Name, Block>, g: map<Name, Block>, id: Name, b: Block)
    requires id !in g
    ensures f[id := b] + g == f + g[id := b]
  {
  }

  lemma {:induction false} ClaimNothing(bs: seq<Block>)
    ensures ClaimBlocks({}, bs) == Claim(map[], bs)
  {
    if bs != [] {
      ClaimNothing(bs[1..]);
    }
  }

  lemma {:induction false} SweepNothing(needed: set<Name>, ms: seq<Message>)
    requires needed == {} || ms == []
    ensures SweepMessages(needed, ms) == Sweep(map[], ms)
  {
    if ms != [] {
      ClaimNothing(BlocksOf(ms[0]));
      assert ms[0..] == ms;
      SweepStep(needed, ms, 0);
      hide SweepMessages, ClaimBlocks;
      SweepNothing({}, ms[1..]);
      var none: map<Name, Block> := map[];
      assert needed - none.Keys == {} && none + none == none;
      assert [ms[0]] + ms[1..] == ms;
    }
  }

  // ----- What the pass keeps -----

  lemma {:induction false} ClaimKeepsOthers(needed: set<Name>, bs: seq<Block>)
    ensures NonResults(ClaimBlocks(needed, bs).kept) == NonResults(bs)
    ensures UseIds(ClaimBlocks(needed, bs).kept) == UseIds(bs)
    decreases |bs|
  {
    if bs != [] {
      if bs[0].ToolResult? && bs[0].id in needed {
        ClaimKeepsOthers(needed - {bs[0].id}, bs[1..]);
      } else {
        ClaimKeepsOthers(needed, bs[1..]);
      }
    }
  }

  lemma KeptMessage(m: Message, kept: seq<Block>)
    ensures BlocksOf(Keep(m, kept)) == kept && Keep(m, kept).role == m.role
  {
  }

  lemma {:induction false} SweepKeepsOthers(needed: set<Name>, ms: seq<Message>)
    ensures NonResults(AllBlocks(SweepMessages(needed, ms).rest)) == NonResults(AllBlocks(ms))
    decreases |ms|
  {
    if ms != [] {
      var c := ClaimBlocks(needed, BlocksOf(ms[0]));
      var s := SweepMessages(needed - c.found.Keys, ms[1..]);
      SweepKeepsOthers(needed - c.found.Keys, ms[1..]);
      ClaimKeepsOthers(needed, BlocksOf(ms[0]));
      KeptMessage(ms[0], c.kept);
      AllBlocksConcat([Keep(ms[0], c.kept)], s.rest);
      assert AllBlocks([Keep(ms[0], c.kept)]) == c.kept;
      NonResultsConcat(c.kept, AllBlocks(s.rest));
      NonResultsConcat(BlocksOf(ms[0]), AllBlocks(ms[1..]));
    }
  }

  lemma ClaimedAreResults(needed: set<Name>, bs: seq<Block>, id: Name)
    requires id in ClaimBlocks(needed, bs).found
    ensures ClaimBlocks(needed, bs).found[id].ToolResult? && ClaimBlocks(needed, bs).found[id].id == id
    decreases |bs|
  {
    if bs[0].ToolResult? && bs[0].id in needed {
      if id != bs[0].id {
        ClaimedAreResults(needed - {bs[0].id}, bs[1..], id);
      }
    } else {
      ClaimedAreResults(needed, bs[1..], id);
    }
  }

  lemma SweptAreResults(needed: set<Name>, ms: seq<Message>, id: Name)
    requires id in SweepMessages(needed, ms).found
    ensures SweepMessages(needed, ms).found[id].ToolResult? && SweepMessages(needed, ms).found[id].id == id
    decreases |ms|
  {
    var c := ClaimBlocks(needed, BlocksOf(ms[0]));
    if id in c.found {
      ClaimedAreResults(needed, BlocksOf(ms[0]), id);
      assert id !in SweepMessages(needed - c.found.Keys, ms[1..]).found;
    } else {
      SweptAreResults(needed - c.found.Keys, ms[1..], id);
    }
  }

  /** An answer block is a result for its own call. */
  lemma AnswerShape(needed: set<Name>, ms: seq<Message>, ids: seq<Name>, i: nat)
    requires i < |ids|
    ensures var a := Answers(ids, SweepMessages(needed, ms).found)[i]; a.ToolResult? && a.id == ids[i]
  {
    if ids[i] in SweepMessages(needed, ms).found {
      SweptAreResults(needed, ms, ids[i]);
    }
  }

  lemma {:induction false} OnlyResults(bs: seq<Block>)
    requires forall i :: 0 <= i < |bs| ==> bs[i].ToolResult?
    ensures NonResults(bs) == [] && UseIds(bs) == []
  {
    if bs != [] {
      OnlyResults(bs[1..]);
    }
  }

  /** The order of everything that is not a tool result is untouched. */
  lemma {:induction false} KeepsOrderOfOthers(ms: seq<Message>)
    ensures NonResults(AllBlocks(Enforced(ms))) == NonResults(AllBlocks(ms))
    decreases |ms|
  {
    hide NonResults, Answers, UseIds, SweepMessages, AsSet;
    if ms != [] {
      EnforcedStep(ms);
      assert Calls(ms[0]) <==> ms[0].role == Assistant && UseIds(BlocksOf(ms[0])) != [];
      NonResultsConcat(BlocksOf(ms[0]), AllBlocks(ms[1..]));
      HeadAndTail(ms);
      hide Enforced, AllBlocks, Carrier;
      if BlocksOf(ms[0]) == [] {
        KeepsOrderOfOthers(ms[1..]);
      } else if !Calls(ms[0]) {
        KeepsOrderOfOthers(ms[1..]);
        HeadBlocks(ms[0], Enforced(ms[1..]));
      } else {
        var ids := UseIds(BlocksOf(ms[0]));
        var s := SweepMessages(AsSet(ids), ms[1..]);
        KeepsOrderOfOthers(s.rest);
        SweepKeepsOthers(AsSet(ids), ms[1..]);
        CarrierIsResults(AsSet(ids), ms[1..], ids);
        HeadBlocks(ms[0], [Carrier(ids, s.found)] + Enforced(s.rest));
        HeadBlocks(Carrier(ids, s.found), Enforced(s.rest));
        assert Enforced(ms) == [ms[0]] + ([Carrier(ids, s.found)] + Enforced(s.rest));
      }
    }
  }

  lemma HeadAndTail(ms: seq<Message>)
    requires ms != []
    ensures AllBlocks(ms) == BlocksOf(ms[0]) + AllBlocks(ms[1..])
    ensures BlocksOf(ms[0]) == [] ==> AllBlocks(ms) == AllBlocks(ms[1..])
  {
  }

  lemma HeadBlocks(m: Message, ms: seq<Message>)
    ensures AllBlocks([m] + ms) == BlocksOf(m) + AllBlocks(ms)
    ensures NonResults(AllBlocks([m] + ms)) == NonResults(BlocksOf(m)) + NonResults(AllBlocks(ms))
  {
    assert ([m] + ms)[1..] == ms;
    NonResultsConcat(BlocksOf(m), AllBlocks(ms));
  }

  lemma CarrierIsResults(needed: set<Name>, ms: seq<Message>, ids: seq<Name>)
    ensures NonResults(BlocksOf(Carrier(ids, SweepMessages(needed, ms).found))) == []
  {
    var bs := Answers(ids, SweepMessages(needed, ms).found);
    forall i | 0 <= i < |bs| ensures bs[i].ToolResult? {
      AnswerShape(needed, ms, ids, i);
    }
    OnlyResults(bs);
  }
}
