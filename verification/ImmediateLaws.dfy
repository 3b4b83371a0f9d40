/** The immediate-result pass step by step: what each sweep takes, what is conserved, and
    idempotence (agent/normalize.go, EnforceImmediateToolResults). */
module ImmediateLaws {
  import opened Prelude
  import opened Messages
  import opened ImmediateResults

  // ----- A sweep takes the first result of every name -----

  function FirstResult(id: Name, bs: seq<Block>): (r: Option<Block>) {
    if bs == [] then None
    else if bs[0].ToolResult? && bs[0].id == id then Some(bs[0])
    else FirstResult(id, bs[1..])
  }

  lemma {:induction false} FirstResultConcat(id: Name, a: seq<Block>, b: seq<Block>)
    ensures FirstResult(id, a + b) == if FirstResult(id, a).Some? then FirstResult(id, a) else FirstResult(id, b)
  {
    if a == [] {
      assert a + b == b;
    } else {
      assert (a + b)[1..] == a[1..] + b;
      FirstResultConcat(id, a[1..], b);
    }
  }

  lemma {:induction false} ClaimTakesFirst(needed: set<Name>, bs: seq<Block>, id: Name)
    ensures var c := ClaimBlocks(needed, bs);
            && (id in needed ==> FirstResult(id, bs) == if id in c.found then Some(c.found[id]) else None)
            && (id !in needed ==> FirstResult(id, c.kept) == FirstResult(id, bs))
    decreases |bs|
  {
    if bs != [] {
      if bs[0].ToolResult? && bs[0].id in needed {
        ClaimTakesFirst(needed - {bs[0].id}, bs[1..], id);
      } else {
        ClaimTakesFirst(needed, bs[1..], id);
      }
    }
  }

  lemma {:induction false} SweepTakesFirst(needed: set<Name>, ms: seq<Message>, id: Name)
    ensures var s := SweepMessages(needed, ms);
            && (id in needed ==> FirstResult(id, AllBlocks(ms)) == if id in s.found then Some(s.found[id]) else None)
            && (id !in needed ==> FirstResult(id, AllBlocks(s.rest)) == FirstResult(id, AllBlocks(ms)))
    decreases |ms|
  {
    hide FirstResult, ClaimBlocks, Keep;
    if ms == [] {
      NoFirst(id);
    } else {
      var c := ClaimBlocks(needed, BlocksOf(ms[0]));
      var s := SweepMessages(needed - c.found.Keys, ms[1..]);
      ClaimTakesFirst(needed, BlocksOf(ms[0]), id);
      SweepTakesFirst(needed - c.found.Keys, ms[1..], id);
      FirstResultConcat(id, BlocksOf(ms[0]), AllBlocks(ms[1..]));
      KeptMessage(ms[0], c.kept);
      HeadBlocks(Keep(ms[0], c.kept), s.rest);
      FirstResultConcat(id, c.kept, AllBlocks(s.rest));
    }
  }

  lemma NoFirst(id: Name)
    ensures FirstResult(id, AllBlocks([])) == None
  {
  }

  /** The answers the pass actually inserts. */
  function Inserted(ms: seq<Message>): (r: seq<Block>)
    decreases |ms|
  {
    if ms == [] then []
    else if !Calls(ms[0]) then Inserted(ms[1..])
    else
      var ids := UseIds(BlocksOf(ms[0]));
      var s := SweepMessages(AsSet(ids), ms[1..]);
      Answers(ids, s.found) + Inserted(s.rest)
  }

  lemma SweepKeepsCalls(needed: set<Name>, ms: seq<Message>)
    requires ms != []
    ensures var c := ClaimBlocks(needed, BlocksOf(ms[0]));
            var s := SweepMessages(needed, ms);
            && s.rest[0].role == ms[0].role && UseIds(BlocksOf(s.rest[0])) == UseIds(BlocksOf(ms[0]))
            && NonResults(BlocksOf(s.rest[0])) == NonResults(BlocksOf(ms[0]))
            && (Calls(s.rest[0]) <==> Calls(ms[0]))
            && s.rest[1..] == SweepMessages(needed - c.found.Keys, ms[1..]).rest
  {
    ClaimKeepsOthers(needed, BlocksOf(ms[0]));
    KeptMessage(ms[0], ClaimBlocks(needed, BlocksOf(ms[0])).kept);
  }

  lemma TailDistinct(a: seq<Name>, b: seq<Name>)
    requires Distinct(a + b)
    ensures Distinct(b)
  {
    forall i, j | 0 <= i < j < |b| ensures b[i] != b[j] {
      assert (a + b)[|a| + i] == b[i] && (a + b)[|a| + j] == b[j];
    }
  }

  // ----- Conservation of blocks -----

  /** Whether block `b` is the one claimed for its call. */
  function Hit(found: map<Name, Block>, b: Block): (n: nat) {
    if b.ToolResult? && b.id in found && found[b.id] == b then 1 else 0
  }

  lemma {:induction false} ClaimConserves(needed: set<Name>, bs: seq<Block>, b: Block)
    ensures var c := ClaimBlocks(needed, bs);
            && multiset(bs)[b] == multiset(c.kept)[b] + Hit(c.found, b)
            && |bs| == |c.kept| + |c.found|
    decreases |bs|
  {
    if bs != [] {
      assert bs == [bs[0]] + bs[1..];
      if bs[0].ToolResult? && bs[0].id in needed {
        var c := ClaimBlocks(needed - {bs[0].id}, bs[1..]);
        ClaimConserves(needed - {bs[0].id}, bs[1..], b);
        assert bs[0].id !in c.found;
        assert c.found[bs[0].id := bs[0]].Keys == c.found.Keys + {bs[0].id};
      } else {
        ClaimConserves(needed, bs[1..], b);
      }
    }
  }

  lemma {:induction false} SweepConserves(needed: set<Name>, ms: seq<Message>, b: Block)
    ensures var s := SweepMessages(needed, ms);
            && multiset(AllBlocks(ms))[b] == multiset(AllBlocks(s.rest))[b] + Hit(s.found, b)
            && |AllBlocks(ms)| == |AllBlocks(s.rest)| + |s.found|
    decreases |ms|
  {
    hide ClaimBlocks, Keep;
    if ms != [] {
      var c := ClaimBlocks(needed, BlocksOf(ms[0]));
      var s := SweepMessages(needed - c.found.Keys, ms[1..]);
      ClaimConserves(needed, BlocksOf(ms[0]), b);
      SweepConserves(needed - c.found.Keys, ms[1..], b);
      KeptMessage(ms[0], c.kept);
      HeadBlocks(Keep(ms[0], c.kept), s.rest);
      DisjointUnion(c.found, s.found, b);
    }
  }

  lemma DisjointUnion(f: map<Name, Block>, g: map<Name, Block>, b: Block)
    requires f.Keys !! g.Keys
    ensures |f + g| == |f| + |g| && Hit(f + g, b) == Hit(f, b) + Hit(g, b)
  {
    assert (f + g).Keys == f.Keys + g.Keys;
    assert |(f + g).Keys| == |f.Keys| + |g.Keys|;
  }

  /** The synthetic results made up for one carrier. */
  function Missing(ids: seq<Name>, found: map<Name, Block>): (r: seq<Block>) {
    if ids == [] then []
    else (if ids[0] in found then [] else [ToolResult(ids[0], INTERRUPTED, false)]) + Missing(ids[1..], found)
  }

  /** No call name that is repeated in `ids` has an answer. */
  predicate RepeatsUnanswered(ids: seq<Name>, found: map<Name, Block>) {
    forall i, j :: 0 <= i < j < |ids| && ids[i] == ids[j] ==> ids[i] !in found
  }

  ghost predicate OwnResults(found: map<Name, Block>) {
    forall id :: id in found ==> found[id].ToolResult? && found[id].id == id
  }

  lemma AnswersCons(ids: seq<Name>, found: map<Name, Block>)
    requires ids != []
    ensures Answers(ids, found) == [if ids[0] in found then found[ids[0]] else Synthetic(ids[0])]
        + Answers(ids[1..], found)
  {
  }

  lemma {:induction false} CarrierConserves(ids: seq<Name>, found: map<Name, Block>, b: Block)
    requires RepeatsUnanswered(ids, found) && OwnResults(found)
    ensures multiset(Answers(ids, found))[b] ==
            multiset(Missing(ids, found))[b] + if b.ToolResult? && b.id in ids then Hit(found, b) else 0
  {
    hide Answers;
    if ids == [] {
      assert Answers(ids, found) == [] by { NoAnswers(found); }
    } else {
      AnswersCons(ids, found);
      CarrierConserves(ids[1..], found, b);
      assert ids[0] in found ==> ids[0] !in ids[1..];
    }
  }

  lemma NoAnswers(found: map<Name, Block>)
    ensures Answers([], found) == []
  {
  }

  /** The number of answered positions of a carrier. */
  function Answered(ids: seq<Name>, found: map<Name, Block>): (n: nat) {
    if ids == [] then 0 else (if ids[0] in found then 1 else 0) + Answered(ids[1..], found)
  }

  lemma {:induction false} AnsweredLength(ids: seq<Name>, found: map<Name, Block>)
    ensures |ids| == |Missing(ids, found)| + Answered(ids, found)
  {
    if ids != [] {
      AnsweredLength(ids[1..], found);
    }
  }

  /** Counting positions counts every answered name once exactly when no answered name repeats. */
  lemma {:induction false} AnsweredCounts(ids: seq<Name>, found: map<Name, Block>)
    ensures Answered(ids, found) >= |AsSet(ids) * found.Keys|
    ensures Answered(ids, found) == |AsSet(ids) * found.Keys| <==> RepeatsUnanswered(ids, found)
  {
    if ids != [] {
      var rest := ids[1..];
      AnsweredCounts(rest, found);
      RepeatsCons(ids, found);
      if ids[0] in found && ids[0] !in rest {
        assert AsSet(ids) * found.Keys == AsSet(rest) * found.Keys + {ids[0]};
      } else {
        assert AsSet(ids) * found.Keys == AsSet(rest) * found.Keys;
      }
    }
  }

  lemma RepeatsCons(ids: seq<Name>, found: map<Name, Block>)
    requires ids != []
    ensures RepeatsUnanswered(ids, found) <==>
            RepeatsUnanswered(ids[1..], found) && (ids[0] in found ==> ids[0] !in ids[1..])
  {
    if RepeatsUnanswered(ids, found) {
      forall i, j | 0 <= i < j < |ids[1..]| && ids[1..][i] == ids[1..][j] ensures ids[1..][i] !in found {
        assert ids[i + 1] == ids[j + 1];
      }
    }
  }

  /** All synthetic results made up for a history. */
  function Added(ms: seq<Message>): (r: seq<Block>)
    decreases |ms|
  {
    if ms == [] then []
    else if !Calls(ms[0]) then Added(ms[1..])
    else
      var ids := UseIds(BlocksOf(ms[0]));
      var s := SweepMessages(AsSet(ids), ms[1..]);
      Missing(ids, s.found) + Added(s.rest)
  }

  /** No message repeats a call name for which an unclaimed result still follows. */
  predicate AnsweredOnce(ms: seq<Message>)
    decreases |ms|
  {
    if ms == [] then true
    else if !Calls(ms[0]) then AnsweredOnce(ms[1..])
    else
      var ids := UseIds(BlocksOf(ms[0]));
      var s := SweepMessages(AsSet(ids), ms[1..]);
      RepeatsUnanswered(ids, s.found) && AnsweredOnce(s.rest)
  }

  lemma SweepOwnResults(needed: set<Name>, ms: seq<Message>)
    ensures OwnResults(SweepMessages(needed, ms).found)
  {
    forall id | id in SweepMessages(needed, ms).found
      ensures SweepMessages(needed, ms).found[id].ToolResult? && SweepMessages(needed, ms).found[id].id == id
    {
      SweptAreResults(needed, ms, id);
    }
  }

  lemma CallingHasBlocks(m: Message)
    requires Calls(m)
    ensures BlocksOf(m) != []
  {
  }

  lemma {:induction false} CallingStep(ms: seq<Message>)
    requires ms != [] && Calls(ms[0])
    ensures var ids := UseIds(BlocksOf(ms[0]));
            var s := SweepMessages(AsSet(ids), ms[1..]);
            && AllBlocks(Enforced(ms)) == BlocksOf(ms[0]) + Answers(ids, s.found) + AllBlocks(Enforced(s.rest))
            && AllBlocks(ms) == BlocksOf(ms[0]) + AllBlocks(ms[1..])
            && Added(ms) == Missing(ids, s.found) + Added(s.rest)
  {
    CallingHasBlocks(ms[0]);
    hide SweepMessages, Answers, Missing, AsSet, UseIds, Enforced;
    var ids := UseIds(BlocksOf(ms[0]));
    var s := SweepMessages(AsSet(ids), ms[1..]);
    EnforcedStep(ms);
    TwoHeads(ms[0], Carrier(ids, s.found), Enforced(s.rest));
  }

  lemma {:induction false} TwoHeads(a: Message, b: Message, ms: seq<Message>)
    ensures AllBlocks([a] + [b] + ms) == BlocksOf(a) + BlocksOf(b) + AllBlocks(ms)
  {
    hide AllBlocks;
    assert [a] + [b] + ms == [a] + ([b] + ms);
    HeadBlocks(a, [b] + ms);
    HeadBlocks(b, ms);
  }

  lemma {:induction false} SilentStep(ms: seq<Message>)
    requires ms != [] && !Calls(ms[0])
    ensures AllBlocks(Enforced(ms)) == BlocksOf(ms[0]) + AllBlocks(Enforced(ms[1..]))
    ensures AllBlocks(ms) == BlocksOf(ms[0]) + AllBlocks(ms[1..]) && Added(ms) == Added(ms[1..])
  {
    EnforcedStep(ms);
    hide Enforced, SweepMessages, Missing, Calls;
    if BlocksOf(ms[0]) == [] {
      assert AllBlocks(Enforced(ms)) == [] + AllBlocks(Enforced(ms[1..]));
    } else {
      HeadBlocks(ms[0], Enforced(ms[1..]));
    }
  }

  lemma {:induction false} CountsConserved(ms: seq<Message>, b: Block)
    requires AnsweredOnce(ms)
    ensures multiset(AllBlocks(Enforced(ms)))[b] == multiset(AllBlocks(ms))[b] + multiset(Added(ms))[b]
    decreases |ms|
  {
    hide SweepMessages, Answers, Missing, RepeatsUnanswered, Enforced, Added, AllBlocks;
    if ms == [] {
      NothingAdded();
    } else if !Calls(ms[0]) {
      SilentStep(ms);
      CountsConserved(ms[1..], b);
    } else {
      var ids := UseIds(BlocksOf(ms[0]));
      var s := SweepMessages(AsSet(ids), ms[1..]);
      CallingStep(ms);
      CountsConserved(s.rest, b);
      SweepConserves(AsSet(ids), ms[1..], b);
      SweepOwnResults(AsSet(ids), ms[1..]);
      CarrierConserves(ids, s.found, b);
    }
  }

  lemma NothingAdded()
    ensures AllBlocks([]) == [] && Enforced([]) == [] && Added([]) == []
  {
  }

  lemma {:induction false} LengthsTell(ms: seq<Message>)
    ensures |AllBlocks(Enforced(ms))| >= |AllBlocks(ms)| + |Added(ms)|
    ensures |AllBlocks(Enforced(ms))| == |AllBlocks(ms)| + |Added(ms)| <==> AnsweredOnce(ms)
    decreases |ms|
  {
    hide SweepMessages, Missing, Enforced, Added, AllBlocks, RepeatsUnanswered;
    if ms == [] {
      NothingAdded();
    } else if !Calls(ms[0]) {
      SilentStep(ms);
      LengthsTell(ms[1..]);
    } else {
      var ids := UseIds(BlocksOf(ms[0]));
      var s := SweepMessages(AsSet(ids), ms[1..]);
      CallingStep(ms);
      LengthsTell(s.rest);
      SweepConserves(AsSet(ids), ms[1..], Synthetic(NoName));
      AnsweredLength(ids, s.found);
      AnsweredCounts(ids, s.found);
      assert AsSet(ids) * s.found.Keys == s.found.Keys;
    }
  }

  /** The pass loses no block and duplicates none, apart from the synthetic results it adds,
      exactly when no carrier repeats an answer. */
  lemma {:induction false} ConservedExactly(ms: seq<Message>)
    ensures multiset(AllBlocks(Enforced(ms))) == multiset(AllBlocks(ms)) + multiset(Added(ms)) <==> AnsweredOnce(ms)
  {
    hide AnsweredOnce, AllBlocks, Enforced, Added;
    LengthsTell(ms);
    if AnsweredOnce(ms) {
      forall b: Block ensures multiset(AllBlocks(Enforced(ms)))[b] ==
          multiset(AllBlocks(ms))[b] + multiset(Added(ms))[b] {
        CountsConserved(ms, b);
      }
      assert multiset(AllBlocks(Enforced(ms))) == multiset(AllBlocks(ms)) + multiset(Added(ms));
    } else {
      assert |multiset(AllBlocks(Enforced(ms)))| == |AllBlocks(Enforced(ms))|;
      assert |multiset(AllBlocks(ms)) + multiset(Added(ms))| == |AllBlocks(ms)| + |Added(ms)|;
    }
  }

  // ----- Idempotence -----

  /** Call names do not repeat within one message. */
  predicate DistinctWithin(ms: seq<Message>) {
    forall i :: 0 <= i < |ms| && Calls(ms[i]) ==> Distinct(UseIds(BlocksOf(ms[i])))
  }

  lemma {:induction false} SweepKeepsDistinct(needed: set<Name>, ms: seq<Message>)
    requires DistinctWithin(ms)
    ensures DistinctWithin(SweepMessages(needed, ms).rest)
    decreases |ms|
  {
    hide SweepMessages, UseIds, ClaimBlocks;
    if ms == [] {
      SweepNothing(needed, ms);
    } else {
      var s := SweepMessages(needed, ms);
      SweepKeepsCalls(needed, ms);
      assert DistinctWithin(ms[1..]) by {
        forall i | 0 <= i < |ms[1..]| && Calls(ms[1..][i]) ensures Distinct(UseIds(BlocksOf(ms[1..][i]))) {
          assert ms[1..][i] == ms[i + 1];
        }
      }
      SweepKeepsDistinct(needed - ClaimBlocks(needed, BlocksOf(ms[0])).found.Keys, ms[1..]);
      forall i | 0 <= i < |s.rest| && Calls(s.rest[i]) ensures Distinct(UseIds(BlocksOf(s.rest[i]))) {
        if i > 0 {
          assert s.rest[i] == s.rest[1..][i - 1];
        }
      }
    }
  }

  lemma DistinctTail(ms: seq<Message>)
    requires ms != [] && DistinctWithin(ms)
    ensures DistinctWithin(ms[1..])
  {
    forall i | 0 <= i < |ms[1..]| && Calls(ms[1..][i]) ensures Distinct(UseIds(BlocksOf(ms[1..][i]))) {
      assert ms[1..][i] == ms[i + 1];
    }
  }

  /** A block list that is exactly one result per needed name is claimed completely. */
  lemma {:induction false} ClaimAll(ids: seq<Name>, bs: seq<Block>)
    requires |bs| == |ids| && Distinct(ids)
    requires forall i :: 0 <= i < |ids| ==> bs[i].ToolResult? && bs[i].id == ids[i]
    ensures var c := ClaimBlocks(AsSet(ids), bs);
            && c.kept == [] && c.found.Keys == AsSet(ids)
            && (forall i :: 0 <= i < |ids| ==> c.found[ids[i]] == bs[i])
  {
    if ids != [] {
      assert AsSet(ids) - {ids[0]} == AsSet(ids[1..]) by {
        assert ids == [ids[0]] + ids[1..];
        assert ids[0] !in ids[1..];
      }
      TailDistinct([ids[0]], ids[1..]) by { assert [ids[0]] + ids[1..] == ids; }
      ClaimAll(ids[1..], bs[1..]);
      var c := ClaimBlocks(AsSet(ids), bs);
      forall i | 0 <= i < |ids| ensures ids[i] in c.found && c.found[ids[i]] == bs[i] {
        if i > 0 {
          assert ids[1..][i - 1] == ids[i] && bs[1..][i - 1] == bs[i];
        }
      }
    }
  }

  /** Sweeping a history that starts with the right carrier empties just that carrier. */
  lemma SweepCarrier(ids: seq<Name>, found: map<Name, Block>, tail: seq<Message>)
    requires Distinct(ids) && ids != [] && OwnResults(found)
    ensures var s := SweepMessages(AsSet(ids), [Carrier(ids, found)] + tail);
            && Answers(ids, s.found) == Answers(ids, found)
            && |s.rest| == 1 + |tail| && BlocksOf(s.rest[0]) == [] && s.rest[1..] == tail
  {
    var bs, ms := Answers(ids, found), [Carrier(ids, found)] + tail;
    ClaimAll(ids, bs);
    var c := ClaimBlocks(AsSet(ids), bs);
    assert ms[1..] == tail && AsSet(ids) - c.found.Keys == {};
    SweepNothing({}, tail);
    KeptMessage(ms[0], c.kept);
    var s := SweepMessages(AsSet(ids), ms);
    assert s.found == c.found;
    forall i | 0 <= i < |ids| ensures Answers(ids, s.found)[i] == bs[i] {
    }
  }

  /** Running the pass again changes nothing. */
  lemma {:induction false} EnforcingTwice(ms: seq<Message>)
    requires DistinctWithin(ms)
    ensures Enforced(Enforced(ms)) == Enforced(ms)
    decreases |ms|
  {
    hide UseIds, SweepMessages, Answers, Enforced, AsSet;
    if ms == [] {
      NothingAdded();
    } else {
      EnforcedStep(ms);
      DistinctTail(ms);
      if BlocksOf(ms[0]) == [] {
        EnforcingTwice(ms[1..]);
      } else if !Calls(ms[0]) {
        EnforcingTwice(ms[1..]);
        EnforcedStep(Enforced(ms));
        assert Enforced(ms)[1..] == Enforced(ms[1..]);
      } else {
        var ids := UseIds(BlocksOf(ms[0]));
        var s := SweepMessages(AsSet(ids), ms[1..]);
        SweepKeepsDistinct(AsSet(ids), ms[1..]);
        EnforcingTwice(s.rest);
        SweepOwnResults(AsSet(ids), ms[1..]);
        var out, tail := Enforced(ms), Enforced(s.rest);
        SweepCarrier(ids, s.found, tail);
        assert out[0] == ms[0] && out[1..] == [Carrier(ids, s.found)] + tail;
        EnforcedStep(out);
        EnforcedStep(SweepMessages(AsSet(ids), out[1..]).rest);
      }
    }
  }
}
