/** What the immediate-result pass does, read off the history alone: which result answers which call,
    and when blocks are conserved (agent/normalize.go, EnforceImmediateToolResults). */
module ImmediateHistory {
  import opened Prelude
  import opened Messages
  import opened ImmediateResults
  import opened ImmediateLaws

  // ----- Reading the answers off the history -----

  /** The results of one call name, in order. */
  function ResultsOf(id: Name, bs: seq<Block>): (r: seq<Block>) {
    if bs == [] then []
    else (if bs[0].ToolResult? && bs[0].id == id then [bs[0]] else []) + ResultsOf(id, bs[1..])
  }

  predicate UsesName(m: Message, id: Name) {
    Calls(m) && id in UseIds(BlocksOf(m))
  }

  function Less(a: nat, b: nat): (n: nat) {
    if a <= b then 0 else a - b
  }

  /** How many later results of a name the calls of a history have claimed: each call claims one
      more, and each result settles one claim. */
  function Owed(id: Name, ms: seq<Message>): (n: nat) {
    if ms == [] then 0
    else
      var before, last := ms[..|ms| - 1], ms[|ms| - 1];
      Less(Owed(id, before), |ResultsOf(id, BlocksOf(last))|) + if UsesName(last, id) then 1 else 0
  }

  /** How many results behind message `k` earlier calls have claimed. */
  function Claimed(id: Name, ms: seq<Message>, k: nat): (n: nat)
    requires k < |ms|
  {
    Less(Owed(id, ms[..k]), |ResultsOf(id, BlocksOf(ms[k]))|)
  }

  predicate HasAnswer(id: Name, ms: seq<Message>, k: nat)
    requires k < |ms|
  {
    Claimed(id, ms, k) < |ResultsOf(id, AllBlocks(ms[k + 1..]))|
  }

  /** The first result behind message `k` that no earlier call of that name has claimed, or a
      synthetic one if there is none. */
  function AnswerAt(id: Name, ms: seq<Message>, k: nat): (b: Block)
    requires k < |ms|
  {
    if HasAnswer(id, ms, k) then ResultsOf(id, AllBlocks(ms[k + 1..]))[Claimed(id, ms, k)]
    else ToolResult(id, INTERRUPTED, false)
  }

  function CalledIn(m: Message): (ids: seq<Name>) {
    if Calls(m) then UseIds(BlocksOf(m)) else []
  }

  function AnswersAt(ids: seq<Name>, ms: seq<Message>, k: nat): (r: seq<Block>)
    requires k < |ms|
  {
    seq(|ids|, i requires 0 <= i < |ids| => AnswerAt(ids[i], ms, k))
  }

  /** The answers of all calls from message `k` on. */
  function AnswersFrom(ms: seq<Message>, k: nat := 0): (r: seq<Block>)
    requires k <= |ms|
    decreases |ms| - k
  {
    if k == |ms| then [] else AnswersAt(CalledIn(ms[k]), ms, k) + AnswersFrom(ms, k + 1)
  }

  /** The synthetic answers of one message, and of all messages. */
  function MadeUpAt(ids: seq<Name>, ms: seq<Message>, k: nat): (r: seq<Block>)
    requires k < |ms|
    decreases |ids|
  {
    if ids == [] then []
    else (if HasAnswer(ids[0], ms, k) then [] else [ToolResult(ids[0], INTERRUPTED, false)]) + MadeUpAt(ids[1..], ms, k)
  }

  function MadeUp(ms: seq<Message>, k: nat := 0): (r: seq<Block>)
    requires k <= |ms|
    decreases |ms| - k
  {
    if k == |ms| then [] else MadeUpAt(CalledIn(ms[k]), ms, k) + MadeUp(ms, k + 1)
  }

  // ----- A history without the results already claimed -----

  function Drop(bs: seq<Block>, n: nat): (r: seq<Block>) {
    if n <= |bs| then bs[n..] else []
  }

  lemma DropConcat(a: seq<Block>, b: seq<Block>, n: nat)
    ensures Drop(a + b, n) == Drop(a, n) + Drop(b, Less(n, |a|))
  {
  }

  lemma {:induction false} ResultsOfConcat(id: Name, a: seq<Block>, b: seq<Block>)
    ensures ResultsOf(id, a + b) == ResultsOf(id, a) + ResultsOf(id, b)
  {
    if a == [] {
      assert a + b == b;
    } else {
      assert (a + b)[0] == a[0] && (a + b)[1..] == a[1..] + b;
      var first := if a[0].ToolResult? && a[0].id == id then [a[0]] else [];
      assert ResultsOf(id, a + b) == first + ResultsOf(id, a[1..] + b)
          && ResultsOf(id, a) == first + ResultsOf(id, a[1..]);
      hide ResultsOf;
      ResultsOfConcat(id, a[1..], b);
      Assoc(first, ResultsOf(id, a[1..]), ResultsOf(id, b));
    }
  }

  /** `out` is `ms` without the first `owed` results of this name. */
  predicate Without(id: Name, owed: nat, ms: seq<Message>, out: seq<Message>)
    decreases |ms|
  {
    |ms| == |out| && (ms != [] ==>
      && out[0].role == ms[0].role && UseIds(BlocksOf(out[0])) == UseIds(BlocksOf(ms[0]))
      && NonResults(BlocksOf(out[0])) == NonResults(BlocksOf(ms[0]))
      && ResultsOf(id, BlocksOf(out[0])) == Drop(ResultsOf(id, BlocksOf(ms[0])), owed)
      && Without(id, Less(owed, |ResultsOf(id, BlocksOf(ms[0]))|), ms[1..], out[1..]))
  }

  lemma {:induction false} WithoutNone(id: Name, ms: seq<Message>)
    ensures Without(id, 0, ms, ms)
    decreases |ms|
  {
    if ms != [] {
      WithoutNone(id, ms[1..]);
    }
  }

  lemma {:induction false} WithoutDrops(id: Name, owed: nat, ms: seq<Message>, out: seq<Message>)
    requires Without(id, owed, ms, out)
    ensures ResultsOf(id, AllBlocks(out)) == Drop(ResultsOf(id, AllBlocks(ms)), owed)
    decreases |ms|
  {
    hide NonResults, ResultsOf, UseIds;
    if ms == [] {
      NoResults(id);
    } else {
      var first := ResultsOf(id, BlocksOf(ms[0]));
      WithoutDrops(id, Less(owed, |first|), ms[1..], out[1..]);
      ResultsOfConcat(id, BlocksOf(ms[0]), AllBlocks(ms[1..]));
      ResultsOfConcat(id, BlocksOf(out[0]), AllBlocks(out[1..]));
      DropConcat(first, ResultsOf(id, AllBlocks(ms[1..])), owed);
    }
  }

  lemma NoResults(id: Name)
    ensures ResultsOf(id, []) == []
  {
  }

  lemma ResultsCons(id: Name, b: Block, rest: seq<Block>)
    ensures ResultsOf(id, [b] + rest) ==
            if b.ToolResult? && b.id == id then [b] + ResultsOf(id, rest) else ResultsOf(id, rest)
  {
    assert ([b] + rest)[1..] == rest;
  }

  lemma {:induction false} ClaimDropsOne(needed: set<Name>, bs: seq<Block>, id: Name)
    ensures var c := ClaimBlocks(needed, bs);
            && ResultsOf(id, c.kept) == Drop(ResultsOf(id, bs), if id in needed then 1 else 0)
            && (id in c.found <==> id in needed && ResultsOf(id, bs) != [])
    decreases |bs|
  {
    if bs == [] {
      NoResults(id);
    } else {
      hide ResultsOf;
      var b, rest := bs[0], bs[1..];
      assert bs == [b] + rest;
      ResultsCons(id, b, rest);
      if b.ToolResult? && b.id in needed {
        ClaimDropsOne(needed - {b.id}, rest, id);
      } else {
        ClaimDropsOne(needed, rest, id);
        ResultsCons(id, b, ClaimBlocks(needed, rest).kept);
      }
    }
  }

  lemma DropMore(bs: seq<Block>, n: nat, m: nat)
    ensures Drop(Drop(bs, n), m) == Drop(bs, n + m)
    ensures Drop(bs, n) == [] <==> |bs| <= n
  {
  }

  /** Sweeping some names claims one more result of each of them. */
  lemma {:induction false} SweepClaims(id: Name, owed: nat, needed: set<Name>, ms: seq<Message>, out: seq<Message>)
    requires Without(id, owed, ms, out)
    ensures Without(id, owed + if id in needed then 1 else 0, ms, SweepMessages(needed, out).rest)
    decreases |ms|
  {
    hide NonResults, ResultsOf, UseIds, ClaimBlocks, Drop, SweepMessages, Keep;
    if ms == [] {
      SweepNothing(needed, out);
    } else {
      var c := ClaimBlocks(needed, BlocksOf(out[0]));
      var r := SweepMessages(needed, out).rest;
      var first := ResultsOf(id, BlocksOf(ms[0]));
      SweepKeepsCalls(needed, out);
      SweptFirst(needed, out);
      ClaimDropsOne(needed, BlocksOf(out[0]), id);
      DropMore(first, owed, if id in needed then 1 else 0);
      SweepClaims(id, Less(owed, |first|), needed - c.found.Keys, ms[1..], out[1..]);
    }
  }

  lemma SweptFirst(needed: set<Name>, ms: seq<Message>)
    requires ms != []
    ensures BlocksOf(SweepMessages(needed, ms).rest[0]) == ClaimBlocks(needed, BlocksOf(ms[0])).kept
  {
    KeptMessage(ms[0], ClaimBlocks(needed, BlocksOf(ms[0])).kept);
  }

  // ----- The pass follows the history -----

  lemma {:induction false} FirstOfResults(id: Name, bs: seq<Block>)
    ensures FirstResult(id, bs) == if ResultsOf(id, bs) == [] then None else Some(ResultsOf(id, bs)[0])
  {
    if bs != [] {
      FirstOfResults(id, bs[1..]);
    }
  }

  /** `out` is what the pass has made of the messages from `k` on. */
  ghost predicate Reached(ms: seq<Message>, k: nat, out: seq<Message>)
    requires k <= |ms|
  {
    |out| == |ms| - k && forall id :: Without(id, Owed(id, ms[..k]), ms[k..], out)
  }

  lemma OwedNext(id: Name, ms: seq<Message>, k: nat)
    requires k < |ms|
    ensures Owed(id, ms[..k + 1]) == Claimed(id, ms, k) + if UsesName(ms[k], id) then 1 else 0
  {
    assert ms[..k + 1][..k] == ms[..k];
  }

  lemma {:induction false} ReachedHead(ms: seq<Message>, k: nat, out: seq<Message>)
    requires k < |ms| && Reached(ms, k, out)
    ensures CalledIn(out[0]) == CalledIn(ms[k]) && (Calls(out[0]) <==> Calls(ms[k]))
    ensures forall id :: Without(id, Claimed(id, ms, k), ms[k + 1..], out[1..])
  {
    hide NonResults, ResultsOf, UseIds, Owed;
    assert ms[k..][1..] == ms[k + 1..] && ms[k..][0] == ms[k];
    assert Without(NoName, Owed(NoName, ms[..k]), ms[k..], out);
    forall id ensures Without(id, Claimed(id, ms, k), ms[k + 1..], out[1..]) {
      assert Without(id, Owed(id, ms[..k]), ms[k..], out);
    }
  }

  lemma {:induction false} ReachedSilent(ms: seq<Message>, k: nat, out: seq<Message>)
    requires k < |ms| && Reached(ms, k, out) && !Calls(ms[k])
    ensures Reached(ms, k + 1, out[1..])
  {
    hide NonResults, ResultsOf, UseIds, Owed, Without, Claimed;
    ReachedHead(ms, k, out);
    var before, rest, left := ms[..k + 1], ms[k + 1..], out[1..];
    forall id ensures Without(id, Owed(id, before), rest, left) {
      OwedNext(id, ms, k);
    }
  }

  lemma {:induction false} ReachedCalling(ms: seq<Message>, k: nat, out: seq<Message>)
    requires k < |ms| && Reached(ms, k, out) && Calls(ms[k])
    ensures Reached(ms, k + 1, SweepMessages(AsSet(CalledIn(ms[k])), out[1..]).rest)
  {
    hide NonResults, ResultsOf, UseIds, Owed, Without, Claimed, SweepMessages;
    ReachedHead(ms, k, out);
    var needed := AsSet(CalledIn(ms[k]));
    var before, rest, left := ms[..k + 1], ms[k + 1..], SweepMessages(needed, out[1..]).rest;
    forall id ensures Without(id, Owed(id, before), rest, left) {
      OwedNext(id, ms, k);
      SweepClaims(id, Claimed(id, ms, k), needed, rest, out[1..]);
    }
  }

  /** What the sweep finds for one name. */
  lemma {:induction false} FoundIsAnswer(ms: seq<Message>, k: nat, out: seq<Message>, id: Name)
    requires k < |ms| && Reached(ms, k, out) && id in CalledIn(ms[k])
    ensures var found := SweepMessages(AsSet(CalledIn(ms[k])), out[1..]).found;
            && (id in found <==> HasAnswer(id, ms, k))
            && (id in found ==> found[id] == AnswerAt(id, ms, k))
  {
    hide NonResults, ResultsOf, UseIds, Owed, Without, Claimed, SweepMessages, FirstResult, AllBlocks;
    ReachedHead(ms, k, out);
    WithoutDrops(id, Claimed(id, ms, k), ms[k + 1..], out[1..]);
    SweepTakesFirst(AsSet(CalledIn(ms[k])), out[1..], id);
    FirstOfResults(id, AllBlocks(out[1..]));
    assert id in AsSet(CalledIn(ms[k]));
  }

  lemma {:induction false} CarrierFollows(ms: seq<Message>, k: nat, out: seq<Message>)
    requires k < |ms| && Reached(ms, k, out)
    ensures Answers(CalledIn(ms[k]), SweepMessages(AsSet(CalledIn(ms[k])), out[1..]).found) ==
        AnswersAt(CalledIn(ms[k]), ms, k)
  {
    hide AnswerAt, HasAnswer, Without, SweepMessages, CalledIn;
    var ids := CalledIn(ms[k]);
    var found := SweepMessages(AsSet(ids), out[1..]).found;
    forall i | 0 <= i < |ids| ensures Answers(ids, found)[i] == AnswersAt(ids, ms, k)[i] {
      FoundIsAnswer(ms, k, out, ids[i]);
      SyntheticWhenNone(ids[i], ms, k);
    }
  }

  lemma SyntheticWhenNone(id: Name, ms: seq<Message>, k: nat)
    requires k < |ms|
    ensures !HasAnswer(id, ms, k) ==> AnswerAt(id, ms, k) == ToolResult(id, INTERRUPTED, false)
  {
  }

  lemma {:induction false} InsertedFollows(ms: seq<Message>, k: nat, out: seq<Message>)
    requires k <= |ms| && Reached(ms, k, out)
    ensures Inserted(out) == AnswersFrom(ms, k)
    decreases |ms| - k
  {
    hide Without, SweepMessages, AnswersAt, Answers, UseIds;
    if k < |ms| {
      ReachedHead(ms, k, out);
      CarrierFollows(ms, k, out);
      if Calls(ms[k]) {
        ReachedCalling(ms, k, out);
        InsertedFollows(ms, k + 1, SweepMessages(AsSet(CalledIn(ms[k])), out[1..]).rest);
      } else {
        ReachedSilent(ms, k, out);
        InsertedFollows(ms, k + 1, out[1..]);
        assert AnswersAt([], ms, k) == [] by { NoAnswersAt(ms, k); }
      }
    }
  }

  lemma NoAnswersAt(ms: seq<Message>, k: nat)
    requires k < |ms|
    ensures AnswersAt([], ms, k) == [] && MadeUpAt([], ms, k) == []
  {
  }

  lemma StartsReached(ms: seq<Message>)
    ensures Reached(ms, 0, ms)
  {
    assert ms[..0] == [] && ms[0..] == ms;
    forall id ensures Without(id, 0, ms, ms) {
      WithoutNone(id, ms);
    }
  }

  /** For every history: each call is answered by the first result behind its message that no earlier
      call of the same name has claimed, and by a synthetic result exactly when there is none. */
  lemma {:induction false} AnswersFollowHistory(ms: seq<Message>)
    ensures Inserted(ms) == AnswersFrom(ms)
  {
    hide Reached;
    StartsReached(ms);
    InsertedFollows(ms, 0, ms);
  }

  lemma {:induction false} NothingOwed(id: Name, ms: seq<Message>)
    requires forall i :: 0 <= i < |ms| ==> !UsesName(ms[i], id)
    ensures Owed(id, ms) == 0
  {
    if ms != [] {
      NothingOwed(id, ms[..|ms| - 1]);
    }
  }

  /** The first call of a name is answered by the very first result that follows it. */
  lemma {:induction false} FirstCallTakesFirst(id: Name, ms: seq<Message>, k: nat)
    requires k < |ms| && forall i :: 0 <= i < k ==> !UsesName(ms[i], id)
    ensures AnswerAt(id, ms, k) ==
            var r := FirstResult(id, AllBlocks(ms[k + 1..]));
            if r.Some? then r.value else ToolResult(id, INTERRUPTED, false)
  {
    NothingOwed(id, ms[..k]);
    FirstOfResults(id, AllBlocks(ms[k + 1..]));
  }

  function OneCall(input: Text): (m: Message) {
    Message(Assistant, NoName, false, Blocks([ToolUse(1, input)]))
  }

  function OneAnswer(content: Text): (m: Message) {
    Message(User, NoName, false, Blocks([ToolResult(1, content, false)]))
  }

  lemma OneCallFacts(input: Text, content: Text)
    ensures CalledIn(OneCall(input)) == [1] && CalledIn(OneAnswer(content)) == []
    ensures ResultsOf(1, BlocksOf(OneCall(input))) == [] && Owed(1, [OneCall(input)]) == 1
    ensures ResultsOf(1, AllBlocks([OneAnswer(content)])) == [ToolResult(1, content, false)]
    ensures ResultsOf(1, AllBlocks([OneCall(input), OneAnswer(content)])) == [ToolResult(1, content, false)]
  {
    var use, answer := ToolUse(1, input), ToolResult(1, content, false);
    assert UseIds([use]) == [1] && UseIds([answer]) == [];
    assert [OneCall(input)][..0] == [];
    assert [OneCall(input), OneAnswer(content)][1..] == [OneAnswer(content)];
    assert AllBlocks([OneAnswer(content)]) == [answer] && AllBlocks([OneCall(input), OneAnswer(content)]) ==
        [use, answer];
    assert [use, answer][1..] == [answer] && ResultsOf(1, [answer]) == [answer];
  }

  /** A name that recurs: the first call claims the only result, so the second one gets a synthetic
      answer although a result follows it. */
  lemma {:induction false} RecurringNameLosesItsResult(input: Text, content: Text)
    ensures Inserted([OneCall(input), OneCall(input), OneAnswer(content)]) ==
            [ToolResult(1, content, false), ToolResult(1, INTERRUPTED, false)]
  {
    var ms := [OneCall(input), OneCall(input), OneAnswer(content)];
    OneCallFacts(input, content);
    assert ms[1..] == [OneCall(input), OneAnswer(content)] && ms[2..] == [OneAnswer(content)];
    assert ms[..0] == [] && ms[..1] == [OneCall(input)];
    assert AnswerAt(1, ms, 0) == ToolResult(1, content, false);
    assert AnswerAt(1, ms, 1) == ToolResult(1, INTERRUPTED, false);
    AnswersFollowHistory(ms);
    hide AnswerAt, ResultsOf, Owed, Inserted, OneCall, OneAnswer;
    NoAnswersAt(ms, 2);
    assert AnswersFrom(ms, 3) == [] && AnswersFrom(ms, 2) == [];
    assert AnswersFrom(ms, 1) == [ToolResult(1, INTERRUPTED, false)];
  }

  // ----- Conservation, read off the history -----

  lemma {:induction false} MissingFollows(ms: seq<Message>, k: nat, out: seq<Message>, ids: seq<Name>)
    requires k < |ms| && Reached(ms, k, out) && forall id :: id in ids ==> id in CalledIn(ms[k])
    ensures Missing(ids, SweepMessages(AsSet(CalledIn(ms[k])), out[1..]).found) == MadeUpAt(ids, ms, k)
    decreases |ids|
  {
    hide HasAnswer, Without, SweepMessages, CalledIn, AnswerAt;
    if ids != [] {
      FoundIsAnswer(ms, k, out, ids[0]);
      MissingFollows(ms, k, out, ids[1..]);
    }
  }

  lemma {:induction false} AddedFollows(ms: seq<Message>, k: nat, out: seq<Message>)
    requires k <= |ms| && Reached(ms, k, out)
    ensures Added(out) == MadeUp(ms, k)
    decreases |ms| - k
  {
    hide Without, SweepMessages, MadeUpAt, Missing, UseIds;
    if k < |ms| {
      ReachedHead(ms, k, out);
      if Calls(ms[k]) {
        MissingFollows(ms, k, out, CalledIn(ms[k]));
        ReachedCalling(ms, k, out);
        AddedFollows(ms, k + 1, SweepMessages(AsSet(CalledIn(ms[k])), out[1..]).rest);
      } else {
        ReachedSilent(ms, k, out);
        AddedFollows(ms, k + 1, out[1..]);
        assert MadeUpAt([], ms, k) == [] by { NoAnswersAt(ms, k); }
      }
    }
  }

  /** No name called twice in message `k` has an answer there. */
  predicate RepeatsUnansweredAt(ms: seq<Message>, k: nat)
    requires k < |ms|
  {
    var ids := CalledIn(ms[k]);
    forall i, j :: 0 <= i < j < |ids| && ids[i] == ids[j] ==> !HasAnswer(ids[i], ms, k)
  }

  lemma {:induction false} RepeatsFollow(ms: seq<Message>, k: nat, out: seq<Message>)
    requires k < |ms| && Reached(ms, k, out)
    ensures RepeatsUnanswered(CalledIn(ms[k]), SweepMessages(AsSet(CalledIn(ms[k])), out[1..]).found)
            <==> RepeatsUnansweredAt(ms, k)
  {
    hide HasAnswer, Without, SweepMessages, CalledIn, AnswerAt;
    var ids := CalledIn(ms[k]);
    forall i | 0 <= i < |ids|
      ensures ids[i] in SweepMessages(AsSet(ids), out[1..]).found <==> HasAnswer(ids[i], ms, k)
    {
      FoundIsAnswer(ms, k, out, ids[i]);
    }
  }

  predicate RepeatsUnansweredFrom(ms: seq<Message>, k: nat) {
    forall n :: k <= n < |ms| ==> RepeatsUnansweredAt(ms, n)
  }

  lemma {:induction false} OnceFollows(ms: seq<Message>, k: nat, out: seq<Message>)
    requires k <= |ms| && Reached(ms, k, out)
    ensures AnsweredOnce(out) <==> RepeatsUnansweredFrom(ms, k)
    decreases |ms| - k
  {
    hide Without, SweepMessages, RepeatsUnanswered, UseIds, HasAnswer;
    if k < |ms| {
      ReachedHead(ms, k, out);
      assert RepeatsUnansweredFrom(ms, k) <==> RepeatsUnansweredAt(ms, k) && RepeatsUnansweredFrom(ms, k + 1);
      hide RepeatsUnansweredAt, RepeatsUnansweredFrom;
      if Calls(ms[k]) {
        RepeatsFollow(ms, k, out);
        ReachedCalling(ms, k, out);
        OnceFollows(ms, k + 1, SweepMessages(AsSet(CalledIn(ms[k])), out[1..]).rest);
      } else {
        ReachedSilent(ms, k, out);
        OnceFollows(ms, k + 1, out[1..]);
        SilentRepeats(ms, k);
      }
    }
  }

  lemma SilentRepeats(ms: seq<Message>, k: nat)
    requires k < |ms| && !Calls(ms[k])
    ensures RepeatsUnansweredAt(ms, k)
  {
  }

  /** The pass loses no block and duplicates none, apart from the synthetic results of the calls
      without an answer, if and only if no message repeats a call name for which an unclaimed
      result follows. */
  lemma {:induction false} ConservesBlocksExactly(ms: seq<Message>)
    ensures multiset(AllBlocks(Enforced(ms))) == multiset(AllBlocks(ms)) + multiset(MadeUp(ms))
            <==> RepeatsUnansweredFrom(ms, 0)
  {
    hide Reached, AnsweredOnce, AllBlocks, Enforced, Added, MadeUp, RepeatsUnansweredFrom;
    StartsReached(ms);
    AddedFollows(ms, 0, ms);
    OnceFollows(ms, 0, ms);
    ConservedExactly(ms);
  }

  /** Distinct call names within each message are enough. */
  lemma {:induction false} DistinctWithinConserves(ms: seq<Message>)
    requires DistinctWithin(ms)
    ensures multiset(AllBlocks(Enforced(ms))) == multiset(AllBlocks(ms)) + multiset(MadeUp(ms))
  {
    assert RepeatsUnansweredFrom(ms, 0);
    hide AllBlocks, Enforced, MadeUp, RepeatsUnansweredFrom;
    ConservesBlocksExactly(ms);
  }
}
