/** The four cleaning stages of the normalisation as one pass over the messages (agent/normalize.go). */
module OnePass {
  import opened Prelude
  import opened Messages
  import opened Normalize

  /** A block that a provider gets to see. */
  predicate Stays(b: Block, role: Role, rejected: set<AttachmentKind>, supported: bool) {
    && !b.Internal?
    && (b.Attachment? ==> b.kind !in rejected)
    && (b.Thinking? ==> supported && role != User)
  }

  /** What is left of one message: attachments first, and nothing of a message that loses all its blocks. */
  function Cleaned(m: Message, rejected: set<AttachmentKind>, supported: bool): (r: seq<Message>) {
    if m.isVirtual then []
    else if m.content.Plain? then [m]
    else
      var bs := Select(BlocksOf(m), (b: Block) => b.Attachment? && Stays(b, m.role, rejected, supported))
                + Select(BlocksOf(m), (b: Block) => !b.Attachment? && Stays(b, m.role, rejected, supported));
      if bs == [] then [] else [WithBlocks(m, bs)]
  }

  function AllCleaned(ms: seq<Message>, rejected: set<AttachmentKind>, supported: bool): (r: seq<Message>) {
    if ms == [] then [] else Cleaned(ms[0], rejected, supported) + AllCleaned(ms[1..], rejected, supported)
  }

  // ----- Selecting -----

  lemma {:induction false} SelectConcat(a: seq<Block>, b: seq<Block>, keep: Block -> bool)
    ensures Select(a + b, keep) == Select(a, keep) + Select(b, keep)
    decreases |a|
  {
    if a == [] {
      assert a + b == b;
    } else {
      assert (a + b)[0] == a[0] && (a + b)[1..] == a[1..] + b;
      SelectConcat(a[1..], b, keep);
    }
  }

  lemma {:induction false} SelectTwice(bs: seq<Block>, p: Block -> bool, q: Block -> bool, both: Block -> bool)
    requires forall b :: b in bs ==> (both(b) <==> p(b) && q(b))
    ensures Select(Select(bs, p), q) == Select(bs, both)
  {
    if bs != [] {
      SelectTwice(bs[1..], p, q, both);
      var rest := Select(bs[1..], p);
      assert ([bs[0]] + rest)[1..] == rest && [] + rest == rest;
    }
  }

  /** Moving the attachments ahead and then selecting twice is selecting attachments and the rest. */
  lemma {:induction false} SelectMoved(bs: seq<Block>, front: Block -> bool, back: Block -> bool,
      p: Block -> bool, q: Block -> bool, first: Block -> bool, second: Block -> bool)
    requires forall b :: b in bs ==>
               (first(b) <==> front(b) && p(b) && q(b)) && (second(b) <==> back(b) && p(b) && q(b))
    ensures Select(Select(Select(bs, front) + Select(bs, back), p), q) == Select(bs, first) + Select(bs, second)
  {
    var a, b := Select(bs, front), Select(bs, back);
    SelectConcat(a, b, p);
    SelectConcat(Select(a, p), Select(b, p), q);
    var frontP := (x: Block) => front(x) && p(x);
    var backP := (x: Block) => back(x) && p(x);
    SelectTwice(bs, front, p, frontP);
    SelectTwice(bs, back, p, backP);
    SelectTwice(bs, frontP, q, first);
    SelectTwice(bs, backP, q, second);
  }

  // ----- The stages -----

  lemma {:induction false} ThinkingConcat(a: seq<Message>, b: seq<Message>, supported: bool)
    ensures HandleThinking(a + b, supported) == HandleThinking(a, supported) + HandleThinking(b, supported)
    decreases |a|
  {
    if a == [] {
      assert a + b == b;
    } else {
      assert (a + b)[0] == a[0] && (a + b)[1..] == a[1..] + b;
      hide SelectMessage;
      ThinkingConcat(a[1..], b, supported);
    }
  }

  lemma {:induction false} OneThinking(m: Message, supported: bool)
    ensures var strip := m.role == User || !supported;
            HandleThinking([m], supported) == SelectMessage(m, (b: Block) => !(b.Thinking? && strip))
  {
    hide SelectMessage;
    assert [m][1..] == [];
  }

  /** What the stages do to one visible message. */
  lemma {:induction false} CleanedInStages(m: Message, rejected: set<AttachmentKind>, supported: bool)
    requires !m.isVirtual
    ensures var keep := (b: Block) => !b.Internal? && !(b.Attachment? && b.kind in rejected);
            HandleThinking(SelectMessage(ReorderMessage(m), keep), supported) == Cleaned(m, rejected, supported)
  {
    var p := (b: Block) => !b.Internal? && !(b.Attachment? && b.kind in rejected);
    var strip := m.role == User || !supported;
    var q := (b: Block) => !(b.Thinking? && strip);
    var front, back := (b: Block) => b.Attachment?, (b: Block) => !b.Attachment?;
    if m.content.Plain? {
      OneThinking(m, supported);
    } else {
      var bs := BlocksOf(m);
      var moved := Select(bs, front) + Select(bs, back);
      SelectMoved(bs, front, back, p, q,
                  (b: Block) => b.Attachment? && Stays(b, m.role, rejected, supported),
                  (b: Block) => !b.Attachment? && Stays(b, m.role, rejected, supported));
      if Select(moved, p) != [] {
        OneThinking(WithBlocks(m, Select(moved, p)), supported);
      }
    }
  }

  /** Moving attachments, dropping virtual messages, stripping internal blocks and handling thinking, one after
      the other, is one pass that cleans each message by itself. */
  lemma {:induction false} StagesAreOnePass(ms: seq<Message>, rejected: set<AttachmentKind>, supported: bool)
    ensures HandleThinking(StripInternal(FilterVirtual(ReorderAttachments(ms)), rejected), supported)
         == AllCleaned(ms, rejected, supported)
  {
    hide SelectMessage, HandleThinking, Cleaned;
    if ms == [] {
      NoThinking(supported);
    } else {
      var m, rest := ReorderMessage(ms[0]), ReorderAttachments(ms[1..]);
      var later := StripInternal(FilterVirtual(rest), rejected);
      assert ([m] + rest)[1..] == rest;
      StagesAreOnePass(ms[1..], rejected, supported);
      if m.isVirtual {
        assert [] + FilterVirtual(rest) == FilterVirtual(rest);
        VirtualGoes(ms[0], rejected, supported);
        assert [] + AllCleaned(ms[1..], rejected, supported) == AllCleaned(ms[1..], rejected, supported);
      } else {
        assert ([m] + FilterVirtual(rest))[1..] == FilterVirtual(rest);
        var keep := (b: Block) => !b.Internal? && !(b.Attachment? && b.kind in rejected);
        ThinkingConcat(SelectMessage(m, keep), later, supported);
        CleanedInStages(ms[0], rejected, supported);
      }
    }
  }

  lemma NoThinking(supported: bool)
    ensures HandleThinking([], supported) == []
  {
  }

  lemma VirtualGoes(m: Message, rejected: set<AttachmentKind>, supported: bool)
    requires m.isVirtual
    ensures Cleaned(m, rejected, supported) == []
  {
  }

  // ----- Merging -----

  /** The second message continues the response that the first belongs to. */
  predicate Continues(a: Message, b: Message) {
    a.role == b.role == Assistant && a.mid == b.mid != NoName
  }

  /** A message of a response carries its blocks as a list; any other message stays as it is. */
  function Opened(m: Message): (r: Message) {
    if OfResponse(m) then WithBlocks(m, BlocksOf(m)) else m
  }

  /** Message by message: what continues the message before is added to its blocks. */
  function Joined(ms: seq<Message>): (r: seq<Message>)
    ensures |r| <= |ms| && (ms != [] ==> r != [])
  {
    if ms == [] then []
    else
      var before, m := Joined(ms[..|ms| - 1]), ms[|ms| - 1];
      if |ms| > 1 && Continues(ms[|ms| - 2], m)
      then
        var last := before[|before| - 1];
        before[..|before| - 1] + [WithBlocks(last, BlocksOf(last) + BlocksOf(m))]
      else before + [Opened(m)]
  }

  lemma {:induction false} AllPieces(ms: seq<Message>, m: Message)
    ensures AllBlocks(ms + [m]) == AllBlocks(ms) + BlocksOf(m)
  {
    AllBlocksConcat(ms, [m]);
    assert [m][1..] == [] && BlocksOf(m) + [] == BlocksOf(m);
  }

  lemma {:induction false} SpanSnoc(ms: seq<Message>, m: Message, mid: Name)
    ensures Span(ms + [m], mid) ==
            if Span(ms, mid) < |ms| then Span(ms, mid) else if SamePiece(m, mid) then |ms| + 1 else |ms|
  {
    var n := Span(ms + [m], mid);
    assert forall i :: 0 <= i < |ms| ==> (ms + [m])[i] == ms[i];
    assert (ms + [m])[|ms|] == m;
  }

  predicate OfResponse(m: Message) {
    m.role == Assistant && m.mid != NoName
  }

  lemma MergedNil()
    ensures Merged([]) == []
  {
  }

  lemma {:induction false} MergedCons(ms: seq<Message>)
    requires ms != []
    ensures !OfResponse(ms[0]) ==> Merged(ms) == [ms[0]] + Merged(ms[1..])
    ensures OfResponse(ms[0]) ==>
              var n := Span(ms, ms[0].mid);
              0 < n && Merged(ms) == [WithBlocks(ms[0], AllBlocks(ms[..n]))] + Merged(ms[n..])
  {
  }

  /** What merging does with one more message behind `ms`. */
  ghost predicate TakesUp(ms: seq<Message>, m: Message)
    requires ms != []
  {
    var before := Merged(ms);
    && before != []
    && if Continues(ms[|ms| - 1], m)
       then
         var open := before[|before| - 1];
         Merged(ms + [m]) == before[..|before| - 1] + [WithBlocks(open, BlocksOf(open) + BlocksOf(m))]
       else Merged(ms + [m]) == before + Merged([m])
  }

  lemma {:induction false} MergedSnoc(ms: seq<Message>, m: Message)
    requires ms != []
    ensures TakesUp(ms, m)
    decreases |ms|
  {
    hide TakesUp;
    var n := if OfResponse(ms[0]) then Span(ms, ms[0].mid) else 1;
    MergedCons(ms);
    hide Merged;
    if n < |ms| {
      MergedSnoc(ms[n..], m);
      Behind(ms, m, n);
    } else {
      LastResponse(ms, m);
    }
  }

  lemma {:induction false} Behind(ms: seq<Message>, m: Message, n: nat)
    requires 0 < n < |ms| && n == (if OfResponse(ms[0]) then Span(ms, ms[0].mid) else 1) && TakesUp(ms[n..], m)
    ensures TakesUp(ms, m)
  {
    hide TakesUp, AllBlocks;
    var head := SameHead(ms, m, n);
    hide Merged;
    HeadTakesUp(ms, m, n, head);
  }

  lemma {:induction false} HeadTakesUp(ms: seq<Message>, m: Message, n: nat, head: Message)
    requires 0 < n < |ms| && TakesUp(ms[n..], m)
    requires Merged(ms) == [head] + Merged(ms[n..]) && Merged(ms + [m]) == [head] + Merged(ms[n..] + [m])
    ensures TakesUp(ms, m)
  {
    hide Merged;
    var before := Merged(ms[n..]);
    assert ms[n..][|ms[n..]| - 1] == ms[|ms| - 1];
    assert ([head] + before)[..|before|] == [head] + before[..|before| - 1];
    assert ([head] + before)[|before|] == before[|before| - 1];
  }

  lemma {:induction false} SameHead(ms: seq<Message>, m: Message, n: nat) returns (head: Message)
    requires 0 < n < |ms| && n == (if OfResponse(ms[0]) then Span(ms, ms[0].mid) else 1)
    ensures Merged(ms) == [head] + Merged(ms[n..]) && Merged(ms + [m]) == [head] + Merged(ms[n..] + [m])
  {
    MergedCons(ms);
    MergedCons(ms + [m]);
    hide Merged, AllBlocks;
    SpanSnoc(ms, m, ms[0].mid);
    assert (ms + [m])[..n] == ms[..n] && (ms + [m])[n..] == ms[n..] + [m];
    head := if OfResponse(ms[0]) then WithBlocks(ms[0], AllBlocks(ms[..n])) else ms[0];
  }

  lemma {:induction false} LastResponse(ms: seq<Message>, m: Message)
    requires ms != [] && (if OfResponse(ms[0]) then Span(ms, ms[0].mid) else 1) == |ms|
    ensures TakesUp(ms, m)
  {
    MergedCons(ms);
    MergedCons(ms + [m]);
    MergedNil();
    SpanSnoc(ms, m, ms[0].mid);
    assert (ms + [m])[..|ms|] == ms && (ms + [m])[|ms|..] == [m] && ms[..|ms|] == ms && ms[|ms|..] == [];
    if OfResponse(ms[0]) {
      assert SamePiece(ms[|ms| - 1], ms[0].mid);
      assert (ms + [m])[..|ms| + 1] == ms + [m] && (ms + [m])[|ms| + 1..] == [];
      AllPieces(ms, m);
    }
    hide Merged, AllBlocks;
  }

  lemma {:induction false} MergedOne(m: Message)
    ensures Merged([m]) == [Opened(m)]
  {
    MergedCons([m]);
    MergedNil();
    assert [m][1..] == [] && [m][..1] == [m];
    assert AllBlocks([m]) == BlocksOf(m) + AllBlocks([]) == BlocksOf(m);
    SpanSnoc([], m, m.mid);
    assert [] + [m] == [m];
  }

  /** Merging the pieces of streamed responses is joining message by message: a message is added to the one
      before exactly if both belong to the same response, and everything else stays as it is. */
  lemma {:induction false} MergingIsJoining(ms: seq<Message>)
    ensures Merged(ms) == Joined(ms)
  {
    if ms == [] {
      MergedNil();
    } else {
      var before, m := ms[..|ms| - 1], ms[|ms| - 1];
      assert ms == before + [m];
      MergingIsJoining(before);
      MergedOne(m);
      if before == [] {
        assert ms == [m] && Joined([]) == [];
      } else {
        MergedSnoc(before, m);
        hide Merged;
      }
    }
  }
}
