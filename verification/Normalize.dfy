/** The normalisation stages ahead of the immediate-result pass (agent/normalize.go). */
module Normalize {
  import opened Prelude
  import opened Messages

  /** Every tool call an assistant message makes carries a name. */
  predicate NamedUses(m: Message) {
    m.role == Assistant ==> forall b :: b in BlocksOf(m) && b.ToolUse? ==> b.id != NoName
  }

  predicate AllNamed(ms: seq<Message>) {
    forall i :: 0 <= i < |ms| ==> NamedUses(ms[i])
  }

  lemma AllNamedConcat(a: seq<Message>, b: seq<Message>)
    ensures AllNamed(a + b) <==> AllNamed(a) && AllNamed(b)
  {
    if AllNamed(a + b) {
      forall i | 0 <= i < |a| ensures NamedUses(a[i]) { assert (a + b)[i] == a[i]; }
      forall i | 0 <= i < |b| ensures NamedUses(b[i]) { assert (a + b)[|a| + i] == b[i]; }
    }
  }

  lemma AllNamedCons(ms: seq<Message>)
    requires ms != []
    ensures AllNamed(ms) <==> NamedUses(ms[0]) && AllNamed(ms[1..])
  {
    assert ms == [ms[0]] + ms[1..];
    AllNamedConcat([ms[0]], ms[1..]);
    assert AllNamed([ms[0]]) <==> NamedUses([ms[0]][0]);
  }

  // ----- Stages that only move or drop blocks of no interest to tool pairing -----

  function Select(bs: seq<Block>, keep: Block -> bool): (r: seq<Block>)
    ensures forall b :: b in r <==> b in bs && keep(b)
  {
    if bs == [] then [] else (if keep(bs[0]) then [bs[0]] else []) + Select(bs[1..], keep)
  }

  function ReorderMessage(m: Message): (r: Message) {
    if m.content.Plain? then m
    else WithBlocks(m, Select(BlocksOf(m), (b: Block) => b.Attachment?)
        + Select(BlocksOf(m), (b: Block) => !b.Attachment?))
  }

  function ReorderAttachments(ms: seq<Message>): (r: seq<Message>) {
    if ms == [] then [] else [ReorderMessage(ms[0])] + ReorderAttachments(ms[1..])
  }

  function FilterVirtual(ms: seq<Message>): (r: seq<Message>) {
    if ms == [] then [] else (if ms[0].isVirtual then [] else [ms[0]]) + FilterVirtual(ms[1..])
  }

  function SelectMessage(m: Message, keep: Block -> bool): (r: seq<Message>) {
    if m.content.Plain? then [m]
    else if Select(BlocksOf(m), keep) == [] then []
    else [WithBlocks(m, Select(BlocksOf(m), keep))]
  }

  /** Internal blocks go, and so do attachments of a kind the provider has rejected. */
  function StripInternal(ms: seq<Message>, rejected: set<AttachmentKind>): (r: seq<Message>) {
    if ms == [] then []
    else SelectMessage(ms[0], (b: Block) => !b.Internal? && !(b.Attachment? && b.kind in rejected))
         + StripInternal(ms[1..], rejected)
  }

  function HandleThinking(ms: seq<Message>, supported: bool): (r: seq<Message>) {
    if ms == [] then []
    else
      var strip := ms[0].role == User || !supported;
      SelectMessage(ms[0], (b: Block) => !(b.Thinking? && strip)) + HandleThinking(ms[1..], supported)
  }

  lemma SelectMessageNamed(m: Message, keep: Block -> bool)
    requires forall b: Block :: b.ToolUse? ==> keep(b)
    ensures AllNamed(SelectMessage(m, keep)) <==> NamedUses(m)
  {
    var bs := Select(BlocksOf(m), keep);
    if m.content.Blocks? && bs != [] {
      assert AllNamed([WithBlocks(m, bs)]) <==> NamedUses([WithBlocks(m, bs)][0]);
    } else if m.content.Plain? {
      assert AllNamed([m]) <==> NamedUses([m][0]);
    } else {
      assert forall b :: b in BlocksOf(m) && b.ToolUse? ==> b in bs;
    }
  }

  /** The early stages neither hide nor invent an unnamed call of a visible message. */
  lemma {:induction false} ReorderNamed(ms: seq<Message>)
    ensures AllNamed(ReorderAttachments(ms)) <==> AllNamed(ms)
  {
    if ms != [] {
      ReorderNamed(ms[1..]);
      AllNamedCons(ms);
      AllNamedCons(ReorderAttachments(ms)) by { }
      assert ReorderAttachments(ms)[1..] == ReorderAttachments(ms[1..]);
      ReorderMessageNamed(ms[0]);
    }
  }

  lemma ReorderMessageNamed(m: Message)
    ensures NamedUses(ReorderMessage(m)) <==> NamedUses(m)
  {
  }

  /** Reordering blocks and dropping virtual messages commute. */
  lemma {:induction false} ReorderFilterCommute(ms: seq<Message>)
    ensures FilterVirtual(ReorderAttachments(ms)) == ReorderAttachments(FilterVirtual(ms))
  {
    hide ReorderMessage;
    if ms != [] {
      ReorderFilterCommute(ms[1..]);
      assert ReorderAttachments(ms)[1..] == ReorderAttachments(ms[1..]);
      ReorderKeepsVirtual(ms[0]);
      if ms[0].isVirtual {
        assert FilterVirtual(ms) == FilterVirtual(ms[1..]);
        assert FilterVirtual(ReorderAttachments(ms)) == FilterVirtual(ReorderAttachments(ms[1..]));
      } else {
        assert FilterVirtual(ms)[0] == ms[0] && FilterVirtual(ms)[1..] == FilterVirtual(ms[1..]);
      }
    }
  }

  lemma ReorderKeepsVirtual(m: Message)
    ensures ReorderMessage(m).isVirtual == m.isVirtual
  {
  }

  lemma {:induction false} StripNamed(ms: seq<Message>, rejected: set<AttachmentKind>)
    ensures AllNamed(StripInternal(ms, rejected)) <==> AllNamed(ms)
  {
    hide Select, SelectMessage;
    if ms != [] {
      StripNamed(ms[1..], rejected);
      AllNamedCons(ms);
      var keep := (b: Block) => !b.Internal? && !(b.Attachment? && b.kind in rejected);
      SelectMessageNamed(ms[0], keep);
      AllNamedConcat(SelectMessage(ms[0], keep), StripInternal(ms[1..], rejected));
    }
  }

  lemma {:induction false} ThinkingNamed(ms: seq<Message>, supported: bool)
    ensures AllNamed(HandleThinking(ms, supported)) <==> AllNamed(ms)
  {
    hide Select, SelectMessage;
    if ms != [] {
      ThinkingNamed(ms[1..], supported);
      AllNamedCons(ms);
      var strip := ms[0].role == User || !supported;
      var keep := (b: Block) => !(b.Thinking? && strip);
      SelectMessageNamed(ms[0], keep);
      AllNamedConcat(SelectMessage(ms[0], keep), HandleThinking(ms[1..], supported));
    }
  }

  // ----- Merging the pieces of one streamed assistant response -----

  predicate SamePiece(m: Message, mid: Name) {
    m.role == Assistant && m.mid == mid
  }

  function Span(ms: seq<Message>, mid: Name): (n: nat)
    ensures n <= |ms|
    ensures forall i :: 0 <= i < n ==> SamePiece(ms[i], mid)
    ensures n < |ms| ==> !SamePiece(ms[n], mid)
  {
    if ms != [] && SamePiece(ms[0], mid) then 1 + Span(ms[1..], mid) else 0
  }

  function Merged(ms: seq<Message>): (r: seq<Message>)
    decreases |ms|
  {
    if ms == [] then []
    else if ms[0].role != Assistant || ms[0].mid == NoName then [ms[0]] + Merged(ms[1..])
    else
      var n := Span(ms, ms[0].mid);
      [WithBlocks(ms[0], AllBlocks(ms[..n]))] + Merged(ms[n..])
  }

  method MergeSplitMessages(messages: seq<Message>) returns (out: seq<Message>)
    ensures out == Merged(messages)
  {
    hide Merged, Span, AllBlocks;
    out := [];
    var i := 0;
    assert messages[0..] == messages;
    while i < |messages|
      invariant 0 <= i <= |messages|
      invariant out + Merged(messages[i..]) == Merged(messages)
    {
      MergedStep(messages, i);
      var msg := messages[i];
      if msg.role != Assistant || msg.mid == NoName {
        out := out + [msg];
        i := i + 1;
      } else {
        var merged, j := CollectPieces(messages, i);
        out := out + [WithBlocks(msg, merged)];
        i := j;
      }
    }
    MergedNil(messages[i..]);
  }

  lemma MergedNil(ms: seq<Message>)
    requires ms == []
    ensures Merged(ms) == []
  {
  }

  lemma MergedStep(ms: seq<Message>, i: nat)
    requires i < |ms|
    ensures ms[i].role != Assistant || ms[i].mid == NoName ==> Merged(ms[i..]) == [ms[i]] + Merged(ms[i + 1..])
    ensures ms[i].role == Assistant && ms[i].mid != NoName ==>
              var j := i + Span(ms[i..], ms[i].mid);
              Merged(ms[i..]) == [WithBlocks(ms[i], AllBlocks(ms[i..j]))] + Merged(ms[j..])
  {
    assert ms[i..][1..] == ms[i + 1..];
    var n := Span(ms[i..], ms[i].mid);
    assert ms[i..][..n] == ms[i..i + n] && ms[i..][n..] == ms[i + n..];
  }

  method CollectPieces(messages: seq<Message>, i: nat) returns (merged: seq<Block>, j: nat)
    requires i < |messages| && messages[i].role == Assistant && messages[i].mid != NoName
    ensures i < j == i + Span(messages[i..], messages[i].mid)
    ensures merged == AllBlocks(messages[i..j])
  {
    hide Span, AllBlocks;
    merged := BlocksOf(messages[i]);
    j := i + 1;
    PieceStep(messages, i, i);
    NoPieces(messages, i);
    while j < |messages|
      invariant i < j <= |messages|
      invariant merged == AllBlocks(messages[i..j])
      invariant Span(messages[i..], messages[i].mid) == j - i + Span(messages[j..], messages[i].mid)
    {
      PieceStep(messages, i, j);
      var next := messages[j];
      if next.role != Assistant || next.mid != messages[i].mid {
        return;
      }
      merged := merged + BlocksOf(next);
      j := j + 1;
    }
    NoPieces(messages, j);
  }

  lemma NoPieces(ms: seq<Message>, i: nat)
    requires i <= |ms|
    ensures AllBlocks(ms[i..i]) == []
    ensures i == |ms| ==> forall mid :: Span(ms[i..], mid) == 0
  {
  }

  lemma PieceStep(ms: seq<Message>, i: nat, j: nat)
    requires i <= j < |ms|
    ensures AllBlocks(ms[i..j + 1]) == AllBlocks(ms[i..j]) + BlocksOf(ms[j])
    ensures Span(ms[j..], ms[i].mid) == if SamePiece(ms[j], ms[i].mid) then 1 + Span(ms[j + 1..], ms[i].mid) else 0
  {
    assert ms[i..j + 1] == ms[i..j] + [ms[j]];
    AllBlocksConcat(ms[i..j], [ms[j]]);
    assert AllBlocks([ms[j]]) == BlocksOf(ms[j]);
    assert ms[j..][1..] == ms[j + 1..];
  }

  lemma PiecesNamed(ms: seq<Message>, mid: Name)
    requires forall i :: 0 <= i < |ms| ==> SamePiece(ms[i], mid)
    requires ms != []
    ensures NamedUses(WithBlocks(ms[0], AllBlocks(ms))) <==> AllNamed(ms)
  {
    if AllNamed(ms) {
      forall b | b in AllBlocks(ms) && b.ToolUse? ensures b.id != NoName {
        InAllBlocks(ms, b);
        var i :| 0 <= i < |ms| && b in BlocksOf(ms[i]);
        assert NamedUses(ms[i]) && SamePiece(ms[i], mid);
      }
    }
    if NamedUses(WithBlocks(ms[0], AllBlocks(ms))) {
      forall i, b | 0 <= i < |ms| && b in BlocksOf(ms[i]) && b.ToolUse? ensures b.id != NoName {
        InAllBlocks(ms, b);
        assert SamePiece(ms[0], mid) && b in BlocksOf(WithBlocks(ms[0], AllBlocks(ms)));
      }
    }
  }

  /** Merging keeps every block in its place, and keeps unnamed calls visible. */
  lemma {:induction false} MergeKeepsBlocks(ms: seq<Message>)
    ensures AllBlocks(Merged(ms)) == AllBlocks(ms)
    ensures AllNamed(Merged(ms)) <==> AllNamed(ms)
    decreases |ms|
  {
    hide *;
    if ms == [] {
      MergedNil(ms);
    } else {
      var head, n := MergedHead(ms);
      MergeKeepsBlocks(ms[n..]);
      SameBlocks(head, ms[..n], Merged(ms[n..]), ms[n..]);
      assert ms[..n] + ms[n..] == ms;
    }
  }

  lemma {:induction false} SameBlocks(head: Message, first: seq<Message>, merged: seq<Message>, rest: seq<Message>)
    requires AllBlocks([head]) == AllBlocks(first) && (AllNamed([head]) <==> AllNamed(first))
    requires AllBlocks(merged) == AllBlocks(rest) && (AllNamed(merged) <==> AllNamed(rest))
    ensures AllBlocks([head] + merged) == AllBlocks(first + rest)
    ensures AllNamed([head] + merged) <==> AllNamed(first + rest)
  {
    hide *;
    AllBlocksConcat(first, rest);
    AllBlocksConcat([head], merged);
    AllNamedConcat(first, rest);
    AllNamedConcat([head], merged);
  }

  /** The first merged message stands for the first pieces. */
  lemma {:induction false} MergedHead(ms: seq<Message>) returns (head: Message, n: nat)
    requires ms != []
    ensures 0 < n <= |ms| && Merged(ms) == [head] + Merged(ms[n..])
    ensures AllBlocks([head]) == AllBlocks(ms[..n]) && (AllNamed([head]) <==> AllNamed(ms[..n]))
  {
    if ms[0].role != Assistant || ms[0].mid == NoName {
      head, n := ms[0], 1;
      assert ms[..1] == [ms[0]];
    } else {
      n := Span(ms, ms[0].mid);
      head := WithBlocks(ms[0], AllBlocks(ms[..n]));
      PiecesNamed(ms[..n], ms[0].mid);
      hide Merged, AllNamed;
      OneHead(head);
    }
  }

  lemma OneHead(m: Message)
    ensures AllBlocks([m]) == BlocksOf(m) && (AllNamed([m]) <==> NamedUses(m))
  {
    assert AllNamed([m]) <==> NamedUses([m][0]);
  }

  /** No two neighbours of a merged history are pieces of the same response. */
  lemma {:induction false} MergeIsComplete(ms: seq<Message>, i: nat)
    requires i + 1 < |Merged(ms)| && Merged(ms)[i].mid != NoName && Merged(ms)[i].role == Assistant
    ensures !SamePiece(Merged(ms)[i + 1], Merged(ms)[i].mid)
    decreases |ms|
  {
    var n := if ms[0].role != Assistant || ms[0].mid == NoName then 1 else Span(ms, ms[0].mid);
    assert Merged(ms)[1..] == Merged(ms[n..]);
    if i > 0 {
      MergeIsComplete(ms[n..], i - 1);
    } else {
      assert ms[n..] != [] && Merged(ms)[1] == Merged(ms[n..])[0];
      assert Merged(ms[n..])[0].mid == ms[n].mid && Merged(ms[n..])[0].role == ms[n].role;
    }
  }
}
