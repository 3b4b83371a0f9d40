/** Adding a result behind a lone call, and a call before a lone result (agent/normalize.go). */
module ToolPairings {
  import opened Prelude
  import opened Messages
  import opened Normalize

  const LOST_RESULT: Text := 3
  const UNKNOWN_CALL: Text := 4

  predicate HasUse(m: Message, id: Name) {
    exists b :: b in BlocksOf(m) && b.ToolUse? && b.id == id
  }

  predicate HasResult(m: Message, id: Name) {
    exists b :: b in BlocksOf(m) && b.ToolResult? && b.id == id
  }

  /** Adds a result right after message `idx`: into a following user message, or into a new one. */
  function InjectResultAfter(ms: seq<Message>, idx: nat, r: Block): (out: seq<Message>)
    requires idx < |ms|
  {
    if idx + 1 < |ms| && ms[idx + 1].role == User
    then ms[idx + 1 := WithBlocks(ms[idx + 1], BlocksOf(ms[idx + 1]) + [r])]
    else ms[..idx + 1] + [Message(User, NoName, false, Blocks([r]))] + ms[idx + 1..]
  }

  /** Adds a call right before message `idx`: into a preceding assistant message, or into a new one. */
  function InjectUseBefore(ms: seq<Message>, idx: nat, u: Block): (out: seq<Message>)
    requires idx < |ms|
  {
    if idx > 0 && ms[idx - 1].role == Assistant
    then ms[idx - 1 := WithBlocks(ms[idx - 1], [u] + BlocksOf(ms[idx - 1]))]
    else ms[..idx] + [Message(Assistant, NoName, false, Blocks([u]))] + ms[idx..]
  }

  lemma {:induction false} BlocksSplit(ms: seq<Message>, i: nat, j: nat)
    requires i <= j <= |ms|
    ensures AllBlocks(ms) == AllBlocks(ms[..i]) + AllBlocks(ms[i..j]) + AllBlocks(ms[j..])
  {
    hide AllBlocks;
    assert ms == ms[..j] + ms[j..] && ms[..j] == ms[..i] + ms[i..j];
    AllBlocksConcat(ms[..j], ms[j..]);
    AllBlocksConcat(ms[..i], ms[i..j]);
  }

  lemma SpliceBlocks(ms: seq<Message>, i: nat, j: nat, m: Message)
    requires i <= j <= |ms|
    ensures AllBlocks(ms[..i] + [m] + ms[j..]) == AllBlocks(ms[..i]) + BlocksOf(m) + AllBlocks(ms[j..])
  {
    AllBlocksConcat(ms[..i] + [m], ms[j..]);
    AllBlocksConcat(ms[..i], [m]);
    assert AllBlocks([m]) == BlocksOf(m);
  }

  lemma {:induction false} ThreeNames(a: seq<Block>, b: seq<Block>, c: seq<Block>)
    ensures UseNames(a + b + c) == UseNames(a) + UseNames(b) + UseNames(c)
    ensures ResultNames(a + b + c) == ResultNames(a) + ResultNames(b) + ResultNames(c)
  {
    hide UseNames, ResultNames;
    NamesConcat(a + b, c);
    NamesConcat(a, b);
  }

  /** Replacing the `i..j` part of a history by one message that carries exactly one more block. */
  lemma {:induction false} SpliceNames(ms: seq<Message>, i: nat, j: nat, m: Message, b: Block)
    requires i <= j <= |ms|
    requires BlocksOf(m) == AllBlocks(ms[i..j]) + [b] || BlocksOf(m) == [b] + AllBlocks(ms[i..j])
    ensures var out := ms[..i] + [m] + ms[j..];
            && UseNames(AllBlocks(out)) == UseNames(AllBlocks(ms)) + UseNames([b])
            && ResultNames(AllBlocks(out)) == ResultNames(AllBlocks(ms)) + ResultNames([b])
  {
    hide UseNames, ResultNames, AllBlocks;
    var x, y, z := AllBlocks(ms[..i]), AllBlocks(ms[i..j]), AllBlocks(ms[j..]);
    BlocksSplit(ms, i, j);
    SpliceBlocks(ms, i, j, m);
    ThreeNames(x, y, z);
    ThreeNames(x, BlocksOf(m), z);
    NamesConcat(y, [b]);
    NamesConcat([b], y);
  }

  lemma SpliceNamed(ms: seq<Message>, i: nat, j: nat, m: Message)
    requires i <= j <= |ms|
    requires NamedUses(m) <==> AllNamed(ms[i..j])
    ensures AllNamed(ms[..i] + [m] + ms[j..]) <==> AllNamed(ms)
  {
    assert ms == ms[..i] + ms[i..j] + ms[j..];
    AllNamedConcat(ms[..i] + ms[i..j], ms[j..]);
    AllNamedConcat(ms[..i], ms[i..j]);
    AllNamedConcat(ms[..i] + [m], ms[j..]);
    AllNamedConcat(ms[..i], [m]);
    assert AllNamed([m]) <==> NamedUses([m][0]);
  }

  lemma {:induction false} InjectResultEffect(ms: seq<Message>, idx: nat, r: Block)
    requires idx < |ms| && r.ToolResult?
    ensures var out := InjectResultAfter(ms, idx, r);
            && UseNames(AllBlocks(out)) == UseNames(AllBlocks(ms))
            && ResultNames(AllBlocks(out)) == ResultNames(AllBlocks(ms)) + ResultNames([r])
            && (AllNamed(out) <==> AllNamed(ms))
  {
    hide AllNamed, NamedUses, ResultNames, AllBlocks;
    var k := idx + 1;
    assert UseNames([r]) == {};
    if k < |ms| && ms[k].role == User {
      var m := WithBlocks(ms[k], BlocksOf(ms[k]) + [r]);
      OneMessage(ms, k);
      assert ms[k := m] == ms[..k] + [m] + ms[k + 1..];
      UserIsNamed(m);
      UserIsNamed(ms[k]);
      InjectAt(ms, k, k + 1, m, r);
    } else {
      var m := Message(User, NoName, false, Blocks([r]));
      NoMessage(ms, k);
      UserIsNamed(m);
      InjectAt(ms, k, k, m, r);
    }
  }

  lemma OneMessage(ms: seq<Message>, k: nat)
    requires k < |ms|
    ensures ms[k..k + 1] == [ms[k]] && AllBlocks(ms[k..k + 1]) == BlocksOf(ms[k])
  {
  }

  lemma NoMessage(ms: seq<Message>, k: nat)
    requires k <= |ms|
    ensures AllBlocks(ms[k..k]) == [] && AllNamed(ms[k..k])
  {
  }

  lemma {:induction false} InjectAt(ms: seq<Message>, i: nat, j: nat, m: Message, b: Block)
    requires i <= j <= |ms|
    requires BlocksOf(m) == AllBlocks(ms[i..j]) + [b] || BlocksOf(m) == [b] + AllBlocks(ms[i..j])
    requires NamedUses(m) <==> AllNamed(ms[i..j])
    ensures var out := ms[..i] + [m] + ms[j..];
            && UseNames(AllBlocks(out)) == UseNames(AllBlocks(ms)) + UseNames([b])
            && ResultNames(AllBlocks(out)) == ResultNames(AllBlocks(ms)) + ResultNames([b])
            && (AllNamed(out) <==> AllNamed(ms))
  {
    hide AllNamed, NamedUses, UseNames, ResultNames, AllBlocks;
    SpliceNames(ms, i, j, m, b);
    SpliceNamed(ms, i, j, m);
  }

  /** `b` is `a` with the block `x` inserted between `p` and `s`. */
  ghost predicate IsInsertion(a: seq<Block>, b: seq<Block>, p: seq<Block>, s: seq<Block>, x: Block) {
    a == p + s && b == p + [x] + s
  }

  /** Splicing a message with one more block inserts exactly that block. */
  lemma {:induction false} SpliceInserts(ms: seq<Message>, i: nat, j: nat, m: Message, b: Block)
    requires i <= j <= |ms|
    requires BlocksOf(m) == AllBlocks(ms[i..j]) + [b] || BlocksOf(m) == [b] + AllBlocks(ms[i..j])
    ensures exists p, s :: IsInsertion(AllBlocks(ms), AllBlocks(ms[..i] + [m] + ms[j..]), p, s, b)
  {
    hide AllBlocks, BlocksOf;
    var x, y, z := AllBlocks(ms[..i]), AllBlocks(ms[i..j]), AllBlocks(ms[j..]);
    BlocksSplit(ms, i, j);
    SpliceBlocks(ms, i, j, m);
    if BlocksOf(m) == y + [b] {
      assert x + (y + [b]) + z == (x + y) + [b] + z;
      assert IsInsertion(AllBlocks(ms), AllBlocks(ms[..i] + [m] + ms[j..]), x + y, z, b);
    } else {
      assert x + y + z == x + (y + z) && x + ([b] + y) + z == x + [b] + (y + z);
      assert IsInsertion(AllBlocks(ms), AllBlocks(ms[..i] + [m] + ms[j..]), x, y + z, b);
    }
  }

  lemma {:induction false} InjectResultInserts(ms: seq<Message>, idx: nat, r: Block)
    requires idx < |ms| && r.ToolResult?
    ensures exists p, s :: IsInsertion(AllBlocks(ms), AllBlocks(InjectResultAfter(ms, idx, r)), p, s, r)
  {
    hide AllBlocks, IsInsertion;
    var k := idx + 1;
    if k < |ms| && ms[k].role == User {
      var m := WithBlocks(ms[k], BlocksOf(ms[k]) + [r]);
      OneMessage(ms, k);
      SpliceInserts(ms, k, k + 1, m, r);
      assert InjectResultAfter(ms, idx, r) == ms[..k] + [m] + ms[k + 1..];
    } else {
      var m := Message(User, NoName, false, Blocks([r]));
      NoMessage(ms, k);
      assert BlocksOf(m) == [r] && AllBlocks(ms[k..k]) + [r] == [r];
      SpliceInserts(ms, k, k, m, r);
      assert InjectResultAfter(ms, idx, r) == ms[..k] + [m] + ms[k..];
    }
  }

  lemma {:induction false} InjectUseInserts(ms: seq<Message>, idx: nat, u: Block)
    requires idx < |ms| && u.ToolUse?
    ensures exists p, s :: IsInsertion(AllBlocks(ms), AllBlocks(InjectUseBefore(ms, idx, u)), p, s, u)
  {
    hide AllBlocks, IsInsertion;
    if idx > 0 && ms[idx - 1].role == Assistant {
      var k := idx - 1;
      var m := WithBlocks(ms[k], [u] + BlocksOf(ms[k]));
      OneMessage(ms, k);
      SpliceInserts(ms, k, k + 1, m, u);
      assert InjectUseBefore(ms, idx, u) == ms[..k] + [m] + ms[k + 1..];
    } else {
      var m := Message(Assistant, NoName, false, Blocks([u]));
      NoMessage(ms, idx);
      assert BlocksOf(m) == [u] && AllBlocks(ms[idx..idx]) + [u] == [u];
      SpliceInserts(ms, idx, idx, m, u);
      assert InjectUseBefore(ms, idx, u) == ms[..idx] + [m] + ms[idx..];
    }
  }

  /** What an insertion does to the multiset of blocks and to the blocks that are no results. */
  lemma {:induction false} InsertionEffect(a: seq<Block>, b: seq<Block>, x: Block)
    requires exists p, s :: IsInsertion(a, b, p, s, x)
    ensures multiset(b) == multiset(a) + multiset{x}
    ensures x.ToolResult? ==> NonResults(b) == NonResults(a)
    ensures forall c :: InOrder(c, NonResults(a)) ==> InOrder(c, NonResults(b))
  {
    var p, s :| IsInsertion(a, b, p, s, x);
    NonResultsConcat(p, s);
    NonResultsConcat(p + [x], s);
    NonResultsConcat(p, [x]);
    assert NonResults([x]) == if x.ToolResult? then [] else [x];
    hide NonResults;
    assert NonResults(p) + [] == NonResults(p);
    forall c | InOrder(c, NonResults(a)) ensures InOrder(c, NonResults(b)) {
      InOrderInsert(c, NonResults(p), NonResults([x]), NonResults(s));
    }
  }

  function LostResult(id: Name): (b: Block) {
    ToolResult(id, LOST_RESULT, false)
  }

  function UnknownCall(id: Name): (b: Block) {
    ToolUse(id, UNKNOWN_CALL)
  }

  function LostResults(ids: set<Name>): (s: set<Block>) {
    set id | id in ids :: LostResult(id)
  }

  function UnknownCalls(ids: set<Name>): (s: set<Block>) {
    set id | id in ids :: UnknownCall(id)
  }

  lemma OneLostResult(done: set<Name>, id: Name)
    requires id !in done
    ensures multiset(LostResults(done + {id})) == multiset(LostResults(done)) + multiset{LostResult(id)}
  {
    assert LostResults(done + {id}) == LostResults(done) + {LostResult(id)};
    assert LostResult(id) !in LostResults(done);
  }

  lemma OneUnknownCall(done: set<Name>, id: Name)
    requires id !in done
    ensures multiset(UnknownCalls(done + {id})) == multiset(UnknownCalls(done)) + multiset{UnknownCall(id)}
  {
    assert UnknownCalls(done + {id}) == UnknownCalls(done) + {UnknownCall(id)};
    assert UnknownCall(id) !in UnknownCalls(done);
  }

  lemma UserIsNamed(m: Message)
    requires m.role == User
    ensures NamedUses(m) && AllNamed([m])
  {
  }

  lemma {:induction false} InjectUseEffect(ms: seq<Message>, idx: nat, u: Block)
    requires idx < |ms| && u.ToolUse? && u.id != NoName
    ensures var out := InjectUseBefore(ms, idx, u);
            && UseNames(AllBlocks(out)) == UseNames(AllBlocks(ms)) + {u.id}
            && ResultNames(AllBlocks(out)) == ResultNames(AllBlocks(ms))
            && (AllNamed(out) <==> AllNamed(ms))
  {
    hide AllNamed, NamedUses, AllBlocks;
    assert UseNames([u]) == {u.id} && ResultNames([u]) == {};
    hide UseNames, ResultNames;
    if idx > 0 && ms[idx - 1].role == Assistant {
      var k := idx - 1;
      var m := WithBlocks(ms[k], [u] + BlocksOf(ms[k]));
      OneMessage(ms, k);
      assert ms[k := m] == ms[..k] + [m] + ms[k + 1..];
      NamedUsePrepended(ms[k], u);
      InjectAt(ms, k, k + 1, m, u);
    } else {
      var m := Message(Assistant, NoName, false, Blocks([u]));
      NoMessage(ms, idx);
      NamedUseAlone(m, u);
      InjectAt(ms, idx, idx, m, u);
    }
  }

  lemma NamedUsePrepended(m: Message, u: Block)
    requires u.ToolUse? && u.id != NoName
    ensures NamedUses(WithBlocks(m, [u] + BlocksOf(m))) <==> AllNamed([m])
  {
    var bs := [u] + BlocksOf(m);
    assert AllNamed([m]) <==> NamedUses([m][0]);
    assert forall b :: b in bs <==> b == u || b in BlocksOf(m);
  }

  lemma NamedUseAlone(m: Message, u: Block)
    requires u.ToolUse? && u.id != NoName && BlocksOf(m) == [u]
    ensures NamedUses(m)
  {
  }
}
