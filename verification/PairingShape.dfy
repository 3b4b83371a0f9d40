/** Where the pairing of lone calls and results puts what it makes up (agent/normalize.go). */
module PairingShape {
  import opened Prelude
  import opened Messages
  import opened RepairLaws
  import opened ToolPairings

  predicate MadeResults(bs: seq<Block>) {
    forall b :: b in bs ==> b.ToolResult? && b.content == LOST_RESULT && !b.isError
  }

  predicate MadeCalls(bs: seq<Block>) {
    forall b :: b in bs ==> b.ToolUse? && b.input == UNKNOWN_CALL
  }

  predicate Between(bs: seq<Block>, role: Role, front: seq<Block>, all: seq<Block>, back: seq<Block>) {
    && all == front + bs + back && MadeCalls(front) && MadeResults(back)
    && (front != [] ==> role == Assistant) && (back != [] ==> role == User)
  }

  /** `o` is `m` with made-up calls of an assistant before its blocks, or made-up results of a user behind. */
  ghost predicate Extends(m: Message, o: Message) {
    || o == m
    || (o == m.(content := o.content) && o.content.Blocks?
        && exists front, back :: Between(BlocksOf(m), m.role, front, o.content.blocks, back))
  }

  /** A new message that holds nothing but what was made up. */
  predicate Made(o: Message) {
    && o.mid == NoName && !o.isVirtual && o.content.Blocks?
    && if o.role == User then MadeResults(o.content.blocks) else o.role == Assistant && MadeCalls(o.content.blocks)
  }

  /** The messages of `ms`, each perhaps extended, with made-up messages in between. */
  ghost predicate Grown(ms: seq<Message>, out: seq<Message>)
    decreases |out|
  {
    if out == [] then ms == []
    else (ms != [] && Extends(ms[0], out[0]) && Grown(ms[1..], out[1..])) || (Made(out[0]) && Grown(ms, out[1..]))
  }

  /** A message with the call, and right behind it a user message with the made-up result. */
  predicate AnsweredNext(out: seq<Message>, id: Name) {
    exists i :: 0 <= i < |out| - 1 && HasUse(out[i], id) && AnswerIn(out[i + 1], id)
  }

  predicate AnswerIn(m: Message, id: Name) {
    m.role == User && ToolResult(id, LOST_RESULT, false) in BlocksOf(m)
  }

  /** A message with the result, and right before it an assistant message with the made-up call. */
  predicate CalledBefore(out: seq<Message>, id: Name) {
    exists j :: 0 <= j < |out| - 1 && CallIn(out[j], id) && HasResult(out[j + 1], id)
  }

  predicate CallIn(m: Message, id: Name) {
    m.role == Assistant && ToolUse(id, UNKNOWN_CALL) in BlocksOf(m)
  }

  /** What the repair has made of `ms` so far. */
  ghost predicate Shaped(ms: seq<Message>, out: seq<Message>, answered: set<Name>, named: set<Name>) {
    && Grown(ms, out)
    && (AllProper(ms) ==>
          && AllProper(out)
          && (forall id :: id in answered ==> AnsweredNext(out, id))
          && (forall id :: id in named ==> CalledBefore(out, id)))
  }

  // ----- Growing -----

  lemma {:induction false} GrownItself(ms: seq<Message>)
    ensures Grown(ms, ms)
  {
    if ms != [] {
      GrownItself(ms[1..]);
    }
  }

  /** `o` may stand wherever `p` stands. */
  ghost predicate Replaces(p: Message, o: Message) {
    (forall m :: Extends(m, p) ==> Extends(m, o)) && (Made(p) ==> Made(o))
  }

  lemma {:induction false} GrownUpdate(ms: seq<Message>, out: seq<Message>, k: nat, o: Message)
    requires Grown(ms, out) && k < |out| && Replaces(out[k], o)
    ensures Grown(ms, out[k := o])
    decreases |out|
  {
    hide Extends, Made;
    if k == 0 {
      assert out[0 := o][1..] == out[1..];
    } else {
      assert out[k := o][0] == out[0] && out[k := o][1..] == out[1..][k - 1 := o];
      if Made(out[0]) && Grown(ms, out[1..]) {
        GrownUpdate(ms, out[1..], k - 1, o);
      } else {
        GrownUpdate(ms[1..], out[1..], k - 1, o);
      }
    }
  }

  lemma {:induction false} GrownInsert(ms: seq<Message>, out: seq<Message>, k: nat, o: Message)
    requires Grown(ms, out) && k <= |out| && Made(o)
    ensures Grown(ms, out[..k] + [o] + out[k..])
    decreases |out|
  {
    hide Extends, Made;
    var all := out[..k] + [o] + out[k..];
    if k == 0 {
      assert all[0] == o && all[1..] == out;
    } else {
      assert all[0] == out[0] && all[1..] == out[1..][..k - 1] + [o] + out[1..][k - 1..];
      if Made(out[0]) && Grown(ms, out[1..]) {
        GrownInsert(ms, out[1..], k - 1, o);
      } else {
        GrownInsert(ms[1..], out[1..], k - 1, o);
      }
    }
  }

  lemma {:induction false} ResultReplaces(p: Message, id: Name)
    requires p.role == User
    ensures Replaces(p, WithBlocks(p, BlocksOf(p) + [ToolResult(id, LOST_RESULT, false)]))
  {
    var r := ToolResult(id, LOST_RESULT, false);
    var o := WithBlocks(p, BlocksOf(p) + [r]);
    forall m | Extends(m, p) ensures Extends(m, o) {
      if p == m {
        assert Between(BlocksOf(m), m.role, [], o.content.blocks, [r]);
      } else {
        var front, back :| Between(BlocksOf(m), m.role, front, p.content.blocks, back);
        assert front + BlocksOf(m) + back + [r] == front + BlocksOf(m) + (back + [r]);
        assert Between(BlocksOf(m), m.role, front, o.content.blocks, back + [r]);
      }
    }
  }

  lemma {:induction false} CallReplaces(p: Message, id: Name)
    requires p.role == Assistant
    ensures Replaces(p, WithBlocks(p, [ToolUse(id, UNKNOWN_CALL)] + BlocksOf(p)))
  {
    var u := ToolUse(id, UNKNOWN_CALL);
    var o := WithBlocks(p, [u] + BlocksOf(p));
    forall m | Extends(m, p) ensures Extends(m, o) {
      if p == m {
        assert [u] + BlocksOf(m) + [] == [u] + BlocksOf(m);
        assert Between(BlocksOf(m), m.role, [u], o.content.blocks, []);
      } else {
        var front, back :| Between(BlocksOf(m), m.role, front, p.content.blocks, back);
        assert [u] + (front + BlocksOf(m) + back) == ([u] + front) + BlocksOf(m) + back;
        assert Between(BlocksOf(m), m.role, [u] + front, o.content.blocks, back);
      }
    }
  }

  // ----- Neighbours -----

  /** `o` has the role of `p` and all its blocks. */
  predicate Covers(p: Message, o: Message) {
    o.role == p.role && forall b :: b in BlocksOf(p) ==> b in BlocksOf(o)
  }

  lemma CoversKeeps(p: Message, o: Message, id: Name)
    requires Covers(p, o)
    ensures (HasUse(p, id) ==> HasUse(o, id)) && (HasResult(p, id) ==> HasResult(o, id))
    ensures (AnswerIn(p, id) ==> AnswerIn(o, id)) && (CallIn(p, id) ==> CallIn(o, id))
  {
  }

  lemma {:induction false} NeighboursUpdate(out: seq<Message>, k: nat, o: Message, id: Name)
    requires k < |out| && Covers(out[k], o)
    ensures AnsweredNext(out, id) ==> AnsweredNext(out[k := o], id)
    ensures CalledBefore(out, id) ==> CalledBefore(out[k := o], id)
  {
    hide Covers, HasUse, HasResult, AnswerIn, CallIn;
    var all := out[k := o];
    if AnsweredNext(out, id) {
      var i :| 0 <= i < |out| - 1 && HasUse(out[i], id) && AnswerIn(out[i + 1], id);
      StillThere(out, k, o, i, id);
      StillThere(out, k, o, i + 1, id);
      assert HasUse(all[i], id) && AnswerIn(all[i + 1], id);
    }
    if CalledBefore(out, id) {
      var j :| 0 <= j < |out| - 1 && CallIn(out[j], id) && HasResult(out[j + 1], id);
      StillThere(out, k, o, j, id);
      StillThere(out, k, o, j + 1, id);
      assert CallIn(all[j], id) && HasResult(all[j + 1], id);
    }
  }

  lemma {:induction false} StillThere(out: seq<Message>, k: nat, o: Message, i: nat, id: Name)
    requires k < |out| && i < |out| && Covers(out[k], o)
    ensures var m := out[k := o][i];
            && (HasUse(out[i], id) ==> HasUse(m, id)) && (HasResult(out[i], id) ==> HasResult(m, id))
            && (AnswerIn(out[i], id) ==> AnswerIn(m, id)) && (CallIn(out[i], id) ==> CallIn(m, id))
  {
    CoversKeeps(out[k], o, id);
    hide Covers, HasUse, HasResult, AnswerIn, CallIn;
  }

  lemma ProperRoles(m: Message, id: Name)
    requires Proper(m)
    ensures HasUse(m, id) ==> m.role == Assistant
    ensures HasResult(m, id) ==> m.role == User
  {
  }

  /** A new message comes between two neighbours only where they do not pair up. */
  lemma StayNeighbours(out: seq<Message>, k: nat, o: Message, i: nat) returns (n: nat)
    requires k <= |out| && i + 1 < |out| && out[i].role == Assistant && out[i + 1].role == User
    requires 0 < k < |out| ==> !(out[k - 1].role == Assistant && out[k].role == User)
    ensures var all := out[..k] + [o] + out[k..]; n + 1 < |all| && all[n] == out[i] && all[n + 1] == out[i + 1]
  {
    var all := out[..k] + [o] + out[k..];
    assert k != i + 1;
    if i < k {
      n := i;
      assert all[i] == out[i] && all[i + 1] == out[i + 1];
    } else {
      n := i + 1;
      assert all[i + 1] == out[i] && all[i + 2] == out[i + 1];
    }
  }

  lemma {:induction false} NeighboursInsert(out: seq<Message>, k: nat, o: Message, id: Name)
    requires k <= |out| && AllProper(out)
    requires 0 < k < |out| ==> !(out[k - 1].role == Assistant && out[k].role == User)
    ensures AnsweredNext(out, id) ==> AnsweredNext(out[..k] + [o] + out[k..], id)
    ensures CalledBefore(out, id) ==> CalledBefore(out[..k] + [o] + out[k..], id)
  {
    var all := out[..k] + [o] + out[k..];
    if AnsweredNext(out, id) {
      var i :| 0 <= i < |out| - 1 && HasUse(out[i], id) && AnswerIn(out[i + 1], id);
      ProperRoles(out[i], id);
      var n := StayNeighbours(out, k, o, i);
      hide Proper, HasUse, AnswerIn;
      assert HasUse(all[n], id) && AnswerIn(all[n + 1], id);
    }
    if CalledBefore(out, id) {
      var j :| 0 <= j < |out| - 1 && CallIn(out[j], id) && HasResult(out[j + 1], id);
      ProperRoles(out[j + 1], id);
      var n := StayNeighbours(out, k, o, j);
      hide Proper, HasResult, CallIn;
      assert CallIn(all[n], id) && HasResult(all[n + 1], id);
    }
  }

  // ----- The two repairs -----

  lemma {:induction false} ProperInsert(out: seq<Message>, k: nat, o: Message)
    requires k <= |out| && AllProper(out) && Proper(o)
    ensures AllProper(out[..k] + [o] + out[k..])
  {
    hide Proper;
  }

  lemma {:induction false} ShapeUpdate(ms: seq<Message>, out: seq<Message>, answered: set<Name>, named: set<Name>,
      k: nat, o: Message)
    requires Shaped(ms, out, answered, named) && k < |out|
    requires Replaces(out[k], o) && Covers(out[k], o) && (Proper(out[k]) ==> Proper(o))
    ensures Shaped(ms, out[k := o], answered, named)
  {
    hide Grown, AnsweredNext, CalledBefore, Replaces, Covers, Proper;
    GrownUpdate(ms, out, k, o);
    forall x
      ensures AnsweredNext(out, x) ==> AnsweredNext(out[k := o], x)
      ensures CalledBefore(out, x) ==> CalledBefore(out[k := o], x)
    {
      NeighboursUpdate(out, k, o, x);
    }
  }

  lemma {:induction false} ShapeInsert(ms: seq<Message>, out: seq<Message>, answered: set<Name>, named: set<Name>,
      k: nat, o: Message)
    requires Shaped(ms, out, answered, named) && k <= |out| && Made(o) && Proper(o)
    requires 0 < k < |out| ==> !(out[k - 1].role == Assistant && out[k].role == User)
    ensures Shaped(ms, out[..k] + [o] + out[k..], answered, named)
  {
    hide Grown, AnsweredNext, CalledBefore, Made, Proper, AllProper;
    var all := out[..k] + [o] + out[k..];
    GrownInsert(ms, out, k, o);
    if AllProper(ms) {
      ProperInsert(out, k, o);
      forall x
        ensures AnsweredNext(out, x) ==> AnsweredNext(all, x)
        ensures CalledBefore(out, x) ==> CalledBefore(all, x)
      {
        NeighboursInsert(out, k, o, x);
      }
    }
  }

  lemma ShapeAdds(ms: seq<Message>, out: seq<Message>, answered: set<Name>, named: set<Name>, id: Name)
    requires Shaped(ms, out, answered, named)
    ensures AnsweredNext(out, id) ==> Shaped(ms, out, answered + {id}, named)
    ensures CalledBefore(out, id) ==> Shaped(ms, out, answered, named + {id})
  {
  }

  lemma AnsweredHere(out: seq<Message>, id: Name, i: nat)
    requires i + 1 < |out| && HasUse(out[i], id) && AnswerIn(out[i + 1], id)
    ensures AnsweredNext(out, id)
  {
  }

  lemma CalledHere(out: seq<Message>, id: Name, j: nat)
    requires j + 1 < |out| && CallIn(out[j], id) && HasResult(out[j + 1], id)
    ensures CalledBefore(out, id)
  {
  }

  /** Adding a result behind message `idx`, which makes the call. */
  lemma {:induction false} ShapeAnswer(ms: seq<Message>, out: seq<Message>, answered: set<Name>, named: set<Name>,
      id: Name, idx: nat)
    requires Shaped(ms, out, answered, named) && idx < |out| && HasUse(out[idx], id)
    ensures Shaped(ms, InjectResultAfter(out, idx, LostResult(id)), answered + {id}, named)
  {
    hide Shaped, Replaces;
    var r, all := LostResult(id), InjectResultAfter(out, idx, LostResult(id));
    if idx + 1 < |out| && out[idx + 1].role == User {
      ResultReplaces(out[idx + 1], id);
      ShapeUpdate(ms, out, answered, named, idx + 1, WithBlocks(out[idx + 1], BlocksOf(out[idx + 1]) + [r]));
    } else {
      ShapeInsert(ms, out, answered, named, idx + 1, Message(User, NoName, false, Blocks([r])));
    }
    AnsweredHere(all, id, idx);
    ShapeAdds(ms, all, answered, named, id);
  }

  /** Adding a call before message `idx`, which holds the result. */
  lemma {:induction false} ShapeName(ms: seq<Message>, out: seq<Message>, answered: set<Name>, named: set<Name>,
      id: Name, idx: nat)
    requires Shaped(ms, out, answered, named) && idx < |out| && HasResult(out[idx], id)
    ensures Shaped(ms, InjectUseBefore(out, idx, UnknownCall(id)), answered, named + {id})
  {
    hide Shaped, Replaces;
    var u, all := UnknownCall(id), InjectUseBefore(out, idx, UnknownCall(id));
    if idx > 0 && out[idx - 1].role == Assistant {
      CallReplaces(out[idx - 1], id);
      ShapeUpdate(ms, out, answered, named, idx - 1, WithBlocks(out[idx - 1], [u] + BlocksOf(out[idx - 1])));
      CalledHere(all, id, idx - 1);
    } else {
      ShapeInsert(ms, out, answered, named, idx, Message(Assistant, NoName, false, Blocks([u])));
      CalledHere(all, id, idx);
    }
    ShapeAdds(ms, all, answered, named, id);
  }

  lemma {:induction false} ShapeStarts(ms: seq<Message>)
    ensures Shaped(ms, ms, {}, {})
  {
    GrownItself(ms);
  }
}
