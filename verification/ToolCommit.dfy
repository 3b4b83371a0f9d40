/** From buffered results to the committed tool-result message
    (agent/tools_executor.go, agent/messages.go, agent/loop.go). */
module ToolCommit {
  import opened Prelude
  import opened ToolExecutor

  function Ids(rs: seq<ToolResult>): (r: seq<Name>) {
    seq(|rs|, i requires 0 <= i < |rs| => rs[i].id)
  }

  /** Keep the first result of every named call; unnamed entries are always kept. */
  function Deduped(rs: seq<ToolResult>): (r: seq<ToolResult>) {
    if rs == [] then []
    else
      var front, last := rs[..|rs| - 1], rs[|rs| - 1];
      Deduped(front) + if last.id != NoName && last.id in Ids(front) then [] else [last]
  }

  /** The loop that builds the message content. */
  method DedupeResults(toolResults: seq<ToolResult>) returns (deduped: seq<ToolResult>)
    ensures deduped == Deduped(toolResults)
  {
    var seen: set<Name> := {};
    deduped := [];
    for i := 0 to |toolResults|
      invariant deduped == Deduped(toolResults[..i])
      invariant forall id :: id in seen <==> id != NoName && id in Ids(toolResults[..i])
    {
      var r := toolResults[i];
      assert toolResults[..i + 1] == toolResults[..i] + [r];
      assert toolResults[..i + 1][..i] == toolResults[..i];
      IdsSnoc(toolResults[..i], r);
      if r.id != NoName {
        if r.id in seen {
          continue;
        }
        seen := seen + {r.id};
      }
      deduped := deduped + [r];
    }
    assert toolResults[..|toolResults|] == toolResults;
  }

  lemma IdsSnoc(rs: seq<ToolResult>, r: ToolResult)
    ensures Ids(rs + [r]) == Ids(rs) + [r.id]
  {
  }

  lemma DedupedSnoc(rs: seq<ToolResult>, r: ToolResult)
    ensures Deduped(rs + [r]) == Deduped(rs) + if r.id != NoName && r.id in Ids(rs) then [] else [r]
  {
    assert (rs + [r])[..|rs|] == rs;
  }

  /** Dropping later repeats loses no call. */
  lemma {:induction false} DedupedKeepsIds(rs: seq<ToolResult>, id: Name)
    ensures id in Ids(Deduped(rs)) <==> id in Ids(rs)
  {
    if rs != [] {
      var front, last := rs[..|rs| - 1], rs[|rs| - 1];
      assert rs == front + [last];
      DedupedKeepsIds(front, id);
      DedupedSnoc(front, last);
      IdsSnoc(front, last);
      IdsSnoc(Deduped(front), last);
      if last.id != NoName && last.id in Ids(front) {
        assert Ids(Deduped(rs)) == Ids(Deduped(front));
      }
    }
  }

  /** The calls named by what has been handed over, once `k` buffered slots are read as well. */
  ghost function Named(m: Machine, k: nat): seq<Name>
    requires k <= |m.x.order|
  {
    Ids(Deduped(m.collected + Buffered(m.x, k)))
  }

  predicate Unread(x: Shared, id: Name) {
    id in x.slots && x.slots[id].state != Yielded && x.slots[id].result.Some?
  }

  /** Reading one more slot adds that call's name, unless it was named before. */
  lemma NamedStep(m: Machine, k: nat)
    requires WellFormed(m.x) && 0 < k <= |m.x.order|
    ensures var id := m.x.order[k - 1];
            Named(m, k) == Named(m, k - 1) + if Unread(m.x, id) && id !in Named(m, k - 1) then [id] else []
  {
    var id := m.x.order[k - 1];
    var before := m.collected + Buffered(m.x, k - 1);
    assert SlotOk(m.x, id, m.x.slots[id]);
    if Unread(m.x, id) {
      var r := m.x.slots[id].result.value;
      assert m.collected + Buffered(m.x, k) == before + [r];
      DedupedSnoc(before, r);
      DedupedKeepsIds(before, id);
      IdsSnoc(Deduped(before), r);
    } else {
      assert m.collected + Buffered(m.x, k) == before;
    }
  }

  /** What the caller has received so far is, after dropping repeats, exactly the results of a
      leading segment of the calls, one each and in call order. */
  ghost predicate Released(m: Machine) {
    && SchedulerInv(m)
    && |Deduped(m.collected)| <= |m.x.order|
    && Ids(Deduped(m.collected)) == m.x.order[..|Deduped(m.collected)|]
    && (forall i :: 0 <= i < |Deduped(m.collected)| ==> Done(m.x, m.x.order[i]))
    && (forall id :: id in m.x.slots && m.x.slots[id].state == Yielded
          ==> m.x.slots[id].at < |Deduped(m.collected)|)
  }

  /** Repeats of calls already released vanish. */
  lemma {:induction false} RepeatsVanish(m: Machine, k: nat)
    requires Released(m) && k <= |Deduped(m.collected)|
    ensures Named(m, k) == m.x.order[..|Deduped(m.collected)|]
  {
    if k == 0 {
      assert m.collected + Buffered(m.x, 0) == m.collected;
    } else {
      RepeatsVanish(m, k - 1);
      NamedStep(m, k);
      assert m.x.order[..|Deduped(m.collected)|][k - 1] == m.x.order[k - 1];
    }
  }

  lemma OrderIsDistinct(x: Shared)
    requires WellFormed(x)
    ensures Distinct(x.order)
  {
  }

  lemma OrderSplit(x: Shared, k: nat)
    requires WellFormed(x) && 0 < k <= |x.order|
    ensures x.order[..k] == x.order[..k - 1] + [x.order[k - 1]] && x.order[k - 1] !in x.order[..k - 1]
  {
    OrderIsDistinct(x);
  }

  /** Whatever is read behind the released calls lands in call order... */
  lemma {:induction false} NamedInOrder(m: Machine, k: nat)
    requires Released(m) && |Deduped(m.collected)| <= k <= |m.x.order|
    ensures Subsequence(Named(m, k), m.x.order[..k])
    decreases k
  {
    hide Deduped, Named, Subsequence, Unread;
    var n := |Deduped(m.collected)|;
    if k == n {
      RepeatsVanish(m, n);
      SubsequenceRefl(m.x.order[..n]);
    } else {
      NamedInOrder(m, k - 1);
      NamedStep(m, k);
      OrderSplit(m.x, k);
      SubsequenceGrow(Named(m, k - 1), m.x.order[..k - 1], m.x.order[k - 1]);
      assert Named(m, k) == Named(m, k - 1) + [m.x.order[k - 1]] || Named(m, k) == Named(m, k - 1);
    }
  }

  /** ...nothing that is ready gets lost... */
  lemma {:induction false} NamedIsComplete(m: Machine, k: nat, i: nat)
    requires Released(m) && |Deduped(m.collected)| <= k <= |m.x.order| && i < k
    requires m.x.order[i] in m.x.slots && Terminal(m.x.slots[m.x.order[i]].state)
    ensures m.x.order[i] in Named(m, k)
    decreases k
  {
    hide Deduped, Named, SchedulerInv;
    var n := |Deduped(m.collected)|;
    assert WellFormed(m.x) by { ReleasedIsWellFormed(m); }
    if k == n {
      RepeatsVanish(m, n);
      assert m.x.order[..n][i] == m.x.order[i];
    } else {
      NamedStep(m, k);
      if i < k - 1 {
        NamedIsComplete(m, k - 1, i);
      } else {
        assert SlotOk(m.x, m.x.order[i], m.x.slots[m.x.order[i]]);
      }
    }
  }

  lemma ReleasedIsWellFormed(m: Machine)
    requires Released(m)
    ensures WellFormed(m.x)
  {
  }

  /** ...and a leading segment of terminal calls is named without a gap. */
  lemma {:induction false} NamedIsExact(m: Machine, k: nat)
    requires Released(m) && |Deduped(m.collected)| <= k <= |m.x.order|
    requires forall i :: 0 <= i < k ==> Done(m.x, m.x.order[i])
    ensures Named(m, k) == m.x.order[..k]
    decreases k
  {
    hide Deduped, Named, SchedulerInv;
    var n := |Deduped(m.collected)|;
    ReleasedIsWellFormed(m);
    if k == n {
      RepeatsVanish(m, n);
    } else {
      var id := m.x.order[k - 1];
      NamedIsExact(m, k - 1);
      NamedStep(m, k);
      OrderSplit(m.x, k);
      assert Done(m.x, id) && SlotOk(m.x, id, m.x.slots[id]);
    }
  }

  lemma {:induction false} CollectReleases(m: Machine)
    requires Released(m)
    ensures Released(Apply(m, Collect))
  {
    hide Deduped, SchedulerInv, Done;
    var k := FirstPending(m.x);
    StepKeepsScheduler(m, Collect) by { ReleasedKeepsInv(m); }
    ReleasedBelow(m, k);
    NamedIsExact(m, k);
    var r := Apply(m, Collect);
    assert Ids(Deduped(r.collected)) == m.x.order[..k];
    assert |Deduped(r.collected)| == k;
    forall i | 0 <= i < k ensures Done(r.x, r.x.order[i]) {
      assert Done(m.x, m.x.order[i]);
      YieldKeepsDone(m.x, k, i);
    }
    forall id | id in r.x.slots && r.x.slots[id].state == Yielded ensures r.x.slots[id].at < k {
    }
  }

  lemma ReleasedKeepsInv(m: Machine)
    requires Released(m)
    ensures SchedulerInv(m)
  {
  }

  lemma {:induction false} ReleasedBelow(m: Machine, k: nat)
    requires Released(m) && k == FirstPending(m.x)
    ensures |Deduped(m.collected)| <= k
  {
    hide Deduped;
  }

  lemma YieldKeepsDone(x: Shared, k: nat, i: nat)
    requires k <= |x.order| && i < k && Done(x, x.order[i])
    ensures Done(YieldTo(x, k), x.order[i])
  {
  }

  /** Only a collect hands results over or marks slots yielded. */
  lemma YieldedOrigin(m: Machine, s: Step, id: Name)
    requires !s.Collect?
    ensures Apply(m, s).collected == m.collected && m.x.order <= Apply(m, s).x.order
    ensures id in Apply(m, s).x.slots && Apply(m, s).x.slots[id].state == Yielded
            ==> id in m.x.slots && m.x.slots[id].state == Yielded
  {
  }

  lemma {:induction false} StepKeepsReleased(m: Machine, s: Step)
    requires Released(m)
    ensures Released(Apply(m, s))
  {
    hide Apply, Deduped;
    if s.Collect? {
      CollectReleases(m);
    } else {
      var r := Apply(m, s);
      StepGrows(m, s);
      StepKeepsScheduler(m, s);
      YieldedOrigin(m, s, NoName);
      forall id | id in r.x.slots && r.x.slots[id].state == Yielded
        ensures r.x.slots[id].at < |Deduped(r.collected)|
      {
        YieldedOrigin(m, s, id);
      }
    }
  }

  lemma {:induction false} RunKeepsReleased(steps: seq<Step>)
    ensures Released(Run(Initial, steps))
  {
    hide Apply, SchedulerInv;
    if steps == [] {
      RunKeepsScheduler([]);
    } else {
      RunKeepsReleased(steps[..|steps| - 1]);
      StepKeepsReleased(Run(Initial, steps[..|steps| - 1]), steps[|steps| - 1]);
    }
  }

  /** The message committed after a final sweep over the remaining results. */
  ghost function Committed(m: Machine): seq<ToolResult> {
    Deduped(m.collected + Buffered(m.x, |m.x.order|))
  }

  /** For every interleaving, aborts of running calls included: the committed message names each
      call at most once, in call order, and every call that reached a terminal state is answered. */
  lemma {:induction false} CommittedOncePerCallInOrder(m: Machine)
    requires Reachable(m)
    ensures Subsequence(Ids(Committed(m)), m.x.order) && Distinct(Ids(Committed(m)))
    ensures forall id :: id in m.x.slots && Terminal(m.x.slots[id].state) ==> id in Ids(Committed(m))
  {
    hide Apply;
    var steps :| m == Run(Initial, steps);
    RunKeepsReleased(steps);
    NamedInOrder(m, |m.x.order|);
    assert m.x.order[..|m.x.order|] == m.x.order;
    OrderIsDistinct(m.x);
    SubsequenceDistinct(Ids(Committed(m)), m.x.order);
    forall id | id in m.x.slots && Terminal(m.x.slots[id].state) ensures id in Ids(Committed(m)) {
      assert SlotOk(m.x, id, m.x.slots[id]);
      NamedIsComplete(m, |m.x.order|, m.x.slots[id].at);
    }
  }

  /** A call aborted while its goroutine is alive. */
  lemma {:induction false} AbortedWhileRunning() returns (m: Machine)
    ensures Reachable(m) && m.x.order == [1, 2] && 1 in m.x.slots && 2 in m.x.slots && m.running == {1}
    ensures m.collected == [] && m.x.slots[1].at == 0 && m.x.slots[2].at == 1
    ensures m.x.slots[1].state == Aborted && m.x.slots[2].state == Queued
    ensures m.x.slots[1].call == ToolCall(1, true, true) && m.x.slots[1].result == Some(ToolResult(1, SIBLING_FAILED))
  {
    hide Reachable, SafeBatch, ExclusiveBatch, FirstPending, Buffered, YieldTo;
    InitialIsReachable();
    var c1, c2 := ToolCall(1, true, true), ToolCall(2, true, true);
    ReachableStep(Initial, Add(c1));
    var m1 := Apply(Initial, Add(c1));
    ReachableStep(m1, Reserve(1));
    var m2 := Apply(m1, Reserve(1));
    ReachableStep(m2, Start(1));
    var m3 := Apply(m2, Start(1));
    ReachableStep(m3, Add(c2));
    var m4 := Apply(m3, Add(c2));
    ReachableStep(m4, AbortSiblings(2));
    m := Apply(m4, AbortSiblings(2));
  }

  /** The raw hand-over does repeat: a call aborted while running is yielded, its goroutine then
      turns the slot back to completed, and the next collect yields it again. */
  lemma {:induction false} RawYieldsRepeat() returns (m: Machine)
    ensures Reachable(m) && !Distinct(Ids(m.collected))
  {
    hide Reachable, SafeBatch, ExclusiveBatch, AbortSlots;
    var m5 := AbortedWhileRunning();
    ReachableStep(m5, Collect);
    var m6 := Apply(m5, Collect);
    assert FirstPending(m5.x) == 1 && m6.x.slots[1].state == Yielded;
    assert Buffered(m5.x, 1) == [m5.x.slots[1].result.value];
    ReachableStep(m6, Finish(1));
    var m7 := Apply(m6, Finish(1));
    assert m7.x.slots[1].state == Completed && FirstPending(m7.x, 1) == 1 && FirstPending(m7.x) == 1;
    assert Buffered(m7.x, 1) == [m7.x.slots[1].result.value];
    ReachableStep(m7, Collect);
    m := Apply(m7, Collect);
    assert Ids(m.collected)[0] == Ids(m.collected)[1];
  }
}
