/** What the committed tool results say (agent/tools_executor.go, agent/messages.go): every result carries
    the content written last before its call was first handed over. */
module ToolContents {
  import opened Prelude
  import opened ToolExecutor
  import opened ToolCommit

  datatype Written = Written(content: Text, isError: bool)

  /** What a step writes as the result of the call `id`: the report of its body, a denial, a refused
      start, or the failure of a sibling that takes it along. */
  function Writes(m: Machine, s: Step, id: Name): (w: Option<Written>) {
    if id !in m.x.slots then None
    else
      match s
      case Report(call, content, isError) =>
        if call == id && id in m.running then Some(Written(content, isError)) else None
      case Deny(call, content) => if call == id then Some(Written(content, false)) else None
      case StartFails(call, content) =>
        if call == id && id in m.reserved && m.x.slots[id].state == Executing
        then Some(Written(content, true)) else None
      case AbortSiblings(failed) =>
        if failed in m.x.slots && failed != id && m.x.slots[id].call.siblingAbort
           && (m.x.slots[id].state == Queued || m.x.slots[id].state == Executing)
        then Some(Written(SIBLING_FAILED, true)) else None
      case _ => None
  }

  /** What was written last, along a run. */
  function LastWritten(steps: seq<Step>, id: Name): (w: Option<Written>) {
    if steps == [] then None
    else
      var front, last := steps[..|steps| - 1], steps[|steps| - 1];
      var w := Writes(Run(Initial, front), last, id);
      if w.Some? then w else LastWritten(front, id)
  }

  function ResultOf(id: Name, w: Option<Written>): (r: Option<ToolResult>) {
    if w.Some? then Some(ToolResult(id, w.value.content)) else None
  }

  /** The call and all calls before it have ended. */
  predicate Ready(x: Shared, id: Name) {
    id in x.slots && forall a :: a in x.slots && x.slots[a].at <= x.slots[id].at ==> Terminal(x.slots[a].state)
  }

  /** The step that first hands over the result of a call: the first collect that finds it ready, or the
      final sweep behind all steps. */
  function FirstRelease(steps: seq<Step>, id: Name): (n: nat)
    ensures n <= |steps|
  {
    if steps == [] then 0
    else
      var front, last := steps[..|steps| - 1], steps[|steps| - 1];
      var n := FirstRelease(front, id);
      if n < |front| then n
      else if last.Collect? && Ready(Run(Initial, front).x, id) then |front|
      else |steps|
  }

  /** `FirstRelease` is what it is called. */
  lemma {:induction false} FirstReleaseMeans(steps: seq<Step>, id: Name)
    ensures var n := FirstRelease(steps, id);
            && (n < |steps| ==> steps[n].Collect? && Ready(Run(Initial, steps[..n]).x, id))
            && forall k :: 0 <= k < n ==> !(steps[k].Collect? && Ready(Run(Initial, steps[..k]).x, id))
  {
    hide Run, Ready;
    if steps != [] {
      var front := steps[..|steps| - 1];
      FirstReleaseMeans(front, id);
      assert forall k :: 0 <= k <= |front| ==> steps[..k] == front[..k];
      assert front[..|front|] == front;
    }
  }

  // ----- The slots -----

  lemma {:induction false} WriteStep(m: Machine, s: Step, id: Name)
    ensures var r := Apply(m, s); var w := Writes(m, s, id);
            id in r.x.slots ==>
              && (id in m.x.slots && w.Some? ==>
                    r.x.slots[id].result == ResultOf(id, w) && r.x.slots[id].isError == w.value.isError)
              && (id in m.x.slots && w.None? ==>
                    r.x.slots[id].result == m.x.slots[id].result && r.x.slots[id].isError == m.x.slots[id].isError)
              && (id !in m.x.slots ==> r.x.slots[id].result == None)
  {
    hide SafeBatch, ExclusiveBatch, CanStart, FirstPending, Buffered;
  }

  /** In every run a call holds exactly what was written to it last. */
  lemma {:induction false} SlotsHoldLastWritten(steps: seq<Step>, id: Name)
    ensures var x := Run(Initial, steps).x;
            && (id in x.slots ==> x.slots[id].result == ResultOf(id, LastWritten(steps, id)))
            && (id in x.slots && LastWritten(steps, id).Some? ==>
                  x.slots[id].isError == LastWritten(steps, id).value.isError)
            && (id !in x.slots ==> LastWritten(steps, id) == None)
  {
    hide Apply, Writes;
    if steps != [] {
      var front, last := steps[..|steps| - 1], steps[|steps| - 1];
      SlotsHoldLastWritten(front, id);
      WriteStep(Run(Initial, front), last, id);
      if id in Run(Initial, front).x.slots {
        SlotsStay(front, last, id);
      } else {
        NothingWritten(Run(Initial, front), last, id);
      }
    }
  }

  lemma NothingWritten(m: Machine, s: Step, id: Name)
    requires id !in m.x.slots
    ensures Writes(m, s, id) == None
  {
  }

  lemma {:induction false} SlotsStay(front: seq<Step>, s: Step, id: Name)
    requires id in Run(Initial, front).x.slots
    ensures id in Apply(Run(Initial, front), s).x.slots
  {
    hide Apply;
    RunKeepsScheduler(front);
    StepGrows(Run(Initial, front), s);
  }

  // ----- What has been handed over -----

  lemma {:induction false} DedupedPrefix(a: seq<ToolResult>, b: seq<ToolResult>)
    ensures Deduped(a) <= Deduped(a + b)
    decreases |b|
  {
    if b == [] {
      assert a + b == a;
    } else {
      var front, last := b[..|b| - 1], b[|b| - 1];
      assert a + b == (a + front) + [last];
      DedupedPrefix(a, front);
      DedupedSnoc(a + front, last);
    }
  }

  /** What deduplication adds behind `a` stems from `b`, and is new. */
  lemma {:induction false} DedupedOrigin(a: seq<ToolResult>, b: seq<ToolResult>, r: ToolResult)
    requires r in Deduped(a + b)
    ensures r in Deduped(a) || r in b
    decreases |b|
  {
    if b == [] {
      assert a + b == a;
    } else {
      var front, last := b[..|b| - 1], b[|b| - 1];
      assert a + b == (a + front) + [last] && last in b;
      DedupedSnoc(a + front, last);
      if r in Deduped(a + front) {
        DedupedOrigin(a, front, r);
        assert forall x :: x in front ==> x in b;
      }
    }
  }

  lemma {:induction false} BufferedOrigin(x: Shared, k: nat, r: ToolResult)
    requires WellFormed(x) && k <= |x.order| && r in Buffered(x, k)
    ensures r.id in x.slots && x.slots[r.id].result == Some(r)
  {
    var id := x.order[k - 1];
    if r !in Buffered(x, k - 1) {
      assert SlotOk(x, id, x.slots[id]);
    } else {
      BufferedOrigin(x, k - 1, r);
    }
  }

  /** Collects release exactly the leading segment of ready calls. */
  lemma {:induction false} ReadyMeans(x: Shared, id: Name)
    requires WellFormed(x) && id in x.slots
    ensures Ready(x, id) <==> x.slots[id].at < FirstPending(x)
  {
    var k := FirstPending(x);
    assert SlotOk(x, id, x.slots[id]);
    if x.slots[id].at < k {
      forall a | a in x.slots && x.slots[a].at <= x.slots[id].at ensures Terminal(x.slots[a].state) {
        YieldedIsTerminal(x, k, a);
      }
    } else {
      assert !Done(x, x.order[k]) && x.order[k] in x.slots && x.slots[x.order[k]].at == k;
    }
  }

  /** The results handed over so far, up to repetition, say what was written last before their release. */
  ghost predicate Handed(steps: seq<Step>) {
    var m := Run(Initial, steps);
    var d := Deduped(m.collected);
    && Released(m)
    && (forall i :: 0 <= i < |d| ==> HandedAt(steps, d[i]))
    && (forall id :: id !in m.x.slots || m.x.slots[id].at >= |d| ==> FirstRelease(steps, id) == |steps|)
  }

  ghost predicate HandedAt(steps: seq<Step>, r: ToolResult) {
    var n := FirstRelease(steps, r.id);
    n < |steps| && ResultOf(r.id, LastWritten(steps[..n], r.id)) == Some(r)
  }

  lemma {:induction false} HandedStays(steps: seq<Step>, r: ToolResult)
    requires steps != [] && HandedAt(steps[..|steps| - 1], r)
    ensures HandedAt(steps, r)
  {
    hide Run, Ready, LastWritten;
    var front, n := steps[..|steps| - 1], FirstRelease(steps[..|steps| - 1], r.id);
    assert front[..n] == steps[..n];
  }

  lemma {:induction false} StepKeepsHanded(steps: seq<Step>)
    requires steps != [] && Handed(steps[..|steps| - 1]) && !steps[|steps| - 1].Collect?
    ensures Handed(steps)
  {
    var front, s := steps[..|steps| - 1], steps[|steps| - 1];
    var m, r := Run(Initial, front), Run(Initial, steps);
    assert r == Apply(m, s);
    StepKeepsReleased(m, s);
    ReleasedIsWellFormed(m);
    StepGrows(m, s);
    YieldedOrigin(m, s, NoName);
    hide Apply, Run, Released, HandedAt, WellFormed, Deduped, Ready;
    var d := Deduped(m.collected);
    forall i | 0 <= i < |d| ensures HandedAt(steps, d[i]) {
      HandedStays(steps, d[i]);
    }
    forall id | id !in r.x.slots || r.x.slots[id].at >= |d| ensures FirstRelease(steps, id) == |steps| {
      assert id in m.x.slots ==> m.x.slots[id].at == r.x.slots[id].at;
      assert FirstRelease(front, id) == |front|;
    }
  }

  /** The part of a collect that is new: the buffered results of the calls released by it. */
  lemma {:induction false} NewResult(m: Machine, i: nat)
    requires Released(m) && |Deduped(m.collected)| <= i < FirstPending(m.x)
    ensures var d, id := Deduped(m.collected + Buffered(m.x, FirstPending(m.x))), m.x.order[i];
            && i < |d| && d[i].id == id && id in m.x.slots && m.x.slots[id].at == i
            && m.x.slots[id].result == Some(d[i]) && Ready(m.x, id)
  {
    var k := FirstPending(m.x);
    var d, id := Deduped(m.collected + Buffered(m.x, k)), m.x.order[i];
    CollectCounts(m);
    ReleasedIsWellFormed(m);
    assert |Ids(d)| == |d| && Ids(d)[i] == m.x.order[..k][i] == id;
    assert id in m.x.slots && m.x.slots[id].at == i;
    hide Released, Deduped, Buffered, Ready;
    ReadyMeans(m.x, id);
    NotYetThere(m, d[i]);
    assert d[i] in d;
    DedupedOrigin(m.collected, Buffered(m.x, k), d[i]);
    BufferedOrigin(m.x, k, d[i]);
  }

  lemma {:induction false} NewlyHanded(steps: seq<Step>, i: nat)
    requires steps != [] && Handed(steps[..|steps| - 1]) && steps[|steps| - 1].Collect?
    requires var m := Run(Initial, steps[..|steps| - 1]); |Deduped(m.collected)| <= i < FirstPending(m.x)
    ensures var m := Run(Initial, steps[..|steps| - 1]);
            var d := Deduped(m.collected + Buffered(m.x, FirstPending(m.x)));
            i < |d| && HandedAt(steps, d[i])
  {
    var front := steps[..|steps| - 1];
    var m := Run(Initial, front);
    var id := m.x.order[i];
    hide Released, Deduped, Buffered, LastWritten, Ready, Run;
    NewResult(m, i);
    assert FirstRelease(front, id) == |front|;
    SlotsHoldLastWritten(front, id);
    assert FirstRelease(steps, id) == |front| && steps[..|front|] == front;
  }

  lemma {:induction false} CollectCounts(m: Machine)
    requires Released(m)
    ensures var k := FirstPending(m.x);
            Ids(Deduped(m.collected + Buffered(m.x, k))) == m.x.order[..k] && |Deduped(m.collected)| <= k
  {
    hide Deduped, Done;
    ReleasedBelow(m, FirstPending(m.x));
    NamedIsExact(m, FirstPending(m.x));
  }

  lemma {:induction false} NotYetThere(m: Machine, r: ToolResult)
    requires Released(m) && r.id in m.x.slots && m.x.slots[r.id].at >= |Deduped(m.collected)|
    ensures r !in Deduped(m.collected)
  {
    hide Deduped, SchedulerInv;
    ReleasedIsWellFormed(m);
    var d := Deduped(m.collected);
    forall i | 0 <= i < |d| ensures d[i] != r {
      assert Ids(d)[i] == d[i].id == m.x.order[i];
      assert m.x.slots[m.x.order[i]].at == i;
    }
  }

  lemma {:induction false} CollectKeepsHanded(steps: seq<Step>)
    requires steps != [] && Handed(steps[..|steps| - 1]) && steps[|steps| - 1].Collect?
    ensures Handed(steps)
  {
    var front := steps[..|steps| - 1];
    var m := Run(Initial, front);
    var r := Apply(m, Collect);
    assert Run(Initial, steps) == r;
    CollectReleases(m);
    CollectCounts(m);
    CollectSlots(m);
    var d, d' := Deduped(m.collected), Deduped(r.collected);
    DedupedPrefix(m.collected, Buffered(m.x, FirstPending(m.x)));
    ReleasedIsWellFormed(m);
    forall i | 0 <= i < |d'| ensures HandedAt(steps, d'[i]) {
      if i < |d| {
        assert d'[i] == d[i] && HandedAt(front, d[i]);
        HandedStays(steps, d[i]);
      } else {
        NewlyHanded(steps, i);
      }
    }
    hide Run, Apply, Released, HandedAt, Deduped, WellFormed, Ready;
    forall id | id !in r.x.slots || r.x.slots[id].at >= |d'| ensures FirstRelease(steps, id) == |steps| {
      assert FirstRelease(front, id) == |front|;
      if id in m.x.slots {
        ReadyMeans(m.x, id);
      } else {
        NotReady(m.x, id);
      }
    }
  }

  lemma NotReady(x: Shared, id: Name)
    requires id !in x.slots
    ensures !Ready(x, id)
  {
  }

  lemma {:induction false} CollectSlots(m: Machine)
    requires Released(m)
    ensures var r, k := Apply(m, Collect), FirstPending(m.x);
            && r.collected == m.collected + Buffered(m.x, k) && |Deduped(r.collected)| == k
            && (forall id :: id in r.x.slots <==> id in m.x.slots)
            && forall id :: id in m.x.slots ==> r.x.slots[id].at == m.x.slots[id].at
  {
    CollectCounts(m);
    var k := FirstPending(m.x);
    assert |Ids(Deduped(m.collected + Buffered(m.x, k)))| == k;
    hide Deduped, Released, Buffered;
  }

  lemma {:induction false} RunKeepsHanded(steps: seq<Step>)
    ensures Handed(steps)
  {
    if steps == [] {
      RunKeepsReleased([]);
      assert Run(Initial, []) == Initial;
    } else {
      RunKeepsHanded(steps[..|steps| - 1]);
      hide Handed;
      if steps[|steps| - 1].Collect? {
        CollectKeepsHanded(steps);
      } else {
        StepKeepsHanded(steps);
      }
    }
  }

  // ----- The committed message -----

  /** For every interleaving: a call is answered in the committed message if and only if something was
      ever written to it, and each answer says what was written to its call last before that call was
      first handed over. */
  lemma {:induction false} CommittedSaysWhatWasWritten(steps: seq<Step>)
    ensures forall r :: r in Committed(Run(Initial, steps)) ==>
              ResultOf(r.id, LastWritten(steps[..FirstRelease(steps, r.id)], r.id)) == Some(r)
    ensures forall id :: id in Ids(Committed(Run(Initial, steps))) <==> LastWritten(steps, id).Some?
  {
    hide Run;
    forall r | r in Committed(Run(Initial, steps))
      ensures ResultOf(r.id, LastWritten(steps[..FirstRelease(steps, r.id)], r.id)) == Some(r)
    {
      OneCommitted(steps, r);
    }
    forall id ensures id in Ids(Committed(Run(Initial, steps))) <==> LastWritten(steps, id).Some? {
      CommittedExactly(steps, id);
    }
  }

  lemma {:induction false} OneCommitted(steps: seq<Step>, r: ToolResult)
    requires r in Committed(Run(Initial, steps))
    ensures ResultOf(r.id, LastWritten(steps[..FirstRelease(steps, r.id)], r.id)) == Some(r)
  {
    hide Apply;
    var m := Run(Initial, steps);
    RunKeepsHanded(steps);
    var d, rest := Deduped(m.collected), Buffered(m.x, |m.x.order|);
    if r in d {
      var i :| 0 <= i < |d| && d[i] == r;
      assert HandedAt(steps, d[i]);
    } else {
      DedupedOrigin(m.collected, rest, r);
      assert WellFormed(m.x) by { ReleasedIsWellFormed(m); }
      BufferedOrigin(m.x, |m.x.order|, r);
      SlotsHoldLastWritten(steps, r.id);
      FreshIsUnreleased(m, r);
      hide Run, LastWritten, Deduped, Buffered;
      assert FirstRelease(steps, r.id) == |steps| && steps[..|steps|] == steps;
    }
  }

  /** A result of the sweep that was not handed over before belongs to a call that was not released. */
  lemma {:induction false} FreshIsUnreleased(m: Machine, r: ToolResult)
    requires Released(m) && r in Committed(m) && r !in Deduped(m.collected) && r.id in m.x.slots
    ensures m.x.slots[r.id].at >= |Deduped(m.collected)|
  {
    ReleasedIsWellFormed(m);
    var d, rest := Deduped(m.collected), Buffered(m.x, |m.x.order|);
    hide Deduped, Buffered;
    if m.x.slots[r.id].at < |d| {
      var i := m.x.slots[r.id].at;
      assert SlotOk(m.x, r.id, m.x.slots[r.id]);
      assert Ids(d)[i] == m.x.order[i] == r.id && d[i].id == r.id;
      DedupedPrefix(m.collected, rest);
      var c := Committed(m);
      var j :| 0 <= j < |c| && c[j] == r;
      assert c[i] == d[i] && Ids(c)[i] == Ids(c)[j];
      CommittedIsDistinct(m);
      assert false;
    }
  }

  lemma {:induction false} CommittedIsDistinct(m: Machine)
    requires Released(m)
    ensures Distinct(Ids(Committed(m)))
  {
    ReleasedIsWellFormed(m);
    NamedInOrder(m, |m.x.order|);
    hide Deduped, Released;
    assert m.x.order[..|m.x.order|] == m.x.order;
    OrderIsDistinct(m.x);
    SubsequenceDistinct(Ids(Committed(m)), m.x.order);
  }

  lemma {:induction false} WrittenStays(steps: seq<Step>, n: nat, id: Name)
    requires n <= |steps| && LastWritten(steps[..n], id).Some?
    ensures LastWritten(steps, id).Some?
  {
    hide Run, Writes;
    if n == |steps| {
      assert steps[..n] == steps;
    } else {
      var front := steps[..|steps| - 1];
      assert front[..n] == steps[..n];
      WrittenStays(front, n, id);
    }
  }

  lemma {:induction false} BufferedHas(x: Shared, k: nat, id: Name)
    requires WellFormed(x) && k <= |x.order| && Unread(x, id) && x.slots[id].at < k
    ensures x.slots[id].result.value in Buffered(x, k)
  {
    assert SlotOk(x, id, x.slots[id]);
    if x.slots[id].at < k - 1 {
      BufferedHas(x, k - 1, id);
    } else {
      assert x.order[k - 1] == id;
    }
  }

  lemma IdsHave(rs: seq<ToolResult>, r: ToolResult)
    requires r in rs
    ensures r.id in Ids(rs)
  {
    var i :| 0 <= i < |rs| && rs[i] == r;
    assert Ids(rs)[i] == r.id;
  }

  lemma {:induction false} WrittenIsCommitted(m: Machine, id: Name)
    requires Released(m) && id in m.x.slots && m.x.slots[id].result.Some?
    ensures id in Ids(Committed(m))
  {
    ReleasedIsWellFormed(m);
    var all := m.collected + Buffered(m.x, |m.x.order|);
    assert SlotOk(m.x, id, m.x.slots[id]);
    var d := Deduped(m.collected);
    if m.x.slots[id].state == Yielded {
      var i := m.x.slots[id].at;
      assert Ids(d)[i] == m.x.order[i] == id;
      hide Deduped, Buffered;
      DedupedPrefix(m.collected, Buffered(m.x, |m.x.order|));
      assert Deduped(all)[i] == d[i];
      IdsHave(Deduped(all), d[i]);
    } else {
      hide Deduped, Released;
      BufferedHas(m.x, |m.x.order|, id);
      hide Buffered;
      IdsHave(all, m.x.slots[id].result.value);
      DedupedKeepsIds(all, id);
    }
  }

  lemma {:induction false} CommittedExactly(steps: seq<Step>, id: Name)
    ensures id in Ids(Committed(Run(Initial, steps))) <==> LastWritten(steps, id).Some?
  {
    hide Run, Deduped, Buffered, LastWritten, Released, Committed;
    var m := Run(Initial, steps);
    RunKeepsReleased(steps);
    SlotsHoldLastWritten(steps, id);
    if LastWritten(steps, id).Some? {
      WrittenIsCommitted(m, id);
    }
    if id in Ids(Committed(m)) {
      var i :| 0 <= i < |Committed(m)| && Ids(Committed(m))[i] == id;
      var r := Committed(m)[i];
      assert r in Committed(m) && r.id == id;
      OneCommitted(steps, r);
      WrittenStays(steps, FirstRelease(steps, id), id);
    }
  }
}
