/** What a drain pass launches, and how much work is left (agent/tools_executor.go). */
module ToolProgress {
  import opened Prelude
  import opened ToolExecutor
  import opened ToolBodies

  lemma NeverBothReady(x: Shared, a: Name, b: Name)
    requires WellFormed(x) && SafeReady(x, a)
    ensures !ExclusiveReady(x, b)
  {
    if b in x.slots && !x.slots[b].call.safe {
      assert SlotOk(x, a, x.slots[a]) && SlotOk(x, b, x.slots[b]);
    }
  }

  /** A drain batch is either made of concurrency-safe calls only, or it is one exclusive call. */
  lemma DrainBatchShape(x: Shared)
    requires WellFormed(x)
    ensures (forall id :: id in DrainBatch(x) ==> id in x.slots && x.slots[id].call.safe)
            || (|DrainBatch(x)| == 1 && DrainBatch(x)[0] in x.slots && !x.slots[DrainBatch(x)[0]].call.safe)
  {
    var safe, exclusive := SafeBatch(x, |x.order|), ExclusiveBatch(x);
    if safe != [] {
      assert SafeReady(x, safe[0]);
      forall id ensures !ExclusiveReady(x, id) {
        NeverBothReady(x, safe[0], id);
      }
    }
  }

  /** A machine in which nothing has been cancelled and every waiting call may run. */
  ghost predicate Live(m: Machine) {
    && BodyInv(m) && !m.x.cancelled
    && AllGranted(m.x)
  }

  predicate AllGranted(x: Shared) {
    forall id :: id in x.slots && x.slots[id].state == Queued ==> x.slots[id].call.safe || x.slots[id].granted
  }

  predicate IsWaiting(x: Shared, id: Name) {
    id in x.slots && x.slots[id].state == Queued
  }

  /** No call executes; a body whose call was denied may still run. */
  predicate Quiet(x: Shared) {
    forall id :: id in x.slots ==> x.slots[id].state != Executing
  }

  predicate AllDone(x: Shared) {
    forall id :: id in x.slots ==> Terminal(x.slots[id].state)
  }

  /** Every run without a denial of a running safe body is live wherever nothing is cancelled and every
      queued call is safe or granted. */
  lemma {:induction false} GrantedRunsAreLive(steps: seq<Step>)
    requires Tame(Initial, steps) && !Run(Initial, steps).x.cancelled && AllGranted(Run(Initial, steps).x)
    ensures Live(Run(Initial, steps))
  {
    hide BodyInv, Run, Tame, AllGranted;
    InitialBodies();
    RunKeepsBodies(Initial, steps);
  }

  lemma NoBodiesNoCounter(m: Machine)
    requires BodyInv(m) && m.running == {}
    ensures m.x.nonSafeRunning == 0
  {
    assert Exclusive(m) == {};
  }

  /** With nothing in flight, a drain launches the first unfinished call as soon as that call
      is concurrency-safe or granted. */
  lemma DrainLaunchesFirst(m: Machine, k: nat)
    requires BodyInv(m) && !m.x.cancelled && Quiet(m.x) && m.running == {}
    requires k == FirstPending(m.x) && k < |m.x.order|
    requires m.x.slots[m.x.order[k]].call.safe || m.x.slots[m.x.order[k]].granted
    ensures m.x.order[k] in DrainBatch(m.x)
  {
    NoBodiesNoCounter(m);
    var x, id := m.x, m.x.order[k];
    assert !Done(x, id) && !IsExecuting(x, id);
    assert x.slots[id].state == Queued && x.slots[id].at == k;
    assert Cleared(x, id) by {
      forall a | a in x.slots && x.slots[a].at < k ensures Terminal(x.slots[a].state) {
        assert SlotOk(x, a, x.slots[a]);
        assert Done(x, x.order[x.slots[a].at]);
      }
    }
    if x.slots[id].call.safe {
      assert SafeReady(x, id);
    } else {
      assert ExclusiveReady(x, id);
      var other := ExclusiveBatch(x)[0];
      assert ExclusiveReady(x, other);
      assert SlotOk(x, other, x.slots[other]);
    }
  }

  // ----- Every launch shrinks the remaining work -----

  function Weight(m: Machine, id: Name): (w: nat) {
    if id !in m.x.slots then 0
    else match m.x.slots[id].state
      case Queued => 3
      case Executing => if id in m.running then 1 else 2
      case _ => 0
  }

  function Work(m: Machine, k: nat): (w: nat)
    requires k <= |m.x.order|
  {
    if k == 0 then 0 else Work(m, k - 1) + Weight(m, m.x.order[k - 1])
  }

  lemma {:induction false} WorkCompare(m: Machine, r: Machine, k: nat, hit: nat)
    requires m.x.order == r.x.order && k <= |m.x.order|
    requires forall i :: 0 <= i < k ==> Weight(r, m.x.order[i]) <= Weight(m, m.x.order[i])
    ensures Work(r, k) <= Work(m, k)
    ensures hit < k && Weight(r, m.x.order[hit]) < Weight(m, m.x.order[hit]) ==> Work(r, k) < Work(m, k)
  {
    if k > 0 {
      WorkCompare(m, r, k - 1, hit);
    }
  }

  /** No step other than adding a call makes any call heavier. */
  lemma {:induction false} WeightNeverGrows(m: Machine, s: Step, id: Name)
    requires !s.Add? && BodyInv(m) && (id in m.x.slots ==> SlotOk(m.x, id, m.x.slots[id]))
    ensures Apply(m, s).x.order == m.x.order
    ensures Weight(Apply(m, s), id) <= Weight(m, id)
  {
    hide SchedulerInv;
    if s.Finish? {
      FinishNotHeavier(m, s.id, id);
    } else if s.Collect? || s.AbortSiblings? {
      SweepNotHeavier(m, s, id);
    } else {
      OneNotHeavier(m, s, id);
    }
  }

  lemma {:induction false} FinishNotHeavier(m: Machine, f: Name, id: Name)
    requires BodyInv(m) && (id in m.x.slots ==> SlotOk(m.x, id, m.x.slots[id]))
    ensures Apply(m, Finish(f)).x.order == m.x.order && Weight(Apply(m, Finish(f)), id) <= Weight(m, id)
  {
    hide SchedulerInv;
    assert f in m.running ==> f in InFlight(m) && Flying(m, f);
  }

  lemma {:induction false} SweepNotHeavier(m: Machine, s: Step, id: Name)
    requires (s.Collect? || s.AbortSiblings?) && (id in m.x.slots ==> SlotOk(m.x, id, m.x.slots[id]))
    ensures Apply(m, s).x.order == m.x.order && Weight(Apply(m, s), id) <= Weight(m, id)
  {
    hide Buffered;
  }

  lemma {:induction false} OneNotHeavier(m: Machine, s: Step, id: Name)
    requires !s.Add? && !s.Finish? && !s.Collect? && !s.AbortSiblings?
    ensures Apply(m, s).x.order == m.x.order && Weight(Apply(m, s), id) <= Weight(m, id)
  {
    hide SafeBatch, ExclusiveBatch, CanStart;
  }

  lemma {:induction false} StepShrinksWork(m: Machine, s: Step, id: Name)
    requires !s.Add? && BodyInv(m) && id in m.x.slots
    ensures Apply(m, s).x.order == m.x.order
    ensures Weight(Apply(m, s), id) < Weight(m, id)
            ==> Work(Apply(m, s), |m.x.order|) < Work(m, |m.x.order|)
    ensures Work(Apply(m, s), |m.x.order|) <= Work(m, |m.x.order|)
  {
    hide Apply, Weight;
    WeightNeverGrows(m, s, NoName) by { assert NoName in m.x.slots ==> SlotOk(m.x, NoName, m.x.slots[NoName]); }
    forall i | 0 <= i < |m.x.order| ensures Weight(Apply(m, s), m.x.order[i]) <= Weight(m, m.x.order[i]) {
      assert SlotOk(m.x, m.x.order[i], m.x.slots[m.x.order[i]]);
      WeightNeverGrows(m, s, m.x.order[i]);
    }
    assert SlotOk(m.x, id, m.x.slots[id]);
    WorkCompare(m, Apply(m, s), |m.x.order|, m.x.slots[id].at);
  }

  /** Nothing is ever stuck: when all bodies have returned, no launch is under way and a drain finds
      nothing to launch, every call has ended. */
  lemma {:induction false} NeverStuck(m: Machine)
    requires Live(m) && InFlight(m) == {} && DrainBatch(m.x) == []
    ensures AllDone(m.x)
  {
    var k := FirstPending(m.x);
    assert Quiet(m.x) by {
      forall id | id in m.x.slots ensures m.x.slots[id].state != Executing {
        assert IsExecuting(m.x, id) ==> id in InFlight(m);
      }
    }
    if k < |m.x.order| {
      var id := m.x.order[k];
      assert !Done(m.x, id) && id in m.x.slots;
      assert IsWaiting(m.x, id);
      DrainLaunchesFirst(m, k);
    }
    AllDoneFromOrder(m.x);
  }

  lemma AllDoneFromOrder(x: Shared)
    requires WellFormed(x)
    ensures AllDone(x) <==> FirstPending(x) == |x.order|
  {
    if FirstPending(x) == |x.order| {
      forall id | id in x.slots ensures Terminal(x.slots[id].state) {
        assert SlotOk(x, id, x.slots[id]);
        assert Done(x, x.order[x.slots[id].at]);
      }
    } else {
      assert !Done(x, x.order[FirstPending(x)]);
    }
  }
}
