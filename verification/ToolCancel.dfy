/** What a cancelled executor still does, and what becomes of aborted calls (agent/tools_executor.go). */
module ToolCancel {
  import opened Prelude
  import opened ToolExecutor

  /** The context of the execution is done, or a failed call takes a sibling with it. */
  ghost predicate Stops(m: Machine, s: Step) {
    s.Cancel? || (s.AbortSiblings? && s.id in m.x.slots && exists id :: Abortable(m.x, s.id, id))
  }

  /** Behind `m` nothing has been let through to a launch. */
  ghost predicate NothingNew(m: Machine, r: Machine) {
    r.x.cancelled && r.eligible == m.eligible && forall id :: IsExecuting(r.x, id) ==> id in m.eligible
  }

  lemma {:induction false} CancelledStep(m: Machine, r: Machine, s: Step)
    requires NothingNew(m, r)
    ensures NothingNew(m, Apply(r, s))
  {
    forall id | IsExecuting(Apply(r, s).x, id) ensures id in m.eligible {
      ExecutingOrigin(r, s, id);
    }
    NothingEligible(r, s);
  }

  lemma NothingEligible(r: Machine, s: Step)
    requires r.x.cancelled
    ensures Apply(r, s).eligible == r.eligible && Apply(r, s).x.cancelled
  {
  }

  /** Once the execution is cancelled or siblings have been aborted, no call is let through any more: in
      every continuation, only calls that had passed the start check by then ever execute. */
  lemma {:induction false} CancelledLaunchesNothing(steps: seq<Step>, s: Step, after: seq<Step>, id: Name)
    requires Stops(Run(Initial, steps), s)
    ensures var m, r := Run(Initial, steps), Run(Initial, steps + [s] + after);
            && r.x.cancelled && r.eligible == m.eligible && DrainBatch(r.x) == []
            && (IsExecuting(r.x, id) ==> id in m.eligible)
    decreases |after|
  {
    hide Apply, IsExecuting, DrainBatch;
    NothingNewAfter(steps, s, after);
    NothingToDrain(Run(Initial, steps + [s] + after).x);
  }

  lemma NothingToDrain(x: Shared)
    requires x.cancelled
    ensures DrainBatch(x) == []
  {
  }

  lemma {:induction false} NothingNewAfter(steps: seq<Step>, s: Step, after: seq<Step>)
    requires Stops(Run(Initial, steps), s)
    ensures NothingNew(Run(Initial, steps), Run(Initial, steps + [s] + after))
    decreases |after|
  {
    hide Apply, NothingNew, Stops;
    var m := Run(Initial, steps);
    if after == [] {
      assert steps + [s] + after == steps + [s] && (steps + [s])[..|steps|] == steps;
      RunKeepsScheduler(steps);
      StopIsSeen(m, s);
    } else {
      var k := |after| - 1;
      var all := steps + [s] + after;
      assert all[..|all| - 1] == steps + [s] + after[..k] && all[|all| - 1] == after[k];
      NothingNewAfter(steps, s, after[..k]);
      CancelledStep(m, Run(Initial, steps + [s] + after[..k]), after[k]);
    }
  }

  lemma StopIsSeen(m: Machine, s: Step)
    requires SchedulerInv(m) && Stops(m, s)
    ensures NothingNew(m, Apply(m, s))
  {
    forall id | IsExecuting(Apply(m, s).x, id) ensures id in m.eligible {
      ExecutingOrigin(m, s, id);
    }
  }

  /** An aborted call is not completed by the end of its body: it stays aborted until it is yielded,
      unless it is denied. */
  lemma {:induction false} AbortedUntilYielded(m: Machine, steps: seq<Step>, id: Name)
    requires id in m.x.slots && m.x.slots[id].state == Aborted
    requires Collect !in steps && forall i :: 0 <= i < |steps| ==> !steps[i].Deny? || steps[i].id != id
    ensures var r := Run(m, steps); id in r.x.slots && r.x.slots[id].state == Aborted
  {
    hide Apply;
    if steps != [] {
      var k := |steps| - 1;
      AbortedUntilYielded(m, steps[..k], id);
      AbortedStep(Run(m, steps[..k]), steps[k], id);
    }
  }

  lemma AbortedStep(m: Machine, s: Step, id: Name)
    requires id in m.x.slots && m.x.slots[id].state == Aborted
    requires !s.Collect? && (!s.Deny? || s.id != id)
    ensures var r := Apply(m, s); id in r.x.slots && r.x.slots[id].state == Aborted
  {
  }
}
