/** Exactly which denials let tool bodies overlap (agent/tools_executor.go, agent/permission_resolver.go). */
module ToolDenials {
  import opened Prelude
  import opened ToolExecutor
  import opened ToolBodies

  /** Two bodies run side by side although one of them needs exclusive access. */
  ghost predicate Overlap(m: Machine) {
    exists a, b :: a in m.running && b in m.running && a != b && Conflicting(m.x, a, b)
  }

  predicate Conflicting(x: Shared, a: Name, b: Name) {
    a in x.slots && b in x.slots && Conflict(x.slots[a], x.slots[b])
  }

  /** An exclusive call still waits in the queue. */
  predicate Waits(x: Shared, b: Name) {
    b in x.slots && x.slots[b].state == Queued && !x.slots[b].call.safe
  }

  predicate NoAdds(steps: seq<Step>) {
    forall i :: 0 <= i < |steps| ==> !steps[i].Add?
  }

  /** `r` is reached from `m` without a further denial of a running safe body; new calls arrive on
      the way only if `more` allows it. */
  ghost predicate Continues(m: Machine, r: Machine, more: bool) {
    exists steps :: Tame(m, steps) && (more || NoAdds(steps)) && r == Run(m, steps)
  }

  ghost predicate MayOverlap(m: Machine, more: bool) {
    exists r :: Continues(m, r, more) && Overlap(r)
  }

  lemma ContinuesRefl(m: Machine, more: bool)
    ensures Continues(m, m, more)
  {
    assert Tame(m, []) && NoAdds([]) && Run(m, []) == m;
  }

  lemma {:induction false} ContinuesStep(m: Machine, r: Machine, s: Step, more: bool)
    requires Continues(m, r, more) && !DeniesRunning(r, s) && (more || !s.Add?)
    ensures Continues(m, Apply(r, s), more)
  {
    hide Apply, DeniesRunning, Tame, Run;
    var steps :| Tame(m, steps) && (more || NoAdds(steps)) && r == Run(m, steps);
    TameSnoc(m, steps, s);
  }

  lemma {:induction false} TameSnoc(m: Machine, steps: seq<Step>, s: Step)
    requires Tame(m, steps) && !DeniesRunning(Run(m, steps), s)
    ensures Tame(m, steps + [s]) && Run(m, steps + [s]) == Apply(Run(m, steps), s)
    ensures NoAdds(steps) && !s.Add? ==> NoAdds(steps + [s])
  {
    hide Apply, DeniesRunning;
    assert (steps + [s])[..|steps|] == steps;
  }

  // ----- A denied body that keeps running -----

  /** A body runs under a finished call, and nothing holds back an exclusive one. */
  ghost predicate Primed(m: Machine, id: Name) {
    && WellFormed(m.x) && !m.x.cancelled && m.x.nonSafeRunning <= 0
    && id in m.running && id in m.x.slots && Terminal(m.x.slots[id].state)
  }

  ghost predicate DoneBelow(x: Shared, k: nat) {
    forall a :: a in x.slots && x.slots[a].at < k ==> Terminal(x.slots[a].state)
  }

  /** The call `c` is out of the way, and nothing else is changed for `id` and `b`. */
  ghost predicate Settles(m: Machine, r: Machine, id: Name, b: Name, c: Name) {
    && Primed(r, id) && Waits(r.x, b) && Keeps(m.x, r.x)
    && c in r.x.slots && Terminal(r.x.slots[c].state)
  }

  lemma {:induction false} DenyQueued(m: Machine, id: Name, b: Name, c: Name)
    requires Primed(m, id) && Waits(m.x, b) && c in m.x.slots && c != b && c !in m.running
    ensures Settles(m, Apply(m, Deny(c, 0)), id, b, c)
  {
    hide WellFormed;
    DenyGrows(m.x, c, 0);
  }

  lemma {:induction false} ReportRunning(m: Machine, id: Name, b: Name, c: Name)
    requires Primed(m, id) && Waits(m.x, b) && c in m.x.slots && c != b && c in m.running && c != id
    ensures var r := Apply(m, Report(c, 0, false));
            && Primed(r, id) && Waits(r.x, b) && Keeps(m.x, r.x)
            && c in r.running && c in r.x.slots && r.x.slots[c].result.Some?
  {
    hide WellFormed;
    ReportGrows(m.x, c, 0, false);
  }

  lemma {:induction false} FinishReported(m: Machine, id: Name, b: Name, c: Name)
    requires Primed(m, id) && Waits(m.x, b) && c in m.x.slots && c != b && c in m.running && c != id
    requires m.x.slots[c].result.Some?
    ensures Settles(m, Apply(m, Finish(c)), id, b, c)
  {
    hide WellFormed;
    FinishGrows(m.x, c);
  }

  /** Bring one unfinished call to its end: its body returns, or it is denied before it has one. */
  lemma {:induction false} SettleOne(base: Machine, m: Machine, id: Name, b: Name, c: Name, more: bool)
    returns (r: Machine)
    requires Continues(base, m, more) && Primed(m, id) && Waits(m.x, b) && c in m.x.slots && c != b
    ensures Continues(base, r, more) && Settles(m, r, id, b, c)
  {
    if Terminal(m.x.slots[c].state) {
      r := m;
    } else if c in m.running {
      r := EndBody(base, m, id, b, c, more);
    } else {
      hide Primed, Waits, Apply, Continues, WellFormed;
      DenyQueued(m, id, b, c);
      ContinuesStep(base, m, Deny(c, 0), more);
      r := Apply(m, Deny(c, 0));
    }
  }

  lemma {:induction false} EndBody(base: Machine, m: Machine, id: Name, b: Name, c: Name, more: bool)
    returns (r: Machine)
    requires Continues(base, m, more) && Primed(m, id) && Waits(m.x, b) && c in m.x.slots && c != b
    requires c in m.running && c != id
    ensures Continues(base, r, more) && Settles(m, r, id, b, c)
  {
    hide Primed, Waits, Apply, Continues, WellFormed, Keeps;
    ReportRunning(m, id, b, c);
    ContinuesStep(base, m, Report(c, 0, false), more);
    var m1 := Apply(m, Report(c, 0, false));
    FinishReported(m1, id, b, c);
    ContinuesStep(base, m1, Finish(c), more);
    r := Apply(m1, Finish(c));
    KeepsTrans(m.x, m1.x, r.x);
  }

  lemma DoneBelowNext(m: Machine, r: Machine, k: nat)
    requires WellFormed(m.x) && WellFormed(r.x) && DoneBelow(m.x, k) && Keeps(m.x, r.x)
    requires k < |m.x.order| && Terminal(r.x.slots[m.x.order[k]].state)
    ensures DoneBelow(r.x, k + 1)
  {
    forall a | a in r.x.slots && r.x.slots[a].at < k + 1 ensures Terminal(r.x.slots[a].state) {
      assert SlotOk(r.x, a, r.x.slots[a]);
      var was := m.x.order[r.x.slots[a].at];
      assert was in m.x.slots && m.x.slots[was].at == r.x.slots[a].at;
    }
  }

  /** Bring every call before the waiting exclusive one to its end. */
  lemma {:induction false} SettleBelow(base: Machine, m: Machine, id: Name, b: Name, k: nat, more: bool)
    returns (r: Machine)
    requires Continues(base, m, more) && Primed(m, id) && Waits(m.x, b)
    requires k <= m.x.slots[b].at && DoneBelow(m.x, k)
    ensures Continues(base, r, more) && Primed(r, id) && Waits(r.x, b) && DoneBelow(r.x, r.x.slots[b].at)
    decreases m.x.slots[b].at - k
  {
    hide Continues, DoneBelow;
    if k == m.x.slots[b].at {
      r := m;
    } else {
      assert SlotOk(m.x, b, m.x.slots[b]);
      var c := m.x.order[k];
      var m1 := SettleOne(base, m, id, b, c, more);
      DoneBelowNext(m, m1, k);
      assert SlotGrows(m.x.slots[b], m1.x.slots[b]);
      r := SettleBelow(base, m1, id, b, k + 1, more);
    }
  }

  /** Once everything before it is done, the exclusive call is granted, launched and started. */
  lemma {:induction false} ExclusiveStarts(m: Machine, b: Name)
    requires !m.x.cancelled && m.x.nonSafeRunning <= 0 && Waits(m.x, b) && DoneBelow(m.x, m.x.slots[b].at)
    ensures var r := Apply(Apply(Apply(m, Grant(b)), Reserve(b)), Start(b));
            && r.running == m.running + {b} && b in r.x.slots && !r.x.slots[b].call.safe
            && forall a :: a in m.x.slots ==> a in r.x.slots
  {
    hide AbortSlots, FirstPending, SafeBatch, ExclusiveBatch, YieldTo, Buffered;
    var m1 := Apply(m, Grant(b));
    assert Cleared(m1.x, b);
    assert b in m1.eligible && m1.running == m.running;
    var m2 := Apply(m1, Reserve(b));
    assert IsExecuting(m2.x, b) && b in m2.reserved && m2.running == m.running;
  }

  lemma {:induction false} WaitingOverlaps(base: Machine, m: Machine, id: Name, b: Name, more: bool)
    requires Continues(base, m, more) && Primed(m, id) && Waits(m.x, b)
    ensures MayOverlap(base, more)
  {
    hide Continues, Apply, Grows, WellFormed;
    var m0 := SettleBelow(base, m, id, b, 0, more);
    var m1 := Apply(m0, Grant(b));
    ContinuesStep(base, m0, Grant(b), more);
    var m2 := Apply(m1, Reserve(b));
    ContinuesStep(base, m1, Reserve(b), more);
    var r := Apply(m2, Start(b));
    ContinuesStep(base, m2, Start(b), more);
    ExclusiveStarts(m0, b);
    assert Conflicting(r.x, id, b) && id in r.running && b in r.running && id != b;
  }

  // ----- The exact condition -----

  lemma {:induction false} DeniedIsPrimed(m: Machine, id: Name, content: Text)
    requires BodyInv(m) && RunsSafely(m, id)
    ensures Primed(Apply(m, Deny(id, content)), id)
  {
    hide WellFormed, Grows, MayLaunch, Vacated, Flying;
    DenyGrows(m.x, id, content);
    forall e ensures e !in Exclusive(m) {
      if e in Exclusive(m) {
        BodiesApart(m, id, e);
      }
    }
    assert Exclusive(m) == {};
  }

  lemma {:induction false} TameStaysApart(m: Machine, r: Machine, more: bool)
    requires BodyInv(m) && Continues(m, r, more)
    ensures !Overlap(r)
  {
    hide BodyInv, Apply, Tame;
    var steps :| Tame(m, steps) && (more || NoAdds(steps)) && r == Run(m, steps);
    RunKeepsBodies(m, steps);
    forall a, b | a in r.running && b in r.running && a != b ensures !Conflicting(r.x, a, b) {
      BodiesApart(r, a, b);
    }
  }

  /** Every exclusive call has ended together with its body. */
  ghost predicate NoExclusiveLeft(m: Machine) {
    WellFormed(m.x) && forall c :: c in m.x.slots && !m.x.slots[c].call.safe ==>
        Terminal(m.x.slots[c].state) && c !in m.running
  }

  lemma {:induction false} NoneLeftStep(m: Machine, s: Step)
    requires NoExclusiveLeft(m) && !s.Add?
    ensures NoExclusiveLeft(Apply(m, s))
  {
    var r := Apply(m, s);
    SlotsStay(m, s);
    hide Apply, WellFormed;
    StepGrows(m, s);
    forall c | c in r.x.slots && !r.x.slots[c].call.safe ensures Terminal(r.x.slots[c].state) && c !in r.running {
      GrowsAt(m.x, r.x, c);
      if c in r.running && c !in m.running {
        BodiesStart(m, s, c);
      }
    }
  }

  lemma {:induction false} SlotsStay(m: Machine, s: Step)
    requires !s.Add?
    ensures Apply(m, s).x.slots.Keys == m.x.slots.Keys
  {
    hide CanStart, SafeBatch, ExclusiveBatch, Buffered, FirstPending;
  }

  lemma {:induction false} NoneLeftRun(m: Machine, steps: seq<Step>)
    requires NoExclusiveLeft(m) && NoAdds(steps)
    ensures NoExclusiveLeft(Run(m, steps))
  {
    hide Apply;
    if steps != [] {
      NoneLeftRun(m, steps[..|steps| - 1]);
      NoneLeftStep(Run(m, steps[..|steps| - 1]), steps[|steps| - 1]);
    }
  }

  lemma {:induction false} NoneLeftAfterDenial(m: Machine, id: Name, content: Text)
    requires BodyInv(m) && RunsSafely(m, id) && forall b :: !Waits(m.x, b)
    ensures NoExclusiveLeft(Apply(m, Deny(id, content)))
  {
    var d := Apply(m, Deny(id, content));
    assert d.running == m.running;
    DenyGrows(m.x, id, content);
    forall c | c in d.x.slots && !d.x.slots[c].call.safe ensures Terminal(d.x.slots[c].state) && c !in d.running {
      assert !Waits(m.x, c);
      if c in InFlight(m) {
        BodiesApart(m, id, c);
      } else {
        assert !IsExecuting(m.x, c);
      }
    }
  }

  lemma {:induction false} NoneLeftApart(m: Machine, r: Machine)
    requires NoExclusiveLeft(m) && Continues(m, r, false)
    ensures !Overlap(r)
  {
    hide Apply, Tame;
    var steps :| Tame(m, steps) && (false || NoAdds(steps)) && r == Run(m, steps);
    NoneLeftRun(m, steps);
  }

  /** After a denial two conflicting bodies can run side by side, in a continuation without a
      further denial of that kind, if and only if the denied call has a running safe body and
      nothing is cancelled; and when no more calls arrive, if and only if an exclusive call also
      waits in the queue. */
  lemma {:induction false} DenialOverlapsExactly(steps: seq<Step>, m: Machine, id: Name, content: Text)
    requires Tame(Initial, steps) && m == Run(Initial, steps)
    ensures var denied := Apply(m, Deny(id, content));
            && (MayOverlap(denied, true) <==> RunsSafely(m, id))
            && (MayOverlap(denied, false) <==> RunsSafely(m, id) && exists b :: Waits(m.x, b))
  {
    hide BodyInv, Apply, RunsSafely, Waits, Continues, Overlap;
    InitialBodies();
    RunKeepsBodies(Initial, steps);
    if RunsSafely(m, id) {
      RunningDenialOverlaps(m, id, content);
    } else {
      HarmlessDenial(m, id, content);
    }
  }

  lemma {:induction false} HarmlessDenial(m: Machine, id: Name, content: Text)
    requires BodyInv(m) && !RunsSafely(m, id)
    ensures forall more :: !MayOverlap(Apply(m, Deny(id, content)), more)
  {
    hide BodyInv, Apply, RunsSafely, Continues, Overlap;
    var denied := Apply(m, Deny(id, content));
    StepKeepsBodies(m, Deny(id, content));
    forall more, r | Continues(denied, r, more) ensures !Overlap(r) {
      TameStaysApart(denied, r, more);
    }
  }

  lemma {:induction false} RunningDenialOverlaps(m: Machine, id: Name, content: Text)
    requires BodyInv(m) && RunsSafely(m, id)
    ensures var denied := Apply(m, Deny(id, content));
            MayOverlap(denied, true) && (MayOverlap(denied, false) <==> exists b :: Waits(m.x, b))
  {
    hide BodyInv, Continues, Overlap, Primed;
    var denied := Apply(m, Deny(id, content));
    DeniedIsPrimed(m, id, content);
    OneMoreCall(denied, id);
    ContinuesRefl(denied, false);
    if b :| Waits(m.x, b) {
      StillWaits(m, id, content, b);
      hide Apply;
      WaitingOverlaps(denied, denied, id, b, false);
    } else {
      NoneLeftAfterDenial(m, id, content);
      hide Apply;
      forall r | Continues(denied, r, false) ensures !Overlap(r) {
        NoneLeftApart(denied, r);
      }
    }
  }

  lemma {:induction false} StillWaits(m: Machine, id: Name, content: Text, b: Name)
    requires BodyInv(m) && RunsSafely(m, id) && Waits(m.x, b)
    ensures Waits(Apply(m, Deny(id, content)).x, b)
  {
    assert id in InFlight(m) && Flying(m, id);
  }

  /** A new exclusive call can always arrive. */
  lemma {:induction false} OneMoreCall(denied: Machine, id: Name)
    requires Primed(denied, id)
    ensures MayOverlap(denied, true)
  {
    var n := FreshName(denied.x.slots.Keys);
    var s := Add(ToolCall(n, false, false));
    AddGrows(denied.x, s.call);
    ContinuesRefl(denied, true);
    ContinuesStep(denied, denied, s, true);
    var m := Apply(denied, s);
    assert Primed(m, id) && Waits(m.x, n);
    WaitingOverlaps(denied, m, id, n, true);
  }

  /** Such a denial in a run from the start: call 1 is denied while it runs, so the exclusive call 2
      passes its start check and runs beside it. */
  lemma {:induction false} DenialInFlightOverlaps() returns (m: Machine)
    ensures Reachable(m) && 1 in m.running && 2 in m.running && 2 in m.x.slots && !m.x.slots[2].call.safe
  {
    hide Reachable, AbortSlots, FirstPending, SafeBatch, ExclusiveBatch, YieldTo, Buffered;
    InitialIsReachable();
    var m1 := Apply(Initial, Add(ToolCall(1, true, false)));
    ReachableStep(Initial, Add(ToolCall(1, true, false)));
    var m2 := Apply(m1, Add(ToolCall(2, false, false)));
    ReachableStep(m1, Add(ToolCall(2, false, false)));
    var m3 := Apply(m2, Reserve(1));
    ReachableStep(m2, Reserve(1));
    var m4 := Apply(m3, Start(1));
    ReachableStep(m3, Start(1));
    assert m4.running == {1};
    var m5 := Apply(m4, Deny(1, 7));
    ReachableStep(m4, Deny(1, 7));
    var m6 := Apply(m5, Grant(2));
    ReachableStep(m5, Grant(2));
    assert Cleared(m6.x, 2) && 2 in m6.eligible;
    var m7 := Apply(m6, Reserve(2));
    ReachableStep(m6, Reserve(2));
    m := Apply(m7, Start(2));
    ReachableStep(m7, Start(2));
  }
}
