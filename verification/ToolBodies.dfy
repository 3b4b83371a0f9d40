/** Exclusion of the tool bodies themselves, which may outlive the executing state of their calls
    (agent/tools_executor.go). */
module ToolBodies {
  import opened Prelude
  import opened ToolExecutor

  /** Bodies that run, and launches that will still start theirs: a reserved call that is no longer
      executing is dropped by the second section of its launch. */
  function InFlight(m: Machine): (r: set<Name>) {
    m.running + set id | id in m.reserved && IsExecuting(m.x, id)
  }

  ghost predicate Vacated(m: Machine, b: Name)
    requires b in m.x.slots
  {
    forall a :: a in m.x.slots && m.x.slots[a].at < m.x.slots[b].at && Conflict(m.x.slots[a], m.x.slots[b])
                ==> a !in InFlight(m)
  }

  /** A body outlives the execution state of its call only after cancellation, or when it is
      exclusive: then the counter of exclusive bodies still blocks every start. */
  ghost predicate Flying(m: Machine, id: Name) {
    && id in m.x.slots && m.x.slots[id].state != Queued
    && (Terminal(m.x.slots[id].state) ==> m.x.cancelled || (id in m.running && !m.x.slots[id].call.safe))
  }

  function Exclusive(m: Machine): (r: set<Name>) {
    set id | id in m.running && id in m.x.slots && !m.x.slots[id].call.safe
  }

  /** A call that passed its start check has no conflicting predecessor in flight any more. */
  ghost predicate BodyInv(m: Machine) {
    && SchedulerInv(m)
    && m.reserved !! m.running
    && (forall id :: id in InFlight(m) ==> id in m.eligible && Flying(m, id))
    && (forall id :: id in m.eligible ==> id in m.x.slots && Vacated(m, id))
    && (forall id :: IsExecuting(m.x, id) ==> id in InFlight(m))
    && m.x.nonSafeRunning == |Exclusive(m)|
  }

  /** A safe body runs under this call, and nothing has been cancelled. */
  predicate RunsSafely(m: Machine, id: Name) {
    id in m.running && id in m.x.slots && m.x.slots[id].call.safe && !m.x.cancelled
  }

  /** A denial that hits a running safe body is the one step bodies must not see. */
  predicate DeniesRunning(m: Machine, s: Step) {
    s.Deny? && RunsSafely(m, s.id)
  }

  /** Calls enter flight only from the queue, while eligible. */
  lemma FlightOrigin(m: Machine, s: Step, id: Name)
    requires id in InFlight(Apply(m, s)) && id !in InFlight(m)
    ensures s == Reserve(id) && id in m.eligible && id in m.x.slots && m.x.slots[id].state == Queued
    ensures IsExecuting(Apply(m, s).x, id)
  {
  }

  /** A body starts only under an executing call. */
  lemma {:induction false} BodiesStart(m: Machine, s: Step, c: Name)
    requires c in Apply(m, s).running && c !in m.running
    ensures c in m.x.slots && m.x.slots[c].state == Executing
  {
    hide AbortSlots, FirstPending, SafeBatch, ExclusiveBatch, YieldTo, Buffered, CanStart;
  }

  lemma FlyingIsKept(m: Machine, s: Step, id: Name)
    requires id in InFlight(m) && Flying(m, id) && !DeniesRunning(m, s)
    requires id in InFlight(Apply(m, s))
    requires m.reserved !! m.running && SlotOk(m.x, id, m.x.slots[id])
    ensures Flying(Apply(m, s), id)
  {
    match s
    case Collect => assert m.x.slots[id].at < FirstPending(m.x) ==> Done(m.x, m.x.order[m.x.slots[id].at]);
    case AbortSiblings(f) => assert f in m.x.slots && Abortable(m.x, f, id) ==> AbortSlots(m.x, f).cancelled;
    case _ =>
  }

  lemma NewlyEligibleIsUncancelled(m: Machine, s: Step, id: Name)
    requires id in Apply(m, s).eligible && id !in m.eligible
    ensures !Apply(m, s).x.cancelled && Apply(m, s).x.nonSafeRunning <= 0 && InFlight(Apply(m, s)) == InFlight(m)
  {
  }

  lemma {:induction false} VacatedIsKept(m: Machine, s: Step, b: Name)
    requires SchedulerInv(m) && b in m.eligible && Vacated(m, b) && b in Apply(m, s).x.slots
    ensures Vacated(Apply(m, s), b)
  {
    hide Apply, WellFormed;
    var r := Apply(m, s);
    StepGrows(m, s);
    assert MayLaunch(m.x, b);
    forall a | a in r.x.slots && r.x.slots[a].at < r.x.slots[b].at && Conflict(r.x.slots[a], r.x.slots[b])
      ensures a !in InFlight(r)
    {
      if a in InFlight(r) && a !in InFlight(m) {
        FlightOrigin(m, s, a);
      }
      if a !in m.x.slots {
        PositionsBelow(m.x, b);
      }
    }
  }

  lemma PositionsBelow(x: Shared, id: Name)
    requires WellFormed(x) && id in x.slots
    ensures x.slots[id].at < |x.order|
  {
    assert SlotOk(x, id, x.slots[id]);
  }

  lemma {:induction false} NewlyEligibleIsVacated(m: Machine, s: Step, b: Name)
    requires SchedulerInv(m) && b in Apply(m, s).eligible && b !in m.eligible && b in Apply(m, s).x.slots
    requires forall id :: id in InFlight(m) ==> Flying(Apply(m, s), id)
    requires Apply(m, s).x.nonSafeRunning == |Exclusive(Apply(m, s))|
    ensures Vacated(Apply(m, s), b)
  {
    hide Apply;
    EligibleOrigin(m, s, b);
    NewlyEligibleIsUncancelled(m, s, b);
    assert forall a :: a in Apply(m, s).running && a in Apply(m, s).x.slots && !Apply(m, s).x.slots[a].call.safe ==>
        a in Exclusive(Apply(m, s));
  }

  lemma ExecutingStaysInFlight(m: Machine, s: Step, id: Name)
    requires IsExecuting(Apply(m, s).x, id) && (IsExecuting(m.x, id) ==> id in InFlight(m))
    ensures id in InFlight(Apply(m, s))
  {
  }

  lemma CounterFrame(m: Machine, s: Step)
    requires !s.Start? && !s.Finish?
    ensures Apply(m, s).running == m.running && Apply(m, s).x.nonSafeRunning == m.x.nonSafeRunning
  {
  }

  /** What starting does to the bodies and their counter. */
  lemma {:induction false} StartFacts(m: Machine, id: Name)
    ensures var r := Apply(m, Start(id));
            && r.x.slots == m.x.slots
            && ((r.running == m.running && r.x.nonSafeRunning == m.x.nonSafeRunning)
                || (r.running == m.running + {id} && id in m.reserved && id in m.x.slots
                    && r.x.nonSafeRunning == m.x.nonSafeRunning + if m.x.slots[id].call.safe then 0 else 1))
  {
    hide AbortSlots, FirstPending, SafeBatch, ExclusiveBatch, YieldTo, Buffered, CanStart;
  }

  lemma {:induction false} StartCounter(m: Machine, id: Name)
    requires m.x.nonSafeRunning == |Exclusive(m)| && m.reserved !! m.running
    ensures Apply(m, Start(id)).x.nonSafeRunning == |Exclusive(Apply(m, Start(id)))|
  {
    hide Apply;
    StartFacts(m, id);
    var r := Apply(m, Start(id));
    if r.running != m.running && !m.x.slots[id].call.safe {
      assert Exclusive(r) == Exclusive(m) + {id};
    } else {
      assert Exclusive(r) == Exclusive(m);
    }
  }

  /** What finishing does to the bodies and their counter; calls keep their kind. */
  lemma {:induction false} FinishFacts(m: Machine, id: Name)
    ensures var r := Apply(m, Finish(id));
            && (forall k :: k in m.x.slots <==> k in r.x.slots)
            && (forall k :: k in m.x.slots ==> r.x.slots[k].call == m.x.slots[k].call)
            && (r == m
                || (r.running == m.running - {id} && id in m.running && id in m.x.slots
                    && r.x.nonSafeRunning == m.x.nonSafeRunning - if m.x.slots[id].call.safe then 0 else 1))
  {
    hide AbortSlots, FirstPending, SafeBatch, ExclusiveBatch, YieldTo, Buffered, CanStart;
  }

  lemma {:induction false} FinishCounter(m: Machine, id: Name)
    requires m.x.nonSafeRunning == |Exclusive(m)| && m.reserved !! m.running
    ensures Apply(m, Finish(id)).x.nonSafeRunning == |Exclusive(Apply(m, Finish(id)))|
  {
    hide Apply;
    FinishFacts(m, id);
    var r := Apply(m, Finish(id));
    if r.running != m.running && !m.x.slots[id].call.safe {
      assert Exclusive(m) == Exclusive(r) + {id};
    } else {
      assert Exclusive(r) == Exclusive(m);
    }
  }

  lemma {:induction false} CounterIsExact(m: Machine, s: Step)
    requires BodyInv(m)
    ensures Apply(m, s).x.nonSafeRunning == |Exclusive(Apply(m, s))|
  {
    hide Apply, WellFormed;
    match s
    case Start(id) => StartCounter(m, id);
    case Finish(id) => FinishCounter(m, id);
    case _ =>
      CounterFrame(m, s);
      StepGrows(m, s);
      assert Exclusive(Apply(m, s)) == Exclusive(m);
  }

  lemma LaunchesStayApart(m: Machine, s: Step)
    requires BodyInv(m)
    ensures Apply(m, s).reserved !! Apply(m, s).running
  {
  }

  lemma {:induction false} StepKeepsBodies(m: Machine, s: Step)
    requires BodyInv(m) && !DeniesRunning(m, s)
    ensures BodyInv(Apply(m, s))
  {
    hide Apply, WellFormed, MayLaunch, Vacated, Flying, IsExecuting;
    var r := Apply(m, s);
    StepKeepsScheduler(m, s);
    LaunchesStayApart(m, s);
    CounterIsExact(m, s);
    EligibleOnlyGrows(m, s);
    forall id | id in InFlight(r) ensures id in r.eligible && Flying(r, id) {
      FlightIsSound(m, s, id);
    }
    forall id | id in r.eligible ensures id in r.x.slots && Vacated(r, id) {
      EligibleIsVacated(m, s, id);
    }
    forall id | IsExecuting(r.x, id) ensures id in InFlight(r) {
      ExecutingStaysInFlight(m, s, id);
    }
  }

  lemma {:induction false} FlightIsSound(m: Machine, s: Step, id: Name)
    requires BodyInv(m) && !DeniesRunning(m, s) && id in InFlight(Apply(m, s))
    ensures id in Apply(m, s).eligible && Flying(Apply(m, s), id)
  {
    hide Apply;
    EligibleOnlyGrows(m, s);
    if id in InFlight(m) {
      assert Flying(m, id);
      FlyingIsKept(m, s, id);
    } else {
      FlightOrigin(m, s, id);
    }
  }

  lemma {:induction false} EligibleIsVacated(m: Machine, s: Step, id: Name)
    requires BodyInv(m) && !DeniesRunning(m, s) && id in Apply(m, s).eligible
    ensures id in Apply(m, s).x.slots && Vacated(Apply(m, s), id)
  {
    hide Apply, WellFormed;
    StepKeepsScheduler(m, s);
    assert MayLaunch(Apply(m, s).x, id);
    if id in m.eligible {
      VacatedIsKept(m, s, id);
    } else {
      NewlyEligibleIsUncancelled(m, s, id);
      forall a | a in InFlight(m) ensures Flying(Apply(m, s), a) {
        FlightIsSound(m, s, a);
      }
      CounterIsExact(m, s);
      NewlyEligibleIsVacated(m, s, id);
    }
  }

  /** No denial along the way hits a running safe body. */
  ghost predicate Tame(m: Machine, steps: seq<Step>) {
    steps == []
    || (Tame(m, steps[..|steps| - 1]) && !DeniesRunning(Run(m, steps[..|steps| - 1]), steps[|steps| - 1]))
  }

  lemma {:induction false} RunKeepsBodies(m: Machine, steps: seq<Step>)
    requires BodyInv(m) && Tame(m, steps)
    ensures BodyInv(Run(m, steps))
  {
    hide Apply;
    if steps != [] {
      RunKeepsBodies(m, steps[..|steps| - 1]);
      StepKeepsBodies(Run(m, steps[..|steps| - 1]), steps[|steps| - 1]);
    }
  }

  lemma InitialBodies()
    ensures BodyInv(Initial)
  {
  }

  lemma {:induction false} BodiesApart(m: Machine, a: Name, b: Name)
    requires BodyInv(m) && a in InFlight(m) && b in InFlight(m) && a != b
    ensures a in m.x.slots && b in m.x.slots && m.x.slots[a].call.safe && m.x.slots[b].call.safe
  {
    assert Vacated(m, a) && Vacated(m, b);
    assert SlotOk(m.x, a, m.x.slots[a]) && SlotOk(m.x, b, m.x.slots[b]);
  }

  /** While no denial hits a running safe body, no tool body that needs exclusive access ever
      overlaps another one, not even one whose call is already denied, aborted or yielded. */
  lemma {:induction false} ExclusiveBodies(steps: seq<Step>, m: Machine, a: Name, b: Name)
    requires Tame(Initial, steps) && m == Run(Initial, steps) && a in m.running && b in m.running && a != b
    ensures a in m.x.slots && b in m.x.slots && m.x.slots[a].call.safe && m.x.slots[b].call.safe
  {
    hide Apply, BodyInv;
    InitialBodies();
    RunKeepsBodies(Initial, steps);
    BodiesApart(m, a, b);
  }
}
