/** The streaming tool scheduler (agent/tools_executor.go).

    Every mutex-protected block of the scheduler is one atomic step of a state machine.
    Goroutines that have left a block and not yet entered the next one are recorded in
    the sets `eligible`, `reserved` and `running`, so a run is any interleaving of blocks. */
module ToolExecutor {
  import opened Prelude

  datatype SlotState = Queued | Executing | Completed | Aborted | Yielded

  /** `safe` is IsConcurrencySafe and `siblingAbort` is SupportsSiblingAbort for this call. */
  datatype ToolCall = ToolCall(id: Name, safe: bool, siblingAbort: bool)

  datatype ToolResult = ToolResult(id: Name, content: Text)

  /** `at` is the position of the call in the executor's call order. */
  datatype Slot = Slot(call: ToolCall, at: nat, state: SlotState, result: Option<ToolResult>, isError: bool,
      granted: bool)

  /** The fields guarded by the executor's mutex. */
  datatype Shared = Shared(slots: map<Name, Slot>, order: seq<Name>, nonSafeRunning: int, cancelled: bool)

  /** The text of the synthetic result given to an aborted sibling. */
  const SIBLING_FAILED: Text := 1

  const NoCalls := Shared(map[], [], 0, false)

  predicate Terminal(s: SlotState) {
    s == Completed || s == Aborted || s == Yielded
  }

  /** Two calls may overlap only when both are concurrency-safe. */
  predicate Conflict(a: Slot, b: Slot) {
    !(a.call.safe && b.call.safe)
  }

  /** Every conflicting call before `b` in call order is terminal. */
  predicate Cleared(x: Shared, b: Name)
    requires b in x.slots
  {
    forall a :: a in x.slots && x.slots[a].at < x.slots[b].at && Conflict(x.slots[a], x.slots[b])
                ==> Terminal(x.slots[a].state)
  }

  predicate CanStart(x: Shared, id: Name, allowNonSafe: bool) {
    && !x.cancelled
    && id in x.slots
    && x.slots[id].state == Queued
    && (x.slots[id].call.safe || allowNonSafe)
    && Cleared(x, id)
    && x.nonSafeRunning <= 0
  }

  // ----- One function per critical section -----

  function Put(x: Shared, id: Name, s: Slot): (r: Shared) {
    x.(slots := x.slots[id := s])
  }

  function AddSlot(x: Shared, call: ToolCall): (r: Shared) {
    Put(x, call.id, Slot(call, |x.order|, Queued, None, false, false)).(order := x.order + [call.id])
  }

  function GrantSlot(x: Shared, id: Name): (r: Shared) {
    if id in x.slots && x.slots[id].state == Queued then Put(x, id, x.slots[id].(granted := true)) else x
  }

  function DenySlot(x: Shared, id: Name, content: Text): (r: Shared) {
    if id in x.slots
    then Put(x, id, x.slots[id].(state := Completed, result := Some(ToolResult(id, content)), isError := false))
    else x
  }

  function ReserveSlot(x: Shared, id: Name): (r: Shared) {
    if id in x.slots && x.slots[id].state == Queued then Put(x, id, x.slots[id].(state := Executing)) else x
  }

  function FailStart(x: Shared, id: Name, content: Text): (r: Shared) {
    if id in x.slots && x.slots[id].state == Executing
    then Put(x, id, x.slots[id].(state := Completed, isError := true, result := Some(ToolResult(id, content))))
    else x
  }

  function StartSlot(x: Shared, id: Name): (r: Shared) {
    if id in x.slots && x.slots[id].state == Executing && !x.slots[id].call.safe
    then x.(nonSafeRunning := x.nonSafeRunning + 1)
    else x
  }

  function ReportSlot(x: Shared, id: Name, content: Text, isError: bool): (r: Shared) {
    if id in x.slots
    then Put(x, id, x.slots[id].(result := Some(ToolResult(id, content)), isError := isError))
    else x
  }

  function FinishSlot(x: Shared, id: Name): (r: Shared)
    requires id in x.slots
  {
    var s := x.slots[id];
    var y := if s.state != Aborted then Put(x, id, s.(state := Completed)) else x;
    if s.call.safe then y else y.(nonSafeRunning := y.nonSafeRunning - 1)
  }

  predicate Abortable(x: Shared, failed: Name, id: Name) {
    && id in x.slots && id != failed
    && (x.slots[id].state == Queued || x.slots[id].state == Executing)
    && x.slots[id].call.siblingAbort
  }

  function AbortedSlot(s: Slot, id: Name): (r: Slot) {
    s.(state := Aborted, isError := true, result := Some(ToolResult(id, SIBLING_FAILED)))
  }

  function AbortSlots(x: Shared, failed: Name): (r: Shared) {
    if failed !in x.slots then x
    else
      x.(slots := map id | id in x.slots ::
           if Abortable(x, failed, id) then AbortedSlot(x.slots[id], id) else x.slots[id],
         cancelled := x.cancelled || exists id :: id in x.slots && Abortable(x, failed, id))
  }

  predicate Done(x: Shared, id: Name) {
    id in x.slots ==> Terminal(x.slots[id].state)
  }

  /** The number of leading calls that are already terminal. */
  function FirstPending(x: Shared, from: nat := 0): (k: nat)
    requires from <= |x.order|
    ensures from <= k <= |x.order|
    ensures forall i :: from <= i < k ==> Done(x, x.order[i])
    ensures k < |x.order| ==> !Done(x, x.order[k])
    decreases |x.order| - from
  {
    if from < |x.order| && Done(x, x.order[from]) then FirstPending(x, from + 1) else from
  }

  function YieldTo(x: Shared, k: nat): (r: Shared) {
    x.(slots := map id | id in x.slots :: if x.slots[id].at < k then x.slots[id].(state := Yielded) else x.slots[id])
  }

  /** Results of the first `k` calls that are not yielded yet, in call order. */
  function Buffered(x: Shared, k: nat): (r: seq<ToolResult>)
    requires k <= |x.order|
  {
    if k == 0 then []
    else
      var id := x.order[k - 1];
      var ready := id in x.slots && x.slots[id].state != Yielded && x.slots[id].result.Some?;
      Buffered(x, k - 1) + if ready then [x.slots[id].result.value] else []
  }

  predicate SafeReady(x: Shared, id: Name) {
    id in x.slots && x.slots[id].call.safe && CanStart(x, id, false)
  }

  predicate ExclusiveReady(x: Shared, id: Name) {
    id in x.slots && !x.slots[id].call.safe && x.slots[id].granted && CanStart(x, id, true)
  }

  function SafeBatch(x: Shared, k: nat): (r: seq<Name>)
    requires k <= |x.order|
    ensures forall id :: id in r ==> SafeReady(x, id)
    ensures forall i :: 0 <= i < k && SafeReady(x, x.order[i]) ==> x.order[i] in r
  {
    if k == 0 then []
    else SafeBatch(x, k - 1) + if SafeReady(x, x.order[k - 1]) then [x.order[k - 1]] else []
  }

  function ExclusiveBatch(x: Shared, from: nat := 0): (r: seq<Name>)
    requires from <= |x.order|
    ensures |r| <= 1
    ensures forall id :: id in r ==> ExclusiveReady(x, id)
    ensures forall i :: from <= i < |x.order| && ExclusiveReady(x, x.order[i]) ==> r != []
    decreases |x.order| - from
  {
    if from == |x.order| then []
    else if ExclusiveReady(x, x.order[from]) then [x.order[from]]
    else ExclusiveBatch(x, from + 1)
  }

  /** What a drain pass decides to launch. */
  function DrainBatch(x: Shared): (r: seq<Name>) {
    if x.cancelled then [] else SafeBatch(x, |x.order|) + ExclusiveBatch(x)
  }

  // ----- The scheduler as a state machine -----

  /** `eligible`: calls that passed the start check (a launch may follow at any later time);
      `reserved`: launches between their two critical sections; `running`: live tool goroutines;
      `collected`: everything handed to the caller so far. */
  datatype Machine = Machine(x: Shared, eligible: set<Name>, reserved: set<Name>, running: set<Name>,
                             collected: seq<ToolResult>)

  datatype Step =
    | Add(call: ToolCall)
    | Grant(id: Name)
    | Deny(id: Name, content: Text)
    | Drain
    | Reserve(id: Name)
    | StartFails(id: Name, content: Text)
    | Start(id: Name)
    | Report(id: Name, content: Text, isError: bool)
    | AbortSiblings(id: Name)
    | Cancel
    | Finish(id: Name)
    | Collect

  const Initial := Machine(NoCalls, {}, {}, {}, [])

  function Pass(m: Machine, y: Shared, id: Name, allowNonSafe: bool): (r: Machine) {
    m.(x := y, eligible := m.eligible + if CanStart(y, id, allowNonSafe) then {id} else {})
  }

  /** A step whose guard fails leaves the machine alone. Call ids are fresh and non-empty. */
  function Apply(m: Machine, s: Step): (r: Machine) {
    match s
    case Add(call) =>
      if call.id in m.x.slots || call.id == NoName then m
      else Pass(m, AddSlot(m.x, call), call.id, false)
    case Grant(id) =>
      if id in m.x.slots && m.x.slots[id].state == Queued then Pass(m, GrantSlot(m.x, id), id, true) else m
    case Deny(id, content) => m.(x := DenySlot(m.x, id, content))
    case Drain => m.(eligible := m.eligible + set id | id in DrainBatch(m.x))
    case Reserve(id) =>
      if id in m.eligible && id in m.x.slots && m.x.slots[id].state == Queued
      then m.(x := ReserveSlot(m.x, id), reserved := m.reserved + {id}) else m
    case StartFails(id, content) =>
      if id in m.reserved then m.(x := FailStart(m.x, id, content), reserved := m.reserved - {id}) else m
    case Start(id) =>
      if id !in m.reserved then m
      else
        var started := id in m.x.slots && m.x.slots[id].state == Executing;
        m.(x := StartSlot(m.x, id), reserved := m.reserved - {id}, running := m.running + if started then {id} else {})
    case Report(id, content, isError) =>
      if id in m.running then m.(x := ReportSlot(m.x, id, content, isError)) else m
    case AbortSiblings(id) => m.(x := AbortSlots(m.x, id))
    case Cancel => m.(x := m.x.(cancelled := true))
    case Finish(id) =>
      // The tool body has always written a result by the time its deferred block runs.
      if id in m.running && id in m.x.slots && m.x.slots[id].result.Some?
      then m.(x := FinishSlot(m.x, id), running := m.running - {id}) else m
    case Collect =>
      var k := FirstPending(m.x);
      m.(x := YieldTo(m.x, k), collected := m.collected + Buffered(m.x, k))
  }

  function Run(m: Machine, steps: seq<Step>): (r: Machine) {
    if steps == [] then m else Apply(Run(m, steps[..|steps| - 1]), steps[|steps| - 1])
  }

  // ----- Exclusion in every interleaving -----

  /** Slots and call order describe the same calls; results carry the id of their call. */
  ghost predicate WellFormed(x: Shared) {
    && (forall i :: 0 <= i < |x.order| ==> x.order[i] in x.slots && x.slots[x.order[i]].at == i)
    && (forall id :: id in x.slots ==> SlotOk(x, id, x.slots[id]))
  }

  ghost predicate SlotOk(x: Shared, id: Name, s: Slot) {
    && s.at < |x.order| && x.order[s.at] == id
    && s.call.id == id && id != NoName
    && (s.result.Some? ==> s.result.value.id == id)
    && (Terminal(s.state) ==> s.result.Some?)
  }

  ghost predicate SchedulerInv(m: Machine) {
    && WellFormed(m.x)
    && (forall id :: id in m.eligible ==> MayLaunch(m.x, id))
    && (forall id :: IsExecuting(m.x, id) ==> id in m.eligible)
  }

  predicate MayLaunch(x: Shared, id: Name) {
    id in x.slots && Cleared(x, id) && (x.slots[id].call.safe || x.slots[id].granted)
  }

  predicate IsExecuting(x: Shared, id: Name) {
    id in x.slots && x.slots[id].state == Executing
  }

  /** What no step undoes: terminal stays terminal, calls, positions and grants are kept. */
  ghost predicate SlotGrows(s: Slot, t: Slot) {
    && t.call == s.call && t.at == s.at
    && (Terminal(s.state) ==> Terminal(t.state))
    && (s.granted ==> t.granted)
  }

  ghost predicate Grows(x: Shared, y: Shared) {
    && |x.order| <= |y.order|
    && (forall id :: id in x.slots ==> id in y.slots && SlotGrows(x.slots[id], y.slots[id]))
    && (forall id :: id in y.slots && id !in x.slots ==> y.slots[id].at >= |x.order| && y.slots[id].state == Queued)
  }

  /** Stability: a call whose conflicting predecessors are all terminal keeps that property
      under every later step. This is what makes check-then-launch sound. */
  lemma ClearedIsStable(x: Shared, y: Shared, id: Name)
    requires WellFormed(x) && Grows(x, y) && MayLaunch(x, id)
    ensures MayLaunch(y, id)
  {
  }

  lemma GrowsAt(x: Shared, y: Shared, id: Name)
    requires Grows(x, y) && id in x.slots
    ensures id in y.slots && SlotGrows(x.slots[id], y.slots[id])
  {
  }

  /** Known calls keep their kind and position, and what is finished stays finished. */
  ghost predicate Keeps(x: Shared, y: Shared) {
    y.order == x.order && forall id :: id in x.slots ==> id in y.slots && SlotGrows(x.slots[id], y.slots[id])
  }

  lemma KeepsTrans(x: Shared, y: Shared, z: Shared)
    requires Keeps(x, y) && Keeps(y, z)
    ensures Keeps(x, z)
  {
  }

  lemma PutGrows(x: Shared, id: Name, s: Slot)
    requires WellFormed(x) && id in x.slots && SlotOk(x, id, s) && SlotGrows(x.slots[id], s)
    ensures WellFormed(Put(x, id, s)) && Grows(x, Put(x, id, s))
  {
  }

  lemma AddGrows(x: Shared, call: ToolCall)
    requires WellFormed(x) && call.id !in x.slots && call.id != NoName
    ensures WellFormed(AddSlot(x, call)) && Grows(x, AddSlot(x, call))
  {
  }

  lemma AbortGrows(x: Shared, failed: Name)
    requires WellFormed(x)
    ensures WellFormed(AbortSlots(x, failed)) && Grows(x, AbortSlots(x, failed))
  {
  }

  lemma {:induction false} YieldGrows(x: Shared, k: nat)
    requires WellFormed(x) && k <= FirstPending(x)
    ensures WellFormed(YieldTo(x, k)) && Grows(x, YieldTo(x, k))
  {
    forall id | id in x.slots && x.slots[id].at < k ensures Terminal(x.slots[id].state) {
      YieldedIsTerminal(x, k, id);
    }
    hide FirstPending, Done;
  }

  lemma YieldedIsTerminal(x: Shared, k: nat, id: Name)
    requires WellFormed(x) && k <= FirstPending(x) && id in x.slots && x.slots[id].at < k
    ensures Terminal(x.slots[id].state)
  {
    assert Done(x, x.order[x.slots[id].at]);
  }

  lemma GrantGrows(x: Shared, id: Name)
    requires WellFormed(x)
    ensures WellFormed(GrantSlot(x, id)) && Grows(x, GrantSlot(x, id))
  {
    if id in x.slots {
      PutGrows(x, id, x.slots[id].(granted := true));
    }
  }

  lemma DenyGrows(x: Shared, id: Name, content: Text)
    requires WellFormed(x)
    ensures WellFormed(DenySlot(x, id, content)) && Grows(x, DenySlot(x, id, content))
  {
    if id in x.slots {
      PutGrows(x, id, x.slots[id].(state := Completed, result := Some(ToolResult(id, content)), isError := false));
    }
  }

  lemma ReserveGrows(x: Shared, id: Name)
    requires WellFormed(x)
    ensures WellFormed(ReserveSlot(x, id)) && Grows(x, ReserveSlot(x, id))
  {
    if id in x.slots && x.slots[id].state == Queued {
      PutGrows(x, id, x.slots[id].(state := Executing));
    }
  }

  lemma FailStartGrows(x: Shared, id: Name, content: Text)
    requires WellFormed(x)
    ensures WellFormed(FailStart(x, id, content)) && Grows(x, FailStart(x, id, content))
  {
    if id in x.slots {
      PutGrows(x, id, x.slots[id].(state := Completed, isError := true, result := Some(ToolResult(id, content))));
    }
  }

  lemma ReportGrows(x: Shared, id: Name, content: Text, e: bool)
    requires WellFormed(x)
    ensures WellFormed(ReportSlot(x, id, content, e)) && Grows(x, ReportSlot(x, id, content, e))
  {
    if id in x.slots {
      PutGrows(x, id, x.slots[id].(result := Some(ToolResult(id, content)), isError := e));
    }
  }

  lemma FinishGrows(x: Shared, id: Name)
    requires WellFormed(x) && id in x.slots && x.slots[id].result.Some?
    ensures WellFormed(FinishSlot(x, id)) && Grows(x, FinishSlot(x, id))
  {
    PutGrows(x, id, x.slots[id].(state := Completed));
  }

  lemma CounterGrows(x: Shared, y: Shared)
    requires WellFormed(x) && y.slots == x.slots && y.order == x.order
    ensures WellFormed(y) && Grows(x, y)
  {
  }

  lemma {:induction false} StepGrows(m: Machine, s: Step)
    requires WellFormed(m.x)
    ensures WellFormed(Apply(m, s).x) && Grows(m.x, Apply(m, s).x)
  {
    hide WellFormed, Grows;
    var x := m.x;
    CounterGrows(x, x);
    match s
    case Add(call) => if call.id !in x.slots && call.id != NoName { AddGrows(x, call); }
    case Grant(id) => GrantGrows(x, id);
    case Deny(id, content) => DenyGrows(x, id, content);
    case Drain =>
    case Reserve(id) => ReserveGrows(x, id);
    case StartFails(id, content) => FailStartGrows(x, id, content);
    case Start(id) => CounterGrows(x, StartSlot(x, id));
    case Report(id, content, e) => ReportGrows(x, id, content, e);
    case AbortSiblings(id) => AbortGrows(x, id);
    case Cancel => CounterGrows(x, x.(cancelled := true));
    case Finish(id) => if id in x.slots && x.slots[id].result.Some? { FinishGrows(x, id); }
    case Collect => YieldGrows(x, FirstPending(x));
  }

  /** A call becomes eligible only by passing a start check... */
  lemma EligibleOrigin(m: Machine, s: Step, id: Name)
    requires id in Apply(m, s).eligible && id !in m.eligible
    ensures MayLaunch(Apply(m, s).x, id)
  {
  }

  /** ...and executing only when it was eligible before the launch. */
  lemma ExecutingOrigin(m: Machine, s: Step, id: Name)
    requires IsExecuting(Apply(m, s).x, id)
    ensures IsExecuting(m.x, id) || id in m.eligible
  {
  }

  lemma {:induction false} StepKeepsScheduler(m: Machine, s: Step)
    requires SchedulerInv(m)
    ensures SchedulerInv(Apply(m, s))
  {
    hide WellFormed, Grows, Apply, MayLaunch, IsExecuting;
    StepGrows(m, s);
    var r := Apply(m, s);
    EligibleOnlyGrows(m, s);
    forall id | id in r.eligible ensures MayLaunch(r.x, id) {
      if id in m.eligible {
        ClearedIsStable(m.x, r.x, id);
      } else {
        EligibleOrigin(m, s, id);
      }
    }
    forall id | IsExecuting(r.x, id) ensures id in r.eligible {
      ExecutingOrigin(m, s, id);
    }
  }

  lemma EligibleOnlyGrows(m: Machine, s: Step)
    ensures m.eligible <= Apply(m, s).eligible
  {
  }

  ghost predicate Reachable(m: Machine) {
    exists steps :: m == Run(Initial, steps)
  }

  lemma {:induction false} RunKeepsScheduler(steps: seq<Step>)
    ensures SchedulerInv(Run(Initial, steps))
  {
    hide Apply;
    if steps != [] {
      RunKeepsScheduler(steps[..|steps| - 1]);
      StepKeepsScheduler(Run(Initial, steps[..|steps| - 1]), steps[|steps| - 1]);
    }
  }

  lemma ExclusionFromInv(m: Machine, a: Name, b: Name)
    requires SchedulerInv(m) && a != b && IsExecuting(m.x, a) && IsExecuting(m.x, b)
    ensures m.x.slots[a].call.safe && m.x.slots[b].call.safe
  {
    assert SlotOk(m.x, a, m.x.slots[a]) && SlotOk(m.x, b, m.x.slots[b]);
    assert MayLaunch(m.x, a) && MayLaunch(m.x, b);
  }

  /** In every interleaving, denials of any call included, no two conflicting calls are ever
      both executing, and an executing call that is not concurrency-safe has been granted. */
  lemma {:induction false} ExclusiveExecution(m: Machine, a: Name, b: Name)
    requires Reachable(m) && IsExecuting(m.x, a) && IsExecuting(m.x, b)
    ensures a != b ==> m.x.slots[a].call.safe && m.x.slots[b].call.safe
    ensures m.x.slots[a].call.safe || m.x.slots[a].granted
  {
    hide Apply;
    var steps :| m == Run(Initial, steps);
    RunKeepsScheduler(steps);
    assert MayLaunch(m.x, a);
    if a != b {
      ExclusionFromInv(m, a, b);
    }
  }

  lemma {:induction false} ReachableStep(m: Machine, s: Step)
    requires Reachable(m)
    ensures Reachable(Apply(m, s))
  {
    hide Apply;
    var steps :| m == Run(Initial, steps);
    assert (steps + [s])[..|steps|] == steps;
    assert Run(Initial, steps + [s]) == Apply(m, s);
  }

  lemma InitialIsReachable()
    ensures Reachable(Initial)
  {
    assert Run(Initial, []) == Initial;
  }
}
