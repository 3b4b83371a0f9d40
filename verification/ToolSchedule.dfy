/** Fully granted lists of calls complete (agent/tools_executor.go): along every schedule in which
    launches go on, bodies return and drains keep coming, every call ends. */
module ToolSchedule {
  import opened Prelude
  import opened ToolExecutor
  import opened ToolBodies
  import opened ToolProgress

  /** An endless interleaving of critical sections. */
  type Schedule = nat -> Step

  ghost function At(m: Machine, f: Schedule, i: nat): (r: Machine) {
    if i == 0 then m else Apply(At(m, f, i - 1), f(i - 1))
  }

  /** A step that adds no call, denies no running safe body and leaves execution uncancelled. */
  predicate CalmStep(m: Machine, s: Step) {
    !s.Add? && !DeniesRunning(m, s) && !Apply(m, s).x.cancelled
  }

  ghost predicate Calm(m: Machine, f: Schedule) {
    forall i: nat :: CalmStep(At(m, f, i), f(i))
  }

  /** Every launch reaches its second section, every body returns, a call that passed its start
      check is launched, and drains keep coming. */
  ghost predicate Fair(m: Machine, f: Schedule) {
    && (forall i: nat, id :: id in At(m, f, i).reserved ==> LeavesReserved(m, f, i, id))
    && (forall i: nat, id :: id in At(m, f, i).running ==> LeavesRunning(m, f, i, id))
    && (forall i: nat, id :: id in At(m, f, i).eligible && IsWaiting(At(m, f, i).x, id) ==> LeavesQueue(m, f, i, id))
    && (forall i: nat :: DrainsAfter(f, i))
  }

  ghost predicate LeavesReserved(m: Machine, f: Schedule, i: nat, id: Name) {
    exists j: nat :: i <= j && id !in At(m, f, j).reserved
  }

  ghost predicate LeavesRunning(m: Machine, f: Schedule, i: nat, id: Name) {
    exists j: nat :: i <= j && id !in At(m, f, j).running
  }

  ghost predicate LeavesQueue(m: Machine, f: Schedule, i: nat, id: Name) {
    exists j: nat :: i <= j && !IsWaiting(At(m, f, j).x, id)
  }

  ghost predicate DrainsAfter(f: Schedule, i: nat) {
    exists j: nat :: i <= j && f(j) == Drain
  }

  // ----- Live machines stay live, and no call gets heavier -----

  lemma {:induction false} LiveStep(m: Machine, s: Step)
    requires Live(m) && CalmStep(m, s)
    ensures Live(Apply(m, s)) && Apply(m, s).x.order == m.x.order
    ensures forall id :: Weight(Apply(m, s), id) <= Weight(m, id)
  {
    hide Apply, Weight, WellFormed;
    StepKeepsBodies(m, s);
    forall id ensures Weight(Apply(m, s), id) <= Weight(m, id) && Apply(m, s).x.order == m.x.order {
      StepWeight(m, s, id);
    }
    assert Weight(Apply(m, s), NoName) <= Weight(m, NoName);
    GrantsStay(m, s);
  }

  lemma {:induction false} StepWeight(m: Machine, s: Step, id: Name)
    requires BodyInv(m) && !s.Add?
    ensures Weight(Apply(m, s), id) <= Weight(m, id) && Apply(m, s).x.order == m.x.order
  {
    hide Apply, Weight;
    assert id in m.x.slots ==> SlotOk(m.x, id, m.x.slots[id]);
    WeightNeverGrows(m, s, id);
  }

  lemma {:induction false} GrantsStay(m: Machine, s: Step)
    requires BodyInv(m) && !s.Add? && AllGranted(m.x)
    ensures AllGranted(Apply(m, s).x)
  {
    hide Apply, BodyInv, Grows;
    var r := Apply(m, s);
    assert WellFormed(m.x) by { InvIsWellFormed(m); }
    StepGrows(m, s);
    forall id | id in r.x.slots && r.x.slots[id].state == Queued ensures r.x.slots[id].call.safe
        || r.x.slots[id].granted {
      StepWeight(m, s, id);
      assert m.x.slots[id].state == Queued;
      GrowsAt(m.x, r.x, id);
    }
  }

  lemma InvIsWellFormed(m: Machine)
    requires BodyInv(m)
    ensures WellFormed(m.x)
  {
  }

  /** Later machines are live and no heavier, call by call. */
  ghost predicate NoHeavier(m: Machine, r: Machine) {
    Live(r) && r.x.order == m.x.order && forall id :: Weight(r, id) <= Weight(m, id)
  }

  lemma {:induction false} Onward(m: Machine, f: Schedule, i: nat, j: nat)
    requires Live(At(m, f, i)) && Calm(m, f) && i <= j
    ensures NoHeavier(At(m, f, i), At(m, f, j))
    decreases j
  {
    hide Apply, Live, Weight, CalmStep, At, NoHeavier;
    if i == j {
      NoHeavierRefl(At(m, f, i));
    } else {
      Onward(m, f, i, j - 1);
      NoHeavierStep(At(m, f, i), At(m, f, j - 1), f(j - 1));
      AtNext(m, f, j - 1);
    }
  }

  lemma {:induction false} AtNext(m: Machine, f: Schedule, i: nat)
    ensures At(m, f, i + 1) == Apply(At(m, f, i), f(i))
  {
    hide Apply;
  }

  lemma NoHeavierRefl(m: Machine)
    requires Live(m)
    ensures NoHeavier(m, m)
  {
  }

  lemma {:induction false} NoHeavierStep(m: Machine, r: Machine, s: Step)
    requires NoHeavier(m, r) && CalmStep(r, s)
    ensures NoHeavier(m, Apply(r, s))
  {
    hide Apply, Live, Weight, CalmStep;
    LiveStep(r, s);
  }

  /** The work left in the whole list. */
  ghost function Left(m: Machine): (w: nat) {
    Work(m, |m.x.order|)
  }

  lemma {:induction false} LeftCompare(m: Machine, r: Machine, id: Name)
    requires Live(m) && NoHeavier(m, r) && id in m.x.slots
    ensures Left(r) <= Left(m)
    ensures Weight(r, id) < Weight(m, id) ==> Left(r) < Left(m)
  {
    hide Weight, Live, BodyInv;
    assert SlotOk(m.x, id, m.x.slots[id]) by { LiveSlot(m, id); }
    WorkCompare(m, r, |m.x.order|, m.x.slots[id].at);
  }

  lemma LiveSlot(m: Machine, id: Name)
    requires Live(m) && id in m.x.slots
    ensures SlotOk(m.x, id, m.x.slots[id])
  {
  }

  // ----- Something always moves on -----

  /** Some later machine has less work left. */
  ghost predicate Shrinks(m: Machine, f: Schedule, i: nat) {
    exists j: nat :: i <= j && Left(At(m, f, j)) < Left(At(m, f, i))
  }

  lemma {:induction false} ShrinksAt(m: Machine, f: Schedule, i: nat, j: nat, id: Name)
    requires Live(At(m, f, i)) && Calm(m, f) && i <= j && id in At(m, f, i).x.slots
    requires Weight(At(m, f, j), id) < Weight(At(m, f, i), id)
    ensures Shrinks(m, f, i)
  {
    hide Live, Weight, At, NoHeavier, Calm, Left;
    Onward(m, f, i, j);
    LeftCompare(At(m, f, i), At(m, f, j), id);
  }

  /** An executing call is started or ends. */
  lemma {:induction false} ExecutingMovesOn(m: Machine, f: Schedule, i: nat, id: Name)
    requires Live(At(m, f, i)) && Calm(m, f) && Fair(m, f) && IsExecuting(At(m, f, i).x, id)
    ensures Shrinks(m, f, i)
  {
    hide At, CalmStep, Shrinks;
    assert id in InFlight(At(m, f, i));
    var j: nat;
    if id in At(m, f, i).running {
      assert LeavesRunning(m, f, i, id);
      j :| i <= j && id !in At(m, f, j).running;
    } else {
      assert LeavesReserved(m, f, i, id);
      j :| i <= j && id !in At(m, f, j).reserved;
    }
    Onward(m, f, i, j);
    LighterWhenGone(At(m, f, i), At(m, f, j), id);
    ShrinksAt(m, f, i, j, id);
  }

  lemma {:induction false} LighterWhenGone(m: Machine, r: Machine, id: Name)
    requires Live(m) && NoHeavier(m, r) && IsExecuting(m.x, id)
    requires if id in m.running then id !in r.running else id !in r.reserved
    ensures Weight(r, id) < Weight(m, id)
  {
    assert IsExecuting(r.x, id) ==> id in InFlight(r);
  }

  /** Nothing executes and no new body has started. */
  ghost predicate StillQuiet(m: Machine, r: Machine) {
    Quiet(r.x) && r.running <= m.running
  }

  lemma {:induction false} StillQuietStep(m: Machine, r: Machine, s: Step)
    requires Live(r) && CalmStep(r, s) && StillQuiet(m, r)
    ensures StillQuiet(m, Apply(r, s)) || Left(Apply(r, s)) < Left(r)
  {
    hide Apply, CalmStep, Live, BodyInv, Weight;
    LiveStep(r, s);
    var n := Apply(r, s);
    if id :| IsExecuting(n.x, id) {
      BecomesExecuting(r, s, id);
      LeftCompare(r, n, id);
    } else {
      assert forall id :: id in n.x.slots ==> !IsExecuting(n.x, id);
      forall c | c in n.running ensures c in m.running {
        if c !in r.running {
          BodiesStart(r, s, c);
        }
      }
    }
  }

  lemma {:induction false} BecomesExecuting(m: Machine, s: Step, id: Name)
    requires Live(m) && CalmStep(m, s) && Quiet(m.x) && IsExecuting(Apply(m, s).x, id)
    ensures id in m.x.slots && Weight(Apply(m, s), id) < Weight(m, id)
  {
    hide Apply, Live;
    LiveIsBodyInv(m);
    StepWeight(m, s, id);
  }

  lemma LiveIsBodyInv(m: Machine)
    requires Live(m)
    ensures BodyInv(m)
  {
  }

  lemma {:induction false} QuietLasts(m: Machine, f: Schedule, i: nat, j: nat)
    requires Live(At(m, f, i)) && Calm(m, f) && i <= j && Quiet(At(m, f, i).x) && !Shrinks(m, f, i)
    ensures StillQuiet(At(m, f, i), At(m, f, j)) && Left(At(m, f, j)) == Left(At(m, f, i))
    decreases j
  {
    hide At, CalmStep, Live, Left, NoHeavier, Quiet;
    if i < j {
      QuietLasts(m, f, i, j - 1);
      Onward(m, f, i, j - 1);
      AtNext(m, f, j - 1);
      hide Apply;
      assert Live(At(m, f, j - 1)) by { NoHeavierIsLive(At(m, f, i), At(m, f, j - 1)); }
      StillQuietStep(At(m, f, i), At(m, f, j - 1), f(j - 1));
      LeftMonotone(At(m, f, j - 1), f(j - 1));
      assert !(Left(At(m, f, j)) < Left(At(m, f, i)));
    }
  }

  lemma NoHeavierIsLive(m: Machine, r: Machine)
    requires NoHeavier(m, r)
    ensures Live(r)
  {
  }

  lemma {:induction false} LeftMonotone(m: Machine, s: Step)
    requires Live(m) && CalmStep(m, s)
    ensures Left(Apply(m, s)) <= Left(m)
  {
    hide Apply, Live, Weight, CalmStep, Work;
    LiveStep(m, s);
    WorkMonotone(m, Apply(m, s));
  }

  lemma {:induction false} WorkMonotone(m: Machine, r: Machine)
    requires r.x.order == m.x.order && forall id :: Weight(r, id) <= Weight(m, id)
    ensures Work(r, |m.x.order|) <= Work(m, |m.x.order|)
  {
    hide Work, Weight;
    WorkCompare(m, r, |m.x.order|, 0);
  }

  /** Nothing executes: the bodies of denied calls return, one after the other... */
  lemma {:induction false} BodiesReturn(m: Machine, f: Schedule, i: nat) returns (j: nat)
    requires Live(At(m, f, i)) && Calm(m, f) && Fair(m, f) && Quiet(At(m, f, i).x) && !Shrinks(m, f, i)
    ensures i <= j && At(m, f, j).running == {}
    decreases |At(m, f, i).running|
  {
    hide At, CalmStep, Live, Left, Quiet, NoHeavier;
    j := i;
    if c :| c in At(m, f, i).running {
      assert LeavesRunning(m, f, i, c);
      var k: nat :| i <= k && c !in At(m, f, k).running;
      QuietLasts(m, f, i, k);
      Onward(m, f, i, k);
      NoHeavierIsLive(At(m, f, i), At(m, f, k));
      FewerBodies(At(m, f, i).running, At(m, f, k).running, c);
      j := BodiesReturn(m, f, k);
    }
  }

  lemma FewerBodies(a: set<Name>, b: set<Name>, c: Name)
    requires b <= a && c in a && c !in b
    ensures |b| < |a|
  {
    SubsetSize(b, a - {c});
  }

  lemma {:induction false} SubsetSize(a: set<Name>, b: set<Name>)
    requires a <= b
    ensures |a| <= |b|
  {
    if x :| x in a {
      SubsetSize(a - {x}, b - {x});
    }
  }

  /** ...and the next drain finds the first unfinished call, which is then launched. */
  lemma {:induction false} WaitingMovesOn(m: Machine, f: Schedule, i: nat)
    requires Live(At(m, f, i)) && Calm(m, f) && Fair(m, f) && Quiet(At(m, f, i).x) && !AllDone(At(m, f, i).x)
    ensures Shrinks(m, f, i)
  {
    hide At, CalmStep, Live, Left, NoHeavier, Quiet, AllDone;
    if !Shrinks(m, f, i) {
      var j := BodiesReturn(m, f, i);
      assert DrainsAfter(f, j);
      var k: nat :| j <= k && f(k) == Drain;
      QuietLasts(m, f, i, k);
      Onward(m, f, i, k);
      NoHeavierIsLive(At(m, f, i), At(m, f, k));
      StaysIdle(m, f, i, j, k);
      var id := DrainFinds(At(m, f, k)) by { StaysUndone(m, f, i, k); }
      AtNext(m, f, k);
      DrainKeeps(At(m, f, k));
      assert LeavesQueue(m, f, k + 1, id);
      var n: nat :| k + 1 <= n && !IsWaiting(At(m, f, n).x, id);
      LaunchShrinks(m, f, i, k, n, id);
    }
  }

  lemma {:induction false} StaysIdle(m: Machine, f: Schedule, i: nat, j: nat, k: nat)
    requires Live(At(m, f, i)) && Calm(m, f) && Quiet(At(m, f, i).x) && !Shrinks(m, f, i)
    requires i <= j <= k && At(m, f, j).running == {}
    ensures At(m, f, k).running == {}
  {
    hide At, CalmStep, Live, Left, NoHeavier, Quiet;
    QuietLasts(m, f, i, j);
    Onward(m, f, i, j);
    NoHeavierIsLive(At(m, f, i), At(m, f, j));
    QuietLasts(m, f, j, k);
  }

  lemma {:induction false} StaysUndone(m: Machine, f: Schedule, i: nat, k: nat)
    requires Live(At(m, f, i)) && Calm(m, f) && i <= k && !Shrinks(m, f, i) && !AllDone(At(m, f, i).x)
    ensures !AllDone(At(m, f, k).x)
  {
    hide At, CalmStep, Live, Left, NoHeavier;
    var id :| id in At(m, f, i).x.slots && !Terminal(At(m, f, i).x.slots[id].state);
    Onward(m, f, i, k);
    LeftCompare(At(m, f, i), At(m, f, k), id);
    assert Weight(At(m, f, k), id) >= Weight(At(m, f, i), id) > 0;
  }

  lemma {:induction false} DrainFinds(m: Machine) returns (id: Name)
    requires Live(m) && Quiet(m.x) && m.running == {} && !AllDone(m.x)
    ensures id in DrainBatch(m.x) && IsWaiting(m.x, id)
  {
    var k := FirstPending(m.x);
    AllDoneFromOrder(m.x);
    id := m.x.order[k];
    assert !Done(m.x, id) && id in m.x.slots;
    DrainLaunchesFirst(m, k);
  }

  lemma {:induction false} DrainKeeps(m: Machine)
    ensures Apply(m, Drain).x == m.x && forall id :: id in DrainBatch(m.x) ==> id in Apply(m, Drain).eligible
  {
    hide DrainBatch;
  }

  lemma {:induction false} LaunchShrinks(m: Machine, f: Schedule, i: nat, k: nat, n: nat, id: Name)
    requires Live(At(m, f, i)) && Calm(m, f) && i <= k <= n
    requires IsWaiting(At(m, f, k).x, id) && !IsWaiting(At(m, f, n).x, id)
    ensures Shrinks(m, f, i)
  {
    hide At, CalmStep, Live, Left;
    Onward(m, f, i, k);
    Onward(m, f, k, n);
    assert Weight(At(m, f, n), id) < 3 <= Weight(At(m, f, i), id);
    ShrinksAt(m, f, i, n, id);
  }

  // ----- Completion -----

  lemma {:induction false} CompletesFrom(m: Machine, f: Schedule, i: nat) returns (n: nat)
    requires Live(At(m, f, i)) && Calm(m, f) && Fair(m, f)
    ensures n >= i && AllDone(At(m, f, n).x)
    decreases Left(At(m, f, i))
  {
    hide At, Calm, Live, Left, NoHeavier, Fair;
    if AllDone(At(m, f, i).x) {
      n := i;
    } else {
      if Quiet(At(m, f, i).x) {
        WaitingMovesOn(m, f, i);
      } else {
        var id :| id in At(m, f, i).x.slots && At(m, f, i).x.slots[id].state == Executing;
        ExecutingMovesOn(m, f, i, id);
      }
      var j: nat :| i <= j && Left(At(m, f, j)) < Left(At(m, f, i));
      Onward(m, f, i, j);
      NoHeavierIsLive(At(m, f, i), At(m, f, j));
      n := CompletesFrom(m, f, j);
    }
  }

  lemma {:induction false} DoneStays(m: Machine, f: Schedule, n: nat, k: nat)
    requires Live(At(m, f, n)) && Calm(m, f) && n <= k && AllDone(At(m, f, n).x)
    ensures AllDone(At(m, f, k).x)
  {
    hide At, Calm, Live;
    Onward(m, f, n, k);
    forall id | id in At(m, f, k).x.slots ensures Terminal(At(m, f, k).x.slots[id].state) {
      assert Weight(At(m, f, k), id) <= Weight(At(m, f, n), id);
    }
  }

  /** Take any run without a denial of a running safe body, at a point where nothing is cancelled
      and every queued call is safe or granted. From there on, along every fair schedule, all calls
      end and stay ended. */
  lemma {:induction false} GrantedListsComplete(steps: seq<Step>, m: Machine, f: Schedule) returns (n: nat)
    requires Tame(Initial, steps) && m == Run(Initial, steps) && !m.x.cancelled && AllGranted(m.x)
    requires Calm(m, f) && Fair(m, f)
    ensures forall k: nat :: k >= n ==> AllDone(At(m, f, k).x)
  {
    hide Calm, Fair, AllDone, Tame, Run, AllGranted, Live;
    GrantedRunsAreLive(steps);
    assert At(m, f, 0) == m;
    hide At;
    n := CompletesFrom(m, f, 0);
    Onward(m, f, 0, n);
    NoHeavierIsLive(At(m, f, 0), At(m, f, n));
    forall k: nat | k >= n ensures AllDone(At(m, f, k).x) {
      DoneStays(m, f, n, k);
    }
  }

  // ----- How many steps that takes -----

  /** How often a run launches, starts or ends a call. */
  ghost function Advances(m: Machine, steps: seq<Step>): (n: nat) {
    if steps == [] then 0
    else
      var before := Run(m, steps[..|steps| - 1]);
      Advances(m, steps[..|steps| - 1]) + if MovesOn(before, steps[|steps| - 1]) then 1 else 0
  }

  /** The step launches, starts or ends some call. */
  ghost predicate MovesOn(m: Machine, s: Step) {
    exists id :: id in m.x.slots && Weight(Apply(m, s), id) < Weight(m, id)
  }

  ghost predicate AllCalm(m: Machine, steps: seq<Step>) {
    steps == []
    || (AllCalm(m, steps[..|steps| - 1]) && CalmStep(Run(m, steps[..|steps| - 1]), steps[|steps| - 1]))
  }

  lemma {:induction false} WorkBound(m: Machine, k: nat)
    requires k <= |m.x.order|
    ensures Work(m, k) <= 3 * k
  {
    if k > 0 {
      WorkBound(m, k - 1);
    }
  }

  lemma {:induction false} AdvancesCost(m: Machine, steps: seq<Step>)
    requires Live(m) && AllCalm(m, steps)
    ensures Live(Run(m, steps)) && Run(m, steps).x.order == m.x.order
    ensures Advances(m, steps) + Left(Run(m, steps)) <= Left(m)
  {
    hide Apply, Live, CalmStep, Weight, MovesOn, Left;
    if steps != [] {
      var r, s := Run(m, steps[..|steps| - 1]), steps[|steps| - 1];
      AdvancesCost(m, steps[..|steps| - 1]);
      LiveStep(r, s);
      OneAdvance(r, s);
    }
  }

  lemma {:induction false} OneAdvance(m: Machine, s: Step)
    requires Live(m) && CalmStep(m, s)
    ensures Left(Apply(m, s)) + (if MovesOn(m, s) then 1 else 0) <= Left(m)
  {
    hide Apply, Live, CalmStep, Weight, Left;
    LeftMonotone(m, s);
    LiveStep(m, s);
    if id :| id in m.x.slots && Weight(Apply(m, s), id) < Weight(m, id) {
      LeftCompare(m, Apply(m, s), id);
    }
  }

  /** No run goes round in circles: each call is launched, started and ended at most once, whatever
      the interleaving. */
  lemma {:induction false} AdvancesAreBounded(m: Machine, steps: seq<Step>)
    requires Live(m) && AllCalm(m, steps)
    ensures Advances(m, steps) <= 3 * |m.x.order|
  {
    hide Live, AllCalm, Advances, Run;
    AdvancesCost(m, steps);
    WorkBound(m, |m.x.order|);
  }
}
