/** What holds along every run of the phase and permission machine. */
module RunLaws {
  import opened Prelude
  import opened RunState

  /** Every phase change is an edge of the table, with exactly one exception: a run that ends
      before anyone noticed its cancelled context passes through `Cancelling` unseen. */
  lemma PhaseChangesAreEdges(c: Core, s: Step)
    requires Inv(c) && Allowed(c, s) && !s.StepRenew?
    ensures var p, q := c.run.phase, Apply(c, s).run.phase;
            && (p != q && !CanTransition(p, q) <==>
                s.StepEnd? && IsLive(c, s.t) && c.run.contextDone && p != Cancelling)
            && (p == q || CanTransition(p, q) || (CanTransition(p, Cancelling) && CanTransition(Cancelling, q)))
  {
  }

  /** The run of `t` in the given phase, doing `activity` meanwhile. */
  function InPhase(t: Token, phase: Phase, activity: Phase, error: bool): (c: Core) {
    if phase == WaitingPermission
    then Core(t.generation, Run(t, phase, activity, false, NoReason, error, map[9 := Wait(Tool, 3)]),
              map[9 := Box(None, 0, 0)])
    else Core(t.generation, Run(t, phase, activity, false, NoReason, error, map[]), map[])
  }

  /** And every edge of the table between different phases is taken by some step of a run. */
  lemma {:induction false} EdgesAreTaken(p: Phase, q: Phase) returns (c: Core, s: Step)
    requires p != q && CanTransition(p, q)
    ensures Inv(c) && Allowed(c, s) && c.run.phase == p && Apply(c, s).run.phase == q
  {
    if !Active(p) {
      c := if p == Idle then Start(1) else InPhase(Token(1, 7), p, Preparing, false);
      s := StepBegin(7, false, false);
    } else if IsActivity(q) || q == WaitingPermission {
      c, s := MoveIsTaken(p, q);
    } else {
      c, s := StopIsTaken(p, q);
    }
  }

  lemma {:induction false} MoveIsTaken(p: Phase, q: Phase) returns (c: Core, s: Step)
    requires p != q && CanTransition(p, q) && Active(p) && (IsActivity(q) || q == WaitingPermission)
    ensures Inv(c) && Allowed(c, s) && c.run.phase == p && Apply(c, s).run.phase == q
  {
    var t := Token(1, 7);
    if p == WaitingPermission {
      c, s := InPhase(t, p, q, false), StepForget(t, 9);
      assert map[9 := Wait(Tool, 3)] - {9} == map[];
    } else if q == WaitingPermission {
      c, s := InPhase(t, p, p, false), StepAsk(t, Tool, 3, 9, false);
    } else {
      c, s := InPhase(t, p, p, false), StepMove(t, q);
    }
  }

  lemma {:induction false} StopIsTaken(p: Phase, q: Phase) returns (c: Core, s: Step)
    requires p != q && CanTransition(p, q) && Active(p) && !IsActivity(q) && q != WaitingPermission
    ensures Inv(c) && Allowed(c, s) && c.run.phase == p && Apply(c, s).run.phase == q
  {
    var t := Token(1, 7);
    c := InPhase(t, p, if IsActivity(p) then p else Preparing, q == Failed);
    s := if q == Cancelling then StepCancel(t, ByUser) else StepEnd(t);
    assert p == WaitingPermission ==> 9 in c.run.pending;
  }

  /** Steps that may replace the run. */
  predicate Starts(s: Step) {
    s.StepBegin? || s.StepBeginRecovery? || s.StepRenew?
  }

  predicate WithinRun(steps: seq<Step>) {
    forall i :: 0 <= i < |steps| ==> !Starts(steps[i])
  }

  /** Within one run, cancelling leads only to cancelled and a terminal phase is final. */
  lemma {:induction false} FinalPhases(c: Core, steps: seq<Step>)
    requires Inv(c) && Legal(c, steps) && WithinRun(steps)
    ensures var d := Execute(c, steps);
            && d.run.token == c.run.token
            && (c.run.phase == Cancelling ==> d.run.phase in {Cancelling, Cancelled})
            && (Terminal(c.run.phase) ==> d.run.phase == c.run.phase)
            && (c.run.phase == Idle ==> d.run.phase == Idle)
    decreases |steps|
  {
    if steps != [] {
      StepKeepsPhase(c, steps[0]);
      StepKeepsTickets(c, steps[0]);
      FinalStep(c, steps[0]);
      FinalPhases(Apply(c, steps[0]), steps[1..]);
    }
  }

  lemma FinalStep(c: Core, s: Step)
    requires PhaseInv(c) && Allowed(c, s) && !Starts(s)
    ensures var d := Apply(c, s);
            && d.run.token == c.run.token
            && (c.run.phase == Cancelling ==> d.run.phase in {Cancelling, Cancelled})
            && (Terminal(c.run.phase) ==> d.run.phase == c.run.phase)
            && (c.run.phase == Idle ==> d.run.phase == Idle)
  {
  }

  lemma {:induction false} ExecuteConcat(c: Core, a: seq<Step>, b: seq<Step>)
    ensures Execute(c, a + b) == Execute(Execute(c, a), b)
    ensures Legal(c, a + b) <==> Legal(c, a) && Legal(Execute(c, a), b)
    decreases |a|
  {
    if a == [] {
      assert a + b == b;
    } else {
      assert (a + b)[0] == a[0] && (a + b)[1..] == a[1..] + b;
      ExecuteConcat(Apply(c, a[0]), a[1..], b);
    }
  }

  /** A run publishes at most one terminal phase: any two terminal phases seen between its
      beginning and the next begin, reset or restore are the same. */
  lemma OneTerminalPhase(c: Core, before: seq<Step>, after: seq<Step>)
    requires Inv(c) && Legal(c, before + after) && WithinRun(after)
    requires Terminal(Execute(c, before).run.phase)
    ensures Execute(c, before + after).run.phase == Execute(c, before).run.phase
  {
    ExecuteConcat(c, before, after);
    RunKeepsInv(c, before);
    FinalPhases(Execute(c, before), after);
  }

  // ----- Permission tickets -----

  /** In every run each ticket gets at most one answer, and the channel of a pending request is
      empty, so that a reply made under the lock never blocks. */
  lemma TicketsAnsweredOnce(generation: nat, steps: seq<Step>, id: Name)
    requires Legal(Start(generation), steps)
    ensures var c := Execute(Start(generation), steps);
            && (id in c.boxes ==> c.boxes[id].taken <= c.boxes[id].sent <= 1)
            && (id in c.run.pending ==> id in c.boxes && c.boxes[id].content == None)
  {
    RunKeepsInv(Start(generation), steps);
  }

  lemma SingletonSize(s: set<Name>)
    ensures |s| == 1 <==> exists x :: IsTheOne(x, s)
  {
    if |s| == 1 {
      var x :| x in s;
      assert |s - {x}| == 0;
      assert IsTheOne(x, s);
    }
  }

  /** A reply is delivered if and only if exactly one pending request fits; it then reaches that
      request alone and closes it, and otherwise nothing changes. */
  lemma ReplyReachesTheOnlyFit(c: Core, kind: Option<Kind>, answer: Answer, id: Name)
    requires Inv(c)
    ensures var f, d := Fitting(c.run, kind, answer, id), Reply(c, kind, answer, id);
            && (CanReply(c.run) && |f| == 1 <==> d != c)
            && (forall x :: x in f && d != c ==>
                  d.boxes == c.boxes[x := Box(Some(Definite(answer)), 1, 0)] && d.run.pending == c.run.pending - {x})
  {
    var f := Fitting(c.run, kind, answer, id);
    SingletonSize(f);
    if CanReply(c.run) && |f| == 1 {
      var x :| IsTheOne(x, f);
      assert x in f && x in c.run.pending;
    }
  }

  // ----- Cancellation and stale tokens -----

  predicate Reuses(s: Step, t: Token) {
    (s.StepBegin? || s.StepBeginRecovery?) && s.id == t.id
  }

  /** A token that is not live becomes live exactly when a run is begun under its id in its own
      generation. */
  lemma RevivedExactly(c: Core, s: Step, t: Token)
    requires Inv(c) && Allowed(c, s) && !IsLive(c, t)
    ensures IsLive(Apply(c, s), t) <==>
            && Reuses(s, t) && t.generation == c.generation
            && !Active(c.run.phase) && !s.expired && !s.contextDone
            && (s.StepBeginRecovery? ==> Matches(c, s.previous) && c.run.reason != ByUser)
  {
  }

  /** `t` is over: not live, or on its way to cancelled. */
  predicate Over(c: Core, t: Token) {
    !IsLive(c, t) || c.run.phase == Cancelling
  }

  lemma OverStep(c: Core, s: Step, t: Token)
    requires Inv(c) && Allowed(c, s) && Over(c, t) && !Reuses(s, t)
    ensures Over(Apply(c, s), t)
  {
    if !IsLive(c, t) {
      RevivedExactly(c, s, t);
    }
  }

  /** Once a run is over it stays over, as long as its id is not used for another run. */
  lemma {:induction false} StaysOver(c: Core, steps: seq<Step>, t: Token)
    requires Inv(c) && Legal(c, steps) && Over(c, t)
    requires forall i :: 0 <= i < |steps| ==> !Reuses(steps[i], t)
    ensures Over(Execute(c, steps), t)
    decreases |steps|
  {
    if steps != [] {
      StepKeepsPhase(c, steps[0]);
      StepKeepsTickets(c, steps[0]);
      OverStep(c, steps[0], t);
      StaysOver(Apply(c, steps[0]), steps[1..], t);
    }
  }

  /** No waiter of a run returns a grant after the cancellation of that run was recorded. */
  lemma NoGrantAfterCancellation(c: Core, reason: Reason, steps: seq<Step>, t: Token, answer: Answer, callerDone: bool)
    requires Inv(c) && Legal(CancelRun(c, t, reason), steps)
    requires forall i :: 0 <= i < |steps| ==> !Reuses(steps[i], t)
    ensures Checked(Execute(CancelRun(c, t, reason), steps), t, answer, callerDone) == None
  {
    StepKeepsPhase(c, StepCancel(t, reason));
    StepKeepsTickets(c, StepCancel(t, reason));
    StaysOver(CancelRun(c, t, reason), steps, t);
  }

  /** A run is begun, asks for permission, is granted it and cancelled; its id is then reused. */
  function ReusedRun(t: Token): (steps: seq<Step>) {
    [StepBegin(t.id, false, false), StepAsk(t, Tool, 3, 9, false), StepReply(None, GRANT, 9),
     StepCancel(t, ByUser), StepEnd(t), StepBegin(t.id, false, false)]
  }

  const GRANT := Answer(Once, NoName)

  /** Reusing a run id does defeat the fence: the waiter of the cancelled run finds its token live
      again and returns the grant that lies in its channel. */
  lemma ReusedRunIdHonoursOldGrant()
    ensures var t := Token(1, 7);
            var c := Execute(Start(1), ReusedRun(t));
            && Legal(Start(1), ReusedRun(t)) && Granted(GRANT)
            && 9 in c.boxes && c.boxes[9].content == Some(GRANT) && Checked(c, t, GRANT, false) == Some(GRANT)
  {
    var t := Token(1, 7);
    var steps := ReusedRun(t);
    assert steps[..3] + steps[3..] == steps;
    ExecuteConcat(Start(1), steps[..3], steps[3..]);
    GrantedThenCancelled(t);
  }

  lemma {:induction false} GrantedThenCancelled(t: Token)
    requires t == Token(1, 7)
    ensures var steps := ReusedRun(t);
            var c := Execute(Start(1), steps[..3]);
            && Legal(Start(1), steps[..3]) && Legal(c, steps[3..])
            && Execute(c, steps[3..]) == c
            && c == Core(1, Run(t, Preparing, Preparing, false, NoReason, false, map[]),
                map[9 := Box(Some(GRANT), 1, 0)])
  {
    hide Apply, Execute, Legal, Allowed;
    var steps := ReusedRun(t);
    var c := Core(1, Run(t, Preparing, Preparing, false, NoReason, false, map[]), map[9 := Box(Some(GRANT), 1, 0)]);
    assert Legal(Start(1), steps[..3]) && Execute(Start(1), steps[..3]) == c by {
      AskAndGrant(t);
      ThreeSteps(Start(1), steps[0], steps[1], steps[2]);
      assert steps[..3] == [steps[0], steps[1], steps[2]];
    }
    assert Legal(c, steps[3..]) && Execute(c, steps[3..]) == c by {
      CancelAndReuse(t, c);
      ThreeSteps(c, steps[3], steps[4], steps[5]);
      assert steps[3..] == [steps[3], steps[4], steps[5]];
    }
  }

  lemma CancelAndReuse(t: Token, c: Core)
    requires t == Token(1, 7)
    requires c == Core(1, Run(t, Preparing, Preparing, false, NoReason, false, map[]), map[9 := Box(Some(GRANT), 1, 0)])
    ensures var c1 := Apply(c, StepCancel(t, ByUser)); var c2 := Apply(c1, StepEnd(t));
            var s2 := StepBegin(7, false, false);
            && Allowed(c, StepCancel(t, ByUser)) && Allowed(c1, StepEnd(t)) && Allowed(c2, s2) && Apply(c2, s2) == c
  {
    assert DenyAll(c.boxes, {}) == c.boxes;
  }

  lemma AskAndGrant(t: Token)
    requires t == Token(1, 7)
    ensures var c := AskPermission(BeginRun(Start(1), 7, false, false), t, Tool, 3, 9, false);
            var s0, s1, s2 := StepBegin(7, false, false), StepAsk(t, Tool, 3, 9, false), StepReply(None, GRANT, 9);
            && Allowed(Start(1), s0) && Allowed(Apply(Start(1), s0), s1) && Allowed(c, s2)
            && c == Apply(Apply(Start(1), s0), s1)
            && Apply(c, s2) == Reply(c, None, GRANT, 9)
            && Reply(c, None, GRANT, 9) ==
                 Core(1, Run(t, Preparing, Preparing, false, NoReason, false, map[]), map[9 := Box(Some(GRANT), 1, 0)])
  {
    var c := AskPermission(BeginRun(Start(1), 7, false, false), t, Tool, 3, 9, false);
    assert c.run.pending == map[9 := Wait(Tool, 3)];
    assert IsTheOne(9, Fitting(c.run, None, GRANT, 9));
    assert c.run.pending - {9} == map[];
  }

  lemma {:induction false} ThreeSteps(c: Core, s0: Step, s1: Step, s2: Step)
    ensures var c1 := Apply(c, s0); var c2 := Apply(c1, s1); var c3 := Apply(c2, s2);
            && Execute(c, [s0, s1, s2]) == c3
            && (Legal(c, [s0, s1, s2]) <==> Allowed(c, s0) && Allowed(c1, s1) && Allowed(c2, s2))
  {
    hide Apply, Allowed;
    var c1 := Apply(c, s0);
    var c2 := Apply(c1, s1);
    OneStep(c, s0, [s1, s2]);
    OneStep(c1, s1, [s2]);
    OneStep(c2, s2, []);
  }

  lemma {:induction false} OneStep(c: Core, s: Step, rest: seq<Step>)
    ensures Execute(c, [s] + rest) == Execute(Apply(c, s), rest)
    ensures Legal(c, [s] + rest) <==> Allowed(c, s) && Legal(Apply(c, s), rest)
  {
    hide Apply, Allowed;
    assert ([s] + rest)[1..] == rest;
  }
}
