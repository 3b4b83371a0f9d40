/** Exactly when the clear barrier is broken: by a runtime that displaces another one, and by a
    foreground task that ends after the reset. */
module ClearLimits {
  import opened Prelude
  import opened ClearProtocol
  import opened ClearLaws

  // ----- Continuations -----

  /** Nothing is registered, and no foreground task ends unless `ends` allows it. */
  predicate Plain(e: Step, ends: bool) {
    !e.Register? && (ends || !e.FinishForeground?)
  }

  predicate AllPlain(steps: seq<Step>, ends: bool) {
    forall i :: 0 <= i < |steps| ==> Plain(steps[i], ends)
  }

  ghost predicate Reaches(a: State, b: State, ends: bool) {
    exists steps :: Legal(a, steps) && AllPlain(steps, ends) && Execute(a, steps) == b
  }

  lemma ReachesRefl(a: State, ends: bool)
    ensures Reaches(a, a, ends)
  {
    assert Legal(a, []) && AllPlain([], ends) && Execute(a, []) == a;
  }

  lemma {:induction false} ReachesStep(a: State, b: State, e: Step, ends: bool := true)
    requires Reaches(a, b, ends) && Enabled(b, e) && Plain(e, ends)
    ensures Reaches(a, Apply(b, e), ends)
  {
    hide Apply, Enabled;
    var steps :| Legal(a, steps) && AllPlain(steps, ends) && Execute(a, steps) == b;
    JustOne(b, e);
    ExecuteConcat(a, steps, [e]);
    hide Legal, Execute;
    assert AllPlain(steps + [e], ends);
  }

  lemma {:induction false} JustOne(b: State, e: Step)
    requires Enabled(b, e)
    ensures Legal(b, [e]) && Execute(b, [e]) == Apply(b, e)
  {
    hide Apply, Enabled;
    OneStep(b, [e]);
  }

  lemma {:induction false} PlainIsUndisplaced(s: State, steps: seq<Step>, ends: bool)
    requires Legal(s, steps) && AllPlain(steps, ends)
    ensures Undisplaced(s, steps)
    decreases |steps|
  {
    hide Apply, Enabled;
    if steps != [] {
      PlainIsUndisplaced(Apply(s, steps[0]), steps[1..], ends);
    }
  }

  // ----- A displaced runtime -----

  /** The displaced child is inside a durable write, and no task event is on its way. */
  ghost predicate Pinned(s: State, child: Name, epoch: nat, journal: seq<Event>) {
    child in s.children && s.children[child] == Child(epoch, true) && s.emitting == None && s.journal == journal
  }

  /** The clear waits for every registered runtime, none of which is the displaced one. */
  lemma {:induction false} WaitForAll(base: State, s: State, child: Name, epoch: nat, todo: set<Name>)
    returns (r: State)
    requires Reaches(base, s, true) && Pinned(s, child, epoch, base.journal) && s.aborting == Some(todo)
        && child !in todo
    ensures Reaches(base, r, true) && Pinned(r, child, epoch, base.journal) && r.aborting == Some({})
    ensures r.epoch == s.epoch && r.clears == s.clears
    decreases |todo|
  {
    hide Reaches;
    r := s;
    if c :| c in todo {
      if c in r.children && r.children[c].writing {
        ReachesStep(base, r, EndWrite(c));
        r := Apply(r, EndWrite(c));
      }
      ReachesStep(base, r, AbortChild(c));
      r := Apply(r, AbortChild(c));
      r := WaitForAll(base, r, child, epoch, todo - {c});
    }
  }

  /** The clear stops what it has collected; the announcements get lost. */
  lemma {:induction false} StopAll(base: State, s: State, child: Name, epoch: nat, clear: Name, refs: set<Name>)
    returns (r: State)
    requires Reaches(base, s, true) && Pinned(s, child, epoch, base.journal)
    requires clear in s.clears && s.clears[clear] == Stopping(epoch + 1, refs)
    ensures Reaches(base, r, true) && Pinned(r, child, epoch, base.journal)
    ensures clear in r.clears && r.clears[clear] == Stopping(epoch + 1, {})
    decreases |refs|
  {
    hide Reaches, IsTerminal, Fence;
    r := s;
    if t :| t in refs {
      ReachesStep(base, r, StopCollected(clear, t));
      r := Apply(r, StopCollected(clear, t));
      if r.emitting.Some? {
        ReachesStep(base, r, Emit(false));
        r := Apply(r, Emit(false));
        assert r.journal == base.journal;
      }
      r := StopAll(base, r, child, epoch, clear, refs - {t});
    }
  }

  /** A clear from its first to its last step, past a child that it does not wait for. */
  lemma {:induction false} ClearPasses(base: State, s: State, child: Name) returns (r: State)
    requires Reaches(base, s, true) && Pinned(s, child, s.epoch, base.journal)
    requires s.aborting == None && child !in s.agents.Values
    ensures Reaches(base, r, true) && r.journal == base.journal
        + [SessionReset(s.epoch + 1), ChildEvent(child, s.epoch)]
  {
    hide Reaches, IsTerminal, Fence;
    ReachesStep(base, s, ClearSession);
    var s1 := Apply(s, ClearSession);
    var s2 := WaitForAll(base, s1, child, s.epoch, s.agents.Values);
    var clear := FreshName(s2.clears.Keys);
    ReachesStep(base, s2, SessionRetired(clear));
    var s3 := Apply(s2, SessionRetired(clear));
    ReachesStep(base, s3, CollectTasks(clear));
    var s4 := Apply(s3, CollectTasks(clear));
    var s5 := StopAll(base, s4, child, s.epoch, clear, s4.clears[clear].refs);
    r := ResetPasses(base, s5, child, s.epoch, clear);
  }

  lemma {:induction false} ResetPasses(base: State, s: State, child: Name, epoch: nat, clear: Name) returns (r: State)
    requires Reaches(base, s, true) && Pinned(s, child, epoch, base.journal)
    requires clear in s.clears && s.clears[clear] == Stopping(epoch + 1, {})
    ensures Reaches(base, r, true) && r.journal == base.journal + [SessionReset(epoch + 1), ChildEvent(child, epoch)]
  {
    hide Reaches;
    ReachesStep(base, s, ShutdownDone(clear));
    var s1 := Apply(s, ShutdownDone(clear));
    ReachesStep(base, s1, WriteReset(clear, true));
    var s2 := Apply(s1, WriteReset(clear, true));
    ReachesStep(base, s2, Append(child));
    r := Apply(s2, Append(child));
  }

  lemma LateChildBreaks(journal: seq<Event>, child: Name, epoch: nat)
    ensures !Barrier(journal + [SessionReset(epoch + 1), ChildEvent(child, epoch)])
  {
    var all := journal + [SessionReset(epoch + 1), ChildEvent(child, epoch)];
    assert all[|journal|].SessionReset? && Guarded(all[|journal| + 1]);
  }

  /** The displaced runtime begins a durable write, unless it is inside one already. */
  lemma {:induction false} StartsWriting(base: State, child: Name) returns (s: State)
    requires child in base.children && base.children[child].epoch == base.epoch
    ensures Reaches(base, s, true) && Pinned(s, child, base.epoch, base.journal)
    ensures s.epoch == base.epoch && s.aborting == base.aborting && s.agents == base.agents
  {
    hide Reaches;
    ReachesRefl(base, true);
    s := base;
    if s.emitting.Some? {
      ReachesStep(base, s, Emit(false));
      s := Apply(s, Emit(false));
      assert s.journal == base.journal;
    }
    if !s.children[child].writing {
      ReachesStep(base, s, BeginWrite(child));
      s := Apply(s, BeginWrite(child));
    }
  }

  /** Some continuation breaks the barrier. */
  ghost predicate Breakable(s: State) {
    exists r :: Reaches(s, r, true) && !Barrier(r.journal)
  }

  lemma {:induction false} DisplacedBreaks(s: State, e: Step)
    requires Inv(s) && Enabled(s, e) && Displaces(s, e)
    ensures Breakable(Apply(s, e))
  {
    var base, lost := Apply(s, e), s.agents[e.agent];
    DisplacedIsUnreachable(s, e);
    hide Apply, Enabled, Inv, Displaces, Reaches, Barrier;
    var s1 := StartsWriting(base, lost);
    var r := ClearPasses(base, s1, lost);
    LateChildBreaks(base.journal, lost, base.epoch);
  }

  lemma {:induction false} DisplacedIsUnreachable(s: State, e: Step)
    requires Inv(s) && Enabled(s, e) && Displaces(s, e)
    ensures var r, lost := Apply(s, e), s.agents[e.agent];
            && r.aborting == None && lost !in r.agents.Values
            && lost in r.children && r.children[lost].epoch == r.epoch
  {
    hide TaskInv, ClearInv, EmitInv, JournalInv;
  }

  /** Registering lets some continuation without further registrations break the barrier if and only
      if it displaces another runtime. */
  lemma {:induction false} RegisterBreaksExactly(s: State, e: Step)
    requires Inv(s) && Enabled(s, e) && e.Register?
    ensures Breakable(Apply(s, e)) <==> Displaces(s, e)
  {
    hide Inv, Enabled, Displaces, Apply, Reaches, Barrier;
    if Displaces(s, e) {
      DisplacedBreaks(s, e);
    } else {
      StepKeepsInv(s, e);
      forall r | Reaches(Apply(s, e), r, true) ensures Barrier(r.journal) {
        ReachesKeepsBarrier(Apply(s, e), r);
      }
    }
  }

  lemma {:induction false} ReachesKeepsBarrier(s: State, r: State)
    requires Inv(s) && Reaches(s, r, true)
    ensures Barrier(r.journal)
  {
    hide Apply, Enabled, Legal, Execute, AllPlain;
    var steps :| Legal(s, steps) && AllPlain(steps, true) && Execute(s, steps) == r;
    PlainIsUndisplaced(s, steps, true);
    hide ChildInv, TaskInv, ClearInv, EmitInv, Barrier;
    RunKeepsInv(s, steps);
  }

  /** Two runtimes under one agent id are enough. */
  lemma {:induction false} DisplacedChildWritesAfterReset() returns (steps: seq<Step>)
    ensures Legal(Initial(), steps) && !Barrier(Execute(Initial(), steps).journal)
  {
    var first, second := Register(1, 5, 11), Register(1, 5, 12);
    var s1 := Apply(Initial(), first);
    assert s1.agents == map[5 := 11] && Displaces(s1, second);
    InitialInv();
    assert !Displaces(Initial(), first);
    StepKeepsInv(Initial(), first);
    DisplacedBreaks(s1, second);
    var s2 := Apply(s1, second);
    assert Enabled(Initial(), first) && Enabled(s1, second);
    hide Apply, Enabled, Inv, Displaces, Barrier, Initial;
    JustOne(Initial(), first);
    JustOne(s1, second);
    ExecuteConcat(Initial(), [first], [second]);
    var r :| Reaches(s2, r, true) && !Barrier(r.journal);
    var rest :| Legal(s2, rest) && AllPlain(rest, true) && Execute(s2, rest) == r;
    ExecuteConcat(Initial(), [first] + [second], rest);
    steps := [first] + [second] + rest;
  }

  // ----- Foreground tasks -----

  /** After the reset of an epoch the journal holds no event of anything older. */
  predicate FullBarrier(journal: seq<Event>) {
    forall i, j :: 0 <= i < j < |journal| && journal[i].SessionReset? && !journal[j].SessionReset? ==>
      journal[i].epoch <= journal[j].epoch
  }

  /** A newer reset is in the journal, or is the next thing a clear writes. */
  predicate Late(s: State, epoch: nat) {
    || (exists i :: 0 <= i < |s.journal| && s.journal[i].SessionReset? && epoch < s.journal[i].epoch)
    || (exists k :: k in s.clears && s.clears[k].Stopped? && epoch < s.clears[k].epoch)
  }

  /** The end of this foreground task is announced although a clear has passed it. */
  predicate Overdue(s: State, e: Step) {
    e.FinishForeground? && e.task in s.tasks && Fence(s) && Late(s, s.tasks[e.task].epoch)
  }

  predicate FullInv(s: State) {
    Inv(s) && FullBarrier(s.journal) && (s.emitting.Some? ==> !Late(s, s.emitting.value.epoch))
  }

  /** Whatever is no older than the floor is not late. */
  lemma {:induction false} FloorIsTimely(s: State, epoch: nat)
    requires Inv(s) && s.floor <= epoch
    ensures !Late(s, epoch)
  {
    hide ChildInv, TaskInv, EmitInv, Barrier;
  }

  /** Nothing becomes late except by the end of a shutdown. */
  lemma {:induction false} LatenessStep(s: State, e: Step, epoch: nat)
    requires Enabled(s, e) && EmitInv(s) && !e.ShutdownDone? && Late(Apply(s, e), epoch)
    ensures Late(s, epoch)
  {
    var r := Apply(s, e);
    ResetOrigin(s, e);
    if i :| 0 <= i < |r.journal| && r.journal[i].SessionReset? && epoch < r.journal[i].epoch {
      if i < |s.journal| {
        assert s.journal[i] == r.journal[i];
      }
    } else {
      var k :| k in r.clears && r.clears[k].Stopped? && epoch < r.clears[k].epoch;
      StoppedOrigin(s, e, k);
    }
  }

  lemma {:induction false} ResetOrigin(s: State, e: Step)
    requires Enabled(s, e)
    ensures var r := Apply(s, e);
            || r.journal == s.journal
            || (|r.journal| == |s.journal| + 1 && r.journal[..|s.journal|] == s.journal
                && (r.journal[|s.journal|].SessionReset? ==>
                      || (s.emitting == Some(r.journal[|s.journal|]) && e.Emit?)
                      || (e.WriteReset? && s.clears[e.clear] == Stopped(r.journal[|s.journal|].epoch))))
  {
  }

  lemma {:induction false} StoppedOrigin(s: State, e: Step, k: Name)
    requires Enabled(s, e) && !e.ShutdownDone? && k in Apply(s, e).clears && Apply(s, e).clears[k].Stopped?
    ensures k in s.clears && s.clears[k] == Apply(s, e).clears[k]
  {
  }

  /** A new announcement is of an open epoch, or it is the end of a foreground task. */
  lemma {:induction false} EmissionOrigin(s: State, e: Step)
    requires TaskInv(s) && ClearInv(s) && Enabled(s, e)
    requires Apply(s, e).emitting.Some? && Apply(s, e).emitting != s.emitting
    ensures var x := Apply(s, e).emitting.value;
            || s.floor <= x.epoch
            || (e.FinishForeground? && Fence(s) && x.epoch == s.tasks[e.task].epoch)
    ensures Apply(s, e).journal == s.journal && s.floor == Apply(s, e).floor
  {
  }

  lemma {:induction false} StepKeepsTimely(s: State, e: Step)
    requires FullInv(s) && Enabled(s, e) && !Overdue(s, e)
    ensures var r := Apply(s, e); r.emitting.Some? ==> !Late(r, r.emitting.value.epoch)
  {
    var r := Apply(s, e);
    if r.emitting.Some? {
      var epoch := r.emitting.value.epoch;
      if e.ShutdownDone? {
        assert false;
      } else if Late(r, epoch) {
        LatenessStep(s, e, epoch);
        EmissionOrigin(s, e);
        hide Apply, Enabled, Late;
        if s.floor <= epoch {
          FloorIsTimely(s, epoch);
        }
      }
    }
  }

  lemma {:induction false} StepKeepsFullBarrier(s: State, e: Step)
    requires FullInv(s) && Enabled(s, e)
    ensures FullBarrier(Apply(s, e).journal)
  {
    var r := Apply(s, e);
    ResetOrigin(s, e);
    if r.journal != s.journal && !r.journal[|s.journal|].SessionReset? {
      NewestIsTimely(s, e);
      hide Apply, Enabled, Inv;
    }
  }

  lemma {:induction false} NewestIsTimely(s: State, e: Step)
    requires FullInv(s) && Enabled(s, e) && |Apply(s, e).journal| == |s.journal| + 1
    requires !Apply(s, e).journal[|s.journal|].SessionReset?
    ensures !Late(s, Apply(s, e).journal[|s.journal|].epoch)
  {
    var r := Apply(s, e);
    if e.Append? {
      assert r.journal[|s.journal|] == ChildEvent(e.child, s.children[e.child].epoch);
      hide Late;
      FloorIsTimely(s, s.children[e.child].epoch);
    } else {
      AppendedEvent(s, e);
    }
  }

  lemma {:induction false} AppendedEvent(s: State, e: Step)
    requires Enabled(s, e) && |Apply(s, e).journal| == |s.journal| + 1 && !e.Append?
    requires !Apply(s, e).journal[|s.journal|].SessionReset?
    ensures s.emitting == Some(Apply(s, e).journal[|s.journal|])
  {
  }

  lemma {:induction false} FullStep(s: State, e: Step)
    requires FullInv(s) && Enabled(s, e) && !Displaces(s, e) && !Overdue(s, e)
    ensures FullInv(Apply(s, e))
  {
    StepKeepsInv(s, e);
    StepKeepsFullBarrier(s, e);
    StepKeepsTimely(s, e);
    hide Apply, Enabled, Inv, Late, FullBarrier;
  }

  /** No runtime is displaced and no announced foreground task is overdue. */
  predicate Orderly(s: State, steps: seq<Step>)
    requires Legal(s, steps)
    decreases |steps|
  {
    steps == []
    || (!Displaces(s, steps[0]) && !Overdue(s, steps[0]) && Orderly(Apply(s, steps[0]), steps[1..]))
  }

  lemma {:induction false} OrderlyKeepsFullInv(s: State, steps: seq<Step>)
    requires FullInv(s) && Legal(s, steps) && Orderly(s, steps)
    ensures FullInv(Execute(s, steps))
    decreases |steps|
  {
    hide Apply, Enabled, FullInv, Displaces, Overdue;
    if steps != [] {
      FullStep(s, steps[0]);
      OrderlyKeepsFullInv(Apply(s, steps[0]), steps[1..]);
    }
  }

  /** In every orderly run nothing older than a reset follows it, foreground tasks included. */
  lemma {:induction false} OrderlyRunsKeepFullBarrier(steps: seq<Step>)
    requires Legal(Initial(), steps) && Orderly(Initial(), steps)
    ensures FullBarrier(Execute(Initial(), steps).journal)
  {
    InitialInv();
    assert FullInv(Initial());
    hide Apply, Enabled, Inv, Late, Legal, Execute, Orderly;
    OrderlyKeepsFullInv(Initial(), steps);
  }

  lemma {:induction false} PlainIsOrderly(s: State, steps: seq<Step>)
    requires Legal(s, steps) && AllPlain(steps, false)
    ensures Orderly(s, steps)
    decreases |steps|
  {
    hide Apply, Enabled;
    if steps != [] {
      PlainIsOrderly(Apply(s, steps[0]), steps[1..]);
    }
  }

  ghost predicate FullyBreakable(s: State) {
    exists r :: Reaches(s, r, false) && !FullBarrier(r.journal)
  }

  lemma LateEventBreaks(journal: seq<Event>, i: nat, x: Event)
    requires i < |journal| && journal[i].SessionReset? && !x.SessionReset? && x.epoch < journal[i].epoch
    ensures !FullBarrier(journal + [x])
  {
    var all := journal + [x];
    assert all[i] == journal[i] && all[|journal|] == x;
  }

  lemma {:induction false} OverdueBreaks(s: State, e: Step)
    requires FullInv(s) && Enabled(s, e) && Overdue(s, e)
    ensures FullyBreakable(Apply(s, e))
  {
    var base, epoch := Apply(s, e), s.tasks[e.task].epoch;
    assert base.emitting == Some(TaskStatus(e.task, epoch, true)) && base.journal == s.journal
        && base.clears == s.clears;
    hide Inv, Reaches, FullBarrier;
    ReachesRefl(base, false);
    if i :| 0 <= i < |s.journal| && s.journal[i].SessionReset? && epoch < s.journal[i].epoch {
      ReachesStep(base, base, Emit(true), false);
      LateEventBreaks(s.journal, i, base.emitting.value);
    } else {
      var k :| k in s.clears && s.clears[k].Stopped? && epoch < s.clears[k].epoch;
      ReachesStep(base, base, WriteReset(k, true), false);
      var r := Apply(base, WriteReset(k, true));
      ReachesStep(base, r, Emit(true), false);
      LateEventBreaks(r.journal, |s.journal|, base.emitting.value);
    }
  }

  /** The end of a foreground task lets its announcement follow a newer reset, in some continuation
      without registrations and other foreground ends, if and only if the fence is open and a newer
      reset is written or about to be written. */
  lemma {:induction false} ForegroundEndBreaksExactly(s: State, e: Step)
    requires FullInv(s) && Enabled(s, e) && e.FinishForeground?
    ensures FullyBreakable(Apply(s, e)) <==>
            (s.recorder == None || s.recorder == Some(s.generation)) && Late(s, s.tasks[e.task].epoch)
  {
    assert Overdue(s, e) <==> Fence(s) && Late(s, s.tasks[e.task].epoch);
    hide Enabled, Apply, FullInv, Fence, Late, Reaches, FullBarrier;
    if Overdue(s, e) {
      OverdueBreaks(s, e);
    } else {
      hide Overdue;
      FullStep(s, e);
      forall r | Reaches(Apply(s, e), r, false) ensures FullBarrier(r.journal) {
        PlainKeepsFullBarrier(Apply(s, e), r);
      }
    }
  }

  lemma {:induction false} PlainKeepsFullBarrier(s: State, r: State)
    requires FullInv(s) && Reaches(s, r, false)
    ensures FullBarrier(r.journal)
  {
    hide Apply, Enabled, Legal, Execute, AllPlain;
    var steps :| Legal(s, steps) && AllPlain(steps, false) && Execute(s, steps) == r;
    PlainIsOrderly(s, steps);
    hide Inv, Late, FullBarrier;
    OrderlyKeepsFullInv(s, steps);
  }

  /** A foreground task was admitted, and a clear has retired the session. */
  const RetiredSession :=
    State(2, map[], map[], map[7 := Task(1, Running, true, NoWorker)], None, None,
          map[0 := Retired(2)], 1, Some(1), 1, [TaskCreated(7, 1)])

  const StoppedSession :=
    State(2, map[], map[], map[7 := Task(1, Killed, true, NoWorker)], None, None,
          map[0 := Stopping(2, {})], 1, Some(1), 1, [TaskCreated(7, 1), TaskStatus(7, 1, true)])

  /** The clear has stopped the task and written its reset. */
  const ClearedSession :=
    State(2, map[], map[], map[7 := Task(1, Killed, true, NoWorker)], None, None,
          map[], 2, Some(1), 2, [TaskCreated(7, 1), TaskStatus(7, 1, true), SessionReset(2)])

  lemma {:induction false} ToRetiredSession()
    ensures Reaches(Initial(), RetiredSession, true)
  {
    hide Reaches;
    var s0 := Initial();
    ReachesRefl(s0, true);
    ReachesStep(s0, s0, BeginRun);
    var s1 := Apply(s0, BeginRun);
    ReachesStep(s0, s1, Admit(1, 7, true));
    var s2 := Apply(s1, Admit(1, 7, true));
    ReachesStep(s0, s2, Emit(true));
    var s3 := Apply(s2, Emit(true));
    ReachesStep(s0, s3, ClearSession);
    var s4 := Apply(s3, ClearSession);
    assert s4.agents.Values == {};
    ReachesStep(s0, s4, SessionRetired(0));
    assert Apply(s4, SessionRetired(0)) == RetiredSession;
  }

  lemma {:induction false} ToStoppedSession()
    ensures Reaches(Initial(), StoppedSession, true)
  {
    hide Reaches, Initial;
    ToRetiredSession();
    var s1 := Apply(RetiredSession, CollectTasks(0));
    ReachesStep(Initial(), RetiredSession, CollectTasks(0));
    assert s1.clears[0] == Stopping(2, {7});
    var s2 := Apply(s1, StopCollected(0, 7));
    ReachesStep(Initial(), s1, StopCollected(0, 7));
    assert s2.clears[0] == Stopping(2, {}) && s2.emitting == Some(TaskStatus(7, 1, true));
    var s3 := Apply(s2, Emit(true));
    ReachesStep(Initial(), s2, Emit(true));
    assert s3 == StoppedSession;
  }

  lemma {:induction false} ToClearedSession()
    ensures Reaches(Initial(), ClearedSession, true)
  {
    hide Reaches, Initial;
    ToStoppedSession();
    var s1 := Apply(StoppedSession, ShutdownDone(0));
    ReachesStep(Initial(), StoppedSession, ShutdownDone(0));
    var s2 := Apply(s1, WriteReset(0, true));
    ReachesStep(Initial(), s1, WriteReset(0, true));
    assert s2.clears == map[] && s2.journal == ClearedSession.journal;
    assert s2 == ClearedSession;
  }

  /** The next run reopens the fence; the cleared foreground task then ends, and its status follows
      the reset. */
  lemma {:induction false} ForegroundEndFollowsReset() returns (r: State)
    ensures Reaches(Initial(), r, true)
    ensures r.journal == [TaskCreated(7, 1), TaskStatus(7, 1, true), SessionReset(2), TaskStatus(7, 1, true)]
    ensures !FullBarrier(r.journal)
  {
    hide Reaches, Initial;
    ToClearedSession();
    var s1 := Apply(ClearedSession, BeginRun);
    ReachesStep(Initial(), ClearedSession, BeginRun);
    var s2 := Apply(s1, FinishForeground(7, FailedTask));
    ReachesStep(Initial(), s1, FinishForeground(7, FailedTask));
    r := Apply(s2, Emit(true));
    ReachesStep(Initial(), s2, Emit(true));
    LateEventBreaks(s2.journal, 2, TaskStatus(7, 1, true));
  }
}
