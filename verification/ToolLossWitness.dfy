/** A turn, from the first call on, that is committed without the result of a granted call
    (agent/loop.go, agent/tools_executor.go). */
module ToolLossWitness {
  import opened Prelude
  import opened ToolExecutor
  import opened ToolBodies
  import opened ToolDenials
  import opened ToolProgress
  import opened ToolWait
  import opened ToolLosses
  import opened ToolLossRuns

  function Safe(id: Name): (c: ToolCall) {
    ToolCall(id, true, false)
  }

  function Alone(id: Name): (c: ToolCall) {
    ToolCall(id, false, false)
  }

  function Runs(call: ToolCall, at: nat): (s: Slot) {
    Slot(call, at, Executing, None, false, false)
  }

  function Queues(call: ToolCall, at: nat, granted: bool): (s: Slot) {
    Slot(call, at, Queued, None, false, granted)
  }

  const OneRuns := Machine(Shared(map[1 := Runs(Safe(1), 0)], [1], 0, false), {1}, {}, {1}, [])

  const TwoRun :=
    Machine(Shared(map[1 := Runs(Safe(1), 0), 2 := Runs(Safe(2), 1)], [1, 2], 0, false), {1, 2}, {}, {1, 2}, [])

  const OneWaits :=
    Machine(Shared(map[1 := Runs(Safe(1), 0), 2 := Runs(Safe(2), 1), 3 := Queues(Alone(3), 2, true)],
                   [1, 2, 3], 0, false), {1, 2}, {}, {1, 2}, [])

  /** The safe calls 1 and 2 run; the exclusive calls 3 and 4 are granted and queued. */
  const TwoRunTwoWait :=
    Machine(Shared(map[1 := Runs(Safe(1), 0), 2 := Runs(Safe(2), 1),
                       3 := Queues(Alone(3), 2, true), 4 := Queues(Alone(4), 3, true)],
                   [1, 2, 3, 4], 0, false), {1, 2}, {}, {1, 2}, [])

  lemma {:induction false} ToOneRuns()
    ensures Continues(Initial, OneRuns, true)
  {
    hide Continues, AbortSlots, FirstPending, SafeBatch, ExclusiveBatch, YieldTo, Buffered;
    ContinuesRefl(Initial, true);
    var m1 := Apply(Initial, Add(Safe(1)));
    ContinuesStep(Initial, Initial, Add(Safe(1)), true);
    assert m1.eligible == {1} by { assert Cleared(m1.x, 1); }
    var m2 := Apply(m1, Reserve(1));
    ContinuesStep(Initial, m1, Reserve(1), true);
    var m3 := Apply(m2, Start(1));
    ContinuesStep(Initial, m2, Start(1), true);
    assert m3 == OneRuns;
  }

  lemma {:induction false} ToTwoRun()
    ensures Continues(Initial, TwoRun, true)
  {
    hide Continues, AbortSlots, FirstPending, SafeBatch, ExclusiveBatch, YieldTo, Buffered;
    ToOneRuns();
    var m1 := Apply(OneRuns, Add(Safe(2)));
    ContinuesStep(Initial, OneRuns, Add(Safe(2)), true);
    assert m1.eligible == {1, 2} by { assert Cleared(m1.x, 2); }
    var m2 := Apply(m1, Reserve(2));
    ContinuesStep(Initial, m1, Reserve(2), true);
    var m3 := Apply(m2, Start(2));
    ContinuesStep(Initial, m2, Start(2), true);
    assert m3.x.slots == TwoRun.x.slots && m3.running == {1, 2} && m3.reserved == {};
    assert m3 == TwoRun;
  }

  lemma {:induction false} ToOneQueues()
    ensures Continues(Initial, OneWaits, true)
  {
    hide Continues, AbortSlots, FirstPending, SafeBatch, ExclusiveBatch, YieldTo, Buffered;
    ToTwoRun();
    var m1 := Apply(TwoRun, Add(Alone(3)));
    ContinuesStep(Initial, TwoRun, Add(Alone(3)), true);
    var m2 := Apply(m1, Grant(3));
    ContinuesStep(Initial, m1, Grant(3), true);
    assert 1 in m2.x.slots && !Terminal(m2.x.slots[1].state) && Conflict(m2.x.slots[1], m2.x.slots[3]);
    assert !Cleared(m2.x, 3);
    assert m2 == OneWaits;
  }

  lemma {:induction false} ToTwoRunTwoWait()
    ensures Continues(Initial, TwoRunTwoWait, true)
  {
    hide Continues, AbortSlots, FirstPending, SafeBatch, ExclusiveBatch, YieldTo, Buffered;
    ToOneQueues();
    var m1 := Apply(OneWaits, Add(Alone(4)));
    ContinuesStep(Initial, OneWaits, Add(Alone(4)), true);
    var m2 := Apply(m1, Grant(4));
    ContinuesStep(Initial, m1, Grant(4), true);
    assert 1 in m2.x.slots && !Terminal(m2.x.slots[1].state) && Conflict(m2.x.slots[1], m2.x.slots[4]);
    assert !Cleared(m2.x, 4);
    assert m2 == TwoRunTwoWait;
  }

  lemma {:induction false} WitnessIsLive()
    ensures Live(TwoRunTwoWait)
  {
    ToTwoRunTwoWait();
    assert !TwoRunTwoWait.x.cancelled && AllGranted(TwoRunTwoWait.x);
    hide Tame, Run, AllGranted, Live;
    var steps :| Tame(Initial, steps) && (true || NoAdds(steps)) && TwoRunTwoWait == Run(Initial, steps);
    GrantedRunsAreLive(steps);
  }

  lemma {:induction false} WitnessHasNoBatch()
    ensures DrainBatch(TwoRunTwoWait.x) == []
  {
    var x := TwoRunTwoWait.x;
    assert 1 in x.slots && !Terminal(x.slots[1].state);
    assert Conflict(x.slots[1], x.slots[3]) && Conflict(x.slots[1], x.slots[4]);
    assert !Cleared(x, 3) && !Cleared(x, 4);
    forall id ensures !SafeReady(x, id) && !ExclusiveReady(x, id) {
    }
    hide SafeReady, ExclusiveReady;
    NoBatch(x);
  }

  const WITNESS := Turn(TwoRunTwoWait, false, map[], {}, OuterTop)

  lemma {:induction false} WitnessIsSettled()
    ensures Settled(WITNESS)
  {
    WitnessIsLive();
    WitnessHasNoBatch();
    hide Live, DrainBatch;
    assert Tidy(TwoRunTwoWait);
  }

  lemma NoBatch(x: Shared)
    requires forall id :: !SafeReady(x, id) && !ExclusiveReady(x, id)
    ensures DrainBatch(x) == []
  {
    var safe, exclusive := SafeBatch(x, |x.order|), ExclusiveBatch(x);
    if safe != [] {
      var c := FirstOf(safe);
      assert false;
    }
    if exclusive != [] {
      var c := FirstOf(exclusive);
      assert false;
    }
  }

  lemma FirstOf(batch: seq<Name>) returns (c: Name)
    requires batch != []
    ensures c in batch
  {
    c := batch[0];
  }

  /** Only call 4 waits for a queued call. */
  lemma {:induction false} OnlyFourIsDeep(b: Name)
    ensures Blocks(TwoRunTwoWait.x, 1, 3) && Blocks(TwoRunTwoWait.x, 3, 4)
    ensures IsExecuting(TwoRunTwoWait.x, 1) && IsExecuting(TwoRunTwoWait.x, 2)
    ensures Deep(TwoRunTwoWait.x, b) ==> b == 4
  {
  }

  /** Call 1 ends and wakes the wait; call 2 ends before the wait looks, so its first loop is left
      early; call 3 is launched, wakes the second loop, and ends before that one looks. The results
      are then read while the granted call 4 is still queued and has none. */
  lemma {:induction false} GrantedCallGoesUnanswered() returns (moves: seq<Move>)
    ensures Continues(Initial, WITNESS.m, true) && Settled(WITNESS) && Legal(WITNESS, moves)
    ensures var t := Execute(WITNESS, moves);
            t.at == Take && 4 in t.m.x.slots && t.m.x.slots[4] == Queues(Alone(4), 3, true)
  {
    ToTwoRunTwoWait();
    WitnessIsSettled();
    OnlyFourIsDeep(0);
    var t0 := WITNESS;
    assert WITNESS.m == TwoRunTwoWait && EarlyWake(t0);
    hide Live, Tidy, Legal, Execute, Continues, Blocks, DrainBatch, EarlyWake, Deep;
    EarlyLoses(t0, 1, 3, 4);
    var t :| Reaches(t0, t) && Loses(t);
    moves :| Legal(t0, moves) && Execute(t0, moves) == t;
    var b :| IsWaiting(t.m.x, b);
    QueuedUntouched(t0, moves, b);
    LostCallsAreDeep(t0, moves, b);
    OnlyFourIsDeep(b);
  }
}
