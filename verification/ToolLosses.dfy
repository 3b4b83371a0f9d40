/** Exactly which turns can be committed without the result of a granted call
    (agent/loop.go, executeAndCommitTools; agent/tools_executor.go, GetRemainingResults). */
module ToolLosses {
  import opened Prelude
  import opened ToolExecutor
  import opened ToolBodies
  import opened ToolProgress
  import opened ToolSchedule
  import opened ToolWait

  /** A turn that begins when no ended call has to drain or signal any more, and a drain would launch
      nothing. */
  ghost predicate Settled(t: Turn) {
    Begins(t) && t.ending == map[] && DrainBatch(t.m.x) == []
  }

  /** When the results are read, a call is still queued. */
  ghost predicate Loses(t: Turn) {
    t.at == Take && exists b :: IsWaiting(t.m.x, b)
  }

  /** When the results are read, a call has not ended. */
  ghost predicate Leaves(t: Turn) {
    t.at == Take && exists b :: Unfinished(t.m.x, b)
  }

  ghost predicate Reaches(t0: Turn, t: Turn) {
    exists moves :: Legal(t0, moves) && Execute(t0, moves) == t
  }

  ghost predicate MayLose(t0: Turn) {
    exists t :: Reaches(t0, t) && Loses(t)
  }

  ghost predicate MayLeave(t0: Turn) {
    exists t :: Reaches(t0, t) && Leaves(t)
  }

  /** Three unfinished calls, each of which has to wait for the one before it. */
  ghost predicate Chain3(x: Shared) {
    exists a, b, c :: Blocks(x, a, b) && Blocks(x, b, c)
  }

  ghost predicate Chain4(x: Shared) {
    exists a, b, c, d :: Blocks(x, a, b) && Blocks(x, b, c) && Blocks(x, c, d)
  }

  /** The wait can be woken before everything that executes has ended: a signal lies in the channel,
      two calls execute, or one that may signal while it runs. */
  ghost predicate EarlyWake(t: Turn) {
    || t.signal
    || (exists c :: IsExecuting(t.m.x, c) && c in t.asks)
    || (exists c, d :: IsExecuting(t.m.x, c) && IsExecuting(t.m.x, d) && c != d)
  }

  // ----- Three levels are needed -----

  lemma {:induction false} WaitingIsBlocked(t0: Turn, c: Name)
    requires Settled(t0) && IsWaiting(t0.m.x, c)
    ensures exists a :: Blocks(t0.m.x, a, c)
  {
    hide Live, Tidy;
    assert LeftBehind(t0.m, c);
    LeftBehindIsBlocked(t0.m, c);
  }

  lemma {:induction false} LossNeedsThree(t0: Turn, t: Turn)
    requires Settled(t0) && Reaches(t0, t) && Leaves(t)
    ensures Chain3(t0.m.x)
  {
    hide Live, Tidy, Legal, Execute, Blocks;
    var moves :| Legal(t0, moves) && Execute(t0, moves) == t;
    var b :| Unfinished(t.m.x, b);
    LostCallsAreDeep(t0, moves, b);
    var c :| Blocks(t0.m.x, c, b) && IsWaiting(t0.m.x, c);
    WaitingIsBlocked(t0, c);
  }

  // ----- Four levels without an early wake-up -----

  /** Everything that executed when the turn began has ended. */
  ghost predicate EndedFirst(t0: Turn, t: Turn) {
    forall c :: IsExecuting(t0.m.x, c) ==> !Unfinished(t.m.x, c)
  }

  /** Only deep calls are still queued. */
  ghost predicate Swept(t0: Turn, t: Turn) {
    forall c :: IsWaiting(t.m.x, c) ==> Deep(t0.m.x, c)
  }

  ghost predicate SweptBut(t0: Turn, t: Turn, batch: seq<Name>) {
    forall c :: IsWaiting(t.m.x, c) && c !in batch ==> Deep(t0.m.x, c)
  }

  /** The call waits for a deep one. */
  ghost predicate VeryDeep(x: Shared, b: Name) {
    exists c :: Blocks(x, c, b) && Deep(x, c)
  }

  ghost function VeryDeepCalls(x: Shared): (s: set<Name>) {
    set b | b in x.slots && VeryDeep(x, b)
  }

  /** The first wait has not returned yet. */
  predicate FirstWait(at: Point) {
    at in {OuterTop, OuterCollect, OuterPending} || at.OuterWait?
  }

  /** What the waiting goroutine knows at each point. */
  ghost predicate Known(t0: Turn, t: Turn) {
    && (t.signal ==> Swept(t0, t))
    && (!FirstWait(t.at) ==> Swept(t0, t))
    && (t.at == OuterWait(DrainNow) ==> EndedFirst(t0, t))
    && (t.at.OuterWait? && t.at.at.Launch? ==> SweptBut(t0, t, t.at.at.batch))
    && (t.at == OuterWait(AskAgain) ==> Swept(t0, t))
  }

  /** What the goroutines of ended calls know. */
  ghost predicate EndingsKnow(t0: Turn, t: Turn) {
    forall g :: g in t.ending ==> EndingKnows(t0, t, t.ending[g])
  }

  ghost predicate EndingKnows(t0: Turn, t: Turn, ending: Ending) {
    match ending
    case ToDrain => EndedFirst(t0, t)
    case ToSignal(batch) => SweptBut(t0, t, batch)
  }

  /** Calls leave the queue only after the first ones have ended. */
  ghost predicate LeftInTurn(t0: Turn, t: Turn) {
    (exists c :: IsWaiting(t0.m.x, c) && !IsWaiting(t.m.x, c)) ==> EndedFirst(t0, t)
  }

  ghost predicate InnerIsDeep(t0: Turn, t: Turn) {
    Inner(t.at) ==> forall c :: Unfinished(t.m.x, c) ==> Deep(t0.m.x, c)
  }

  ghost predicate LateInv(t0: Turn, t: Turn) {
    && TurnInv(t0, t) && t.asks == {} && Known(t0, t) && EndingsKnow(t0, t) && LeftInTurn(t0, t) && InnerIsDeep(t0, t)
    && OnlyLeft(t, VeryDeepCalls(t0.m.x))
  }

  /** What is known stays known when the machine goes on. */
  lemma {:induction false} StillKnown(t0: Turn, t: Turn, r: Turn)
    requires Live(t.m) && Later(t.m, r.m)
    ensures EndedFirst(t0, t) ==> EndedFirst(t0, r)
    ensures Swept(t0, t) ==> Swept(t0, r)
    ensures forall batch :: SweptBut(t0, t, batch) ==> SweptBut(t0, r, batch)
  {
    hide Live, Later, Deep;
    forall c
      ensures IsWaiting(r.m.x, c) ==> IsWaiting(t.m.x, c)
      ensures Unfinished(r.m.x, c) ==> Unfinished(t.m.x, c)
    {
      LaterCall(t.m, r.m, c);
    }
  }

  /** A drain after the first calls have ended leaves only deep calls behind. */
  lemma {:induction false} DrainSweeps(t0: Turn, t: Turn)
    requires TurnInv(t0, t) && EndedFirst(t0, t)
    ensures SweptBut(t0, t, DrainBatch(t.m.x))
  {
    hide Live, Later, Tidy, DrainBatch, PastFirst, OnlyLeft;
    LaterIsLive(t0.m, t.m);
    forall b | IsWaiting(t.m.x, b) && b !in DrainBatch(t.m.x) ensures Deep(t0.m.x, b) {
      LeftBehindIsBlocked(t.m, b);
      var c :| Blocks(t.m.x, c, b);
      LaterBlocks(t0.m, t.m, c, b);
      assert IsWaiting(t0.m.x, c);
    }
  }

  lemma LaunchedIsSwept(t0: Turn, t: Turn, batch: seq<Name>)
    requires SweptBut(t0, t, batch) && Launched(t.m.x, batch)
    ensures Swept(t0, t)
  {
  }

  lemma {:induction false} QuietEndsFirst(t0: Turn, t: Turn)
    requires TurnInv(t0, t) && Quiet(t.m.x)
    ensures EndedFirst(t0, t)
  {
    hide Live, Later, Tidy, PastFirst, OnlyLeft;
    forall c | IsExecuting(t0.m.x, c) ensures !Unfinished(t.m.x, c) {
      LaterCall(t0.m, t.m, c);
    }
  }

  /** Only the launch of a call takes it out of the queue. */
  lemma {:induction false} QueueLeaves(t: Turn, move: Move, c: Name)
    requires Can(t, move) && WellFormed(t.m.x) && Tidy(t.m)
    requires IsWaiting(t.m.x, c) && !IsWaiting(Next(t, move).m.x, c)
    ensures move == Body(Reserve(c)) && c in t.m.eligible
  {
    MoveTakesStep(t, move);
    assert MachineStep(t, move).Some?;
    var s := MachineStep(t, move).value;
    assert BodyCan(t.m, s) || s.Drain? || s.Collect?;
    hide Next, Apply, Tidy, WellFormed;
    StepTakes(t.m, s, c);
  }

  lemma {:induction false} StepTakes(m: Machine, s: Step, c: Name)
    requires WellFormed(m.x) && Tidy(m) && (BodyCan(m, s) || s.Drain? || s.Collect?)
    requires IsWaiting(m.x, c) && !IsWaiting(Apply(m, s).x, c)
    ensures s == Reserve(c) && c in m.eligible
  {
    hide SafeBatch, ExclusiveBatch, CanStart, FirstPending, Buffered;
    if s.Collect? {
      CollectKeeps(m);
    }
  }

  /** Collecting leaves unfinished calls alone. */
  lemma {:induction false} CollectKeeps(m: Machine)
    requires WellFormed(m.x)
    ensures var y := Apply(m, Collect).x;
            forall c :: Unfinished(m.x, c) ==> c in y.slots && y.slots[c] == m.x.slots[c]
  {
    hide Buffered;
    forall c | Unfinished(m.x, c) ensures m.x.slots[c].at >= FirstPending(m.x) {
      assert SlotOk(m.x, c, m.x.slots[c]);
      assert !Done(m.x, m.x.order[m.x.slots[c].at]);
    }
  }

  /** A call that is still queued is exactly as it was when the turn began. */
  lemma {:induction false} QueuedUntouched(t: Turn, moves: seq<Move>, b: Name)
    requires Live(t.m) && Tidy(t.m) && Legal(t, moves) && IsWaiting(Execute(t, moves).m.x, b)
    ensures IsWaiting(t.m.x, b) && Execute(t, moves).m.x.slots[b] == t.m.x.slots[b]
    decreases |moves|
  {
    hide Next, Can, Live, Tidy, Later;
    if moves != [] {
      var r := Next(t, moves[0]);
      LaterRefl(t.m);
      MoveForward(t.m, t, moves[0]);
      LaterIsLive(t.m, r.m);
      QueuedUntouched(r, moves[1..], b);
      LaterCall(t.m, r.m, b);
      MoveLeavesQueued(t, moves[0], b);
    }
  }

  lemma {:induction false} MoveLeavesQueued(t: Turn, move: Move, b: Name)
    requires Live(t.m) && Tidy(t.m) && Can(t, move) && IsWaiting(t.m.x, b) && IsWaiting(Next(t, move).m.x, b)
    ensures Next(t, move).m.x.slots[b] == t.m.x.slots[b]
  {
    MoveTakesStep(t, move);
    LiveFacts(t.m);
    if MachineStep(t, move).Some? {
      var s := MachineStep(t, move).value;
      assert BodyCan(t.m, s) || s.Drain? || s.Collect?;
      hide Next, Apply, Tidy, WellFormed, Live;
      StepLeavesQueued(t.m, s, b);
    }
  }

  lemma {:induction false} StepLeavesQueued(m: Machine, s: Step, b: Name)
    requires WellFormed(m.x) && Tidy(m) && (BodyCan(m, s) || s.Drain? || s.Collect?)
    requires IsWaiting(m.x, b) && IsWaiting(Apply(m, s).x, b)
    ensures Apply(m, s).x.slots[b] == m.x.slots[b]
  {
    hide SafeBatch, ExclusiveBatch, CanStart, FirstPending, Buffered;
  }

  /** At most one call executed when the turn began. */
  ghost predicate OneFirst(t0: Turn) {
    forall c, d :: IsExecuting(t0.m.x, c) && IsExecuting(t0.m.x, d) ==> c == d
  }

  lemma {:induction false} LaunchIsLate(t0: Turn, t: Turn, c: Name)
    requires Settled(t0) && OneFirst(t0) && LateInv(t0, t)
    requires IsWaiting(t.m.x, c) && c in t.m.eligible && IsWaiting(t0.m.x, c)
    ensures EndedFirst(t0, t)
  {
    hide Later, Tidy, PastFirst, OnlyLeft, Known, EndingsKnow, InnerIsDeep, DrainBatch;
    LaterIsLive(t0.m, t.m);
    WaitingIsBlocked(t0, c);
    var a :| Blocks(t0.m.x, a, c);
    assert MayLaunch(t.m.x, c);
    LaterCall(t0.m, t.m, a);
    LaterKeeps(t0.m, t.m);
    assert !Unfinished(t.m.x, a);
    if !IsExecuting(t0.m.x, a) {
      assert IsWaiting(t0.m.x, a) && !IsWaiting(t.m.x, a);
    }
  }

  lemma {:induction false} LaterKeeps(m: Machine, r: Machine)
    requires Later(m, r)
    ensures Keeps(m.x, r.x)
  {
    hide NoHeavier;
  }

  lemma {:induction false} StepLeft(t0: Turn, t: Turn, move: Move)
    requires Settled(t0) && OneFirst(t0) && LateInv(t0, t) && Can(t, move)
    ensures LeftInTurn(t0, Next(t, move))
  {
    hide Next, Can, Live, Later, Tidy, PastFirst, OnlyLeft, Known, EndingsKnow, InnerIsDeep, EndedFirst, WellFormed;
    var r := Next(t, move);
    LaterIsLive(t0.m, t.m);
    LaterMove(t, move);
    StillKnown(t0, t, r);
    if c :| IsWaiting(t0.m.x, c) && !IsWaiting(r.m.x, c) {
      if IsWaiting(t.m.x, c) {
        QueueLeaves(t, move, c);
        LaunchIsLate(t0, t, c);
      }
    }
  }

  /** When a body returns, everything that executed at the beginning has ended. */
  lemma {:induction false} FinishIsLate(t0: Turn, t: Turn, g: Name)
    requires Settled(t0) && OneFirst(t0) && LateInv(t0, t) && Can(t, Body(Finish(g)))
    ensures EndedFirst(t0, Next(t, Body(Finish(g))))
  {
    hide Next, Can, Live, Later, Tidy, PastFirst, OnlyLeft, Known, EndingsKnow, InnerIsDeep, DrainBatch, Settled;
    var r := Next(t, Body(Finish(g)));
    FinishEnds(t, g);
    LaterIsLive(t0.m, t.m) by { assert TurnInv(t0, t); }
    LaterMove(t, Body(Finish(g)));
    LaterCall(t0.m, t.m, g);
    if IsExecuting(t0.m.x, g) {
      assert forall c :: IsExecuting(t0.m.x, c) ==> c == g;
    } else {
      assert IsWaiting(t0.m.x, g) && !IsWaiting(t.m.x, g);
      hide EndedFirst;
      StillKnown(t0, t, r);
    }
  }

  lemma {:induction false} FinishEnds(t: Turn, g: Name)
    requires Tidy(t.m) && Can(t, Body(Finish(g)))
    ensures IsExecuting(t.m.x, g) && !Unfinished(Next(t, Body(Finish(g))).m.x, g)
  {
    hide SafeBatch, ExclusiveBatch, CanStart, FirstPending, Buffered, YieldTo, AbortSlots;
  }

  lemma {:induction false} StepEndings(t0: Turn, t: Turn, move: Move)
    requires Settled(t0) && OneFirst(t0) && LateInv(t0, t) && Can(t, move)
    ensures EndingsKnow(t0, Next(t, move))
  {
    hide Next, Can, EndingKnows, LateInv, Settled, OneFirst;
    forall g | g in Next(t, move).ending ensures EndingKnows(t0, Next(t, move), Next(t, move).ending[g]) {
      OneEnding(t0, t, move, g);
    }
  }

  lemma {:induction false} OneEnding(t0: Turn, t: Turn, move: Move, g: Name)
    requires Settled(t0) && OneFirst(t0) && LateInv(t0, t) && Can(t, move) && g in Next(t, move).ending
    ensures EndingKnows(t0, Next(t, move), Next(t, move).ending[g])
  {
    hide Next, Can, Settled, OneFirst, Live, Later, Tidy, PastFirst, OnlyLeft, Known, InnerIsDeep, LeftInTurn;
    hide EndedFirst, SweptBut, DrainBatch;
    var r := Next(t, move);
    EndingsStep(t, move);
    if move == Body(Finish(g)) {
      FinishIsLate(t0, t, g);
    } else {
      InvIsLive(t0, t);
      LaterMove(t, move);
      StillKnown(t0, t, r);
      if move == DrainAfter(g) {
        assert EndingKnows(t0, t, t.ending[g]);
        DrainSweeps(t0, t);
      } else {
        assert EndingKnows(t0, t, t.ending[g]);
      }
    }
  }

  lemma {:induction false} InvIsLive(t0: Turn, t: Turn)
    requires TurnInv(t0, t)
    ensures Live(t.m)
  {
    hide Live, Later;
    LaterIsLive(t0.m, t.m);
  }

  /** How a move changes what the goroutines of ended calls have to do. */
  lemma {:induction false} EndingsStep(t: Turn, move: Move)
    requires Can(t, move)
    ensures var r := Next(t, move);
            && (forall g :: g in r.ending && move != Body(Finish(g)) && move != DrainAfter(g) ==>
                  g in t.ending && r.ending[g] == t.ending[g])
            && (move.Body? && move.s.Finish? ==> move.s.id in r.ending && r.ending[move.s.id] == ToDrain)
            && (move.DrainAfter? ==>
                  && move.id in t.ending && t.ending[move.id] == ToDrain
                  && move.id in r.ending && r.ending[move.id] == ToSignal(DrainBatch(t.m.x)))
  {
    hide Apply, AllDone, Quiet, DrainBatch;
  }

  lemma {:induction false} OthersKnow(t0: Turn, t: Turn, move: Move)
    requires LateInv(t0, t) && Can(t, move) && !move.Waiter?
    ensures Known(t0, Next(t, move))
  {
    var r := Next(t, move);
    LaterIsLive(t0.m, t.m);
    LaterMove(t, move);
    StillKnown(t0, t, r);
    PointStep(t, move);
    if move.SignalAfter? {
      assert EndingKnows(t0, t, t.ending[move.id]);
      LaunchedIsSwept(t0, t, t.ending[move.id].batch);
    } else {
      assert r.signal == t.signal;
    }
    hide Next, Can, Live, Later, Tidy, PastFirst, OnlyLeft, InnerIsDeep, EndedFirst, SweptBut, Swept, LeftInTurn, Apply;
  }

  /** How the waiting goroutine comes to each point of its first wait, and out of it. */
  lemma {:induction false} WaiterPoint(t: Turn)
    requires Can(t, Waiter)
    ensures var r := Next(t, Waiter);
            && (r.signal ==> t.signal)
            && (r.at == OuterWait(DrainNow) ==> Quiet(t.m.x))
            && (r.at.OuterWait? && r.at.at.Launch? ==>
                  t.at == OuterWait(DrainNow) && r.at.at.batch == DrainBatch(t.m.x))
            && (r.at == OuterWait(AskAgain) ==> t.at.OuterWait? && t.at.at.Launch? && Launched(t.m.x, t.at.at.batch))
            && (!FirstWait(r.at) ==> !FirstWait(t.at) || AllDone(t.m.x) || t.at == OuterWait(AskAgain) || t.signal)
  {
    hide Apply, AllDone, Quiet, DrainBatch, Launched;
  }

  lemma {:induction false} WaiterKnows(t0: Turn, t: Turn)
    requires LateInv(t0, t) && Can(t, Waiter)
    ensures Known(t0, Next(t, Waiter))
  {
    hide Next, Can, Live, Later, Tidy, PastFirst, OnlyLeft, InnerIsDeep, EndingsKnow, LeftInTurn;
    var r := Next(t, Waiter);
    LaterIsLive(t0.m, t.m);
    LaterMove(t, Waiter);
    WaiterPoint(t);
    assert AllDone(t.m.x) ==> Swept(t0, t);
    hide EndedFirst, Swept, AllDone, Quiet, DrainBatch, SweptBut, FirstWait, Launched;
    StillKnown(t0, t, r);
    if r.at == OuterWait(DrainNow) {
      QuietEndsFirst(t0, t);
    } else if r.at.OuterWait? && r.at.at.Launch? {
      DrainSweeps(t0, t);
    } else if r.at == OuterWait(AskAgain) {
      LaunchedIsSwept(t0, t, t.at.at.batch);
    }
  }

  lemma {:induction false} StepInnerDeep(t0: Turn, t: Turn, move: Move)
    requires LateInv(t0, t) && Can(t, move) && Known(t0, Next(t, move))
    ensures InnerIsDeep(t0, Next(t, move))
  {
    hide Next, Can, Live, Later, Tidy, PastFirst, OnlyLeft, EndingsKnow, LeftInTurn, EndedFirst, SweptBut, Deep;
    var r := Next(t, move);
    LaterIsLive(t0.m, t.m);
    LaterMove(t, move);
    PointStep(t, move);
    if Inner(r.at) {
      assert !FirstWait(r.at);
      forall c | Unfinished(r.m.x, c) ensures Deep(t0.m.x, c) {
        LaterCall(t.m, r.m, c);
      }
    }
  }

  lemma {:induction false} StepVeryDeep(t0: Turn, t: Turn, move: Move)
    requires LateInv(t0, t) && Can(t, move)
    ensures OnlyLeft(Next(t, move), VeryDeepCalls(t0.m.x))
  {
    hide Next, Can, Live, Later, Tidy, PastFirst, OnlyLeft, EndingsKnow, LeftInTurn, Known, Deep, LeftBehind;
    LaterIsLive(t0.m, t.m);
    if move.Waiter? {
      forall b | t.at == InnerDrain && LeftBehind(t.m, b) ensures b in VeryDeepCalls(t0.m.x) {
        LeftBehindIsWaiting(t.m, b);
        LeftBehindIsBlocked(t.m, b);
        var c :| Blocks(t.m.x, c, b);
        LaterBlocks(t0.m, t.m, c, b);
        assert VeryDeep(t0.m.x, b);
      }
      WaiterKeepsLeft(t, VeryDeepCalls(t0.m.x));
    } else {
      OthersKeepLeft(t, move, VeryDeepCalls(t0.m.x));
    }
  }

  lemma LeftBehindIsWaiting(m: Machine, b: Name)
    requires LeftBehind(m, b)
    ensures IsWaiting(m.x, b)
  {
  }

  lemma {:induction false} MoveKeepsLate(t0: Turn, t: Turn, move: Move)
    requires Settled(t0) && OneFirst(t0) && LateInv(t0, t) && Can(t, move)
    ensures LateInv(t0, Next(t, move))
  {
    hide Next, Can, Settled, OneFirst, TurnInv, OnlyLeft, EndingsKnow, LeftInTurn, Known, InnerIsDeep;
    MoveKeepsTurn(t0, t, move);
    AsksStay(t, move);
    if move.Waiter? {
      WaiterKnows(t0, t);
    } else {
      OthersKnow(t0, t, move);
    }
    StepEndings(t0, t, move);
    StepLeft(t0, t, move);
    StepInnerDeep(t0, t, move);
    StepVeryDeep(t0, t, move);
  }

  lemma {:induction false} AsksStay(t: Turn, move: Move)
    requires Can(t, move)
    ensures Next(t, move).asks == t.asks
  {
    hide Next, Can, Apply;
    MoveTakesStep(t, move);
  }

  lemma {:induction false} RunKeepsLate(t0: Turn, t: Turn, moves: seq<Move>)
    requires Settled(t0) && OneFirst(t0) && LateInv(t0, t) && Legal(t, moves)
    ensures LateInv(t0, Execute(t, moves))
    decreases |moves|
  {
    hide Next, Can, Settled, OneFirst, LateInv;
    if moves != [] {
      MoveKeepsLate(t0, t, moves[0]);
      RunKeepsLate(t0, Next(t, moves[0]), moves[1..]);
    }
  }

  lemma {:induction false} StartsLate(t0: Turn)
    requires Begins(t0) && t0.ending == map[] && !t0.signal && t0.asks == {}
    ensures LateInv(t0, t0)
  {
    hide Live, Tidy, Later;
    LaterRefl(t0.m);
  }

  lemma {:induction false} LateLossNeedsFour(t0: Turn, t: Turn)
    requires Settled(t0) && t0.asks == {} && !EarlyWake(t0) && Reaches(t0, t) && Leaves(t)
    ensures Chain4(t0.m.x)
  {
    hide Live, Tidy, Legal, Execute, Blocks, TurnInv, EndingsKnow, LeftInTurn, Known, InnerIsDeep;
    assert OneFirst(t0) && !t0.signal;
    StartsLate(t0);
    var moves :| Legal(t0, moves) && Execute(t0, moves) == t;
    RunKeepsLate(t0, t0, moves);
    var b :| Unfinished(t.m.x, b);
    assert VeryDeep(t0.m.x, b);
    var c :| Blocks(t0.m.x, c, b) && Deep(t0.m.x, c);
    var c' :| Blocks(t0.m.x, c', c) && IsWaiting(t0.m.x, c');
    WaitingIsBlocked(t0, c');
  }
}
