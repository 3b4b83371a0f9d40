/** The runs in which a turn loses a granted call, built for every list of calls with enough levels,
    and the exact condition (agent/loop.go, agent/tools_executor.go). */
module ToolLossRuns {
  import opened Prelude
  import opened ToolExecutor
  import opened ToolBodies
  import opened ToolProgress
  import opened ToolSchedule
  import opened ToolWait
  import opened ToolLosses

  // ----- Building a run move by move -----

  ghost predicate Near(t0: Turn, t: Turn) {
    Reaches(t0, t) && Live(t.m) && Tidy(t.m)
  }

  lemma {:induction false} ExecuteSnoc(t0: Turn, moves: seq<Move>, move: Move)
    requires Legal(t0, moves) && Can(Execute(t0, moves), move)
    ensures Legal(t0, moves + [move]) && Execute(t0, moves + [move]) == Next(Execute(t0, moves), move)
    decreases |moves|
  {
    hide Next, Can;
    if moves == [] {
      assert moves + [move] == [move] && [move][1..] == [];
    } else {
      assert (moves + [move])[0] == moves[0] && (moves + [move])[1..] == moves[1..] + [move];
      ExecuteSnoc(Next(t0, moves[0]), moves[1..], move);
    }
  }

  lemma {:induction false} NearStep(t0: Turn, t: Turn, move: Move)
    requires Near(t0, t) && Can(t, move)
    ensures Near(t0, Next(t, move))
  {
    hide Next, Can, Live, Tidy, Later, Legal, Execute;
    var moves :| Legal(t0, moves) && Execute(t0, moves) == t;
    ExecuteSnoc(t0, moves, move);
    LaterRefl(t.m);
    MoveForward(t.m, t, move);
    LaterIsLive(t.m, Next(t, move).m);
  }

  lemma NearStart(t0: Turn)
    requires Begins(t0)
    ensures Near(t0, t0)
  {
    assert Legal(t0, []) && Execute(t0, []) == t0;
  }

  // ----- One call -----

  /** Only the call `c` changed, and the waiting goroutine did not move. */
  ghost predicate OnlyCall(t: Turn, r: Turn, c: Name) {
    && r.at == t.at && r.signal == t.signal && r.asks == t.asks && r.m.x.order == t.m.x.order
    && t.m.eligible <= r.m.eligible
    && (forall a :: a in t.m.x.slots && a != c ==> a in r.m.x.slots && r.m.x.slots[a] == t.m.x.slots[a])
    && (forall g :: g in t.ending && g != c ==> g in r.ending && r.ending[g] == t.ending[g])
  }

  lemma OnlyCallTrans(t: Turn, r: Turn, u: Turn, c: Name)
    requires OnlyCall(t, r, c) && OnlyCall(r, u, c)
    ensures OnlyCall(t, u, c)
  {
  }

  /** Every call keeps its kind and its position. */
  ghost predicate KindsKept(t: Turn, r: Turn) {
    forall a :: a in t.m.x.slots ==>
      a in r.m.x.slots && r.m.x.slots[a].call == t.m.x.slots[a].call && r.m.x.slots[a].at == t.m.x.slots[a].at
  }

  lemma {:induction false} ReserveMove(t: Turn, c: Name)
    requires c in t.m.eligible && IsWaiting(t.m.x, c)
    ensures var mv := Body(Reserve(c));
            && Can(t, mv) && OnlyCall(t, Next(t, mv), c) && Next(t, mv).ending == t.ending
            && IsExecuting(Next(t, mv).m.x, c) && c in Next(t, mv).m.reserved && KindsKept(t, Next(t, mv))
  {
    hide SafeBatch, ExclusiveBatch, CanStart, FirstPending, Buffered, AbortSlots, YieldTo;
  }

  lemma {:induction false} StartMove(t: Turn, c: Name)
    requires c in t.m.reserved && IsExecuting(t.m.x, c)
    ensures var mv := Body(Start(c));
            && Can(t, mv) && OnlyCall(t, Next(t, mv), c) && Next(t, mv).ending == t.ending
            && IsExecuting(Next(t, mv).m.x, c) && c in Next(t, mv).m.running && KindsKept(t, Next(t, mv))
  {
    hide SafeBatch, ExclusiveBatch, CanStart, FirstPending, Buffered, AbortSlots, YieldTo;
  }

  lemma {:induction false} ReportMove(t: Turn, c: Name)
    requires c in t.m.running && IsExecuting(t.m.x, c)
    ensures var mv := Body(Report(c, 0, false));
            && Can(t, mv) && OnlyCall(t, Next(t, mv), c) && IsExecuting(Next(t, mv).m.x, c)
            && c in Next(t, mv).m.running && Next(t, mv).m.x.slots[c].result.Some?
  {
    hide SafeBatch, ExclusiveBatch, CanStart, FirstPending, Buffered, AbortSlots, YieldTo;
  }

  lemma {:induction false} FinishMove(t: Turn, c: Name)
    requires c in t.m.running && IsExecuting(t.m.x, c) && t.m.x.slots[c].result.Some?
    ensures var mv := Body(Finish(c));
            && Can(t, mv) && OnlyCall(t, Next(t, mv), c) && Ended(Next(t, mv), c)
  {
    hide SafeBatch, ExclusiveBatch, CanStart, FirstPending, Buffered, AbortSlots, YieldTo;
  }

  /** The call has ended, and its goroutine still has to drain. */
  ghost predicate Ended(t: Turn, c: Name) {
    c in t.m.x.slots && Terminal(t.m.x.slots[c].state) && c in t.ending && t.ending[c] == ToDrain
  }

  /** A queued call that passed its start check is launched. */
  lemma {:induction false} LaunchCall(t0: Turn, t: Turn, c: Name) returns (r: Turn)
    requires Near(t0, t) && c in t.m.eligible && IsWaiting(t.m.x, c)
    ensures Near(t0, r) && OnlyCall(t, r, c) && IsExecuting(r.m.x, c) && c in r.m.running && r.ending == t.ending
    ensures KindsKept(t, r)
  {
    hide Next, Can, Near;
    ReserveMove(t, c);
    NearStep(t0, t, Body(Reserve(c)));
    var t1 := Next(t, Body(Reserve(c)));
    StartMove(t1, c);
    NearStep(t0, t1, Body(Start(c)));
    r := Next(t1, Body(Start(c)));
    OnlyCallTrans(t, t1, r, c);
  }

  lemma {:induction false} EndRunning(t0: Turn, t: Turn, c: Name) returns (r: Turn)
    requires Near(t0, t) && c in t.m.running && IsExecuting(t.m.x, c)
    ensures Near(t0, r) && OnlyCall(t, r, c) && Ended(r, c)
  {
    hide Next, Can, Near;
    ReportMove(t, c);
    NearStep(t0, t, Body(Report(c, 0, false)));
    var t1 := Next(t, Body(Report(c, 0, false)));
    FinishMove(t1, c);
    NearStep(t0, t1, Body(Finish(c)));
    r := Next(t1, Body(Finish(c)));
    OnlyCallTrans(t, t1, r, c);
  }

  lemma ExecutingIsReserved(m: Machine, c: Name)
    requires Live(m) && IsExecuting(m.x, c) && c !in m.running
    ensures c in m.reserved
  {
    assert c in InFlight(m);
  }

  /** An executing call comes to its end. */
  lemma {:induction false} EndCall(t0: Turn, t: Turn, c: Name) returns (r: Turn)
    requires Near(t0, t) && IsExecuting(t.m.x, c)
    ensures Near(t0, r) && OnlyCall(t, r, c) && Ended(r, c)
  {
    if c in t.m.running {
      r := EndRunning(t0, t, c);
    } else {
      ExecutingIsReserved(t.m, c);
      hide Next, Can, Near;
      StartMove(t, c);
      NearStep(t0, t, Body(Start(c)));
      var t1 := Next(t, Body(Start(c)));
      r := EndRunning(t0, t1, c);
      OnlyCallTrans(t, t1, r, c);
    }
  }

  // ----- All calls -----

  /** Calls of the batch and executing ones end, the others stay as they are. */
  ghost predicate EndedOrSame(t: Turn, r: Turn, batch: seq<Name>, c: Name)
    requires c in t.m.x.slots
  {
    if IsExecuting(t.m.x, c) || (IsWaiting(t.m.x, c) && c in batch) then Ended(r, c)
    else c in r.m.x.slots && r.m.x.slots[c] == t.m.x.slots[c]
  }

  /** The first `k` calls have been dealt with. */
  ghost predicate DealtWith(t: Turn, r: Turn, batch: seq<Name>, k: nat) {
    && r.at == t.at && r.signal == t.signal && r.asks == t.asks && r.m.x.order == t.m.x.order
    && t.m.eligible <= r.m.eligible
    && (forall c :: c in t.m.x.slots && t.m.x.slots[c].at < k ==> EndedOrSame(t, r, batch, c))
    && (forall c :: c in t.m.x.slots && k <= t.m.x.slots[c].at ==> c in r.m.x.slots && r.m.x.slots[c] == t.m.x.slots[c])
  }

  lemma {:induction false} EndOne(t0: Turn, t: Turn, u: Turn, batch: seq<Name>, k: nat) returns (r: Turn)
    requires Near(t0, u) && WellFormed(t.m.x) && DealtWith(t, u, batch, k) && k < |t.m.x.order|
    requires forall c :: c in batch ==> c in t.m.eligible
    ensures Near(t0, r) && DealtWith(t, r, batch, k + 1)
  {
    hide Near;
    var c := t.m.x.order[k];
    assert c in t.m.x.slots && t.m.x.slots[c].at == k;
    r := u;
    if IsExecuting(t.m.x, c) {
      r := EndCall(t0, u, c);
    } else if IsWaiting(t.m.x, c) && c in batch {
      var u1 := LaunchCall(t0, u, c);
      r := EndCall(t0, u1, c);
      OnlyCallTrans(u, u1, r, c);
    }
    OneMore(t, u, r, batch, k);
  }

  lemma {:induction false} OneMore(t: Turn, u: Turn, r: Turn, batch: seq<Name>, k: nat)
    requires WellFormed(t.m.x) && DealtWith(t, u, batch, k) && k < |t.m.x.order|
    requires var c := t.m.x.order[k]; EndedOrSame(t, r, batch, c) && (r == u || OnlyCall(u, r, c))
    ensures DealtWith(t, r, batch, k + 1)
  {
    var c := t.m.x.order[k];
    forall a | a in t.m.x.slots && t.m.x.slots[a].at < k + 1 ensures EndedOrSame(t, r, batch, a) {
      assert SlotOk(t.m.x, a, t.m.x.slots[a]);
    }
  }

  lemma {:induction false} EndAll(t0: Turn, t: Turn, u: Turn, batch: seq<Name>, k: nat) returns (r: Turn)
    requires Near(t0, u) && WellFormed(t.m.x) && DealtWith(t, u, batch, k) && k <= |t.m.x.order|
    requires forall c :: c in batch ==> c in t.m.eligible
    ensures Near(t0, r) && DealtWith(t, r, batch, |t.m.x.order|)
    decreases |t.m.x.order| - k
  {
    hide Near, DealtWith, WellFormed;
    if k == |t.m.x.order| {
      r := u;
    } else {
      var u1 := EndOne(t0, t, u, batch, k);
      r := EndAll(t0, t, u1, batch, k + 1);
    }
  }

  /** Everything that executes or belongs to the batch ends; nothing else happens. */
  lemma {:induction false} EndEverything(t0: Turn, t: Turn, batch: seq<Name>) returns (r: Turn)
    requires Near(t0, t) && forall c :: c in batch ==> c in t.m.eligible
    ensures Near(t0, r) && r.at == t.at && r.signal == t.signal && r.asks == t.asks
    ensures forall c :: c in t.m.x.slots ==> EndedOrSame(t, r, batch, c)
    ensures Quiet(r.m.x) && Launched(r.m.x, batch)
  {
    LiveFacts(t.m);
    hide Near, Live;
    assert DealtWith(t, t, batch, 0);
    r := EndAll(t0, t, t, batch, 0);
    assert forall c :: c in t.m.x.slots ==> SlotOk(t.m.x, c, t.m.x.slots[c]);
    NothingLeft(t0, t, r, batch);
  }

  lemma {:induction false} NothingLeft(t0: Turn, t: Turn, r: Turn, batch: seq<Name>)
    requires WellFormed(t.m.x) && Near(t0, r) && r.m.x.order == t.m.x.order
    requires forall c :: c in t.m.x.slots ==> EndedOrSame(t, r, batch, c)
    ensures Quiet(r.m.x) && Launched(r.m.x, batch)
  {
    LiveFacts(r.m);
    hide Near, Live, WellFormed;
    forall c | c in r.m.x.slots ensures !IsExecuting(r.m.x, c) && (c in batch ==> !IsWaiting(r.m.x, c)) {
      SameCalls(t.m.x, r.m.x, c);
      assert EndedOrSame(t, r, batch, c);
    }
  }

  /** All calls of a batch are launched, one after the other. */
  lemma {:induction false} LaunchBatch(t0: Turn, t: Turn, batch: seq<Name>) returns (r: Turn)
    requires Near(t0, t)
    requires forall c :: c in batch ==> IsExecuting(t.m.x, c) || (c in t.m.eligible && IsWaiting(t.m.x, c))
    ensures Near(t0, r) && r.at == t.at && r.signal == t.signal && r.asks == t.asks && r.ending == t.ending
    ensures KindsKept(t, r) && forall c :: c in batch ==> IsExecuting(r.m.x, c)
    ensures forall a :: a in t.m.x.slots && a !in batch ==> a in r.m.x.slots && r.m.x.slots[a] == t.m.x.slots[a]
    ensures forall a :: IsExecuting(t.m.x, a) ==> IsExecuting(r.m.x, a)
    decreases |batch|
  {
    hide Near;
    r := t;
    if batch != [] {
      var c := batch[0];
      assert c in batch;
      if IsWaiting(t.m.x, c) {
        r := LaunchCall(t0, t, c);
      }
      assert forall a :: a in batch[1..] ==> a in batch;
      r := LaunchBatch(t0, r, batch[1..]);
    }
  }

  // ----- From an early wake-up to a lost call -----

  /** The queued call `b` has to wait for `c`. */
  ghost predicate Pair(t: Turn, c: Name, b: Name) {
    Blocks(t.m.x, c, b) && IsWaiting(t.m.x, b)
  }

  lemma {:induction false} PairIsLeft(t: Turn, c: Name, b: Name)
    requires Live(t.m) && Tidy(t.m) && Pair(t, c, b)
    ensures b !in DrainBatch(t.m.x) && !AllDone(t.m.x)
  {
    LeftBehindIsBlocked(t.m, b);
    hide Live, Tidy, DrainBatch;
  }

  /** The drain of the waiting goroutine or of an ended call changes no call. */
  lemma {:induction false} DrainMove(t: Turn)
    ensures Apply(t.m, Drain).x == t.m.x && t.m.eligible <= Apply(t.m, Drain).eligible
    ensures forall c :: c in DrainBatch(t.m.x) ==> c in Apply(t.m, Drain).eligible && IsWaiting(t.m.x, c)
  {
    DrainKeeps(t.m);
  }

  /** The goroutine of an ended call drains, launches what it found, and signals. */
  lemma {:induction false} GoroutineSignals(t0: Turn, t: Turn, e: Name) returns (r: Turn)
    requires Near(t0, t) && e in t.ending && t.ending[e] == ToDrain
    ensures Near(t0, r) && r.at == t.at && r.signal && r.asks == t.asks && KindsKept(t, r)
    ensures forall c :: c in DrainBatch(t.m.x) ==> IsExecuting(r.m.x, c)
    ensures forall a :: a in t.m.x.slots && a !in DrainBatch(t.m.x) ==>
              a in r.m.x.slots && r.m.x.slots[a] == t.m.x.slots[a]
    ensures forall a :: IsExecuting(t.m.x, a) ==> IsExecuting(r.m.x, a)
  {
    var batch := DrainBatch(t.m.x);
    hide Near, DrainBatch, Next, Can;
    DrainAfterMove(t, e);
    NearStep(t0, t, DrainAfter(e));
    var t1 := Next(t, DrainAfter(e));
    var t2 := LaunchBatch(t0, t1, batch);
    SignalMove(t2, e, batch);
    NearStep(t0, t2, SignalAfter(e));
    r := Next(t2, SignalAfter(e));
  }

  /** With nothing executing and a call unfinished, it launches something. */
  lemma {:induction false} GoroutineGoesOn(t0: Turn, t: Turn, e: Name, c: Name, b: Name) returns (r: Turn)
    requires Near(t0, t) && Quiet(t.m.x) && e in t.ending && t.ending[e] == ToDrain && Pair(t, c, b)
    ensures Near(t0, r) && r.at == t.at && r.signal && r.asks == t.asks && Pair(r, c, b) && !Quiet(r.m.x)
    ensures forall a :: IsWaiting(t.m.x, a) && a !in DrainBatch(t.m.x) ==> IsWaiting(r.m.x, a)
  {
    PairIsLeft(t, c, b);
    BatchIsThere(t, b);
    hide Near, DrainBatch, Quiet, Pair;
    r := GoroutineSignals(t0, t, e);
    PairAfterLaunch(t, r, DrainBatch(t.m.x), c, b);
  }

  lemma {:induction false} PairAfterLaunch(t: Turn, r: Turn, batch: seq<Name>, c: Name, b: Name)
    requires KindsKept(t, r) && Pair(t, c, b) && b !in batch && batch != []
    requires forall a :: a in batch ==> IsExecuting(r.m.x, a)
    requires forall a :: a in t.m.x.slots && a !in batch ==> a in r.m.x.slots && r.m.x.slots[a] == t.m.x.slots[a]
    ensures Pair(r, c, b) && !Quiet(r.m.x)
    ensures forall a :: IsWaiting(t.m.x, a) && a !in batch ==> IsWaiting(r.m.x, a)
  {
    assert batch[0] in batch;
  }

  lemma {:induction false} DrainAfterMove(t: Turn, e: Name)
    requires e in t.ending && t.ending[e] == ToDrain
    ensures Can(t, DrainAfter(e))
    ensures var r := Next(t, DrainAfter(e));
            && r.m.x == t.m.x && r.at == t.at && r.asks == t.asks
            && e in r.ending && r.ending[e] == ToSignal(DrainBatch(t.m.x))
            && forall c :: c in DrainBatch(t.m.x) ==> c in r.m.eligible && IsWaiting(t.m.x, c)
  {
    DrainMove(t);
    hide DrainBatch, Apply;
  }

  lemma {:induction false} SignalMove(t: Turn, e: Name, batch: seq<Name>)
    requires e in t.ending && t.ending[e] == ToSignal(batch) && forall c :: c in batch ==> IsExecuting(t.m.x, c)
    ensures Can(t, SignalAfter(e))
    ensures var r := Next(t, SignalAfter(e)); r.m == t.m && r.at == t.at && r.asks == t.asks && r.signal
  {
  }

  lemma {:induction false} BatchIsThere(t: Turn, b: Name)
    requires Live(t.m) && Tidy(t.m) && Quiet(t.m.x) && IsWaiting(t.m.x, b)
    ensures DrainBatch(t.m.x) != []
  {
    if DrainBatch(t.m.x) == [] {
      forall id ensures id !in InFlight(t.m) {
      }
      assert InFlight(t.m) == {};
      NeverStuck(t.m);
    }
  }

  /** A collect of the waiting goroutine leaves unfinished calls alone. */
  lemma {:induction false} CollectMove(t0: Turn, t: Turn) returns (r: Turn)
    requires Near(t0, t) && t.at in {OuterCollect, LastCollect}
    ensures Near(t0, r) && r == Next(t, Waiter) && r.signal == t.signal && r.ending == t.ending && r.asks == t.asks
    ensures r.at == if t.at == OuterCollect then OuterPending else InnerTop
    ensures forall c :: Unfinished(t.m.x, c) ==> c in r.m.x.slots && r.m.x.slots[c] == t.m.x.slots[c]
  {
    LiveFacts(t.m);
    CollectKeeps(t.m);
    NearStep(t0, t, Waiter);
    hide Apply, Near, Live, Tidy;
    r := Next(t, Waiter);
  }

  /** Waiting again, with a signal in the channel and something executing. */
  lemma {:induction false} ToInnerDrain(t0: Turn, t: Turn, c: Name, b: Name) returns (r: Turn)
    requires Near(t0, t) && t.at == InnerTop && t.signal && Pair(t, c, b) && !Quiet(t.m.x)
    ensures Near(t0, r) && r.at == InnerDrain && r.m == t.m
  {
    hide Near, Quiet;
    assert !AllDone(t.m.x);
    hide AllDone;
    NearStep(t0, t, Waiter);
    var t1 := Next(t, Waiter);
    NearStep(t0, t1, Waiter);
    var t2 := Next(t1, Waiter);
    NearStep(t0, t2, Waiter);
    var t3 := Next(t2, Waiter);
    NearStep(t0, t3, Waiter);
    r := Next(t3, Waiter);
  }

  /** The drain of the second loop leaves `b` behind, and everything ends before the look. */
  lemma {:induction false} GivesUp(t0: Turn, t: Turn, c: Name, b: Name)
    requires Near(t0, t) && t.at == InnerDrain && Pair(t, c, b)
    ensures MayLose(t0)
  {
    PairIsLeft(t, c, b);
    InnerDrainMove(t);
    hide Near, DrainBatch, Next, Can, Quiet, Launched, MayLose;
    NearStep(t0, t, Waiter);
    var batch := DrainBatch(t.m.x);
    var t1 := Next(t, Waiter);
    var t2 := EndEverything(t0, t1, batch);
    assert EndedOrSame(t1, t2, batch, b);
    LookFindsNothing(t0, t2, batch, b);
  }

  lemma {:induction false} InnerDrainMove(t: Turn)
    requires t.at == InnerDrain
    ensures Can(t, Waiter)
    ensures var r := Next(t, Waiter);
            && r.m.x == t.m.x && r.at == InnerLaunch(DrainBatch(t.m.x))
            && forall c :: c in DrainBatch(t.m.x) ==> c in r.m.eligible
  {
    DrainMove(t);
    hide DrainBatch, Apply;
  }

  lemma {:induction false} LookFindsNothing(t0: Turn, t: Turn, batch: seq<Name>, b: Name)
    requires Near(t0, t) && t.at == InnerLaunch(batch) && Launched(t.m.x, batch) && Quiet(t.m.x) && IsWaiting(t.m.x, b)
    ensures MayLose(t0)
  {
    hide Live, Tidy, Reaches, Quiet, Launched;
    NearStep(t0, t, Waiter);
    var t1 := Next(t, Waiter);
    NearStep(t0, t1, Waiter);
    var t2 := Next(t1, Waiter);
    assert t2.at == Take && IsWaiting(t2.m.x, b);
  }

  /** Once woken while something executes, the turn can lose a call that waits for a queued one. */
  lemma {:induction false} WokenLoses(t0: Turn, t: Turn, e: Name, c: Name, b: Name)
    requires Near(t0, t) && t.at == OuterWait(Blocked) && t.signal
    requires IsExecuting(t.m.x, e) && Pair(t, c, b) && IsWaiting(t.m.x, c)
    ensures MayLose(t0)
  {
    hide Near, MayLose, Quiet;
    assert !AllDone(t.m.x);
    hide AllDone;
    NearStep(t0, t, Waiter);
    var t1 := Next(t, Waiter);
    NearStep(t0, t1, Waiter);
    var t2 := Next(t1, Waiter);
    assert t2.at == OuterRunning && t2.m == t.m;
    var t3 := EndEverything(t0, t2, []);
    assert EndedOrSame(t2, t3, [], e) && EndedOrSame(t2, t3, [], c) && EndedOrSame(t2, t3, [], b);
    NearStep(t0, t3, Waiter);
    var t4 := Next(t3, Waiter);
    assert t4.at == LastCollect && t4.m == t3.m && t4.ending == t3.ending;
    BreaksAndLoses(t0, t4, e, c, b);
  }

  lemma {:induction false} BreaksAndLoses(t0: Turn, t: Turn, e: Name, c: Name, b: Name)
    requires Near(t0, t) && t.at == LastCollect && Quiet(t.m.x) && Pair(t, c, b)
    requires e in t.ending && t.ending[e] == ToDrain
    ensures MayLose(t0)
  {
    hide Near, MayLose, DrainBatch;
    var t1 := GoroutineGoesOn(t0, t, e, c, b);
    var t2 := CollectMove(t0, t1);
    assert Pair(t2, c, b);
    var x :| x in t1.m.x.slots && t1.m.x.slots[x].state == Executing;
    assert Unfinished(t1.m.x, x) && !Quiet(t2.m.x);
    var t3 := ToInnerDrain(t0, t2, c, b);
    GivesUp(t0, t3, c, b);
  }

  // ----- The exact condition -----

  /** A blocked call is queued. */
  lemma {:induction false} BlockedWaits(m: Machine, a: Name, c: Name)
    requires Live(m) && Blocks(m.x, a, c)
    ensures IsWaiting(m.x, c)
  {
    assert IsExecuting(m.x, c) ==> MayLaunch(m.x, c);
  }

  lemma {:induction false} SomethingExecutes(t0: Turn, b: Name) returns (e: Name)
    requires Settled(t0) && IsWaiting(t0.m.x, b)
    ensures IsExecuting(t0.m.x, e)
  {
    if Quiet(t0.m.x) {
      BatchIsThere(t0, b);
      assert false;
    }
    e :| e in t0.m.x.slots && t0.m.x.slots[e].state == Executing;
  }

  /** Unfinished calls are as they were. */
  ghost predicate Unmoved(t: Turn, r: Turn) {
    forall c :: Unfinished(t.m.x, c) ==> c in r.m.x.slots && r.m.x.slots[c] == t.m.x.slots[c]
  }

  lemma UnmovedPair(t: Turn, r: Turn, c: Name, b: Name)
    requires Unmoved(t, r)
    ensures Blocks(t.m.x, c, b) ==> Blocks(r.m.x, c, b)
    ensures IsWaiting(t.m.x, b) ==> IsWaiting(r.m.x, b)
    ensures IsExecuting(t.m.x, b) ==> IsExecuting(r.m.x, b)
  {
  }

  lemma {:induction false} BlocksFrom(t0: Turn, t: Turn, e: Name) returns (r: Turn)
    requires Near(t0, t) && t.at == OuterPending && IsExecuting(t.m.x, e)
    ensures Near(t0, r) && r == t.(at := OuterWait(Blocked))
  {
    hide Near;
    assert !AllDone(t.m.x) && !Quiet(t.m.x);
    hide AllDone, Quiet, IsExecuting;
    NearStep(t0, t, Waiter);
    var t1 := Next(t, Waiter);
    NearStep(t0, t1, Waiter);
    var t2 := Next(t1, Waiter);
    NearStep(t0, t2, Waiter);
    r := Next(t2, Waiter);
  }

  /** The waiting goroutine blocks on the channel, while unfinished calls are as they were. */
  lemma {:induction false} ToBlocked(t0: Turn, e: Name) returns (r: Turn)
    requires Settled(t0) && IsExecuting(t0.m.x, e)
    ensures Near(t0, r) && r.at == OuterWait(Blocked) && r.signal == t0.signal && r.asks == t0.asks && Unmoved(t0, r)
  {
    NearStart(t0);
    assert t0.at == OuterTop && !AllDone(t0.m.x);
    hide Near, Settled, AllDone;
    NearStep(t0, t0, Waiter);
    var t1 := Next(t0, Waiter);
    assert t1 == t0.(at := OuterCollect);
    hide Next, Can;
    var t2 := CollectMove(t0, t1);
    UnmovedPair(t0, t2, e, e);
    r := BlocksFrom(t0, t2, e);
  }

  lemma {:induction false} NotifyMove(t0: Turn, t: Turn, e: Name) returns (r: Turn)
    requires Near(t0, t) && IsExecuting(t.m.x, e) && e in t.asks
    ensures Near(t0, r) && r.at == t.at && r.signal && IsExecuting(r.m.x, e)
    ensures forall a :: a in t.m.x.slots && a != e ==> a in r.m.x.slots && r.m.x.slots[a] == t.m.x.slots[a]
  {
    var t1 := t;
    if e !in t.m.running {
      ExecutingIsReserved(t.m, e);
      StartMove(t, e);
      NearStep(t0, t, Body(Start(e)));
      t1 := Next(t, Body(Start(e)));
    }
    hide Near, Apply;
    NearStep(t0, t1, Notify(e));
    r := Next(t1, Notify(e));
  }

  lemma OnlyCallPair(t: Turn, r: Turn, d: Name, c: Name, b: Name)
    requires OnlyCall(t, r, d) && d != c && d != b
    ensures Blocks(t.m.x, c, b) ==> Blocks(r.m.x, c, b)
    ensures IsWaiting(t.m.x, b) ==> IsWaiting(r.m.x, b)
    ensures IsExecuting(t.m.x, b) ==> IsExecuting(r.m.x, b)
  {
  }

  /** What is not launched stays as it is. */
  lemma NotLaunched(t: Turn, r: Turn, batch: seq<Name>, c: Name, b: Name)
    requires forall a :: a in t.m.x.slots && a !in batch ==> a in r.m.x.slots && r.m.x.slots[a] == t.m.x.slots[a]
    requires c !in batch && b !in batch
    ensures Pair(t, c, b) ==> Pair(r, c, b)
    ensures IsWaiting(t.m.x, c) ==> IsWaiting(r.m.x, c)
  {
  }

  /** One of two executing calls ends and signals; the other one goes on executing, and nothing that
      waits for a third call is launched. */
  lemma {:induction false} OneOfTwoSignals(t0: Turn, t: Turn, d: Name, e: Name, a: Name, c: Name, b: Name)
    returns (r: Turn)
    requires Near(t0, t) && IsExecuting(t.m.x, d) && IsExecuting(t.m.x, e) && d != e && d != a
    requires Blocks(t.m.x, a, c) && IsWaiting(t.m.x, c) && Pair(t, c, b)
    ensures Near(t0, r) && r.at == t.at && r.signal && IsExecuting(r.m.x, e)
    ensures Pair(r, c, b) && IsWaiting(r.m.x, c)
  {
    assert d != c && d != b;
    hide Near, DrainBatch, Blocks, IsWaiting, IsExecuting, OnlyCall;
    var t1 := EndCall(t0, t, d);
    OnlyCallPair(t, t1, d, a, c);
    OnlyCallPair(t, t1, d, c, b);
    OnlyCallPair(t, t1, d, a, e);
    assert SameAt(t, t1) by { OnlyCallAt(t, t1, d); }
    LeftByBoth(t0, t1, a, c, b);
    r := GoroutineSignals(t0, t1, d);
    NotLaunched(t1, r, DrainBatch(t1.m.x), c, b);
  }

  ghost predicate SameAt(t: Turn, r: Turn) {
    r.at == t.at
  }

  lemma OnlyCallAt(t: Turn, r: Turn, d: Name)
    requires OnlyCall(t, r, d)
    ensures SameAt(t, r)
  {
  }

  lemma {:induction false} LeftByBoth(t0: Turn, t: Turn, a: Name, c: Name, b: Name)
    requires Near(t0, t) && Blocks(t.m.x, a, c) && IsWaiting(t.m.x, c) && Pair(t, c, b)
    ensures c !in DrainBatch(t.m.x) && b !in DrainBatch(t.m.x)
  {
    hide DrainBatch, Live, Tidy, Reaches;
    PairIsLeft(t, a, c);
    PairIsLeft(t, c, b);
  }

  lemma {:induction false} EarlyLoses(t0: Turn, a: Name, c: Name, b: Name)
    requires Settled(t0) && EarlyWake(t0) && Blocks(t0.m.x, a, c) && Blocks(t0.m.x, c, b)
    ensures MayLose(t0)
  {
    BlockedWaits(t0.m, a, c);
    BlockedWaits(t0.m, c, b);
    hide Settled, MayLose, Near, Blocks, Unmoved;
    if t0.signal {
      var e := SomethingExecutes(t0, b);
      var t1 := ToBlocked(t0, e);
      UnmovedPair(t0, t1, c, b);
      UnmovedPair(t0, t1, a, c);
      UnmovedPair(t0, t1, a, e);
      WokenLoses(t0, t1, e, c, b);
    } else if d :| IsExecuting(t0.m.x, d) && d in t0.asks {
      NotifyLoses(t0, d, a, c, b);
    } else {
      var d, f :| IsExecuting(t0.m.x, d) && IsExecuting(t0.m.x, f) && d != f;
      if d == a {
        TwoLose(t0, f, d, a, c, b);
      } else {
        TwoLose(t0, d, f, a, c, b);
      }
    }
  }

  lemma {:induction false} NotifyLoses(t0: Turn, d: Name, a: Name, c: Name, b: Name)
    requires Settled(t0) && IsExecuting(t0.m.x, d) && d in t0.asks
    requires Blocks(t0.m.x, a, c) && Blocks(t0.m.x, c, b) && IsWaiting(t0.m.x, c) && IsWaiting(t0.m.x, b)
    ensures MayLose(t0)
  {
    hide Settled, MayLose, Near;
    assert d != c && d != b;
    var t1 := ToBlocked(t0, d);
    UnmovedPair(t0, t1, c, b);
    UnmovedPair(t0, t1, a, c);
    UnmovedPair(t0, t1, a, d);
    hide Unmoved;
    var t2 := NotifyMove(t0, t1, d);
    WokenLoses(t0, t2, d, c, b);
  }

  lemma {:induction false} TwoLose(t0: Turn, d: Name, e: Name, a: Name, c: Name, b: Name)
    requires Settled(t0) && IsExecuting(t0.m.x, d) && IsExecuting(t0.m.x, e) && d != e && d != a
    requires Blocks(t0.m.x, a, c) && Blocks(t0.m.x, c, b) && IsWaiting(t0.m.x, c) && IsWaiting(t0.m.x, b)
    ensures MayLose(t0)
  {
    hide Settled, MayLose, Near, Blocks, Unmoved, IsWaiting, IsExecuting;
    var t1 := ToBlocked(t0, d);
    UnmovedPair(t0, t1, c, b);
    UnmovedPair(t0, t1, a, c);
    UnmovedPair(t0, t1, a, d);
    UnmovedPair(t0, t1, a, e);
    var t2 := OneOfTwoSignals(t0, t1, d, e, a, c, b);
    WokenLoses(t0, t2, e, c, b);
  }

  lemma {:induction false} FourLose(t0: Turn, a: Name, c: Name, d: Name, b: Name)
    requires Settled(t0) && Blocks(t0.m.x, a, c) && Blocks(t0.m.x, c, d) && Blocks(t0.m.x, d, b)
    ensures MayLose(t0)
  {
    BlockedWaits(t0.m, a, c);
    BlockedWaits(t0.m, c, d);
    BlockedWaits(t0.m, d, b);
    var e := SomethingExecutes(t0, b);
    hide Settled, MayLose, Near, Blocks, Unmoved;
    var t1 := ToBlocked(t0, e);
    UnmovedPair(t0, t1, a, c);
    UnmovedPair(t0, t1, c, d);
    UnmovedPair(t0, t1, d, b);
    UnmovedPair(t0, t1, a, e);
    FourLoseFrom(t0, t1, e, c, d, b);
  }

  lemma {:induction false} FourLoseFrom(t0: Turn, t: Turn, e: Name, c: Name, d: Name, b: Name)
    requires Near(t0, t) && t.at == OuterWait(Blocked) && IsExecuting(t.m.x, e)
    requires IsWaiting(t.m.x, c) && Pair(t, c, d) && Pair(t, d, b)
    ensures MayLose(t0)
  {
    hide Near, DrainBatch, MayLose;
    var t1 := EndEverything(t0, t, []);
    assert EndedOrSame(t, t1, [], e) && EndedOrSame(t, t1, [], c);
    assert EndedOrSame(t, t1, [], d) && EndedOrSame(t, t1, [], b);
    assert Pair(t1, c, d) && Pair(t1, d, b);
    LeftByBoth(t0, t1, c, d, b);
    hide Pair, IsWaiting;
    var t2 := GoroutineGoesOn(t0, t1, e, d, b);
    var x :| x in t2.m.x.slots && t2.m.x.slots[x].state == Executing;
    WokenLoses(t0, t2, x, d, b) by { assert IsWaiting(t1.m.x, d); }
  }

  /** Exactly which settled turns can be committed with a granted call still queued, or not ended: with
      a wake-up before everything that executes has ended, those with three unfinished calls each of
      which waits for the one before; without one, and without skills that ask, those with four. */
  lemma {:induction false} TurnLosesExactly(t0: Turn)
    requires Settled(t0)
    ensures EarlyWake(t0) ==> (MayLose(t0) <==> Chain3(t0.m.x)) && (MayLeave(t0) <==> Chain3(t0.m.x))
    ensures !EarlyWake(t0) && t0.asks == {} ==> (MayLose(t0) <==> Chain4(t0.m.x)) && (MayLeave(t0) <==> Chain4(t0.m.x))
    ensures Chain4(t0.m.x) ==> MayLose(t0)
    ensures MayLose(t0) ==> MayLeave(t0)
    ensures MayLeave(t0) ==> Chain3(t0.m.x)
  {
    if MayLose(t0) {
      var t :| Reaches(t0, t) && Loses(t);
      var b :| IsWaiting(t.m.x, b);
      assert Unfinished(t.m.x, b);
    }
    hide Settled, Reaches, Loses, Leaves, Blocks, EarlyWake;
    if t :| Reaches(t0, t) && Leaves(t) {
      LossNeedsThree(t0, t);
      if !EarlyWake(t0) && t0.asks == {} {
        LateLossNeedsFour(t0, t);
      }
    }
    if a, c, b :| EarlyWake(t0) && Blocks(t0.m.x, a, c) && Blocks(t0.m.x, c, b) {
      EarlyLoses(t0, a, c, b);
    }
    if a, c, d, b :| Blocks(t0.m.x, a, c) && Blocks(t0.m.x, c, d) && Blocks(t0.m.x, d, b) {
      FourLose(t0, a, c, d, b);
    }
  }
}
