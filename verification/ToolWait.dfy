/** One turn's wait for its tool results (agent/loop.go, executeAndCommitTools; agent/tools_executor.go,
    WaitForActivity and GetRemainingResults). The waiting goroutine runs through two loops; the
    goroutines of the tools act between any two of its critical sections, and wake it through a
    channel that holds one signal. */
module ToolWait {
  import opened Prelude
  import opened ToolExecutor
  import opened ToolBodies
  import opened ToolProgress
  import opened ToolSchedule

  // ----- The turn as a state machine -----

  /** What the goroutine of an ended call still has to do: drain, launch what the drain found, and
      only then signal. */
  datatype Ending = ToDrain | ToSignal(batch: seq<Name>)

  /** The sections of WaitForActivity. */
  datatype WaitPoint = AskPending | AskRunning | DrainNow | Launch(batch: seq<Name>) | AskAgain | Blocked

  /** The sections of the loop of the turn, and of the loop of GetRemainingResults behind it; `Take` is
      the section that reads the results for the commit. */
  datatype Point =
    | OuterTop | OuterCollect | OuterPending | OuterWait(at: WaitPoint) | OuterLook | OuterRunning | LastCollect
    | InnerTop | InnerWait(at: WaitPoint) | InnerDrain | InnerLaunch(batch: seq<Name>) | InnerLook
    | Take | Over

  /** `signal` is the content of the activity channel; the bodies of the calls in `asks` may signal
      while they run, because their skill asks for a permission. */
  datatype Turn = Turn(m: Machine, signal: bool, ending: map<Name, Ending>, asks: set<Name>, at: Point)

  datatype Move =
    | Waiter
    | Body(s: Step)
    | DrainAfter(id: Name)
    | SignalAfter(id: Name)
    | Notify(id: Name)

  /** Every call of the batch has been taken out of the queue. */
  predicate Launched(x: Shared, batch: seq<Name>) {
    forall id :: id in batch ==> !IsWaiting(x, id)
  }

  /** The waiting goroutine blocks on the channel, and goes on behind a drain once it has launched. */
  predicate WaiterCan(t: Turn) {
    match t.at
    case OuterWait(Launch(batch)) => Launched(t.m.x, batch)
    case InnerWait(Launch(batch)) => Launched(t.m.x, batch)
    case InnerLaunch(batch) => Launched(t.m.x, batch)
    case OuterWait(Blocked) => t.signal
    case InnerWait(Blocked) => t.signal
    case Over => false
    case _ => true
  }

  /** During a turn no call is added, granted or denied, and nothing is cancelled. */
  predicate BodyCan(m: Machine, s: Step) {
    match s
    case Reserve(id) => id in m.eligible && IsWaiting(m.x, id)
    case Start(id) => id in m.reserved
    case Report(id, _, _) => id in m.running
    case Finish(id) => id in m.running && id in m.x.slots && m.x.slots[id].result.Some?
    case _ => false
  }

  predicate Can(t: Turn, move: Move) {
    match move
    case Waiter => WaiterCan(t)
    case Body(s) => BodyCan(t.m, s)
    case DrainAfter(id) => id in t.ending && t.ending[id].ToDrain?
    case SignalAfter(id) => id in t.ending && t.ending[id].ToSignal? && Launched(t.m.x, t.ending[id].batch)
    case Notify(id) => id in t.m.running && id in t.asks
  }

  /** One section of WaitForActivity: the next one, or the end of the call. */
  function WaitNext(t: Turn, w: WaitPoint): (r: (Turn, Option<WaitPoint>)) {
    match w
    case AskPending => (t, if AllDone(t.m.x) then None else Some(AskRunning))
    case AskRunning => (t, Some(if Quiet(t.m.x) then DrainNow else Blocked))
    case DrainNow => (t.(m := Apply(t.m, Drain)), Some(Launch(DrainBatch(t.m.x))))
    case Launch(_) => (t, Some(AskAgain))
    case AskAgain => (t, if Quiet(t.m.x) then None else Some(Blocked))
    case Blocked => (t.(signal := false), None)
  }

  function WaiterNext(t: Turn): (r: Turn) {
    match t.at
    case OuterTop => t.(at := if AllDone(t.m.x) then LastCollect else OuterCollect)
    case OuterCollect => t.(m := Apply(t.m, Collect), at := OuterPending)
    case OuterPending => t.(at := if AllDone(t.m.x) then OuterTop else OuterWait(AskPending))
    case OuterWait(w) =>
      var n := WaitNext(t, w);
      n.0.(at := if n.1.Some? then OuterWait(n.1.value) else OuterLook)
    case OuterLook => t.(at := if AllDone(t.m.x) then OuterTop else OuterRunning)
    case OuterRunning => t.(at := if Quiet(t.m.x) then LastCollect else OuterTop)
    case LastCollect => t.(m := Apply(t.m, Collect), at := InnerTop)
    case InnerTop => t.(at := if AllDone(t.m.x) then Take else InnerWait(AskPending))
    case InnerWait(w) =>
      var n := WaitNext(t, w);
      n.0.(at := if n.1.Some? then InnerWait(n.1.value) else InnerDrain)
    case InnerDrain => t.(m := Apply(t.m, Drain), at := InnerLaunch(DrainBatch(t.m.x)))
    case InnerLaunch(_) => t.(at := InnerLook)
    case InnerLook => t.(at := if Quiet(t.m.x) then Take else InnerTop)
    case Take => t.(at := Over)
    case Over => t
  }

  function Next(t: Turn, move: Move): (r: Turn)
    requires Can(t, move)
  {
    match move
    case Waiter => WaiterNext(t)
    case Body(s) =>
      t.(m := Apply(t.m, s), ending := if s.Finish? then t.ending[s.id := ToDrain] else t.ending)
    case DrainAfter(id) =>
      t.(m := Apply(t.m, Drain), ending := t.ending[id := ToSignal(DrainBatch(t.m.x))])
    case SignalAfter(id) => t.(signal := true, ending := t.ending - {id})
    case Notify(id) => t.(signal := true)
  }

  ghost predicate Legal(t: Turn, moves: seq<Move>)
    decreases |moves|
  {
    moves == [] || (Can(t, moves[0]) && Legal(Next(t, moves[0]), moves[1..]))
  }

  ghost function Execute(t: Turn, moves: seq<Move>): (r: Turn)
    requires Legal(t, moves)
    decreases |moves|
  {
    if moves == [] then t else Execute(Next(t, moves[0]), moves[1..])
  }

  // ----- What a drain leaves behind -----

  /** A queued call that a drain at this moment does not launch. */
  ghost predicate LeftBehind(d: Machine, b: Name) {
    IsWaiting(d.x, b) && b !in DrainBatch(d.x)
  }

  lemma SecondExclusive(x: Shared, a: Name, b: Name)
    requires WellFormed(x) && ExclusiveReady(x, a) && ExclusiveReady(x, b)
    ensures a == b
  {
    assert SlotOk(x, a, x.slots[a]) && SlotOk(x, b, x.slots[b]);
  }

  /** A drain leaves a call behind if and only if an earlier conflicting call is unfinished or an
      exclusive body is running. */
  lemma {:induction false} LeftBehindExactly(d: Machine, b: Name)
    requires Live(d) && IsWaiting(d.x, b)
    ensures LeftBehind(d, b) <==> !Cleared(d.x, b) || d.x.nonSafeRunning > 0
  {
    var x := d.x;
    assert SlotOk(x, b, x.slots[b]);
    if Cleared(x, b) && x.nonSafeRunning <= 0 {
      if x.slots[b].call.safe {
        assert SafeReady(x, x.order[x.slots[b].at]);
      } else {
        assert ExclusiveReady(x, x.order[x.slots[b].at]);
        SecondExclusive(x, ExclusiveBatch(x)[0], b);
      }
    }
  }

  predicate Unfinished(x: Shared, c: Name) {
    c in x.slots && !Terminal(x.slots[c].state)
  }

  /** The call `b` has to wait for the earlier call `c`. */
  predicate Blocks(x: Shared, c: Name, b: Name) {
    Unfinished(x, c) && Unfinished(x, b) && x.slots[c].at < x.slots[b].at && Conflict(x.slots[c], x.slots[b])
  }

  /** No body runs under an ended call: none was denied while it ran. */
  predicate Tidy(m: Machine) {
    forall id :: id in m.running ==> IsExecuting(m.x, id)
  }

  /** In a tidy machine a drain leaves a call behind if and only if another call blocks it. */
  lemma {:induction false} LeftBehindIsBlocked(d: Machine, b: Name)
    requires Live(d) && Tidy(d) && IsWaiting(d.x, b)
    ensures LeftBehind(d, b) <==> exists c :: Blocks(d.x, c, b)
  {
    LeftBehindExactly(d, b);
    if d.x.nonSafeRunning > 0 {
      RunningBlocks(d, b);
    } else if !Cleared(d.x, b) {
      UnclearedIsBlocked(d.x, b);
    }
    if c :| Blocks(d.x, c, b) {
      assert !Cleared(d.x, b);
    }
  }

  lemma UnclearedIsBlocked(x: Shared, b: Name)
    requires IsWaiting(x, b) && !Cleared(x, b)
    ensures exists c :: Blocks(x, c, b)
  {
    var c :| c in x.slots && x.slots[c].at < x.slots[b].at && Conflict(x.slots[c], x.slots[b])
             && !Terminal(x.slots[c].state);
    assert Blocks(x, c, b);
  }

  lemma {:induction false} RunningBlocks(d: Machine, b: Name)
    requires Live(d) && Tidy(d) && IsWaiting(d.x, b) && d.x.nonSafeRunning > 0
    ensures exists c :: Blocks(d.x, c, b)
  {
    var e :| e in Exclusive(d);
    assert e in InFlight(d) && e in d.eligible && MayLaunch(d.x, e);
    assert SlotOk(d.x, e, d.x.slots[e]) && SlotOk(d.x, b, d.x.slots[b]);
    assert Blocks(d.x, e, b);
  }

  // ----- Every move only goes forward -----

  /** `r` comes later than `m`: live, no call heavier, kinds and positions as before. */
  ghost predicate Later(m: Machine, r: Machine) {
    NoHeavier(m, r) && Keeps(m.x, r.x)
  }

  lemma LaterRefl(m: Machine)
    requires Live(m)
    ensures Later(m, m)
  {
  }

  lemma {:induction false} LaterStep(m: Machine, r: Machine, s: Step)
    requires Later(m, r) && CalmStep(r, s)
    ensures Later(m, Apply(r, s))
  {
    hide Apply, CalmStep, Live, Grows;
    NoHeavierStep(m, r, s);
    LiveFacts(r);
    StepGrows(r, s);
    KeepsFromGrows(r.x, Apply(r, s).x);
    KeepsTrans(m.x, r.x, Apply(r, s).x);
  }

  lemma KeepsFromGrows(x: Shared, y: Shared)
    requires Grows(x, y) && y.order == x.order
    ensures Keeps(x, y)
  {
  }

  lemma LiveFacts(m: Machine)
    requires Live(m)
    ensures !m.x.cancelled && BodyInv(m) && AllGranted(m.x) && WellFormed(m.x)
  {
  }

  lemma {:induction false} LaterIsLive(m: Machine, r: Machine)
    requires Later(m, r)
    ensures Live(r) && WellFormed(r.x)
  {
    hide BodyInv;
    LiveFacts(r);
  }

  lemma SameCalls(x: Shared, y: Shared, c: Name)
    requires WellFormed(x) && WellFormed(y) && x.order == y.order
    ensures c in x.slots <==> c in y.slots
  {
    assert c in x.slots ==> SlotOk(x, c, x.slots[c]);
    assert c in y.slots ==> SlotOk(y, c, y.slots[c]);
  }

  /** Calls never go back: what is queued was queued, what is unfinished was unfinished, and an
      executing call executes until it ends. */
  lemma {:induction false} LaterCall(m: Machine, r: Machine, c: Name)
    requires Live(m) && Later(m, r)
    ensures c in m.x.slots <==> c in r.x.slots
    ensures IsWaiting(r.x, c) ==> IsWaiting(m.x, c)
    ensures Unfinished(r.x, c) ==> Unfinished(m.x, c)
    ensures IsExecuting(m.x, c) && Unfinished(r.x, c) ==> IsExecuting(r.x, c)
  {
    LiveFacts(m);
    LiveFacts(r);
    SameCalls(m.x, r.x, c);
    assert Weight(r, c) <= Weight(m, c);
    hide Live;
  }

  lemma {:induction false} LaterBlocks(m: Machine, r: Machine, c: Name, b: Name)
    requires Live(m) && Later(m, r) && Blocks(r.x, c, b)
    ensures Blocks(m.x, c, b)
  {
    hide Live, NoHeavier;
    LaterCall(m, r, c);
    LaterCall(m, r, b);
  }

  /** The step of the machine that a move takes, if any. */
  function MachineStep(t: Turn, move: Move): (s: Option<Step>) {
    match move
    case Body(s) => Some(s)
    case DrainAfter(_) => Some(Drain)
    case Waiter =>
      if t.at in {OuterCollect, LastCollect} then Some(Collect)
      else if t.at in {OuterWait(DrainNow), InnerWait(DrainNow), InnerDrain} then Some(Drain)
      else None
    case _ => None
  }

  lemma {:induction false} MoveTakesStep(t: Turn, move: Move)
    requires Can(t, move)
    ensures Next(t, move).m == if MachineStep(t, move).Some? then Apply(t.m, MachineStep(t, move).value) else t.m
    ensures Next(t, move).asks == t.asks
  {
    hide Apply, AllDone, Quiet, DrainBatch;
  }

  lemma {:induction false} MoveIsCalm(t: Turn, move: Move)
    requires Can(t, move) && MachineStep(t, move).Some? && !t.m.x.cancelled
    ensures CalmStep(t.m, MachineStep(t, move).value)
  {
    hide SafeBatch, ExclusiveBatch, CanStart, FirstPending, Buffered;
  }

  lemma {:induction false} TidyStep(m: Machine, s: Step)
    requires WellFormed(m.x) && Tidy(m) && (BodyCan(m, s) || s.Drain? || s.Collect?)
    ensures Tidy(Apply(m, s))
  {
    hide SafeBatch, ExclusiveBatch, CanStart, Buffered;
    if s.Collect? {
      forall id | id in m.running ensures IsExecuting(YieldTo(m.x, FirstPending(m.x)), id) {
        assert SlotOk(m.x, id, m.x.slots[id]);
        assert !Done(m.x, m.x.order[m.x.slots[id].at]);
      }
    }
  }

  lemma {:induction false} MoveForward(m: Machine, t: Turn, move: Move)
    requires Later(m, t.m) && Can(t, move)
    ensures Later(m, Next(t, move).m) && (Tidy(t.m) ==> Tidy(Next(t, move).m))
  {
    MoveTakesStep(t, move);
    LaterIsLive(m, t.m);
    LiveFacts(t.m);
    if MachineStep(t, move).Some? {
      var s := MachineStep(t, move).value;
      MoveIsCalm(t, move);
      assert BodyCan(t.m, s) || s.Drain? || s.Collect?;
      hide Apply, Next, Can, BodyCan, Later, Live, CalmStep, Tidy;
      LaterStep(m, t.m, s);
      if Tidy(t.m) {
        TidyStep(t.m, s);
      }
    }
  }

  // ----- Which calls a turn can lose -----

  /** The turn is past its first loop. */
  predicate Inner(at: Point) {
    at in {LastCollect, InnerTop, InnerDrain, InnerLook, Take, Over} || at.InnerWait? || at.InnerLaunch?
  }

  /** What executed when the turn began has ended before the second loop is entered. */
  ghost predicate PastFirst(t0: Turn, t: Turn) {
    Inner(t.at) ==> forall c :: IsExecuting(t0.m.x, c) ==> !Unfinished(t.m.x, c)
  }

  /** The call waits for one that was itself queued when the turn began. */
  ghost predicate Deep(x: Shared, b: Name) {
    exists c :: Blocks(x, c, b) && IsWaiting(x, c)
  }

  ghost function DeepCalls(x: Shared): (s: set<Name>) {
    set b | b in x.slots && Deep(x, b)
  }

  /** Behind the drain of the second loop only calls of `s` are left in the queue, and when the results
      are read only those are unfinished. */
  ghost predicate OnlyLeft(t: Turn, s: set<Name>) {
    match t.at
    case InnerLaunch(batch) => forall b :: IsWaiting(t.m.x, b) && b !in batch ==> b in s
    case InnerLook => forall b :: IsWaiting(t.m.x, b) ==> b in s
    case Take => forall b :: Unfinished(t.m.x, b) ==> b in s
    case _ => true
  }

  ghost predicate TurnInv(t0: Turn, t: Turn) {
    Live(t0.m) && Later(t0.m, t.m) && Tidy(t.m) && PastFirst(t0, t) && OnlyLeft(t, DeepCalls(t0.m.x))
  }

  /** Where the second loop is entered, and what a move leaves alone. */
  lemma {:induction false} PointStep(t: Turn, move: Move)
    requires Can(t, move)
    ensures var r := Next(t, move);
            && (Inner(r.at) ==> Inner(t.at) || (r.m == t.m && Quiet(t.m.x)))
            && (!move.Waiter? ==> r.at == t.at)
  {
    assert AllDone(t.m.x) ==> Quiet(t.m.x);
    hide Apply, AllDone, Quiet, DrainBatch;
  }

  lemma {:induction false} LaterMove(t: Turn, move: Move)
    requires Live(t.m) && Can(t, move)
    ensures Later(t.m, Next(t, move).m)
  {
    hide Next, Can, Live, Later;
    LaterRefl(t.m);
    MoveForward(t.m, t, move);
  }

  lemma {:induction false} StepPastFirst(t0: Turn, t: Turn, move: Move)
    requires TurnInv(t0, t) && Can(t, move)
    ensures PastFirst(t0, Next(t, move))
  {
    hide Next, Can, Live, Later, OnlyLeft, Inner;
    var r := Next(t, move);
    LaterIsLive(t0.m, t.m);
    LaterMove(t, move);
    PointStep(t, move);
    if Inner(r.at) {
      forall c | IsExecuting(t0.m.x, c) ensures !Unfinished(r.m.x, c) {
        LaterCall(t0.m, t.m, c);
        LaterCall(t.m, r.m, c);
      }
    }
  }

  /** A drain of the second loop leaves only deep calls behind. */
  lemma {:induction false} DrainLeavesDeep(t0: Turn, t: Turn, b: Name)
    requires TurnInv(t0, t) && Inner(t.at) && LeftBehind(t.m, b)
    ensures Deep(t0.m.x, b)
  {
    hide Live, Later, Tidy;
    LaterIsLive(t0.m, t.m);
    LeftBehindIsBlocked(t.m, b);
    var c :| Blocks(t.m.x, c, b);
    LaterBlocks(t0.m, t.m, c, b);
    assert IsWaiting(t0.m.x, c);
  }

  /** Other goroutines only take calls out of the queue. */
  lemma {:induction false} OthersKeepLeft(t: Turn, move: Move, s: set<Name>)
    requires Live(t.m) && OnlyLeft(t, s) && Can(t, move) && !move.Waiter?
    ensures OnlyLeft(Next(t, move), s)
  {
    hide Next, Can, Live, Later;
    LaterMove(t, move);
    PointStep(t, move);
    forall b
      ensures IsWaiting(Next(t, move).m.x, b) ==> IsWaiting(t.m.x, b)
      ensures Unfinished(Next(t, move).m.x, b) ==> Unfinished(t.m.x, b)
    {
      LaterCall(t.m, Next(t, move).m, b);
    }
  }

  lemma {:induction false} WaiterKeepsLeft(t: Turn, s: set<Name>)
    requires OnlyLeft(t, s) && Can(t, Waiter)
    requires t.at == InnerDrain ==> forall b :: LeftBehind(t.m, b) ==> b in s
    ensures OnlyLeft(Next(t, Waiter), s)
  {
    hide DrainBatch, Apply;
    if t.at == InnerDrain {
      DrainKeeps(t.m);
      assert forall b :: IsWaiting(t.m.x, b) && b !in DrainBatch(t.m.x) ==> LeftBehind(t.m, b);
    }
  }

  lemma {:induction false} MoveKeepsTurn(t0: Turn, t: Turn, move: Move)
    requires TurnInv(t0, t) && Can(t, move)
    ensures TurnInv(t0, Next(t, move))
  {
    hide Next, Can, Live, Later, Tidy, PastFirst, OnlyLeft, LeftBehind, Deep;
    MoveForward(t0.m, t, move);
    LaterIsLive(t0.m, t.m);
    StepPastFirst(t0, t, move);
    if move.Waiter? {
      forall b | t.at == InnerDrain && LeftBehind(t.m, b) ensures b in DeepCalls(t0.m.x) {
        DrainLeavesDeep(t0, t, b);
        assert b in t0.m.x.slots by { assert Deep(t0.m.x, b); DeepIsThere(t0.m.x, b); }
      }
      WaiterKeepsLeft(t, DeepCalls(t0.m.x));
    } else {
      OthersKeepLeft(t, move, DeepCalls(t0.m.x));
    }
  }

  lemma DeepIsThere(x: Shared, b: Name)
    requires Deep(x, b)
    ensures b in x.slots
  {
  }

  lemma {:induction false} RunKeepsTurn(t0: Turn, t: Turn, moves: seq<Move>)
    requires TurnInv(t0, t) && Legal(t, moves)
    ensures TurnInv(t0, Execute(t, moves))
    decreases |moves|
  {
    hide Next, Can, TurnInv;
    if moves != [] {
      MoveKeepsTurn(t0, t, moves[0]);
      RunKeepsTurn(t0, Next(t, moves[0]), moves[1..]);
    }
  }

  /** The executor of a finished stream and a finished permission round: nothing cancelled, every
      queued call safe or granted, no body under an ended call. */
  ghost predicate Begins(t: Turn) {
    Live(t.m) && Tidy(t.m) && t.at == OuterTop
  }

  /** Whatever the interleaving, a call without its end when the results are read had to wait, when
      the turn began, for a call that was itself queued. */
  lemma {:induction false} LostCallsAreDeep(t0: Turn, moves: seq<Move>, b: Name)
    requires Begins(t0) && Legal(t0, moves)
    requires var t := Execute(t0, moves); t.at == Take && Unfinished(t.m.x, b)
    ensures Deep(t0.m.x, b)
  {
    hide Live, Later, Tidy, Legal, Execute, Deep;
    LaterRefl(t0.m);
    assert TurnInv(t0, t0);
    RunKeepsTurn(t0, t0, moves);
  }

  // ----- Waking up -----

  predicate IsBlocked(t: Turn) {
    t.at == OuterWait(Blocked) || t.at == InnerWait(Blocked)
  }

  /** Whoever waits for a signal has one, or one is still to come: a call executes, or the goroutine of
      an ended call has not signalled yet. */
  ghost predicate Awaited(t: Turn) {
    IsBlocked(t) ==> t.signal || t.ending != map[] || !Quiet(t.m.x)
  }

  /** A call stops executing only by returning, which leaves its goroutine to signal. */
  lemma {:induction false} ExecutingGoesOn(t: Turn, move: Move, c: Name)
    requires Live(t.m) && Can(t, move) && IsExecuting(t.m.x, c)
    ensures IsExecuting(Next(t, move).m.x, c) || Next(t, move).ending != map[]
  {
    LiveFacts(t.m);
    MoveTakesStep(t, move);
    hide Live, WellFormed;
    if move.Body? && move.s.Finish? {
      assert move.s.id in Next(t, move).ending;
    } else if MachineStep(t, move) == Some(Collect) {
      CollectKeepsExecuting(t.m, c);
    }
    hide SafeBatch, ExclusiveBatch, CanStart, FirstPending, Buffered, YieldTo, AllDone, Quiet;
  }

  lemma {:induction false} CollectKeepsExecuting(m: Machine, c: Name)
    requires WellFormed(m.x) && IsExecuting(m.x, c)
    ensures IsExecuting(Apply(m, Collect).x, c)
  {
    hide Buffered;
    assert SlotOk(m.x, c, m.x.slots[c]);
    assert !Done(m.x, m.x.order[m.x.slots[c].at]);
  }

  lemma {:induction false} BlocksOnlyAwaited(t: Turn)
    requires Can(t, Waiter) && IsBlocked(Next(t, Waiter))
    ensures !Quiet(Next(t, Waiter).m.x)
  {
    hide Apply, AllDone, Quiet, DrainBatch, Launched;
  }

  lemma {:induction false} EndingsOnlySignal(t: Turn, move: Move)
    requires Can(t, move) && !move.Waiter?
    ensures Next(t, move).at == t.at
    ensures t.signal || t.ending != map[] ==> Next(t, move).signal || Next(t, move).ending != map[]
  {
    hide Apply, DrainBatch, Launched;
    if t.ending != map[] {
      var g :| g in t.ending;
      if move.SignalAfter? {
        assert Next(t, move).signal;
      } else {
        assert g in Next(t, move).ending;
      }
    }
  }

  lemma {:induction false} MoveKeepsAwaited(t: Turn, move: Move)
    requires Live(t.m) && Awaited(t) && Can(t, move)
    ensures Awaited(Next(t, move))
  {
    hide Next, Can, Live;
    if IsBlocked(Next(t, move)) {
      if move.Waiter? {
        BlocksOnlyAwaited(t);
      } else {
        EndingsOnlySignal(t, move);
        if c :| c in t.m.x.slots && t.m.x.slots[c].state == Executing {
          ExecutingGoesOn(t, move, c);
        }
      }
    }
  }

  /** No wake-up is ever lost: in every interleaving, while the turn waits without a signal, some call
      executes or some goroutine is still to signal. */
  lemma {:induction false} NoLostWakeUp(t0: Turn, t: Turn, moves: seq<Move>)
    requires Live(t0.m) && Later(t0.m, t.m) && Awaited(t) && Legal(t, moves)
    ensures Awaited(Execute(t, moves))
    decreases |moves|
  {
    hide Next, Can, Live, Later, Awaited;
    if moves != [] {
      LaterIsLive(t0.m, t.m);
      LaterNext(t0.m, t, moves[0]);
      MoveKeepsAwaited(t, moves[0]);
      NoLostWakeUp(t0, Next(t, moves[0]), moves[1..]);
    }
  }

  lemma {:induction false} LaterNext(m: Machine, t: Turn, move: Move)
    requires Later(m, t.m) && Can(t, move)
    ensures Later(m, Next(t, move).m)
  {
    hide Next, Can, Later;
    MoveForward(m, t, move);
  }

  lemma {:induction false} TurnsAreAwaited(t0: Turn, moves: seq<Move>)
    requires Begins(t0) && Legal(t0, moves)
    ensures Awaited(Execute(t0, moves))
  {
    hide Legal, Execute, Live, Later, Tidy;
    LaterRefl(t0.m);
    NoLostWakeUp(t0, t0, moves);
  }

  /** How often the turn wakes up, and how often it is signalled. */
  ghost function WakeUps(t: Turn, moves: seq<Move>): (n: nat)
    requires Legal(t, moves)
    decreases |moves|
  {
    if moves == [] then 0
    else (if moves[0].Waiter? && IsBlocked(t) then 1 else 0) + WakeUps(Next(t, moves[0]), moves[1..])
  }

  function Signals(moves: seq<Move>): (n: nat) {
    if moves == [] then 0
    else (if moves[0].SignalAfter? || moves[0].Notify? then 1 else 0) + Signals(moves[1..])
  }

  function Held(t: Turn): (n: nat) {
    if t.signal then 1 else 0
  }

  lemma {:induction false} OneSignal(t: Turn, move: Move)
    requires Can(t, move)
    ensures (if move.Waiter? && IsBlocked(t) then 1 else 0) + Held(Next(t, move))
            <= Held(t) + if move.SignalAfter? || move.Notify? then 1 else 0
  {
    hide Apply, AllDone, Quiet, DrainBatch, Launched;
  }

  /** The wait does not spin: every wake-up uses up a signal. */
  lemma {:induction false} WakeUpsUseSignals(t: Turn, moves: seq<Move>)
    requires Legal(t, moves)
    ensures WakeUps(t, moves) + Held(Execute(t, moves)) <= Held(t) + Signals(moves)
    decreases |moves|
  {
    hide Next, Can, Held, IsBlocked;
    if moves != [] {
      OneSignal(t, moves[0]);
      WakeUpsUseSignals(Next(t, moves[0]), moves[1..]);
    }
  }
}
