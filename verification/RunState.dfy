/** The live run of one agent (agent/run_state.go): execution phases, cancellation and
    permission tickets, as a state machine over the critical sections of the runtime's lock. */
module RunState {
  import opened Prelude

  datatype Phase =
    | Idle | Preparing | CallingModel | ExecutingTools | WaitingPermission | Recovering
    | Cancelling | Completed | Failed | Cancelled

  predicate Active(p: Phase) {
    p in {Preparing, CallingModel, ExecutingTools, WaitingPermission, Recovering, Cancelling}
  }

  predicate Terminal(p: Phase) {
    p in {Completed, Failed, Cancelled}
  }

  predicate IsActivity(p: Phase) {
    p in {Preparing, CallingModel, ExecutingTools, Recovering}
  }

  /** The transition table. */
  predicate CanTransition(from: Phase, to: Phase) {
    if from == to then Active(from)
    else if !Active(from) then (from == Idle || Terminal(from)) && to == Preparing
    else if from == Cancelling then to == Cancelled
    else if from == WaitingPermission && to == Completed then false
    else if to == Cancelling || to == Failed || to == Completed then true
    else if from == WaitingPermission then IsActivity(to)
    else IsActivity(from) && (IsActivity(to) || to == WaitingPermission)
  }

  datatype Token = Token(generation: nat, id: Name)

  datatype Kind = Tool | Skill | Mcp | Unknown

  datatype Decision = Once | Always | True | Deny | Empty | Other

  datatype Answer = Answer(decision: Decision, tool: Name)

  const DENIED := Answer(Deny, NoName)

  predicate Granted(a: Answer) {
    a.decision in {Once, Always, True}
  }

  datatype Wait = Wait(kind: Kind, tool: Name)

  /** The one-place channel of a ticket, with the number of answers ever put in and taken out. */
  datatype Box = Box(content: Option<Answer>, sent: nat, taken: nat)

  datatype Reason = NoReason | ByUser | ByContext

  datatype Run = Run(token: Token, phase: Phase, activity: Phase, contextDone: bool,
                     reason: Reason, error: bool, pending: map<Name, Wait>)

  /** The run, the channels of all tickets ever issued, and the published generation. */
  datatype Core = Core(generation: nat, run: Run, boxes: map<Name, Box>)

  function IdleRun(generation: nat): (r: Run) {
    Run(Token(generation, NoName), Idle, Idle, false, NoReason, false, map[])
  }

  predicate Matches(c: Core, t: Token) {
    t.id != NoName && t.id == c.run.token.id && t.generation == c.run.token.generation && t.generation == c.generation
  }

  predicate IsLive(c: Core, t: Token) {
    Matches(c, t) && Active(c.run.phase)
  }

  // ----- The critical sections -----

  /** The phase shown for an activity: permission waits overlay it. */
  function Refreshed(r: Run): (out: Run) {
    if r.phase == Cancelling || Terminal(r.phase) then r
    else r.(phase := if r.pending == map[] then r.activity else WaitingPermission)
  }

  function Put(b: Box, a: Answer): (r: Box)
    requires b.content == None
  {
    Box(Some(a), b.sent + 1, b.taken)
  }

  /** A send that gives up when the channel is full. */
  function Offer(b: Box, a: Answer): (r: Box) {
    if b.content == None then Put(b, a) else b
  }

  function DenyAll(boxes: map<Name, Box>, ids: set<Name>): (r: map<Name, Box>) {
    map id | id in boxes :: if id in ids then Offer(boxes[id], DENIED) else boxes[id]
  }

  function CancelWaiters(c: Core): (r: Core) {
    c.(run := c.run.(pending := map[]), boxes := DenyAll(c.boxes, c.run.pending.Keys))
  }

  function BeginRun(c: Core, id: Name, expired: bool, contextDone: bool): (r: Core) {
    if expired || Active(c.run.phase) || contextDone then c
    else c.(run := Run(Token(c.generation, id), Preparing, Preparing, false, NoReason, false, map[]))
  }

  /** Continue a timed-out request, unless the user stopped it in between. */
  function BeginRecovery(c: Core, previous: Token, id: Name, expired: bool, contextDone: bool): (r: Core) {
    if !Matches(c, previous) || c.run.reason == ByUser then c else BeginRun(c, id, expired, contextDone)
  }

  function Move(c: Core, t: Token, to: Phase): (r: Core) {
    if !IsLive(c, t) || c.run.phase == Cancelling || !IsActivity(to) || !CanTransition(c.run.activity, to) then c
    else c.(run := Refreshed(c.run.(activity := to)))
  }

  function Recover(c: Core, t: Token): (r: Core) {
    if !IsLive(c, t) || c.run.phase == Cancelling then c
    else c.(run := Refreshed(c.run.(activity := Recovering)))
  }

  function CancelRun(c: Core, t: Token, reason: Reason): (r: Core) {
    var noted :=
      if Matches(c, t) && c.run.phase in {Cancelled, Cancelling} && reason == ByUser
      then c.(run := c.run.(reason := reason)) else c;
    if !IsLive(c, t) || c.run.phase == Cancelling then noted
    else CancelWaiters(c.(run := c.run.(phase := Cancelling, reason := reason)))
  }

  function FailRun(c: Core, t: Token): (r: Core) {
    if IsLive(c, t) && c.run.phase != Cancelling then c.(run := c.run.(error := true)) else c
  }

  function EndPhase(r: Run): (p: Phase) {
    if r.phase == Cancelling || r.contextDone then Cancelled
    else if r.error || r.pending != map[] then Failed
    else Completed
  }

  function EndRun(c: Core, t: Token): (r: Core) {
    if !IsLive(c, t) then c
    else
      var p := EndPhase(c.run);
      var reason := if p == Cancelled && c.run.reason == NoReason && c.run.contextDone then ByContext else c.run.reason;
      CancelWaiters(c.(run := c.run.(phase := p, reason := reason, error := c.run.error || p == Failed)))
  }

  function AskPermission(c: Core, t: Token, kind: Kind, tool: Name, id: Name, callerDone: bool): (r: Core) {
    if !IsLive(c, t) || callerDone || c.run.phase == Cancelling || kind == Unknown then c
    else c.(run := Refreshed(c.run.(pending := c.run.pending[id := Wait(kind, tool)])),
            boxes := c.boxes[id := Box(None, 0, 0)])
  }

  function ForgetTicket(c: Core, t: Token, id: Name): (r: Core) {
    if !Matches(c, t) then c else c.(run := Refreshed(c.run.(pending := c.run.pending - {id})))
  }

  /** Does a reply aimed at `kind` (None: any) and `id` (NoName: any) fit this request? */
  predicate Fits(kind: Option<Kind>, answer: Answer, id: Name, request: Name, w: Wait) {
    && (id == NoName || id == request)
    && (kind == None || kind == Some(w.kind))
    && !(id == NoName && answer.tool != NoName && w.kind == Tool && w.tool != answer.tool)
  }

  function Fitting(r: Run, kind: Option<Kind>, answer: Answer, id: Name): (s: set<Name>) {
    set x | x in r.pending && Fits(kind, answer, id, x, r.pending[x])
  }

  predicate CanReply(r: Run) {
    Active(r.phase) && r.phase != Cancelling && !r.contextDone
  }

  function Definite(a: Answer): (r: Answer) {
    if a.decision == Empty then a.(decision := Deny) else a
  }

  /** The reply reaches request `x`. */
  function Deliver(c: Core, x: Name, answer: Answer): (r: Core) {
    if x !in c.boxes || c.boxes[x].content != None then c
    else c.(run := Refreshed(c.run.(pending := c.run.pending - {x})),
            boxes := c.boxes[x := Put(c.boxes[x], Definite(answer))])
  }

  ghost predicate IsTheOne(x: Name, s: set<Name>) {
    s == {x}
  }

  ghost function Reply(c: Core, kind: Option<Kind>, answer: Answer, id: Name): (r: Core) {
    var fitting := Fitting(c.run, kind, answer, id);
    if CanReply(c.run) && exists x :: IsTheOne(x, fitting)
    then Deliver(c, var x :| IsTheOne(x, fitting); x, answer)
    else c
  }

  /** A waiter takes its answer out of the channel. */
  function Take(c: Core, id: Name): (r: Core) {
    if id in c.boxes && c.boxes[id].content.Some?
    then c.(boxes := c.boxes[id := Box(None, c.boxes[id].sent, c.boxes[id].taken + 1)]) else c
  }

  /** What a waiter returns after taking `answer`: the answer, or None for a cancelled wait. */
  function Checked(c: Core, t: Token, answer: Answer, callerDone: bool): (r: Option<Answer>) {
    if IsLive(c, t) && c.run.phase != Cancelling && !c.run.contextDone && !callerDone then Some(answer) else None
  }

  /** Reset and Restore replace the run by an idle one of a later generation. */
  function Renew(c: Core, generation: nat): (r: Core) {
    if generation <= c.generation then c else c.(generation := generation, run := IdleRun(generation))
  }

  // ----- Runs of the machine -----

  datatype Step =
    | StepBegin(id: Name, expired: bool, contextDone: bool)
    | StepBeginRecovery(previous: Token, id: Name, expired: bool, contextDone: bool)
    | StepMove(t: Token, to: Phase)
    | StepRecover(t: Token)
    | StepContextDone
    | StepCancel(t: Token, reason: Reason)
    | StepFail(t: Token)
    | StepEnd(t: Token)
    | StepAsk(t: Token, kind: Kind, tool: Name, id: Name, callerDone: bool)
    | StepForget(t: Token, id: Name)
    | StepReply(wanted: Option<Kind>, answer: Answer, id: Name)
    | StepTake(id: Name)
    | StepRenew(generation: nat)

  /** Run ids are never empty and ticket ids are new. */
  predicate Allowed(c: Core, s: Step) {
    match s
    case StepBegin(id, _, _) => id != NoName
    case StepBeginRecovery(_, id, _, _) => id != NoName
    case StepAsk(_, _, _, id, _) => id != NoName && id !in c.boxes
    case _ => true
  }

  ghost function Apply(c: Core, s: Step): (r: Core) {
    match s
    case StepBegin(id, expired, contextDone) => BeginRun(c, id, expired, contextDone)
    case StepBeginRecovery(previous, id, expired, contextDone) => BeginRecovery(c, previous, id, expired, contextDone)
    case StepMove(t, to) => Move(c, t, to)
    case StepRecover(t) => Recover(c, t)
    case StepContextDone => c.(run := c.run.(contextDone := true))
    case StepCancel(t, reason) => CancelRun(c, t, reason)
    case StepFail(t) => FailRun(c, t)
    case StepEnd(t) => EndRun(c, t)
    case StepAsk(t, kind, tool, id, callerDone) => AskPermission(c, t, kind, tool, id, callerDone)
    case StepForget(t, id) => ForgetTicket(c, t, id)
    case StepReply(wanted, answer, id) => Reply(c, wanted, answer, id)
    case StepTake(id) => Take(c, id)
    case StepRenew(generation) => Renew(c, generation)
  }

  ghost predicate Legal(c: Core, steps: seq<Step>)
    decreases |steps|
  {
    steps == [] || (Allowed(c, steps[0]) && Legal(Apply(c, steps[0]), steps[1..]))
  }

  ghost function Execute(c: Core, steps: seq<Step>): (r: Core)
    decreases |steps|
  {
    if steps == [] then c else Execute(Apply(c, steps[0]), steps[1..])
  }

  function Start(generation: nat): (c: Core) {
    Core(generation, IdleRun(generation), map[])
  }

  // ----- The invariant -----

  /** The phase is the current activity, or waiting exactly when requests are pending; idle,
      cancelling and terminal phases have nothing pending. */
  predicate PhaseInv(c: Core) {
    && c.run.token.generation == c.generation
    && (c.run.phase == Idle <==> c.run.token.id == NoName)
    && (if Active(c.run.phase) && c.run.phase != Cancelling
        then IsActivity(c.run.activity) && c.run.phase == (if c.run.pending == map[] then c.run.activity
            else WaitingPermission)
        else c.run.pending == map[])
  }

  predicate BoxInv(b: Box) {
    b.sent <= 1 && b.sent == b.taken + if b.content.Some? then 1 else 0
  }

  /** The channel of a pending request has never been used. */
  predicate TicketInv(c: Core) {
    && (forall id :: id in c.boxes ==> BoxInv(c.boxes[id]))
    && (forall id :: id in c.run.pending ==> id in c.boxes && c.boxes[id] == Box(None, 0, 0))
  }

  predicate Inv(c: Core) {
    PhaseInv(c) && TicketInv(c)
  }

  lemma StepKeepsPhase(c: Core, s: Step)
    requires PhaseInv(c) && Allowed(c, s)
    ensures PhaseInv(Apply(c, s))
  {
  }

  lemma StepKeepsTickets(c: Core, s: Step)
    requires Inv(c) && Allowed(c, s)
    ensures TicketInv(Apply(c, s))
  {
  }

  lemma {:induction false} RunKeepsInv(c: Core, steps: seq<Step>)
    requires Inv(c) && Legal(c, steps)
    ensures Inv(Execute(c, steps))
    decreases |steps|
  {
    if steps != [] {
      StepKeepsPhase(c, steps[0]);
      StepKeepsTickets(c, steps[0]);
      RunKeepsInv(Apply(c, steps[0]), steps[1..]);
    }
  }
}
