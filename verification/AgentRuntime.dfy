/** The mutable objects behind the published state and the run (agent/runtime_state.go,
    agent/run_state.go, agentContext/manager.go). Every method is one critical section, and its
    new state is the matching step of the state machines whose runs are studied beside it. */
module AgentRuntime {
  import opened Prelude
  import opened RunState
  import opened RunLaws
  import P = PublishedState

  datatype Error =
    | Fine | StaleState | Busy | ContextCancelled | InvalidPhase | NotPending | StoreFailed
    | UnsupportedVersion | StaleContext

  class ContextManager {
    var state: P.Context

    constructor ()
      ensures state == P.New().manager
    {
      state := P.Context(3, 1, 0, P.FRESH_BODY);
    }

    method Restore(s: P.Context) returns (err: Error)
      modifies this
      ensures state == P.ManagerRestore(old(state), s)
      ensures err == if s.version in {0, 3} then Fine else UnsupportedVersion
      ensures err == Fine ==> state == s.(version := 3, generation := Max(1, s.generation))
      ensures err != Fine ==> state == old(state)
    {
      if s.version != 0 && s.version != 3 {
        return UnsupportedVersion;
      }
      var next := s.(version := 3);
      if next.generation == 0 {
        next := next.(generation := 1);
      }
      state := next;
      return Fine;
    }

    method Commit(result: P.Candidate) returns (err: Error)
      modifies this
      ensures state == P.ManagerCommit(old(state), result)
      ensures err == Fine <==> old(state).revision == result.base && old(state).generation == result.generation
      ensures err == Fine ==> state == result.next.(revision := old(state).revision + 1)
      ensures err in {Fine, StaleContext} && (err == StaleContext ==> state == old(state))
    {
      if state.revision != result.base || state.generation != result.generation {
        return StaleContext;
      }
      state := result.next.(revision := state.revision + 1);
      return Fine;
    }
  }

  class Runtime {
    var snapshot: P.Snapshot
    var run: Run
    var boxes: map<Name, Box>
    var policyRevision: nat
    var expired: bool
    const context: ContextManager
    ghost var unpublished: bool

    ghost function Live(): (c: Core)
      reads this
    {
      Core(snapshot.generation, run, boxes)
    }

    ghost function View(): (p: P.Published)
      reads this, context
    {
      P.Published(Live(), snapshot, context.state, policyRevision, expired, unpublished)
    }

    ghost predicate Valid()
      reads this
    {
      Inv(Live())
    }

    constructor ()
      ensures Valid() && View() == P.New() && fresh(context)
    {
      snapshot, run, boxes := P.FreshSnapshot(1), IdleRun(1), map[];
      policyRevision, expired, unpublished := 0, false, false;
      context := new ContextManager();
    }

    // ----- The run -----

    method Begin(id: Name, contextDone: bool) returns (err: Error, draft: Option<P.Draft>)
      requires Valid() && id != NoName
      modifies this
      ensures Valid() && View() == old(View()).(core := BeginRun(old(Live()), id, expired, contextDone))
      ensures err == Fine <==> IsLive(Live(), Token(snapshot.generation, id)) && !Active(old(run.phase))
      ensures draft == if err == Fine then Some(P.DraftFor(View())) else None
      ensures err == StaleState <==> expired
      ensures err == Busy <==> !expired && Active(old(run.phase))
      ensures err in {Fine, StaleState, Busy, ContextCancelled}
    {
      if expired {
        return StaleState, None;
      }
      if Active(run.phase) {
        return Busy, None;
      }
      if contextDone {
        return ContextCancelled, None;
      }
      run := Run(Token(snapshot.generation, id), Preparing, Preparing, false, NoReason, false, map[]);
      return Fine, Some(P.Draft(run.token, snapshot.context, snapshot.extraction, snapshot.yolo, policyRevision,
          snapshot.body));
    }

    method Transition(token: Token, to: Phase) returns (err: Error)
      requires Valid()
      modifies this`run
      ensures Valid() && Live() == Move(old(Live()), token, to)
      ensures err == Fine <==> IsLive(old(Live()), token) && old(run.phase) != Cancelling && IsActivity(to)
      ensures err == StaleState <==> !IsLive(old(Live()), token)
      ensures err == ContextCancelled <==> IsLive(old(Live()), token) && old(run.phase) == Cancelling
      ensures err in {Fine, StaleState, ContextCancelled, InvalidPhase}
    {
      ghost var before := Live();
      if !IsLive(Core(snapshot.generation, run, boxes), token) {
        return StaleState;
      }
      if run.phase == Cancelling {
        return ContextCancelled;
      }
      if !IsActivity(to) || !CanTransition(run.activity, to) {
        return InvalidPhase;
      }
      run := run.(activity := to);
      RefreshRunPhase();
      StepKeepsPhase(before, StepMove(token, to));
      StepKeepsTickets(before, StepMove(token, to));
      return Fine;
    }

    method RefreshRunPhase()
      modifies this`run
      ensures run == Refreshed(old(run))
    {
      if run.phase == Cancelling || Terminal(run.phase) {
        return;
      }
      var phase := run.activity;
      if |run.pending| > 0 {
        phase := WaitingPermission;
      }
      run := run.(phase := phase);
    }

    /** Deny every waiter, in whatever order the requests come up. */
    static method DenyWaiters(pending: map<Name, Wait>, boxes: map<Name, Box>) returns (denied: map<Name, Box>)
      ensures denied == DenyAll(boxes, pending.Keys)
    {
      denied := boxes;
      var todo := pending.Keys;
      while todo != {}
        invariant todo <= pending.Keys && denied == DenyAll(boxes, pending.Keys - todo)
        decreases |todo|
      {
        var id :| id in todo;
        if id in denied {
          denied := denied[id := Offer(denied[id], DENIED)];
        }
        todo := todo - {id};
      }
    }

    method CancelRun(token: Token, reason: Reason)
      requires Valid()
      modifies this`run, this`boxes
      ensures Valid() && Live() == RunState.CancelRun(old(Live()), token, reason)
    {
      ghost var before := Live();
      var live := IsLive(Core(snapshot.generation, run, boxes), token);
      if Matches(Core(snapshot.generation, run, boxes), token) && run.phase in {Cancelled, Cancelling}
          && reason == ByUser {
        run := run.(reason := reason);
      }
      if live && run.phase != Cancelling {
        run := run.(phase := Cancelling, reason := reason);
        boxes := DenyWaiters(run.pending, boxes);
        run := run.(pending := map[]);
      }
      StepKeepsPhase(before, StepCancel(token, reason));
      StepKeepsTickets(before, StepCancel(token, reason));
    }

    method EndRun(token: Token) returns (err: Error)
      requires Valid()
      modifies this`run, this`boxes
      ensures Valid() && Live() == RunState.EndRun(old(Live()), token)
      ensures err == if IsLive(old(Live()), token) then Fine else StaleState
      ensures err == Fine ==> Terminal(run.phase) && run.pending == map[]
    {
      ghost var before := Live();
      StepKeepsPhase(before, StepEnd(token));
      StepKeepsTickets(before, StepEnd(token));
      if !IsLive(Core(snapshot.generation, run, boxes), token) {
        return StaleState;
      }
      var phase := Completed;
      if run.phase == Cancelling || run.contextDone {
        phase := Cancelled;
        if run.reason == NoReason && run.contextDone {
          run := run.(reason := ByContext);
        }
      } else if run.error {
        phase := Failed;
      } else if |run.pending| > 0 {
        phase := Failed;
        run := run.(error := true);
      }
      boxes := DenyWaiters(run.pending, boxes);
      run := run.(phase := phase, pending := map[]);
      return Fine;
    }

    // ----- Permissions -----

    method BeginPermission(token: Token, kind: Kind, tool: Name, id: Name, callerDone: bool) returns (err: Error)
      requires Valid() && id != NoName && id !in boxes
      modifies this`run, this`boxes
      ensures Valid() && Live() == AskPermission(old(Live()), token, kind, tool, id, callerDone)
      ensures err == Fine <==> id in run.pending
      ensures err == StaleState <==> !IsLive(old(Live()), token)
      ensures err == NotPending <==> IsLive(old(Live()), token) && !callerDone && old(run.phase) != Cancelling
                                     && kind == Unknown
      ensures err in {Fine, StaleState, ContextCancelled, NotPending}
    {
      ghost var before := Live();
      StepKeepsPhase(before, StepAsk(token, kind, tool, id, callerDone));
      StepKeepsTickets(before, StepAsk(token, kind, tool, id, callerDone));
      if !IsLive(Core(snapshot.generation, run, boxes), token) {
        return StaleState;
      }
      if callerDone || run.phase == Cancelling {
        return ContextCancelled;
      }
      if kind == Unknown {
        return NotPending;
      }
      run := run.(pending := run.pending[id := Wait(kind, tool)]);
      boxes := boxes[id := Box(None, 0, 0)];
      RefreshRunPhase();
      return Fine;
    }

    /** Look for the only fitting request, in whatever order the requests come up. */
    static method SelectRequest(r: Run, kind: Option<Kind>, answer: Answer, id: Name) returns (selected: Option<Name>)
      ensures selected.Some? <==> |Fitting(r, kind, answer, id)| == 1
      ensures selected.Some? ==> Fitting(r, kind, answer, id) == {selected.value}
    {
      hide Fits;
      selected := None;
      var todo := r.pending.Keys;
      ghost var fitting := Fitting(r, kind, answer, id);
      while todo != {}
        invariant todo <= r.pending.Keys
        invariant selected.None? ==> fitting <= todo
        invariant selected.Some? ==> selected.value in fitting && selected.value !in todo
        invariant selected.Some? ==> fitting <= todo + {selected.value}
        decreases |todo|
      {
        var request :| request in todo;
        if Fits(kind, answer, id, request, r.pending[request]) {
          if selected.Some? {
            TwoMembers(fitting, selected.value, request);
            return None;
          }
          selected := Some(request);
        }
        todo := todo - {request};
      }
      assert selected.Some? ==> fitting == {selected.value};
    }

    method ResolvePermission(kind: Option<Kind>, answer: Answer, id: Name) returns (accepted: bool)
      requires Valid()
      modifies this`run, this`boxes
      ensures Valid() && Live() == Reply(old(Live()), kind, answer, id)
      ensures accepted <==> CanReply(old(run)) && |Fitting(old(run), kind, answer, id)| == 1
    {
      ghost var before := Live();
      StepKeepsPhase(before, StepReply(kind, answer, id));
      StepKeepsTickets(before, StepReply(kind, answer, id));
      SingletonSize(Fitting(run, kind, answer, id));
      if !Active(run.phase) || run.phase == Cancelling || run.contextDone {
        return false;
      }
      var selected := SelectRequest(run, kind, answer, id);
      if selected == None {
        return false;
      }
      var x := selected.value;
      assert IsTheOne(x, Fitting(run, kind, answer, id)) && x in run.pending;
      // The channel is empty, so this send does not block.
      boxes := boxes[x := Put(boxes[x], Definite(answer))];
      run := run.(pending := run.pending - {x});
      RefreshRunPhase();
      return true;
    }

    /** What AwaitPermission does once its ticket has an answer. */
    method TakeAnswer(token: Token, id: Name, callerDone: bool) returns (answer: Option<Answer>)
      requires Valid() && id in boxes && boxes[id].content.Some?
      modifies this`boxes
      ensures Valid() && Live() == Take(old(Live()), id)
      ensures answer == Checked(old(Live()), token, old(boxes[id].content.value), callerDone)
    {
      ghost var before := Live();
      StepKeepsPhase(before, StepTake(id));
      StepKeepsTickets(before, StepTake(id));
      var box := boxes[id];
      boxes := boxes[id := Box(None, box.sent, box.taken + 1)];
      var valid := IsLive(Core(snapshot.generation, run, boxes), token) && run.phase != Cancelling && !run.contextDone;
      return if valid && !callerDone then box.content else None;
    }

    method CancelPermission(token: Token, id: Name)
      requires Valid()
      modifies this`run
      ensures Valid() && Live() == ForgetTicket(old(Live()), token, id)
    {
      ghost var before := Live();
      StepKeepsPhase(before, StepForget(token, id));
      StepKeepsTickets(before, StepForget(token, id));
      if Matches(Core(snapshot.generation, run, boxes), token) {
        run := run.(pending := run.pending - {id});
        RefreshRunPhase();
      }
    }

    // ----- Publishing -----

    method Commit(draft: P.Draft, stored: bool) returns (err: Error, updated: P.Draft)
      requires Valid()
      modifies this`snapshot, context
      ensures Valid() && (View(), updated) == P.Commit(old(View()), draft, stored)
      ensures err == Fine ==> P.Earlier(old(snapshot), snapshot)
      ensures err in {StaleState, StoreFailed} ==> View() == old(View())
      ensures err == StaleState <==> !IsLive(old(Live()), draft.token)
      ensures err == StoreFailed <==> IsLive(old(Live()), draft.token) && (expired || !stored)
      ensures err in {Fine, StaleState, StoreFailed, UnsupportedVersion}
    {
      if !IsLive(Core(snapshot.generation, run, boxes), draft.token) {
        return StaleState, draft;
      }
      updated := draft;
      if draft.policy < policyRevision {
        updated := updated.(yolo := snapshot.yolo, policy := policyRevision);
      }
      var next := P.Snapshot(snapshot.generation, snapshot.revision + 1,
        updated.context.(generation := snapshot.generation, revision := snapshot.context.revision + 1),
        Max(updated.extraction, snapshot.extraction), updated.yolo, updated.body);
      if expired || !stored {
        return StoreFailed, updated;
      }
      snapshot := next;
      updated := updated.(extraction := next.extraction, context := next.context);
      err := context.Restore(next.context);
    }

    method CommitContext(result: P.Candidate, draft: P.Draft, stored: bool) returns (err: Error, updated: P.Draft)
      requires Valid()
      modifies this`snapshot, this`unpublished, context
      ensures Valid() && (View(), updated) == P.CommitContext(old(View()), draft, result, stored)
      ensures err == Fine ==> P.Earlier(old(snapshot), snapshot)
      ensures P.Agrees(old(View())) ==> unpublished == old(unpublished)
      ensures err == StoreFailed <==> P.Fresh(old(View()), draft, result) && (expired || !stored)
      ensures err == Fine <==> View() != old(View()) && unpublished == old(unpublished)
      ensures err in {Fine, StaleContext, StoreFailed}
    {
      updated := draft;
      if !IsLive(Core(snapshot.generation, run, boxes), draft.token) || result.generation != snapshot.generation
         || result.base != snapshot.context.revision {
        return StaleContext, updated;
      }
      var next := snapshot.(revision := snapshot.revision + 1, context := result.next.(revision := result.base + 1));
      if expired || !stored {
        return StoreFailed, updated;
      }
      err := context.Commit(result);
      if err != Fine {
        unpublished := true;
        return;
      }
      snapshot := next;
      updated := updated.(context := next.context);
    }

    /** Reset after its abort. */
    method ResetLocked(stored: bool) returns (err: Error)
      requires Valid()
      modifies this`snapshot, this`run, context
      ensures Valid() && View() == P.Reset(old(View()), stored)
      ensures err == if stored && !expired then Fine else StoreFailed
      ensures err == Fine ==>
                var g := old(snapshot).generation + 1;
                snapshot == P.Snapshot(g, 0, P.Context(3, g, 0, P.FRESH_BODY), 0, false, P.FRESH_BODY)
    {
      var blank := P.FreshSnapshot(snapshot.generation + 1);
      if expired || !stored {
        return StoreFailed;
      }
      snapshot := blank;
      run := IdleRun(blank.generation);
      err := context.Restore(blank.context);
    }

    method Restore(s: P.Snapshot) returns (err: Error)
      requires Valid()
      modifies this`snapshot, this`run, context
      ensures Valid() && View() == P.Restore(old(View()), s)
      ensures err == Busy <==> Active(old(run.phase))
      ensures err == Fine <==> !Active(old(run.phase)) && P.Supported(s.context.version)
    {
      if Active(run.phase) {
        return Busy;
      }
      var generation := Max(s.generation, snapshot.generation + 1);
      var next := s.(generation := generation, context := s.context.(generation := generation));
      snapshot := next;
      run := IdleRun(generation);
      err := context.Restore(next.context);
    }

    method AdvanceMemory(generation: nat, extraction: nat, stored: bool)
      requires Valid()
      modifies this`snapshot
      ensures Valid() && View() == P.AdvanceMemory(old(View()), generation, extraction, stored)
      ensures old(snapshot.extraction) <= snapshot.extraction
    {
      if generation != snapshot.generation || extraction <= snapshot.extraction {
        return;
      }
      if !expired && stored {
        snapshot := snapshot.(extraction := extraction, revision := snapshot.revision + 1);
      }
    }

    method SetYolo(enabled: bool, stored: bool) returns (err: Error)
      requires Valid()
      modifies this`snapshot, this`policyRevision
      ensures Valid() && View() == P.SetYolo(old(View()), enabled, stored)
      ensures err == Fine ==> snapshot.yolo == enabled
      ensures err == if stored && !expired then Fine else StoreFailed
    {
      if expired || !stored {
        return StoreFailed;
      }
      snapshot := snapshot.(yolo := enabled, revision := snapshot.revision + 1);
      policyRevision := policyRevision + 1;
      return Fine;
    }
  }

  lemma TwoMembers(s: set<Name>, x: Name, y: Name)
    requires x in s && y in s && x != y
    ensures |s| >= 2
  {
    assert {x, y} <= s;
    assert s == {x, y} + (s - {x, y});
  }
}
