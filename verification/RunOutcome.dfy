/** How a run ends and which requests it leaves open, read off the steps taken (agent/run_state.go). */
module RunOutcome {
  import opened Prelude
  import opened RunState
  import opened RunLaws

  // ----- What the steps say -----

  predicate Cancels(steps: seq<Step>, t: Token) {
    exists i :: 0 <= i < |steps| && steps[i].StepCancel? && steps[i].t == t
  }

  predicate UserCancels(steps: seq<Step>, t: Token) {
    StepCancel(t, ByUser) in steps
  }

  /** What the run was last told to do before it was cancelled. */
  function Doing(steps: seq<Step>, t: Token): (a: Phase) {
    if steps == [] then Preparing
    else
      var before, s := steps[..|steps| - 1], steps[|steps| - 1];
      if Cancels(before, t) then Doing(before, t)
      else if s.StepMove? && s.t == t && IsActivity(s.to) then s.to
      else if s == StepRecover(t) then Recovering
      else Doing(before, t)
  }

  /** The last request for `id` that was made under `t` and not withdrawn since. */
  function Asked(steps: seq<Step>, t: Token, id: Name): (w: Option<Wait>) {
    if steps == [] then None
    else
      var s := steps[|steps| - 1];
      if s.StepAsk? && s.t == t && s.id == id && s.kind != Unknown && !s.callerDone then Some(Wait(s.kind, s.tool))
      else if s == StepForget(t, id) then None
      else Asked(steps[..|steps| - 1], t, id)
  }

  /** The request was made, not withdrawn, and no answer to it has been sent. */
  predicate Open(c: Core, steps: seq<Step>, t: Token, id: Name) {
    Asked(steps, t, id).Some? && id in c.boxes && c.boxes[id].sent == 0
  }

  /** How the run of `t` ends if it ends behind `steps`. */
  ghost predicate EndsAs(c: Core, steps: seq<Step>, t: Token, p: Phase) {
    if Cancels(steps, t) || StepContextDone in steps then p == Cancelled
    else if StepFail(t) in steps || exists id :: Open(c, steps, t, id) then p == Failed
    else p == Completed
  }

  /** The live run of `t` as its steps describe it. */
  ghost predicate Told(c: Core, steps: seq<Step>, t: Token) {
    && Inv(c) && c.run.token == t && c.generation == t.generation && t.id != NoName && Active(c.run.phase)
    && (c.run.phase == Cancelling <==> Cancels(steps, t))
    && (c.run.contextDone <==> StepContextDone in steps)
    && c.run.activity == Doing(steps, t)
    && (c.run.reason == ByUser <==> UserCancels(steps, t))
    && (c.run.phase != Cancelling ==>
          && (c.run.error <==> StepFail(t) in steps)
          && c.run.reason == NoReason
          && PendingTold(c, steps, t))
  }

  ghost predicate PendingTold(c: Core, steps: seq<Step>, t: Token) {
    forall id :: (id in c.run.pending <==> Open(c, steps, t, id))
      && (id in c.run.pending ==> Asked(steps, t, id) == Some(c.run.pending[id]))
  }

  // ----- Along a run -----

  lemma {:induction false} AskedSnoc(steps: seq<Step>, s: Step, t: Token, id: Name)
    ensures Asked(steps + [s], t, id) ==
            if s.StepAsk? && s.t == t && s.id == id && s.kind != Unknown && !s.callerDone
            then Some(Wait(s.kind, s.tool))
            else if s == StepForget(t, id) then None
            else Asked(steps, t, id)
  {
    assert (steps + [s])[..|steps|] == steps;
  }

  lemma {:induction false} DoingSnoc(steps: seq<Step>, s: Step, t: Token)
    ensures Doing(steps + [s], t) ==
            if Cancels(steps, t) then Doing(steps, t)
            else if s.StepMove? && s.t == t && IsActivity(s.to) then s.to
            else if s == StepRecover(t) then Recovering
            else Doing(steps, t)
  {
    assert (steps + [s])[..|steps|] == steps;
  }

  lemma CancelsSnoc(steps: seq<Step>, s: Step, t: Token)
    ensures Cancels(steps + [s], t) <==> Cancels(steps, t) || (s.StepCancel? && s.t == t)
  {
    var more := steps + [s];
    assert more[|steps|] == s;
    if Cancels(steps, t) {
      var i :| 0 <= i < |steps| && steps[i].StepCancel? && steps[i].t == t;
      assert more[i] == steps[i];
    }
  }

  lemma {:induction false} StepTold(c: Core, steps: seq<Step>, s: Step, t: Token)
    requires Told(c, steps, t) && Allowed(c, s) && !Starts(s) && s != StepEnd(t)
    ensures Told(Apply(c, s), steps + [s], t)
  {
    hide Cancels, PendingTold, TicketInv, PhaseInv, Doing, Apply;
    StepKeepsPhase(c, s);
    StepKeepsTickets(c, s);
    CancelsSnoc(steps, s, t);
    DoingSnoc(steps, s, t);
    StepGoesOn(c, s, t);
    StepRecords(c, s, t);
    if Apply(c, s).run.phase != Cancelling {
      PendingStep(c, steps, s, t);
    }
  }

  lemma {:induction false} StepGoesOn(c: Core, s: Step, t: Token)
    requires Inv(c) && c.run.token == t && c.generation == t.generation && t.id != NoName && Active(c.run.phase)
    requires Allowed(c, s) && !Starts(s) && s != StepEnd(t)
    ensures var d := Apply(c, s);
            && d.run.token == t && d.generation == t.generation && Active(d.run.phase)
            && (d.run.phase == Cancelling <==> c.run.phase == Cancelling || (s.StepCancel? && s.t == t))
            && (d.run.contextDone <==> c.run.contextDone || s.StepContextDone?)
  {
    hide TicketInv, Reply, AskPermission;
    if s.StepReply? || s.StepAsk? {
      RequestsLeave(c, s);
    }
  }

  lemma {:induction false} StepRecords(c: Core, s: Step, t: Token)
    requires Inv(c) && c.run.token == t && c.generation == t.generation && t.id != NoName && Active(c.run.phase)
    requires Allowed(c, s) && !Starts(s) && s != StepEnd(t) && (c.run.phase != Cancelling ==> c.run.reason == NoReason)
    ensures var r, d := c.run, Apply(c, s).run;
            && (d.reason == ByUser <==> r.reason == ByUser || s == StepCancel(t, ByUser))
            && (d.phase != Cancelling ==> d.reason == NoReason && (d.error <==> r.error || s == StepFail(t)))
            && d.activity ==
               if r.phase == Cancelling then r.activity
               else if s.StepMove? && s.t == t && IsActivity(s.to) then s.to
               else if s == StepRecover(t) then Recovering
               else r.activity
  {
    hide TicketInv, Reply, AskPermission;
    if s.StepReply? || s.StepAsk? {
      RequestsLeave(c, s);
    }
  }

  /** What one step does to one request of the live run. */
  lemma {:induction false} OneRequest(c: Core, s: Step, t: Token, id: Name)
    requires Inv(c) && c.run.token == t && c.generation == t.generation && t.id != NoName && Active(c.run.phase)
    requires Allowed(c, s) && !Starts(s) && s != StepEnd(t) && Apply(c, s).run.phase != Cancelling
    ensures var d, asks := Apply(c, s), s.StepAsk? && s.t == t && s.id == id && s.kind != Unknown && !s.callerDone;
            && (asks ==> id in d.run.pending && d.run.pending[id] == Wait(s.kind, s.tool) && d.boxes[id].sent == 0)
            && (s == StepForget(t, id) ==> id !in d.run.pending)
            && (!asks && s != StepForget(t, id) ==>
                  && (id in d.run.pending <==> id in c.run.pending && id in d.boxes && d.boxes[id].sent == 0)
                  && (id in d.run.pending ==> d.run.pending[id] == c.run.pending[id])
                  && (id in d.boxes && d.boxes[id].sent == 0 ==> id in c.boxes && c.boxes[id].sent == 0))
  {
    hide Reply, AskPermission, TicketInv;
    if s.StepReply? {
      ReplyCloses(c, s, id);
    } else if s.StepAsk? {
      AskOpens(c, s, t, id);
    } else {
      if id in c.run.pending {
        PendingUnused(c, id);
      }
    }
  }

  lemma PendingUnused(c: Core, id: Name)
    requires TicketInv(c) && id in c.run.pending
    ensures id in c.boxes && c.boxes[id] == Box(None, 0, 0)
  {
  }

  lemma AskOpens(c: Core, s: Step, t: Token, id: Name)
    requires Inv(c) && c.run.token == t && c.generation == t.generation && t.id != NoName && Active(c.run.phase)
    requires s.StepAsk? && Allowed(c, s)
    requires AskPermission(c, s.t, s.kind, s.tool, s.id, s.callerDone).run.phase != Cancelling
    ensures var d := AskPermission(c, s.t, s.kind, s.tool, s.id, s.callerDone);
            if s.t == t && s.id == id && s.kind != Unknown && !s.callerDone
            then
              id in d.run.pending && d.run.pending[id] == Wait(s.kind, s.tool) && id in d.boxes && d.boxes[id].sent == 0
            else
              && (id in d.run.pending <==> id in c.run.pending && id in d.boxes && d.boxes[id].sent == 0)
              && (id in d.run.pending ==> d.run.pending[id] == c.run.pending[id])
              && (id in d.boxes && d.boxes[id].sent == 0 ==> id in c.boxes && c.boxes[id].sent == 0)
  {
  }

  lemma ReplyCloses(c: Core, s: Step, id: Name)
    requires Inv(c) && s.StepReply?
    ensures var d := Reply(c, s.wanted, s.answer, s.id);
            && (id in d.run.pending <==> id in c.run.pending && id in d.boxes && d.boxes[id].sent == 0)
            && (id in d.run.pending ==> d.run.pending[id] == c.run.pending[id])
            && (id in d.boxes && d.boxes[id].sent == 0 ==> id in c.boxes && c.boxes[id].sent == 0)
  {
  }

  /** Asking and answering concern the requests alone. */
  lemma RequestsLeave(c: Core, s: Step)
    requires PhaseInv(c) && (s.StepReply? || s.StepAsk?)
    ensures var d := Apply(c, s);
            && d.generation == c.generation
            && d.run.(phase := c.run.phase, pending := c.run.pending) == c.run
            && (d.run.phase == Cancelling <==> c.run.phase == Cancelling)
            && (Active(c.run.phase) ==> Active(d.run.phase))
  {
  }

  lemma {:induction false} PendingStep(c: Core, steps: seq<Step>, s: Step, t: Token)
    requires Told(c, steps, t) && Allowed(c, s) && !Starts(s) && s != StepEnd(t)
    requires Apply(c, s).run.phase != Cancelling
    ensures PendingTold(Apply(c, s), steps + [s], t)
  {
    hide Cancels, TicketInv, PhaseInv;
    forall id
      ensures id in Apply(c, s).run.pending <==> Open(Apply(c, s), steps + [s], t, id)
      ensures id in Apply(c, s).run.pending ==> Asked(steps + [s], t, id) == Some(Apply(c, s).run.pending[id])
    {
      AskedSnoc(steps, s, t, id);
      OneRequest(c, s, t, id);
    }
  }

  lemma {:induction false} RunIsTold(c: Core, id: Name, steps: seq<Step>)
    requires Inv(c) && !Active(c.run.phase) && id != NoName
    requires Legal(BeginRun(c, id, false, false), steps) && WithinRun(steps)
    requires StepEnd(Token(c.generation, id)) !in steps
    ensures Told(Execute(BeginRun(c, id, false, false), steps), steps, Token(c.generation, id))
    decreases |steps|
  {
    hide Told, Apply, BeginRun;
    var b, t := BeginRun(c, id, false, false), Token(c.generation, id);
    if steps == [] {
      BeginningIsTold(c, id);
    } else {
      var k := |steps| - 1;
      assert steps == steps[..k] + [steps[k]];
      ExecuteConcat(b, steps[..k], [steps[k]]);
      OneStep(Execute(b, steps[..k]), steps[k], []);
      assert [steps[k]] + [] == [steps[k]];
      RunIsTold(c, id, steps[..k]);
      StepTold(Execute(b, steps[..k]), steps[..k], steps[k], t);
    }
  }

  lemma BeginningIsTold(c: Core, id: Name)
    requires Inv(c) && !Active(c.run.phase) && id != NoName
    ensures Told(BeginRun(c, id, false, false), [], Token(c.generation, id))
  {
    StepKeepsPhase(c, StepBegin(id, false, false));
    StepKeepsTickets(c, StepBegin(id, false, false));
  }

  /** A run ends as its steps say: cancelled exactly if it was cancelled or its context was done
      before its end; otherwise failed exactly if an error was recorded or a request made and not
      withdrawn is unanswered; otherwise completed. No later step changes that, and the user counts as having
      stopped it exactly if the user cancelled it and it did not complete or fail. A failed run shows an
      error, a completed one does not, and a run ended by its context alone says so. */
  lemma {:induction false} RunEndsAsTold(c: Core, id: Name, steps: seq<Step>, after: seq<Step>)
    requires Inv(c) && !Active(c.run.phase) && id != NoName
    requires var t := Token(c.generation, id);
             && WithinRun(steps + [StepEnd(t)] + after) && StepEnd(t) !in steps
             && Legal(BeginRun(c, id, false, false), steps + [StepEnd(t)] + after)
    ensures var b, t := BeginRun(c, id, false, false), Token(c.generation, id);
            var before, d := Execute(b, steps), Execute(b, steps + [StepEnd(t)] + after);
            && d.run.token == t && EndsAs(before, steps, t, d.run.phase)
            && (d.run.reason == ByUser <==> d.run.phase == Cancelled && UserCancels(steps + after, t))
            && (d.run.phase == Cancelled && !Cancels(steps, t) && !UserCancels(after, t) ==> d.run.reason == ByContext)
            && (d.run.phase == Failed ==> d.run.error) && (d.run.phase == Completed ==> !d.run.error)
  {
    hide Told, Apply, BeginRun, EndsAs;
    var b, t := BeginRun(c, id, false, false), Token(c.generation, id);
    var before := Execute(b, steps);
    ExecuteConcat(b, steps + [StepEnd(t)], after);
    ExecuteConcat(b, steps, [StepEnd(t)]);
    OneStep(before, StepEnd(t), []);
    assert [StepEnd(t)] + [] == [StepEnd(t)];
    WithinParts(steps, StepEnd(t), after);
    RunIsTold(c, id, steps);
    EndIsTold(before, steps, t);
    EndedRun(Apply(before, StepEnd(t)), after);
  }

  lemma WithinParts(a: seq<Step>, s: Step, b: seq<Step>)
    requires WithinRun(a + [s] + b)
    ensures WithinRun(a) && WithinRun(b)
  {
    var all := a + [s] + b;
    assert forall i :: 0 <= i < |a| ==> a[i] == all[i];
    assert forall i :: 0 <= i < |b| ==> b[i] == all[|a| + 1 + i];
  }

  lemma EndIsTold(c: Core, steps: seq<Step>, t: Token)
    requires Told(c, steps, t)
    ensures var d := Apply(c, StepEnd(t));
            && Inv(d) && d.run.token == t && d.generation == t.generation && EndsAs(c, steps, t, d.run.phase)
            && Terminal(d.run.phase)
            && (d.run.reason == ByUser <==> UserCancels(steps, t))
            && (UserCancels(steps, t) ==> d.run.phase == Cancelled)
            && (d.run.phase == Cancelled && !Cancels(steps, t) ==> d.run.reason == ByContext)
            && (d.run.phase == Failed ==> d.run.error) && (d.run.phase == Completed ==> !d.run.error)
  {
    StepKeepsPhase(c, StepEnd(t));
    StepKeepsTickets(c, StepEnd(t));
    if c.run.phase != Cancelling {
      assert c.run.pending == map[] || exists id :: id in c.run.pending;
    }
  }

  lemma {:induction false} EndedRun(c: Core, after: seq<Step>)
    requires Inv(c) && Terminal(c.run.phase) && Legal(c, after) && WithinRun(after)
    ensures var d := Execute(c, after);
            && d.run.token == c.run.token && d.run.phase == c.run.phase
            && (d.run.reason == ByUser <==>
                c.run.reason == ByUser || (c.run.phase == Cancelled && UserCancels(after, c.run.token)))
            && (d.run.reason == c.run.reason || UserCancels(after, c.run.token)) && d.run.error == c.run.error
    decreases |after|
  {
    hide Apply, Inv;
    if after != [] {
      EndedStep(c, after[0]);
      EndedRun(Apply(c, after[0]), after[1..]);
      assert after == [after[0]] + after[1..];
    }
  }

  lemma EndedStep(c: Core, s: Step)
    requires Inv(c) && Terminal(c.run.phase) && Allowed(c, s) && !Starts(s)
    ensures var d := Apply(c, s);
            && Inv(d) && d.run.token == c.run.token && d.run.phase == c.run.phase
            && (d.run.reason == ByUser <==>
                c.run.reason == ByUser || (c.run.phase == Cancelled && s == StepCancel(c.run.token, ByUser)))
            && (d.run.reason == c.run.reason || s == StepCancel(c.run.token, ByUser)) && d.run.error == c.run.error
  {
    StepKeepsPhase(c, s);
    StepKeepsTickets(c, s);
  }

  // ----- Answers -----

  /** A reply that may answer a request: it names the request or none, its kind or none, and, when it
      names no request but a tool, the tool of a tool request. */
  predicate MeantFor(reply: Step, ask: Step) {
    && reply.StepReply? && ask.StepAsk?
    && (reply.id == ask.id || reply.id == NoName)
    && (reply.wanted == None || reply.wanted == Some(ask.kind))
    && (reply.id != NoName || ask.kind != Tool || reply.answer.tool in {NoName, ask.tool})
  }

  ghost predicate Suits(c: Core, steps: seq<Step>, t: Token, reply: Step, id: Name) {
    Open(c, steps, t, id)
    && MeantFor(reply, StepAsk(t, Asked(steps, t, id).value.kind, Asked(steps, t, id).value.tool, id, false))
  }

  ghost predicate OnlySuits(c: Core, steps: seq<Step>, t: Token, reply: Step, id: Name) {
    Suits(c, steps, t, reply, id) && forall other :: Suits(c, steps, t, reply, other) ==> other == id
  }

  /** A reply is taken exactly if the run is not cancelled, its context is not done, and the reply is meant for
      exactly one open request. It then lies in the channel of that request, an empty decision as a refusal. */
  lemma {:induction false} ReplyTakenExactly(c: Core, steps: seq<Step>, t: Token, reply: Step)
    requires Told(c, steps, t) && reply.StepReply?
    ensures var d := Apply(c, reply);
            && (d != c <==> !Cancels(steps, t) && StepContextDone !in steps
                            && exists id :: OnlySuits(c, steps, t, reply, id))
            && forall id :: d != c && OnlySuits(c, steps, t, reply, id) ==>
                 id in d.boxes && d.boxes[id].content ==
                   Some(if reply.answer.decision == Empty then Answer(Deny, reply.answer.tool) else reply.answer)
  {
    hide Cancels, Doing;
    if c.run.phase != Cancelling {
      FittingSuits(c, steps, t, reply);
      var fitting := Fitting(c.run, reply.wanted, reply.answer, reply.id);
      forall id ensures IsTheOne(id, fitting) <==> OnlySuits(c, steps, t, reply, id) {
      }
      hide Fitting;
    }
  }

  lemma FittingSuits(c: Core, steps: seq<Step>, t: Token, reply: Step)
    requires reply.StepReply? && PendingTold(c, steps, t)
    ensures forall id :: id in Fitting(c.run, reply.wanted, reply.answer, reply.id) <==> Suits(c, steps, t, reply, id)
  {
  }

  /** A waiter hands on the answer it took exactly if its run was not cancelled, its context is not done, the
      run has not ended and the waiter itself may go on. */
  lemma {:induction false} WaiterReturnsExactly(c: Core, id: Name, steps: seq<Step>, answer: Answer, callerDone: bool)
    requires Inv(c) && !Active(c.run.phase) && id != NoName
    requires Legal(BeginRun(c, id, false, false), steps) && WithinRun(steps)
    ensures var t := Token(c.generation, id);
            Checked(Execute(BeginRun(c, id, false, false), steps), t, answer, callerDone) ==
            if callerDone || StepEnd(t) in steps || Cancels(steps, t) || StepContextDone in steps then None
            else Some(answer)
  {
    hide Apply, BeginRun, Cancels;
    var t := Token(c.generation, id);
    if StepEnd(t) !in steps {
      RunIsTold(c, id, steps);
    } else {
      var k := FirstEnd(steps, t);
      var before, after := steps[..k], steps[k + 1..];
      assert steps == before + [StepEnd(t)] + after;
      RunEndsAsTold(c, id, before, after);
    }
  }

  lemma FirstEnd(steps: seq<Step>, t: Token) returns (k: nat)
    requires StepEnd(t) in steps
    ensures k < |steps| && steps[k] == StepEnd(t) && StepEnd(t) !in steps[..k]
  {
    k := 0;
    while steps[k] != StepEnd(t)
      invariant k < |steps| && StepEnd(t) !in steps[..k] && StepEnd(t) in steps[k..]
      decreases |steps| - k
    {
      k := k + 1;
    }
  }

  /** Behind `steps`, `answer` lies in the channel of a request because it was refused with its run, or
      because of a reply meant for the request. */
  ghost predicate Grounded(steps: seq<Step>, id: Name, answer: Answer) {
    || !Granted(answer)
    || exists i, j :: 0 <= i < j < |steps| && MeantFor(steps[j], steps[i]) && steps[i].id == id
                      && steps[j].answer == answer
  }

  predicate AskedFor(steps: seq<Step>, id: Name, w: Wait) {
    exists i :: 0 <= i < |steps| && steps[i].StepAsk? && steps[i].id == id && Wait(steps[i].kind, steps[i].tool) == w
  }

  ghost predicate AllGrounded(c: Core, steps: seq<Step>) {
    && (forall id :: id in c.boxes && c.boxes[id].content.Some? ==> Grounded(steps, id, c.boxes[id].content.value))
    && (forall id :: id in c.run.pending ==> AskedFor(steps, id, c.run.pending[id]))
  }

  lemma StillGrounded(steps: seq<Step>, s: Step, id: Name, answer: Answer)
    requires Grounded(steps, id, answer)
    ensures Grounded(steps + [s], id, answer)
  {
    if Granted(answer) {
      var more := steps + [s];
      var i, j :|
        0 <= i < j < |steps| && MeantFor(steps[j], steps[i]) && steps[i].id == id && steps[j].answer == answer;
      assert more[i] == steps[i] && more[j] == steps[j];
    }
  }

  lemma StillAsked(steps: seq<Step>, s: Step, id: Name, w: Wait)
    ensures AskedFor(steps, id, w) ==> AskedFor(steps + [s], id, w)
    ensures s.StepAsk? && s.id == id && w == Wait(s.kind, s.tool) ==> AskedFor(steps + [s], id, w)
  {
    var more := steps + [s];
    assert more[|steps|] == s;
    if AskedFor(steps, id, w) {
      var i :| 0 <= i < |steps| && steps[i].StepAsk? && steps[i].id == id && Wait(steps[i].kind, steps[i].tool) == w;
      assert more[i] == steps[i];
    }
  }

  lemma ReplyIsGround(steps: seq<Step>, s: Step, id: Name, w: Wait)
    requires s.StepReply? && AskedFor(steps, id, w) && Fits(s.wanted, s.answer, s.id, id, w)
    ensures Grounded(steps + [s], id, Definite(s.answer))
  {
    var more := steps + [s];
    var i :| 0 <= i < |steps| && steps[i].StepAsk? && steps[i].id == id && Wait(steps[i].kind, steps[i].tool) == w;
    assert more[i] == steps[i] && more[|steps|] == s && MeantFor(more[|steps|], more[i]);
  }

  /** What a step can put into the channel of `id`. */
  lemma StepAnswers(c: Core, s: Step, id: Name)
    requires Inv(c) && Allowed(c, s) && id in Apply(c, s).boxes && Apply(c, s).boxes[id].content.Some?
    ensures var a := Apply(c, s).boxes[id].content.value;
            || (id in c.boxes && c.boxes[id].content == Some(a))
            || !Granted(a)
            || (s.StepReply? && id in c.run.pending && Fits(s.wanted, s.answer, s.id, id, c.run.pending[id])
                && a == Definite(s.answer))
  {
  }

  lemma StepAsks(c: Core, s: Step, id: Name)
    requires id in Apply(c, s).run.pending
    ensures || (id in c.run.pending && Apply(c, s).run.pending[id] == c.run.pending[id])
            || (s.StepAsk? && s.id == id && Apply(c, s).run.pending[id] == Wait(s.kind, s.tool))
  {
  }

  lemma {:induction false} StepGrounded(c: Core, steps: seq<Step>, s: Step)
    requires Inv(c) && Allowed(c, s) && AllGrounded(c, steps)
    ensures AllGrounded(Apply(c, s), steps + [s])
  {
    hide Apply, Grounded, AskedFor, Fits;
    var d := Apply(c, s);
    forall id | id in d.boxes && d.boxes[id].content.Some?
      ensures Grounded(steps + [s], id, d.boxes[id].content.value)
    {
      AnswerGrounded(c, steps, s, id);
    }
    forall id | id in d.run.pending ensures AskedFor(steps + [s], id, d.run.pending[id]) {
      StepAsks(c, s, id);
      StillAsked(steps, s, id, d.run.pending[id]);
    }
  }

  lemma {:induction false} AnswerGrounded(c: Core, steps: seq<Step>, s: Step, id: Name)
    requires Inv(c) && Allowed(c, s) && AllGrounded(c, steps)
    requires id in Apply(c, s).boxes && Apply(c, s).boxes[id].content.Some?
    ensures Grounded(steps + [s], id, Apply(c, s).boxes[id].content.value)
  {
    hide Apply, AskedFor, Fits;
    var a := Apply(c, s).boxes[id].content.value;
    StepAnswers(c, s, id);
    if id in c.boxes && c.boxes[id].content == Some(a) {
      StillGrounded(steps, s, id, a);
    } else if Granted(a) {
      ReplyIsGround(steps, s, id, c.run.pending[id]);
    }
  }

  lemma {:induction false} GroundedRun(c: Core, done: seq<Step>, steps: seq<Step>)
    requires Inv(c) && Legal(c, steps) && AllGrounded(c, done)
    ensures AllGrounded(Execute(c, steps), done + steps)
    decreases |steps|
  {
    hide Apply, AllGrounded, PhaseInv, TicketInv, Allowed;
    if steps == [] {
      assert done + steps == done;
    } else {
      StepKeepsPhase(c, steps[0]);
      StepKeepsTickets(c, steps[0]);
      StepGrounded(c, done, steps[0]);
      GroundedRun(Apply(c, steps[0]), done + [steps[0]], steps[1..]);
      assert done + [steps[0]] + steps[1..] == done + steps;
    }
  }

  /** No grant comes out of nothing: in every run, a granting answer in the channel of a request is
      the answer of a reply meant for that request, made after the request. */
  lemma {:induction false} GrantsWereReplied(generation: nat, steps: seq<Step>, id: Name)
    requires Legal(Start(generation), steps)
    requires var c := Execute(Start(generation), steps); id in c.boxes && c.boxes[id].content.Some?
    requires Granted(Execute(Start(generation), steps).boxes[id].content.value)
    ensures var answer := Execute(Start(generation), steps).boxes[id].content.value;
            exists i, j :: 0 <= i < j < |steps| && MeantFor(steps[j], steps[i]) && steps[i].id == id
              && steps[j].answer == answer
  {
    hide Apply, MeantFor;
    GroundedRun(Start(generation), [], steps);
    assert [] + steps == steps;
  }

  /** No waiter is left behind: when a live run is cancelled or ends, each of its open requests is answered,
      with a refusal. */
  lemma WaitersAreRefused(c: Core, s: Step, id: Name)
    requires Inv(c) && id in c.run.pending && IsLive(c, c.run.token)
    requires s == StepEnd(c.run.token) || (s.StepCancel? && s.t == c.run.token)
    ensures var d := Apply(c, s);
            && id in d.boxes && d.boxes[id].content.Some? && !Granted(d.boxes[id].content.value)
            && d.boxes[id].sent == 1 && d.run.pending == map[]
  {
  }

  // ----- Taking answers -----

  predicate Finds(c: Core, s: Step, id: Name) {
    s == StepTake(id) && id in c.boxes && c.boxes[id].content.Some?
  }

  /** How often a waiter of request `id` finds an answer in its channel. */
  ghost function Found(c: Core, steps: seq<Step>, id: Name): (n: nat)
    decreases |steps|
  {
    if steps == [] then 0
    else (if Finds(c, steps[0], id) then 1 else 0) + Found(Apply(c, steps[0]), steps[1..], id)
  }

  function Taken(c: Core, id: Name): (n: nat) {
    if id in c.boxes then c.boxes[id].taken else 0
  }

  lemma {:induction false} TakenStep(c: Core, s: Step, id: Name)
    requires Inv(c) && Allowed(c, s)
    ensures Taken(Apply(c, s), id) == Taken(c, id) + if Finds(c, s, id) then 1 else 0
  {
    hide Reply, PhaseInv;
    if s.StepReply? {
      ReplyTakesNothing(c, s, id);
    }
  }

  lemma ReplyTakesNothing(c: Core, s: Step, id: Name)
    requires s.StepReply?
    ensures Taken(Reply(c, s.wanted, s.answer, s.id), id) == Taken(c, id)
  {
  }

  lemma {:induction false} TakenRun(c: Core, steps: seq<Step>, id: Name)
    requires Inv(c) && Legal(c, steps)
    ensures Taken(Execute(c, steps), id) == Taken(c, id) + Found(c, steps, id)
    decreases |steps|
  {
    hide Apply, PhaseInv, TicketInv, Taken, Finds, Allowed;
    if steps != [] {
      StepKeepsPhase(c, steps[0]);
      StepKeepsTickets(c, steps[0]);
      TakenStep(c, steps[0], id);
      TakenRun(Apply(c, steps[0]), steps[1..], id);
    }
  }

  /** In every run the answer to a request is found at most once, however often one looks for it. */
  lemma {:induction false} AnswersAreTakenOnce(generation: nat, steps: seq<Step>, id: Name)
    requires Legal(Start(generation), steps)
    ensures Found(Start(generation), steps, id) <= 1
  {
    hide Apply, Execute, Found;
    TakenRun(Start(generation), steps, id);
    TicketsAnsweredOnce(generation, steps, id);
  }

  // ----- Generations -----

  lemma {:induction false} GenerationStep(c: Core, s: Step)
    ensures c.generation <= Apply(c, s).generation
  {
  }

  /** Generations never go back, so that a token of an earlier generation is stale for good. */
  lemma {:induction false} OldGenerationsAreStale(c: Core, steps: seq<Step>, t: Token)
    requires t.generation < c.generation
    ensures c.generation <= Execute(c, steps).generation && !Matches(Execute(c, steps), t)
    decreases |steps|
  {
    hide Apply;
    if steps != [] {
      GenerationStep(c, steps[0]);
      OldGenerationsAreStale(Apply(c, steps[0]), steps[1..], t);
    }
  }
}
