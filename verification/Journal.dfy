/** The run and step lifecycle written by the event recorder (agent/runtime_events.go). An append
    succeeds or fails as a whole. */
module Journal {
  import opened Prelude

  datatype Outcome = Done | Failed | Interrupted

  datatype Event =
    | RunStarted(run: Name)
    | StepStarted(run: Name, no: nat)
    | StepEnded(run: Name, no: nat, outcome: Outcome)
    | RunEnded(run: Name, outcome: Outcome)

  /** The fields of the recorder, and the lifecycle events of its stream. */
  datatype Recorder = Recorder(run: Name, step: Name, stepNo: nat, terminal: bool, journal: seq<Event>)

  function New(): (r: Recorder) {
    Recorder(NoName, NoName, 0, false, [])
  }

  predicate HasRun(r: Recorder) {
    r.run != NoName && !r.terminal
  }

  // ----- Well-bracketed journals -----

  /** A finished run: how many steps it had and how it ended. */
  datatype Past = Past(run: Name, steps: nat, outcome: Outcome)

  /** Steps 1 to n, each started and completed. */
  function CompletedSteps(run: Name, n: nat): (j: seq<Event>) {
    if n == 0 then [] else CompletedSteps(run, n - 1) + [StepStarted(run, n), StepEnded(run, n, Done)]
  }

  /** A run whose last step, if any, is still open. */
  function OpenRun(run: Name, steps: nat): (j: seq<Event>) {
    [RunStarted(run)] + if steps == 0 then [] else CompletedSteps(run, steps - 1) + [StepStarted(run, steps)]
  }

  /** A finished run closes its last step, with its own outcome, before its one terminal event. */
  function FinishedRun(p: Past): (j: seq<Event>) {
    OpenRun(p.run, p.steps) + (if p.steps == 0 then [] else [StepEnded(p.run, p.steps, p.outcome)])
        + [RunEnded(p.run, p.outcome)]
  }

  function Finished(past: seq<Past>): (j: seq<Event>) {
    if past == [] then [] else Finished(past[..|past| - 1]) + FinishedRun(past[|past| - 1])
  }

  /** Finished runs, one after the other, and then what is open. */
  function Render(past: seq<Past>, r: Recorder): (j: seq<Event>) {
    Finished(past) + if HasRun(r) then OpenRun(r.run, r.stepNo) else []
  }

  ghost predicate Bracketed(past: seq<Past>, r: Recorder) {
    r.journal == Render(past, r) && (HasRun(r) ==> (r.step != NoName <==> r.stepNo > 0))
  }

  // ----- The operations -----

  function BeginRun(r: Recorder, run: Name, stored: bool): (out: Recorder) {
    if HasRun(r) then r
    else Recorder(run, NoName, 0, false, if stored then r.journal + [RunStarted(run)] else r.journal)
  }

  function BeginStep(r: Recorder, step: Name, stored: bool): (out: Recorder) {
    if !HasRun(r) || !stored then r
    else r.(step := step, stepNo := r.stepNo + 1,
            journal := r.journal + (if r.step != NoName then [StepEnded(r.run, r.stepNo, Done)] else [])
                       + [StepStarted(r.run, r.stepNo + 1)])
  }

  function EndRun(r: Recorder, outcome: Outcome, stored: bool): (out: Recorder) {
    if !HasRun(r) || !stored then r
    else r.(terminal := true,
            journal := r.journal + (if r.step != NoName then [StepEnded(r.run, r.stepNo, outcome)] else [])
                       + [RunEnded(r.run, outcome)])
  }

  datatype Call =
    | CallBeginRun(run: Name, stored: bool)
    | CallBeginStep(step: Name, stored: bool)
    | CallEndRun(outcome: Outcome, stored: bool)

  predicate Allowed(c: Call) {
    (c.CallBeginRun? ==> c.run != NoName) && (c.CallBeginStep? ==> c.step != NoName)
  }

  function Apply(r: Recorder, c: Call): (out: Recorder) {
    match c
    case CallBeginRun(run, stored) => BeginRun(r, run, stored)
    case CallBeginStep(step, stored) => BeginStep(r, step, stored)
    case CallEndRun(outcome, stored) => EndRun(r, outcome, stored)
  }

  function Execute(r: Recorder, calls: seq<Call>): (out: Recorder)
    decreases |calls|
  {
    if calls == [] then r else Execute(Apply(r, calls[0]), calls[1..])
  }

  /** Run starts are stored; steps and ends may fail to be. */
  predicate StartsStored(calls: seq<Call>) {
    forall i :: 0 <= i < |calls| ==> Allowed(calls[i]) && (calls[i].CallBeginRun? ==> calls[i].stored)
  }

  /** The finished runs after a call. */
  function PastAfter(past: seq<Past>, r: Recorder, c: Call): (p: seq<Past>) {
    if c.CallEndRun? && HasRun(r) && c.stored then past + [Past(r.run, r.stepNo, c.outcome)] else past
  }

  lemma BeginRunKeeps(past: seq<Past>, r: Recorder, run: Name)
    requires Bracketed(past, r) && run != NoName
    ensures Bracketed(past, BeginRun(r, run, true))
  {
  }

  /** The next step closes the open one. */
  lemma NextStep(run: Name, n: nat)
    ensures OpenRun(run, n + 1) == OpenRun(run, n) + (if n > 0 then [StepEnded(run, n, Done)] else [])
        + [StepStarted(run, n + 1)]
  {
    if n > 0 {
      assert [StepStarted(run, n)] + [StepEnded(run, n, Done)] == [StepStarted(run, n), StepEnded(run, n, Done)];
    }
  }

  lemma {:induction false} BeginStepKeeps(past: seq<Past>, r: Recorder, step: Name, stored: bool)
    requires Bracketed(past, r) && step != NoName
    ensures Bracketed(past, BeginStep(r, step, stored))
  {
    if HasRun(r) && stored {
      var out := BeginStep(r, step, stored);
      NextStep(r.run, r.stepNo);
      hide Finished, OpenRun;
      assert out.journal == Finished(past) + OpenRun(r.run, r.stepNo + 1);
    }
  }

  lemma FinishedSnoc(past: seq<Past>, p: Past)
    ensures Finished(past + [p]) == Finished(past) + FinishedRun(p)
  {
    assert (past + [p])[..|past|] == past;
  }

  lemma {:induction false} EndRunKeeps(past: seq<Past>, r: Recorder, outcome: Outcome, stored: bool)
    requires Bracketed(past, r)
    ensures Bracketed(PastAfter(past, r, CallEndRun(outcome, stored)), EndRun(r, outcome, stored))
  {
    if HasRun(r) && stored {
      var p := Past(r.run, r.stepNo, outcome);
      FinishedSnoc(past, p);
      hide Finished, OpenRun;
    }
  }

  /** Whatever calls are made and whichever step and end appends fail, the journal of the stream is
      a prefix of a well-bracketed word: runs one after the other, steps numbered from 1 without
      gaps, at most the last step of the last run open, and every step closed before its run's
      single terminal event. */
  lemma {:induction false} JournalStaysBracketed(past: seq<Past>, r: Recorder, calls: seq<Call>)
    returns (now: seq<Past>)
    requires Bracketed(past, r) && StartsStored(calls)
    ensures Bracketed(now, Execute(r, calls)) && |past| <= |now| && now[..|past|] == past
    decreases |calls|
  {
    if calls == [] {
      return past;
    }
    var c := calls[0];
    match c {
      case CallBeginRun(run, stored) => BeginRunKeeps(past, r, run);
      case CallBeginStep(step, stored) => BeginStepKeeps(past, r, step, stored);
      case CallEndRun(outcome, stored) => EndRunKeeps(past, r, outcome, stored);
    }
    hide Bracketed, Apply;
    now := JournalStaysBracketed(PastAfter(past, r, c), Apply(r, c), calls[1..]);
  }

  lemma NewIsBracketed()
    ensures Bracketed([], New())
  {
  }

  /** The journal of every new recorder, after any calls. */
  lemma {:induction false} EveryJournalIsBracketed(calls: seq<Call>) returns (now: seq<Past>)
    requires StartsStored(calls)
    ensures Bracketed(now, Execute(New(), calls))
  {
    hide Bracketed, Execute;
    NewIsBracketed();
    now := JournalStaysBracketed([], New(), calls);
  }

  // ----- A run start that is not stored -----

  /** An accepted run start keeps the journal in step with the recorder if and only if its append
      succeeds. */
  lemma RunStartExactly(past: seq<Past>, r: Recorder, run: Name, stored: bool)
    requires Bracketed(past, r) && run != NoName && !HasRun(r)
    ensures Bracketed(past, BeginRun(r, run, stored)) <==> stored
  {
    if stored {
      BeginRunKeeps(past, r, run);
    } else {
      assert |OpenRun(run, 0)| == 1;
      assert |Render(past, BeginRun(r, run, stored))| == |r.journal| + 1;
    }
  }

  /** After a lost run start the recorder refuses every new run until the lost one is ended, and
      the events written meanwhile have no start to belong to. */
  lemma {:induction false} LostStartBlocksNewRuns(r: Recorder, run: Name, calls: seq<Call>)
    requires !HasRun(r) && run != NoName && forall i :: 0 <= i < |calls| ==> calls[i].CallBeginRun?
    ensures Execute(BeginRun(r, run, false), calls) == BeginRun(r, run, false)
    ensures forall step :: step != NoName ==>
              BeginStep(BeginRun(r, run, false), step, true).journal == r.journal + [StepStarted(run, 1)]
    decreases |calls|
  {
    var lost := BeginRun(r, run, false);
    if calls != [] {
      assert Apply(lost, calls[0]) == lost;
      LostStartBlocksNewRuns(r, run, calls[1..]);
    }
  }
}
