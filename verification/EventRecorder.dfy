/** The event recorder as a mutable object (agent/runtime_events.go). */
module EventRecorder {
  import opened Prelude
  import J = Journal
  import opened Journal

  class RuntimeEventRecorder {
    var runID: Name
    var stepID: Name
    var stepNo: nat
    var terminal: bool
    var journal: seq<Event>

    ghost function View(): (r: Recorder)
      reads this
    {
      Recorder(runID, stepID, stepNo, terminal, journal)
    }

    constructor ()
      ensures View() == New()
    {
      runID, stepID, stepNo, terminal, journal := NoName, NoName, 0, false, [];
    }

    method Append(events: seq<Event>, stored: bool)
      modifies this`journal
      ensures journal == old(journal) + if stored then events else []
    {
      if stored {
        journal := journal + events;
      }
    }

    method BeginRun(id: Name, stored: bool) returns (ok: bool)
      requires id != NoName
      modifies this
      ensures View() == J.BeginRun(old(View()), id, stored)
      ensures ok <==> !HasRun(old(View())) && stored
      ensures forall past :: Bracketed(past, old(View())) && (ok || HasRun(old(View()))) ==> Bracketed(past, View())
    {
      ghost var before := View();
      forall past | Bracketed(past, before) ensures Bracketed(past, J.BeginRun(before, id, true)) {
        BeginRunKeeps(past, before, id);
      }
      if runID != NoName && !terminal {
        return false;
      }
      runID := id;
      stepID, stepNo, terminal := NoName, 0, false;
      Append([RunStarted(runID)], stored);
      return stored;
    }

    method BeginStep(id: Name, stored: bool) returns (ok: bool)
      requires id != NoName
      modifies this
      ensures View() == J.BeginStep(old(View()), id, stored)
      ensures ok <==> HasRun(old(View())) && stored
      ensures forall past :: Bracketed(past, old(View())) ==> Bracketed(past, View())
    {
      ghost var before := View();
      forall past | Bracketed(past, before) ensures Bracketed(past, J.BeginStep(before, id, stored)) {
        BeginStepKeeps(past, before, id, stored);
      }
      if runID == NoName || terminal {
        return false;
      }
      var pending := [];
      if stepID != NoName {
        pending := pending + [StepEnded(runID, stepNo, Done)];
      }
      pending := pending + [StepStarted(runID, stepNo + 1)];
      assert journal + pending == before.journal + (if stepID != NoName then [StepEnded(runID, stepNo, Done)] else [])
                                  + [StepStarted(runID, stepNo + 1)];
      Append(pending, stored);
      if stored {
        stepNo, stepID := stepNo + 1, id;
      }
      return stored;
    }

    method EndRun(outcome: Outcome, stored: bool) returns (ok: bool)
      modifies this
      ensures View() == J.EndRun(old(View()), outcome, stored)
      ensures ok <==> !HasRun(old(View())) || stored
      ensures forall past :: Bracketed(past, old(View())) ==>
                Bracketed(PastAfter(past, old(View()), CallEndRun(outcome, stored)), View())
    {
      ghost var before := View();
      forall past | Bracketed(past, before)
        ensures Bracketed(PastAfter(past, before, CallEndRun(outcome, stored)), J.EndRun(before, outcome, stored))
      {
        EndRunKeeps(past, before, outcome, stored);
      }
      if runID == NoName || terminal {
        return true;
      }
      var pending := [];
      if stepID != NoName {
        pending := pending + [StepEnded(runID, stepNo, outcome)];
      }
      pending := pending + [RunEnded(runID, outcome)];
      assert journal + pending == before.journal + (if stepID != NoName then [StepEnded(runID, stepNo, outcome)]
          else [])
                                  + [RunEnded(runID, outcome)];
      Append(pending, stored);
      if stored {
        terminal := true;
      }
      return stored;
    }
  }
}
