/** The scheduler object itself: one method per critical section of agent/tools_executor.go,
    each proved to perform the step that module ToolExecutor reasons about. */
module StreamingExecutor {
  import opened Prelude
  import opened ToolExecutor

  class StreamingToolExecutor {
    var slots: map<Name, Slot>
    var toolOrder: seq<Name>
    var nonSafeRunning: int
    var cancelled: bool

    ghost function View(): Shared
      reads this
    {
      Shared(slots, toolOrder, nonSafeRunning, cancelled)
    }

    ghost predicate Valid()
      reads this
    {
      WellFormed(View())
    }

    constructor ()
      ensures Valid() && View() == NoCalls
    {
      slots, toolOrder, nonSafeRunning, cancelled := map[], [], 0, false;
    }

    /** The scan over all earlier calls that guards every launch. */
    method CanStartImmediately(tcID: Name, allowNonSafe: bool) returns (ok: bool)
      requires Valid()
      ensures ok == CanStart(View(), tcID, allowNonSafe)
    {
      if cancelled || tcID !in slots || slots[tcID].state != Queued {
        return false;
      }
      var slot := slots[tcID];
      var isSafe := slot.call.safe;
      if !isSafe && !allowNonSafe {
        return false;
      }
      assert SlotOk(View(), tcID, slot);
      var i := 0;
      while toolOrder[i] != tcID
        invariant 0 <= i <= slot.at
        invariant forall k :: 0 <= k < i ==>
                    Terminal(slots[toolOrder[k]].state) || (isSafe && slots[toolOrder[k]].call.safe)
        decreases slot.at - i
      {
        var prior := slots[toolOrder[i]];
        var priorTerminal := prior.state == Completed || prior.state == Aborted || prior.state == Yielded;
        if !isSafe && !priorTerminal {
          NotCleared(View(), tcID, i);
          return false;
        }
        if isSafe && !prior.call.safe && !priorTerminal {
          NotCleared(View(), tcID, i);
          return false;
        }
        i := i + 1;
      }
      ScanCleared(View(), tcID);
      return nonSafeRunning <= 0;
    }

    method AddTool(tc: ToolCall) returns (canStart: bool)
      requires Valid() && tc.id !in slots && tc.id != NoName
      modifies this
      ensures Valid() && View() == AddSlot(old(View()), tc)
      ensures canStart == CanStart(View(), tc.id, false)
    {
      AddGrows(View(), tc);
      slots := slots[tc.id := Slot(tc, |toolOrder|, Queued, None, false, false)];
      toolOrder := toolOrder + [tc.id];
      canStart := CanStartImmediately(tc.id, false);
    }

    method TryStartQueued(tcID: Name) returns (canStart: bool)
      requires Valid()
      modifies this
      ensures Valid() && View() == GrantSlot(old(View()), tcID)
      ensures canStart == CanStart(View(), tcID, true)
    {
      if tcID !in slots || slots[tcID].state != Queued {
        return false;
      }
      GrantGrows(View(), tcID);
      slots := slots[tcID := slots[tcID].(granted := true)];
      canStart := CanStartImmediately(tcID, true);
    }

    /** The denial overwrites whatever state the slot has reached meanwhile. */
    method DenyTool(tcID: Name, content: Text)
      requires Valid()
      modifies this
      ensures Valid() && View() == DenySlot(old(View()), tcID, content)
    {
      DenyGrows(View(), tcID, content);
      if tcID in slots {
        slots := slots[tcID := slots[tcID].(state := Completed, result := Some(ToolResult(tcID, content)),
            isError := false)];
      }
    }

    method GetCompletedResults() returns (results: seq<ToolResult>)
      requires Valid()
      modifies this`slots
      ensures Valid() && View() == YieldTo(old(View()), FirstPending(old(View())))
      ensures results == Buffered(old(View()), FirstPending(old(View())))
    {
      YieldGrows(View(), FirstPending(View()));
      var updated, released := Yield(slots, toolOrder, View());
      slots := updated;
      return released;
    }

    /** The hand-over loop over the slots read under the lock. */
    static method Yield(current: map<Name, Slot>, order: seq<Name>, ghost x: Shared)
      returns (updated: map<Name, Slot>, results: seq<ToolResult>)
      requires WellFormed(x) && x.slots == current && x.order == order
      ensures updated == YieldTo(x, FirstPending(x)).slots
      ensures results == Buffered(x, FirstPending(x))
    {
      YieldNothing(x);
      hide WellFormed, YieldTo, Buffered, FirstPending, Done;
      updated, results := current, [];
      var i := 0;
      while i < |order|
        invariant 0 <= i <= FirstPending(x)
        invariant updated == YieldTo(x, i).slots
        invariant results == Buffered(x, i)
      {
        var tid := order[i];
        YieldNext(x, i);
        var slot := updated[tid];
        if slot.state != Yielded {
          if slot.state != Completed && slot.state != Aborted {
            break;
          }
          updated := updated[tid := slot.(state := Yielded)];
          results := results + if slot.result.Some? then [slot.result.value] else [];
        }
        i := i + 1;
      }
    }

    /** The final sweep; it hands over what is buffered without marking it. */
    method GetRemainingResults() returns (results: seq<ToolResult>)
      requires Valid()
      ensures results == Buffered(View(), |toolOrder|)
    {
      results := [];
      for i := 0 to |toolOrder|
        invariant results == Buffered(View(), i)
      {
        var slot := slots[toolOrder[i]];
        if slot.state != Yielded && slot.result.Some? {
          results := results + [slot.result.value];
        }
      }
    }

    method MaybeDrain() returns (toLaunch: seq<Name>)
      requires Valid()
      ensures toLaunch == DrainBatch(View())
    {
      toLaunch := [];
      if cancelled {
        return;
      }
      var safe := DrainSafe();
      var exclusive := DrainExclusive();
      return safe + exclusive;
    }

    /** First pass of a drain: all safe calls that may start. */
    method DrainSafe() returns (toLaunch: seq<Name>)
      requires Valid()
      ensures toLaunch == SafeBatch(View(), |toolOrder|)
    {
      toLaunch := [];
      for i := 0 to |toolOrder|
        invariant toLaunch == SafeBatch(View(), i)
      {
        var tid := toolOrder[i];
        var ok := CanStartImmediately(tid, false);
        if slots[tid].state == Queued && slots[tid].call.safe && ok {
          toLaunch := toLaunch + [tid];
        }
      }
    }

    /** Second pass: the first exclusive call that is granted and may start. */
    method DrainExclusive() returns (toLaunch: seq<Name>)
      requires Valid()
      ensures toLaunch == ExclusiveBatch(View())
    {
      var j := 0;
      while j < |toolOrder|
        invariant 0 <= j <= |toolOrder|
        invariant ExclusiveBatch(View()) == ExclusiveBatch(View(), j)
      {
        var tid := toolOrder[j];
        var ok := CanStartImmediately(tid, true);
        if slots[tid].state == Queued && !slots[tid].call.safe && slots[tid].granted && ok {
          assert ExclusiveReady(View(), tid);
          return [tid];
        }
        j := j + 1;
      }
      return [];
    }

    /** First section of a launch: the slot is reserved before the journal is written. */
    method ReserveLaunch(tcID: Name) returns (reserved: bool)
      requires Valid()
      modifies this
      ensures Valid() && View() == ReserveSlot(old(View()), tcID)
      ensures reserved <==> tcID in old(slots) && old(slots)[tcID].state == Queued
    {
      ReserveGrows(View(), tcID);
      reserved := tcID in slots && slots[tcID].state == Queued;
      if reserved {
        slots := slots[tcID := slots[tcID].(state := Executing)];
      }
    }

    /** The journal refused the start: the call completes with an error and never runs. */
    method AbandonLaunch(tcID: Name, content: Text)
      requires Valid()
      modifies this
      ensures Valid() && View() == FailStart(old(View()), tcID, content)
    {
      FailStartGrows(View(), tcID, content);
      if tcID in slots && slots[tcID].state == Executing {
        slots := slots[tcID := slots[tcID].(state := Completed, isError := true,
            result := Some(ToolResult(tcID, content)))];
      }
    }

    /** Second section of a launch: the goroutine starts only if the reservation still stands. */
    method StartLaunch(tcID: Name) returns (started: bool)
      requires Valid()
      modifies this
      ensures Valid() && View() == StartSlot(old(View()), tcID)
      ensures started <==> tcID in slots && slots[tcID].state == Executing
    {
      CounterGrows(View(), StartSlot(View(), tcID));
      started := tcID in slots && slots[tcID].state == Executing;
      if started && !slots[tcID].call.safe {
        nonSafeRunning := nonSafeRunning + 1;
      }
    }

    method FinishResult(tcID: Name, content: Text, isError: bool)
      requires Valid()
      modifies this
      ensures Valid() && View() == ReportSlot(old(View()), tcID, content, isError)
    {
      ReportGrows(View(), tcID, content, isError);
      if tcID in slots {
        slots := slots[tcID := slots[tcID].(isError := isError, result := Some(ToolResult(tcID, content)))];
      }
    }

    /** The deferred block of a tool goroutine: only an aborted slot keeps its state. */
    method FinishTool(tcID: Name, isSafe: bool)
      requires Valid() && tcID in slots && slots[tcID].result.Some? && isSafe == slots[tcID].call.safe
      modifies this
      ensures Valid() && View() == FinishSlot(old(View()), tcID)
    {
      FinishGrows(View(), tcID);
      if slots[tcID].state != Aborted {
        slots := slots[tcID := slots[tcID].(state := Completed)];
      }
      if !isSafe {
        nonSafeRunning := nonSafeRunning - 1;
      }
    }

    /** A failed call aborts its siblings, visited in any order. */
    method AbortSiblings(failed: Name)
      requires Valid()
      modifies this
      ensures Valid() && View() == AbortSlots(old(View()), failed)
    {
      AbortGrows(View(), failed);
      if failed in slots {
        var updated, aborted := Abort(slots, failed, View());
        slots := updated;
        if aborted > 0 {
          cancelled := true;
        }
      }
    }

    static method Abort(current: map<Name, Slot>, failed: Name, ghost x: Shared)
      returns (updated: map<Name, Slot>, aborted: nat)
      requires x.slots == current && failed in current
      ensures AbortSlots(x, failed) == x.(slots := updated, cancelled := x.cancelled || aborted > 0)
    {
      AbortEnds(x, failed);
      hide AbortAll, Victims, AbortSlots;
      var todo := current.Keys;
      updated, aborted := current, 0;
      assert x.slots.Keys - todo == {};
      while todo != {}
        invariant todo <= x.slots.Keys
        invariant updated == AbortAll(x, failed, x.slots.Keys - todo)
        invariant aborted == |Victims(x, failed, x.slots.Keys - todo)|
        decreases todo
      {
        var tid :| tid in todo;
        AbortNext(x, failed, x.slots.Keys - todo, tid);
        var slot := updated[tid];
        assert x.slots.Keys - (todo - {tid}) == x.slots.Keys - todo + {tid};
        todo := todo - {tid};
        if tid != failed && (slot.state == Queued || slot.state == Executing) && slot.call.siblingAbort {
          updated := updated[tid := AbortedSlot(slot, tid)];
          aborted := aborted + 1;
        }
      }
      assert x.slots.Keys - todo == x.slots.Keys;
    }

    method HasPendingWork() returns (pending: bool)
      requires Valid()
      ensures pending <==> exists id :: id in slots && !Terminal(slots[id].state)
    {
      var todo := slots.Keys;
      while todo != {}
        invariant todo <= slots.Keys
        invariant forall id :: id in slots && id !in todo ==> Terminal(slots[id].state)
        decreases todo
      {
        var tid :| tid in todo;
        if slots[tid].state == Queued || slots[tid].state == Executing {
          return true;
        }
        todo := todo - {tid};
      }
      return false;
    }
  }

  ghost function Victims(x: Shared, failed: Name, visited: set<Name>): set<Name> {
    set id | id in visited && Abortable(x, failed, id)
  }

  ghost function AbortAll(x: Shared, failed: Name, visited: set<Name>): map<Name, Slot> {
    map id | id in x.slots :: if id in visited && Abortable(x, failed, id) then AbortedSlot(x.slots[id], id)
        else x.slots[id]
  }

  lemma AbortNext(x: Shared, failed: Name, visited: set<Name>, id: Name)
    requires id in x.slots && id !in visited
    ensures id in AbortAll(x, failed, visited) && AbortAll(x, failed, visited)[id] == x.slots[id]
    ensures var hit := Abortable(x, failed, id);
            && AbortAll(x, failed, visited + {id}) ==
                 (if hit then AbortAll(x, failed, visited)[id := AbortedSlot(x.slots[id], id)]
                     else AbortAll(x, failed, visited))
            && |Victims(x, failed, visited + {id})| == |Victims(x, failed, visited)| + if hit then 1 else 0
  {
    if Abortable(x, failed, id) {
      assert Victims(x, failed, visited + {id}) == Victims(x, failed, visited) + {id};
    } else {
      assert Victims(x, failed, visited + {id}) == Victims(x, failed, visited);
    }
  }

  lemma AbortEnds(x: Shared, failed: Name)
    requires failed in x.slots
    ensures AbortAll(x, failed, {}) == x.slots && Victims(x, failed, {}) == {}
    ensures AbortSlots(x, failed) ==
            x.(slots := AbortAll(x, failed, x.slots.Keys),
               cancelled := x.cancelled || |Victims(x, failed, x.slots.Keys)| > 0)
  {
    assert AbortAll(x, failed, {}) == x.slots;
    assert AbortSlots(x, failed).slots == AbortAll(x, failed, x.slots.Keys);
    if id :| id in x.slots && Abortable(x, failed, id) {
      assert id in Victims(x, failed, x.slots.Keys);
    } else {
      assert Victims(x, failed, x.slots.Keys) == {};
    }
  }

  lemma NotCleared(x: Shared, id: Name, i: nat)
    requires WellFormed(x) && id in x.slots && i < x.slots[id].at && i < |x.order|
    requires !Terminal(x.slots[x.order[i]].state) && Conflict(x.slots[x.order[i]], x.slots[id])
    ensures !Cleared(x, id)
  {
    assert x.slots[x.order[i]].at == i;
  }

  lemma ScanCleared(x: Shared, id: Name)
    requires WellFormed(x) && id in x.slots
    requires forall k :: 0 <= k < x.slots[id].at ==>
                           Terminal(x.slots[x.order[k]].state) || !Conflict(x.slots[x.order[k]], x.slots[id])
    ensures Cleared(x, id)
  {
    forall a | a in x.slots && x.slots[a].at < x.slots[id].at && Conflict(x.slots[a], x.slots[id])
      ensures Terminal(x.slots[a].state)
    {
      assert SlotOk(x, a, x.slots[a]);
    }
  }

  lemma YieldNothing(x: Shared)
    ensures YieldTo(x, 0) == x && Buffered(x, 0) == []
    ensures forall k :: YieldTo(x, k) == x.(slots := YieldTo(x, k).slots)
  {
    assert YieldTo(x, 0).slots == x.slots;
  }

  /** One round of the hand-over loop: what slot `i` contributes and whether the loop goes on. */
  lemma YieldNext(x: Shared, i: nat)
    requires WellFormed(x) && i < |x.order| && i <= FirstPending(x)
    ensures var id := x.order[i];
            && id in x.slots && id in YieldTo(x, i).slots && YieldTo(x, i).slots[id] == x.slots[id]
            && (Terminal(x.slots[id].state) <==> i < FirstPending(x))
            && YieldTo(x, i + 1).slots == YieldTo(x, i).slots[id := x.slots[id].(state := Yielded)]
            && Buffered(x, i + 1) == Buffered(x, i) +
                 if x.slots[id].state != Yielded && x.slots[id].result.Some? then [x.slots[id].result.value] else []
  {
    var id := x.order[i];
    assert i < FirstPending(x) ==> Done(x, x.order[i]);
    assert i == FirstPending(x) ==> !Done(x, x.order[i]);
    YieldSlots(x, i);
  }

  lemma YieldSlots(x: Shared, i: nat)
    requires WellFormed(x) && i < |x.order|
    ensures YieldTo(x, i + 1).slots == YieldTo(x, i).slots[x.order[i] := x.slots[x.order[i]].(state := Yielded)]
  {
    var id := x.order[i];
    forall a | a in x.slots && x.slots[a].at == i ensures a == id {
      assert SlotOk(x, a, x.slots[a]);
    }
    assert YieldTo(x, i + 1).slots == YieldTo(x, i).slots[id := x.slots[id].(state := Yielded)];
  }
}
