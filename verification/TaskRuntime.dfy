/** The registry of tasks as a mutable object (agent/task_runtime.go). */
module TaskRuntime {
  import opened Prelude
  import opened ClearProtocol
  import opened TaskForest

  const MAIN: Name := 1

  class AgentTaskRuntime {
    var records: Records
    var childCounts: map<Name, nat>
    var workers: set<Name>
    var workerSpecs: set<Name>
    var scopes: set<Name>

    /** Child counts agree with the records. */
    ghost predicate Valid()
      reads this`records, this`childCounts
    {
      Exact(records, childCounts)
    }

    /** Workers, their specifications and scopes only go away. */
    twostate predicate Shrinks()
      reads this
    {
      workers <= old(workers) && workerSpecs <= old(workerSpecs) && scopes <= old(scopes)
    }

    /** Nothing is kept for a removed record. */
    ghost predicate Forgets(before: Records)
      reads this
    {
      Forgotten(before, records, workers, workerSpecs, scopes)
    }

    constructor ()
      ensures Valid() && records == map[] && scopes == {MAIN}
    {
      records, childCounts, workers, workerSpecs, scopes := map[], map[], {}, {}, {MAIN};
      new;
      forall scope ensures ChildrenOf(records, scope) == {} {
      }
    }

    /** Registering is right exactly for a new task id. */
    method Register(id: Name, record: Record, createScope: bool)
      requires Valid()
      modifies this`records, this`childCounts, this`scopes
      ensures records == old(records)[id := record]
      ensures scopes == old(scopes) + {record.parent} + if createScope then {id} else {}
      ensures Valid() <==> id !in old(records)
    {
      hide Exact, ChildrenOf;
      RegisterExactly(records, childCounts, id, record);
      records := records[id := record];
      childCounts := childCounts[record.parent := (if record.parent in childCounts then childCounts[record.parent]
          else 0) + 1];
      scopes := scopes + {record.parent};
      if createScope {
        scopes := scopes + {id};
      }
    }

    method Unregister(id: Name) returns (removed: Option<Record>)
      requires Valid()
      modifies this`records, this`childCounts
      ensures Valid() && records == old(records) - {id}
      ensures removed == if id in old(records) then Some(old(records)[id]) else None
    {
      if id !in records {
        assert records - {id} == records;
        return None;
      }
      var record := records[id];
      UnregisterKeepsExact(records, childCounts, id);
      records := records - {id};
      var known := if record.parent in childCounts then childCounts[record.parent] else 0;
      if known > 1 {
        childCounts := childCounts[record.parent := known - 1];
      } else {
        childCounts := childCounts - {record.parent};
      }
      return Some(record);
    }

    method SetStatus(id: Name, status: Status)
      requires Valid() && id in records
      modifies this`records
      ensures Valid() && records == old(records)[id := old(records)[id].(status := status)]
    {
      StatusKeepsExact(records, childCounts, id, records[id].(status := status));
      records := records[id := records[id].(status := status)];
    }

    /** Stop a live task of the given scope (NoName: any scope). */
    method StopTask(id: Name, scope: Name) returns (found: bool)
      requires Valid()
      modifies this`records, this`workerSpecs
      ensures Valid()
      ensures found <==> id in old(records) && (scope != NoName ==> old(records)[id].parent == scope)
      ensures records == if found && !IsTerminal(old(records)[id].status)
                         then old(records)[id := old(records)[id].(status := Killed)] else old(records)
      ensures workerSpecs == if found && !IsTerminal(old(records)[id].status) then old(workerSpecs) - {id}
          else old(workerSpecs)
    {
      if id !in records || (scope != NoName && records[id].parent != scope) {
        return false;
      }
      if IsTerminal(records[id].status) {
        return true;
      }
      SetStatus(id, Killed);
      workerSpecs := workerSpecs - {id};
      return true;
    }

    /** Stop every live task, in any order; afterwards all are terminal, and the ones that were
        terminal before are as they were. */
    method Shutdown()
      requires Valid()
      modifies this`records, this`workerSpecs
      ensures Valid() && Unfinished(records) == {}
      ensures records == StoppedAll(old(records), Unfinished(old(records)))
    {
      hide Exact;
      ghost var before := records;
      var refs := Unfinished(records);
      var todo := refs;
      StoppedNone(before);
      assert refs - todo == {};
      while todo != {}
        invariant todo <= refs == Unfinished(before) && Valid()
        invariant records == StoppedAll(before, refs - todo)
        decreases todo
      {
        var id :| id in todo;
        StoppedOne(before, refs - todo, id);
        var _ := StopTask(id, records[id].parent);
        assert refs - (todo - {id}) == (refs - todo) + {id};
        todo := todo - {id};
      }
      assert refs - todo == refs;
    }

    /** A worker reports its outcome; a stopped or interrupted task keeps its status. */
    method Finish(id: Name, outcome: Status)
      requires Valid()
      modifies this`records
      ensures Valid()
      ensures records == if id in old(records) && old(records)[id].status !in {Killed, Interrupted}
                         then old(records)[id := old(records)[id].(status := outcome)] else old(records)
    {
      if id !in records || records[id].status == Killed || records[id].status == Interrupted {
        return;
      }
      SetStatus(id, outcome);
    }

    /** A reusable worker that is idle takes another request. */
    method SendMessage(id: Name, scope: Name) returns (sent: bool)
      requires Valid()
      modifies this`records, this`workers
      ensures Valid()
      ensures sent <==> id in old(records) && old(records)[id].parent == scope && id in workerSpecs
                        && old(records)[id].reusable && old(records)[id].status == IdleWorker
      ensures records == if sent then old(records)[id := old(records)[id].(status := Queued)] else old(records)
      ensures workers == if sent then old(workers) + {id} else old(workers)
    {
      if id !in records || records[id].parent != scope || id !in workerSpecs || !records[id].reusable {
        return false;
      }
      if records[id].status != IdleWorker {
        return false;
      }
      workers := workers + {id};
      SetStatus(id, Queued);
      return true;
    }

    /** Discarding an expired record touches only a terminal task without children, so no record
        loses its parent. */
    method DiscardTerminalRecord(id: Name) returns (done: bool)
      requires Valid()
      modifies this
      ensures Valid()
      ensures done <==>
              id !in old(records) || !IsTerminal(old(records)[id].status) || ChildrenOf(old(records), id) == {}
      ensures records == if done && id in old(records) && IsTerminal(old(records)[id].status)
                         then old(records) - {id} else old(records)
      ensures forall x :: x in records && records[x].parent in old(records) ==> records[x].parent in records
      ensures Shrinks() && Forgets(old(records))
    {
      if id !in records || !IsTerminal(records[id].status) {
        return true;
      }
      assert Count(childCounts, id) == |ChildrenOf(records, id)|;
      if id in childCounts && childCounts[id] > 0 {
        return false;
      }
      assert ChildrenOf(records, id) == {};
      forall x | x in records ensures records[x].parent != id {
        assert x !in ChildrenOf(records, id);
      }
      workers, workerSpecs := workers - {id}, workerSpecs - {id};
      var _ := Unregister(id);
      if id != MAIN {
        scopes := scopes - {id};
      }
      return true;
    }

    /** Remove everything below a scope, however the children of a scope are enumerated. On a
        forest this terminates, removes exactly the descendants, leaves all other records as they
        are, and reports exactly how many were removed and how many of them were not terminal. */
    method CleanupScope(scope: Name, ghost depth: Name -> nat, ghost bound: nat) returns (stopped: nat, removed: nat)
      requires Valid() && Forest(records, depth, bound) && depth(scope) <= bound
      modifies this
      ensures Valid() && Forest(records, depth, bound)
      ensures forall id :: id in records <==> id in old(records) && !Below(old(records), depth, bound, scope, id)
      ensures forall id :: id in records ==> records[id] == old(records)[id]
      ensures removed == |old(records)| - |records|
      ensures stopped == |Unfinished(old(records))| - |Unfinished(records)|
      ensures scope !in scopes && Shrinks() && Forgets(old(records))
      decreases bound - depth(scope), 1
    {
      ghost var before := records;
      stopped, removed := 0, 0;
      while true
        invariant Valid() && Removing(before, records, depth, bound, scope)
        invariant removed == |before| - |records|
        invariant stopped == |Unfinished(before)| - |Unfinished(records)|
        invariant Shrinks() && Forgets(before)
        decreases |records|
      {
        var children := ChildrenOf(records, scope);
        if children == {} {
          break;
        }
        var s, r := CleanupChildren(children, scope, depth, bound, before);
        stopped, removed := stopped + s, removed + r;
      }
      AllRemoved(before, records, depth, bound, scope);
      scopes := scopes - {scope};
    }

    /** One pass over the collected children. */
    method CleanupChildren(children: set<Name>, scope: Name, ghost depth: Name -> nat, ghost bound: nat,
        ghost before: Records)
      returns (stopped: nat, removed: nat)
      requires Valid() && Forest(before, depth, bound) && Removing(before, records, depth, bound, scope)
      requires children == ChildrenOf(records, scope) && children != {} && depth(scope) <= bound
      modifies this
      ensures Valid() && Removing(before, records, depth, bound, scope)
      ensures removed == |old(records)| - |records| > 0
      ensures stopped == |Unfinished(old(records))| - |Unfinished(records)|
      ensures Shrinks() && Forgets(old(records))
      decreases bound - depth(scope), 0
    {
      stopped, removed := 0, 0;
      var todo := children;
      ghost var start := records;
      while todo != {}
        invariant Valid() && Removing(before, records, depth, bound, scope)
        invariant todo <= ChildrenOf(records, scope)
        invariant removed == |start| - |records| && stopped == |Unfinished(start)| - |Unfinished(records)|
        invariant todo == children || removed > 0
        invariant Shrinks() && Forgets(start)
        decreases |todo|
      {
        var child :| child in todo;
        var s, r := CleanupChild(child, scope, depth, bound, before);
        stopped, removed := stopped + s, removed + r;
        todo := todo - {child};
      }
    }

    /** Stop one child, clean up below it, and remove it. */
    method CleanupChild(child: Name, scope: Name, ghost depth: Name -> nat, ghost bound: nat, ghost before: Records)
      returns (stopped: nat, removed: nat)
      requires Valid() && Forest(before, depth, bound) && Removing(before, records, depth, bound, scope)
      requires child in records && records[child].parent == scope && depth(scope) < depth(child) <= bound
      modifies this
      ensures Valid() && Removing(before, records, depth, bound, scope)
      ensures ChildrenOf(records, scope) == ChildrenOf(old(records), scope) - {child}
      ensures removed == |old(records)| - |records| > 0
      ensures stopped == |Unfinished(old(records))| - |Unfinished(records)|
      ensures Shrinks() && Forgets(old(records))
      decreases bound - depth(child), 2
    {
      hide Exact, Forest, Removing, Marks, Unfinished, ChildrenOf, Below, CleanedBelow, Forgotten, Pruned, IsTerminal;
      ghost var start := records;
      stopped := MarkStopped(child);
      ghost var marked := records;
      MarkedForest(before, start, marked, child, depth, bound, scope);
      var s, r := CleanupScope(child, depth, bound);
      ghost var below := records;
      CleanedKeepsChild(marked, below, child, depth, bound);
      ForgottenChild(start, marked, below, child, workers, workerSpecs, scopes);
      Drop(child);
      ChildRemoved(before, start, marked, below, child, depth, bound, scope);
      stopped, removed := stopped + s, r + 1;
    }

    /** Forget a child altogether. */
    method Drop(child: Name)
      requires Valid()
      modifies this
      ensures Valid() && records == old(records) - {child}
      ensures workers == old(workers) - {child} && workerSpecs == old(workerSpecs) - {child}
          && scopes == old(scopes) - {child}
    {
      workers, workerSpecs := workers - {child}, workerSpecs - {child};
      var _ := Unregister(child);
      scopes := scopes - {child};
    }

    /** Stop a child that is still live, and count it. */
    method MarkStopped(child: Name) returns (stopped: nat)
      requires Valid() && child in records
      modifies this`records, this`workerSpecs
      ensures Valid() && Marks(old(records), records, child) && workerSpecs <= old(workerSpecs)
      ensures stopped == |Unfinished(old(records))| - |Unfinished(records)|
    {
      stopped := 0;
      if !IsTerminal(records[child].status) {
        stopped := 1;
        StoppingCounts(records, child);
        var _ := StopTask(child, records[child].parent);
      }
    }
  }

  function StoppedAll(rs: Records, ids: set<Name>): (r: Records) {
    map id | id in rs :: if id in ids then rs[id].(status := Killed) else rs[id]
  }

  lemma StoppedNone(rs: Records)
    ensures StoppedAll(rs, {}) == rs
  {
  }

  lemma StoppedOne(rs: Records, ids: set<Name>, id: Name)
    requires id in rs && id !in ids && !IsTerminal(rs[id].status)
    ensures var now := StoppedAll(rs, ids);
            id in now && now[id] == rs[id] && StoppedAll(rs, ids + {id}) == now[id := now[id].(status := Killed)]
  {
  }

  ghost predicate Forgotten(before: Records, now: Records, workers: set<Name>, specs: set<Name>, scopes: set<Name>) {
    forall id :: id in before && id !in now ==> id !in workers && id !in specs && (id != MAIN ==> id !in scopes)
  }

  lemma ForgottenChild(start: Records, marked: Records, below: Records, child: Name,
                       workers: set<Name>, specs: set<Name>, scopes: set<Name>)
    requires Marks(start, marked, child) && Forgotten(marked, below, workers, specs, scopes)
    ensures Forgotten(start, below - {child}, workers - {child}, specs - {child}, scopes - {child})
  {
  }

  /** Part of what lies below `scope` has been removed from `before`, and nothing else changed. */
  ghost predicate Removing(before: Records, now: Records, depth: Name -> nat, bound: nat, scope: Name)
    requires Forest(before, depth, bound)
  {
    && Pruned(before, now) && Forest(now, depth, bound)
    && (forall id :: id in now ==> now[id] == before[id])
    && (forall id :: id in before && id !in now ==> Below(before, depth, bound, scope, id))
  }

  lemma AllRemoved(before: Records, now: Records, depth: Name -> nat, bound: nat, scope: Name)
    requires Forest(before, depth, bound) && Removing(before, now, depth, bound, scope) && ChildrenOf(now, scope) == {}
    ensures forall id :: id in now <==> id in before && !Below(before, depth, bound, scope, id)
  {
    forall id | id in now ensures !Below(before, depth, bound, scope, id) {
      PruningKeepsBelow(before, now, depth, bound, scope, id);
      NoChildrenNothingBelow(now, depth, bound, scope, id);
    }
  }

  lemma StoppingCounts(rs: Records, id: Name)
    requires id in rs && !IsTerminal(rs[id].status)
    ensures |Unfinished(rs)| == |Unfinished(rs[id := rs[id].(status := Killed)])| + 1
    ensures |rs[id := rs[id].(status := Killed)]| == |rs|
  {
    var now := rs[id := rs[id].(status := Killed)];
    assert Unfinished(rs) == Unfinished(now) + {id};
    assert now.Keys == rs.Keys;
  }

  /** `marked` is `start` with a terminal status for `child`. */
  ghost predicate Marks(start: Records, marked: Records, child: Name) {
    && child in start && child in marked && marked[child].parent == start[child].parent
    && IsTerminal(marked[child].status) && marked == start[child := marked[child]]
  }

  lemma MarkedForest(before: Records, start: Records, marked: Records, child: Name, depth: Name -> nat, bound: nat,
      scope: Name)
    requires Forest(before, depth, bound) && Removing(before, start, depth, bound, scope) && Marks(start, marked, child)
    ensures Forest(marked, depth, bound) && Pruned(before, marked) && |marked| == |start|
  {
    assert marked.Keys == start.Keys;
  }

  /** `below` is `marked` without what lies below `child`. */
  ghost predicate CleanedBelow(marked: Records, below: Records, child: Name, depth: Name -> nat, bound: nat)
    requires Forest(marked, depth, bound)
  {
    && (forall id :: id in below <==> id in marked && !Below(marked, depth, bound, child, id))
    && (forall id :: id in below ==> below[id] == marked[id])
  }

  lemma CleanedKeepsChild(marked: Records, below: Records, child: Name, depth: Name -> nat, bound: nat)
    requires Forest(marked, depth, bound) && child in marked
    requires forall id :: id in below <==> id in marked && !Below(marked, depth, bound, child, id)
    requires forall id :: id in below ==> below[id] == marked[id]
    ensures child in below && CleanedBelow(marked, below, child, depth, bound)
  {
    if Below(marked, depth, bound, child, child) {
      BelowIsDeeper(marked, depth, bound, child, child);
    }
  }

  lemma ChildRemoved(before: Records, start: Records, marked: Records, below: Records, child: Name,
                     depth: Name -> nat, bound: nat, scope: Name)
    requires Forest(before, depth, bound) && Removing(before, start, depth, bound, scope) && Marks(start, marked, child)
    requires start[child].parent == scope && Forest(marked, depth, bound) && child in below
    requires CleanedBelow(marked, below, child, depth, bound)
    ensures Removing(before, below - {child}, depth, bound, scope)
    ensures ChildrenOf(below - {child}, scope) == ChildrenOf(start, scope) - {child}
    ensures |below| == |below - {child}| + 1 && |Unfinished(below - {child})| == |Unfinished(below)|
  {
    var now := below - {child};
    MarkedForest(before, start, marked, child, depth, bound, scope);
    assert below.Keys == now.Keys + {child};
    assert Unfinished(now) == Unfinished(below);
    forall id | id in now
      ensures id in before && now[id] == before[id]
      ensures before[id].parent in before ==> before[id].parent in now
    {
      RemainingKeepsParent(before, start, marked, below, child, depth, bound, scope, id);
    }
    forall id | id in before && id !in now ensures Below(before, depth, bound, scope, id) {
      if id in start && id != child {
        PruningKeepsBelow(before, marked, depth, bound, child, id);
        BelowChild(before, depth, bound, scope, child, id);
      }
    }
    SiblingsStay(start, marked, below, child, depth, bound, scope);
  }

  lemma SiblingsStay(start: Records, marked: Records, below: Records, child: Name, depth: Name -> nat, bound: nat,
      scope: Name)
    requires Forest(marked, depth, bound) && Marks(start, marked, child) && start[child].parent == scope
    requires CleanedBelow(marked, below, child, depth, bound)
    ensures ChildrenOf(below - {child}, scope) == ChildrenOf(start, scope) - {child}
  {
    forall id ensures id in ChildrenOf(below - {child}, scope) <==> id in ChildrenOf(start, scope) - {child} {
      if id in start && start[id].parent == scope {
        SiblingsAreApart(marked, depth, bound, scope, child, id);
      }
    }
  }

  lemma RemainingKeepsParent(before: Records, start: Records, marked: Records, below: Records, child: Name,
                             depth: Name -> nat, bound: nat, scope: Name, id: Name)
    requires Forest(before, depth, bound) && Removing(before, start, depth, bound, scope) && Marks(start, marked, child)
    requires Forest(marked, depth, bound) && CleanedBelow(marked, below, child, depth, bound) && id in below
        && id != child
    ensures id in before && below[id] == before[id]
    ensures before[id].parent in before ==> before[id].parent in below && before[id].parent != child
  {
    assert marked[id] == start[id] == before[id];
  }
}
