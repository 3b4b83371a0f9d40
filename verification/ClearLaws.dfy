/** The clear barrier, over every interleaving of the protocol. */
module ClearLaws {
  import opened Prelude
  import opened ClearProtocol

  /** Nothing below the bar can be writing any more. */
  function Bar(s: State): (n: int) {
    if s.aborting.Some? then s.epoch - 1 else s.epoch
  }

  /** Children write only under the newest lease or while the running clear still waits for them,
      and every unexpired child can be reached through the registry. */
  predicate ChildInv(s: State) {
    && (forall c :: c in s.children ==> s.children[c].epoch <= s.epoch)
    && (forall c :: c in s.children && s.children[c].writing ==> s.children[c].epoch == Bar(s))
    && (s.aborting == None ==> forall c :: c in s.children && !Expired(s, s.children[c]) ==> c in s.agents.Values)
    && (s.aborting == None ==> forall a :: a in s.agents ==>
          s.agents[a] in s.children && !Expired(s, s.children[s.agents[a]]))
    && (s.aborting.Some? ==> forall c :: c in s.children ==>
          Expired(s, s.children[c]) && (s.children[c].writing ==> c in s.aborting.value))
  }

  /** A worker that is still around belongs to a live or a stopped task. */
  predicate WorkerInv(t: Task) {
    && (t.worker == Serving ==> t.status in {Running, Killed, Interrupted})
    && (t.worker == Spawned ==> t.status in {Queued, Killed, Interrupted})
    && (t.foreground ==> t.worker == NoWorker)
    && (t.status == IdleWorker ==> t.worker == NoWorker && !t.foreground)
  }

  predicate TaskInv(s: State) {
    && (forall t :: t in s.tasks ==> WorkerInv(s.tasks[t]) && s.tasks[t].epoch <= s.epoch)
    && (forall t :: t in s.tasks && s.tasks[t].epoch < s.floor ==> IsTerminal(s.tasks[t].status))
  }

  /** What each clear has achieved so far. */
  predicate ClearInv(s: State) {
    && s.floor <= Bar(s)
    && (forall k :: k in s.clears ==> s.clears[k].epoch <= Bar(s))
    && (forall k :: k in s.clears && s.clears[k].Stopped? ==> s.clears[k].epoch <= s.floor)
    && (forall k, t :: k in s.clears && s.clears[k].Stopping? && t in s.tasks ==>
          s.tasks[t].epoch < s.clears[k].epoch ==> IsTerminal(s.tasks[t].status) || t in s.clears[k].refs)
  }

  /** Every event but the status of a foreground task, whose end is not bound to any lease. */
  predicate Guarded(e: Event) {
    e.ChildEvent? || e.TaskCreated? || (e.TaskStatus? && !e.foreground)
  }

  /** A guarded event on its way to the journal is newer than everything already stopped. */
  predicate EmitInv(s: State) {
    s.emitting.Some? ==>
      !s.emitting.value.SessionReset? && (Guarded(s.emitting.value) ==> s.floor <= s.emitting.value.epoch)
  }

  /** After the reset of an epoch the journal holds no event of an older child, no creation of an
      older task and no status of an older background task. */
  predicate Barrier(journal: seq<Event>) {
    forall i, j :: 0 <= i < j < |journal| && journal[i].SessionReset? && Guarded(journal[j]) ==>
      journal[i].epoch <= journal[j].epoch
  }

  predicate JournalInv(s: State) {
    && Barrier(s.journal)
    && (forall i :: 0 <= i < |s.journal| && s.journal[i].SessionReset? ==> s.journal[i].epoch <= s.floor)
  }

  predicate Inv(s: State) {
    ChildInv(s) && TaskInv(s) && ClearInv(s) && EmitInv(s) && JournalInv(s)
  }

  predicate RegisterTakes(s: State, lease: nat, child: Name) {
    LeaseIsCurrent(s, lease) && (child in s.children ==> !Expired(s, s.children[child]))
  }

  /** Registering drops another runtime from the registry: its only agent id is taken over. */
  predicate Displaces(s: State, e: Step) {
    && e.Register? && RegisterTakes(s, e.lease, e.child)
    && e.agent in s.agents && s.agents[e.agent] != e.child
    && forall a :: a in s.agents && s.agents[a] == s.agents[e.agent] ==> a == e.agent
  }

  lemma {:induction false} StepKeepsChildren(s: State, e: Step)
    requires ChildInv(s) && Enabled(s, e) && !Displaces(s, e)
    ensures ChildInv(Apply(s, e))
  {
    if e.Register? {
      RegisterKeepsReach(s, e);
    } else if e.BeginWrite? || e.EndWrite? {
      WriteKeepsChildren(s, e);
    } else if e.ClearSession? || e.AbortChild? || e.SessionRetired? {
      ClearKeepsChildren(s, e);
    } else {
      OthersLeaveChildren(s, e);
    }
  }

  lemma {:induction false} WriteKeepsChildren(s: State, e: Step)
    requires ChildInv(s) && Enabled(s, e) && (e.BeginWrite? || e.EndWrite?)
    ensures ChildInv(Apply(s, e))
  {
  }

  lemma {:induction false} ClearKeepsChildren(s: State, e: Step)
    requires ChildInv(s) && Enabled(s, e) && (e.ClearSession? || e.AbortChild? || e.SessionRetired?)
    ensures ChildInv(Apply(s, e))
  {
  }

  lemma {:induction false} OthersLeaveChildren(s: State, e: Step)
    requires Enabled(s, e) && !e.Register? && !e.BeginWrite? && !e.EndWrite?
    requires !e.ClearSession? && !e.AbortChild? && !e.SessionRetired?
    ensures var r := Apply(s, e);
            r.children == s.children && r.agents == s.agents && r.epoch == s.epoch && r.aborting == s.aborting
  {
  }

  lemma {:induction false} RegisterKeepsReach(s: State, e: Step)
    requires ChildInv(s) && Enabled(s, e) && !Displaces(s, e) && e.Register?
    ensures ChildInv(Apply(s, e))
  {
    var r := Apply(s, e);
    if r == s {
      return;
    }
    forall c | c in r.children && !Expired(r, r.children[c]) ensures c in r.agents.Values {
      if c == e.child {
        assert r.agents[e.agent] == c;
      } else {
        var a :| a in s.agents && s.agents[a] == c;
        if a == e.agent {
          a :| a in s.agents && s.agents[a] == c && a != e.agent;
        }
        assert r.agents[a] == c;
      }
    }
  }

  /** A task keeps its epoch, and a terminal status stays terminal. */
  predicate Evolves(a: Task, b: Task) {
    b.epoch == a.epoch && WorkerInv(b) && (IsTerminal(a.status) ==> IsTerminal(b.status))
  }

  lemma {:induction false} TaskStep(s: State, e: Step, t: Name)
    requires Enabled(s, e) && t in Apply(s, e).tasks && (t in s.tasks ==> WorkerInv(s.tasks[t]))
    ensures t in s.tasks ==> Evolves(s.tasks[t], Apply(s, e).tasks[t])
    ensures t !in s.tasks ==>
              s.aborting == None && Apply(s, e).tasks[t].epoch == s.epoch && WorkerInv(Apply(s, e).tasks[t])
  {
  }

  lemma {:induction false} FrameStep(s: State, e: Step)
    requires Enabled(s, e)
    ensures var r := Apply(s, e);
            && Bar(s) <= Bar(r) && s.epoch <= r.epoch && s.floor <= r.floor
            && (r.floor != s.floor ==> e.ShutdownDone? && r.floor == s.clears[e.clear].epoch && r.tasks == s.tasks)
  {
  }

  lemma {:induction false} StepKeepsTasks(s: State, e: Step)
    requires TaskInv(s) && ClearInv(s) && Enabled(s, e)
    ensures TaskInv(Apply(s, e))
  {
    var r := Apply(s, e);
    hide Apply, Enabled, Evolves, WorkerInv;
    FrameStep(s, e);
    forall t | t in r.tasks
      ensures WorkerInv(r.tasks[t]) && r.tasks[t].epoch <= r.epoch
      ensures r.tasks[t].epoch < r.floor ==> IsTerminal(r.tasks[t].status)
    {
      OneTaskSettles(s, e, t);
    }
  }

  lemma {:induction false} OneTaskSettles(s: State, e: Step, t: Name)
    requires TaskInv(s) && ClearInv(s) && Enabled(s, e) && t in Apply(s, e).tasks
    ensures var r := Apply(s, e);
            && WorkerInv(r.tasks[t]) && r.tasks[t].epoch <= r.epoch
            && (r.tasks[t].epoch < r.floor ==> IsTerminal(r.tasks[t].status))
  {
    FrameStep(s, e);
    TaskStep(s, e, t);
    var r := Apply(s, e);
    if e.ShutdownDone? {
      assert s.clears[e.clear].Stopping? && s.clears[e.clear].refs == {};
    }
    hide Apply, Enabled, WorkerInv, IsTerminal;
  }

  /** Where the progress records of a step come from. */
  lemma {:induction false} ClearStep(s: State, e: Step, k: Name)
    requires Enabled(s, e) && k in Apply(s, e).clears
    ensures var r := Apply(s, e); var c := r.clears[k];
            || (k in s.clears && c == s.clears[k])
            || (e.SessionRetired? && c == Retired(s.epoch))
            || (k in s.clears && c.epoch == s.clears[k].epoch
                && ((e.CollectTasks? && r.tasks == s.tasks
                     && c == Stopping(c.epoch, set t | t in s.tasks && !IsTerminal(s.tasks[t].status)))
                    || (e.StopCollected? && s.clears[k].Stopping?
                        && c == Stopping(c.epoch, s.clears[k].refs - {e.task}))
                    || (e.ShutdownDone? && c.Stopped? && c.epoch <= r.floor)))
  {
  }

  lemma {:induction false} StoppedTask(s: State, e: Step)
    requires Enabled(s, e) && e.StopCollected?
    ensures e.task in Apply(s, e).tasks ==> IsTerminal(Apply(s, e).tasks[e.task].status)
  {
  }

  lemma {:induction false} StepKeepsClears(s: State, e: Step)
    requires TaskInv(s) && ClearInv(s) && Enabled(s, e)
    ensures ClearInv(Apply(s, e))
  {
    var r := Apply(s, e);
    assert r.floor <= Bar(r) by {
      FrameStep(s, e);
      hide Apply;
    }
    hide Apply, IsTerminal;
    forall k | k in r.clears
      ensures r.clears[k].epoch <= Bar(r) && (r.clears[k].Stopped? ==> r.clears[k].epoch <= r.floor)
    {
      OneClearBound(s, e, k);
    }
    forall k, t | k in r.clears && r.clears[k].Stopping? && t in r.tasks && r.tasks[t].epoch < r.clears[k].epoch
      ensures IsTerminal(r.tasks[t].status) || t in r.clears[k].refs
    {
      OneClearCollects(s, e, k, t);
    }
  }

  lemma {:induction false} OneClearBound(s: State, e: Step, k: Name)
    requires ClearInv(s) && Enabled(s, e) && k in Apply(s, e).clears
    ensures var r := Apply(s, e);
            r.clears[k].epoch <= Bar(r) && (r.clears[k].Stopped? ==> r.clears[k].epoch <= r.floor)
  {
    ClearStep(s, e, k);
    FrameStep(s, e);
    assert e.SessionRetired? ==> Bar(Apply(s, e)) == s.epoch;
    hide Apply;
  }

  lemma {:induction false} OneClearCollects(s: State, e: Step, k: Name, t: Name)
    requires TaskInv(s) && ClearInv(s) && Enabled(s, e) && k in Apply(s, e).clears && t in Apply(s, e).tasks
    requires var r := Apply(s, e); r.clears[k].Stopping? && r.tasks[t].epoch < r.clears[k].epoch
    ensures var r := Apply(s, e); IsTerminal(r.tasks[t].status) || t in r.clears[k].refs
  {
    ClearStep(s, e, k);
    TaskStep(s, e, t);
    FrameStep(s, e);
    if e.StopCollected? {
      StoppedTask(s, e);
    }
    hide Apply, Enabled, WorkerInv, IsTerminal;
  }

  lemma {:induction false} StepKeepsEmitting(s: State, e: Step)
    requires EmitInv(s) && ClearInv(s) && TaskInv(s) && Enabled(s, e)
    ensures EmitInv(Apply(s, e))
  {
  }

  /** A step leaves the journal alone, appends an event that is not guarded or of an epoch that is
      still open, or appends the reset of an epoch whose predecessors are settled. */
  lemma {:induction false} JournalStep(s: State, e: Step)
    requires ChildInv(s) && ClearInv(s) && EmitInv(s) && Enabled(s, e)
    ensures var r := Apply(s, e);
            || r.journal == s.journal
            || (exists x :: r.journal == s.journal + [x] && r.floor == s.floor
                            && (x.SessionReset? ==> x.epoch <= s.floor) && (Guarded(x) ==> s.floor <= x.epoch))
  {
    if e.Append? {
      assert Apply(s, e).journal == s.journal + [ChildEvent(e.child, s.children[e.child].epoch)];
    } else if e.Emit? {
      if e.stored {
        assert Apply(s, e).journal == s.journal + [s.emitting.value];
      }
    } else if e.WriteReset? && e.stored {
      assert Apply(s, e).journal == s.journal + [SessionReset(s.clears[e.clear].epoch)];
    }
  }

  lemma {:induction false} StepKeepsJournal(s: State, e: Step)
    requires Inv(s) && Enabled(s, e)
    ensures JournalInv(Apply(s, e))
  {
    JournalStep(s, e);
    FrameStep(s, e);
    hide Apply, Enabled, ChildInv, ClearInv, EmitInv, TaskInv;
  }

  lemma {:induction false} StepKeepsInv(s: State, e: Step)
    requires Inv(s) && Enabled(s, e) && !Displaces(s, e)
    ensures Inv(Apply(s, e))
  {
    StepKeepsChildren(s, e);
    StepKeepsTasks(s, e);
    StepKeepsClears(s, e);
    StepKeepsEmitting(s, e);
    StepKeepsJournal(s, e);
  }

  // ----- Runs -----

  predicate Legal(s: State, steps: seq<Step>)
    decreases |steps|
  {
    steps == [] || (Enabled(s, steps[0]) && Legal(Apply(s, steps[0]), steps[1..]))
  }

  function Execute(s: State, steps: seq<Step>): (r: State)
    requires Legal(s, steps)
    decreases |steps|
  {
    if steps == [] then s else Execute(Apply(s, steps[0]), steps[1..])
  }

  predicate Undisplaced(s: State, steps: seq<Step>)
    requires Legal(s, steps)
    decreases |steps|
  {
    steps == [] || (!Displaces(s, steps[0]) && Undisplaced(Apply(s, steps[0]), steps[1..]))
  }

  function Initial(): (s: State) {
    State(1, map[], map[], map[], None, None, map[], 1, None, 1, [])
  }

  lemma {:induction false} RunKeepsInv(s: State, steps: seq<Step>)
    requires Inv(s) && Legal(s, steps) && Undisplaced(s, steps)
    ensures Inv(Execute(s, steps))
    decreases |steps|
  {
    hide Apply, Inv, Enabled;
    if steps != [] {
      StepKeepsInv(s, steps[0]);
      RunKeepsInv(Apply(s, steps[0]), steps[1..]);
    }
  }

  lemma InitialInv()
    ensures Inv(Initial())
  {
  }

  /** Clear is a barrier: as long as no runtime takes over the agent id of another one, in every run,
      once the reset of an epoch is in the journal no event of an older child, creation of an older
      task or status of an older background task follows it; and from the moment a shutdown
      returns, every task of an older lease is terminal or gone. */
  lemma ClearIsABarrier(steps: seq<Step>)
    requires Legal(Initial(), steps) && Undisplaced(Initial(), steps)
    ensures var s := Execute(Initial(), steps);
            && Barrier(s.journal)
            && (forall k, t :: (k in s.clears && s.clears[k].Stopped? && t in s.tasks
                                && s.tasks[t].epoch < s.clears[k].epoch) ==> IsTerminal(s.tasks[t].status))
            && (forall i, t :: (0 <= i < |s.journal| && s.journal[i].SessionReset? && t in s.tasks
                                && s.tasks[t].epoch < s.journal[i].epoch) ==> IsTerminal(s.tasks[t].status))
  {
    InitialInv();
    RunKeepsInv(Initial(), steps);
  }

  lemma {:induction false} EpochsGrow(s: State, steps: seq<Step>)
    requires Legal(s, steps)
    ensures s.epoch <= Execute(s, steps).epoch
    decreases |steps|
  {
    hide Apply, Enabled;
    if steps != [] {
      FrameStep(s, steps[0]);
      EpochsGrow(Apply(s, steps[0]), steps[1..]);
    }
  }

  /** A lease taken before a clear registers and admits nothing afterwards, in any later state. */
  lemma OldLeaseIsDead(s: State, steps: seq<Step>, lease: nat, agent: Name, child: Name, task: Name, foreground: bool)
    requires Legal(s, steps) && lease < s.epoch
    ensures var r := Execute(s, steps);
            && (Enabled(r, Register(lease, agent, child)) ==> Apply(r, Register(lease, agent, child)) == r)
            && (Enabled(r, Admit(lease, task, foreground)) ==> Apply(r, Admit(lease, task, foreground)) == r)
  {
    EpochsGrow(s, steps);
  }

  // ----- Recovery -----

  /** Position of the last reset, or -1. */
  function LastReset(journal: seq<Event>): (n: int)
    ensures -1 <= n < |journal|
    ensures n >= 0 ==> journal[n].SessionReset?
    ensures forall i :: n < i < |journal| ==> !journal[i].SessionReset?
  {
    if journal == [] then -1
    else if journal[|journal| - 1].SessionReset? then |journal| - 1
    else LastReset(journal[..|journal| - 1])
  }

  /** A child is recovered when it has events and none of them precedes the last reset. */
  predicate Recovered(journal: seq<Event>, child: Name) {
    && (exists i :: 0 <= i < |journal| && IsOf(journal[i], child))
    && (forall i :: 0 <= i < |journal| && IsOf(journal[i], child) ==> LastReset(journal) < i)
  }

  predicate IsOf(e: Event, child: Name) {
    e.ChildEvent? && e.child == child
  }

  /** The scan of a restart: births of the children, and the last reset. */
  method RestoreChildren(journal: seq<Event>) returns (recovered: set<Name>)
    ensures forall c :: c in recovered <==> Recovered(journal, c)
  {
    var births: map<Name, nat> := map[];
    var lastReset := -1;
    for k := 0 to |journal|
      invariant lastReset == LastReset(journal[..k])
      invariant forall c :: c in births ==> births[c] < k && IsOf(journal[births[c]], c)
      invariant forall i :: 0 <= i < k && journal[i].ChildEvent? ==>
          journal[i].child in births && births[journal[i].child] <= i
    {
      var event := journal[k];
      if event.ChildEvent? && event.child !in births {
        births := births[event.child := k];
      }
      if event.SessionReset? {
        lastReset := k;
      }
      assert journal[..k + 1][..k] == journal[..k];
    }
    assert journal[..|journal|] == journal;
    recovered := set c | c in births && lastReset < births[c];
  }

  /** No recovered child stems from before the last clear: all its events carry the epoch of that
      clear or a later one. */
  lemma RecoveredChildrenAreNew(steps: seq<Step>, child: Name, i: nat)
    requires Legal(Initial(), steps) && Undisplaced(Initial(), steps)
    requires var j := Execute(Initial(), steps).journal;
             Recovered(j, child) && i < |j| && IsOf(j[i], child) && LastReset(j) >= 0
    ensures var j := Execute(Initial(), steps).journal; j[LastReset(j)].epoch <= j[i].epoch
  {
    ClearIsABarrier(steps);
    var j := Execute(Initial(), steps).journal;
    assert LastReset(j) < i;
  }

  // ----- Composing runs -----

  lemma {:induction false} OneStep(s: State, steps: seq<Step>)
    requires steps != [] && Enabled(s, steps[0])
    ensures Legal(s, steps) <==> Legal(Apply(s, steps[0]), steps[1..])
    ensures Legal(s, steps) ==> Execute(s, steps) == Execute(Apply(s, steps[0]), steps[1..])
  {
    hide Apply, Enabled;
  }

  lemma {:induction false} ExecuteConcat(s: State, a: seq<Step>, b: seq<Step>)
    requires Legal(s, a) && Legal(Execute(s, a), b)
    ensures Legal(s, a + b) && Execute(s, a + b) == Execute(Execute(s, a), b)
    decreases |a|
  {
    hide Apply, Enabled;
    if a == [] {
      assert a + b == b;
    } else {
      assert (a + b)[0] == a[0] && (a + b)[1..] == a[1..] + b;
      ExecuteConcat(Apply(s, a[0]), a[1..], b);
    }
  }
}
