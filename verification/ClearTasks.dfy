/** Tasks and the recorder along every run of the clear protocol (agent/task_runtime.go,
    agent/runtime_events.go). */
module ClearTasks {
  import opened Prelude
  import opened ClearProtocol
  import opened ClearLaws

  // ----- A task by itself -----

  /** What becomes of task `id` by one step, whatever else is going on; None once it is removed. */
  function TaskAfter(id: Name, t: Option<Task>, e: Step): (r: Option<Task>) {
    if t == None then None
    else
      var now := t.value;
      match e
      case StartWorker(task) =>
        if task != id then t
        else if now.status == Queued then Some(Task(now.epoch, Running, now.foreground, Serving))
        else Some(now.(worker := NoWorker))
      case FinishWorker(task, outcome) =>
        if task != id then t
        else Some(Task(now.epoch, if now.status in {Killed, Interrupted} then now.status else outcome,
                       now.foreground, NoWorker))
      case FinishForeground(task, outcome) => if task == id then Some(now.(status := outcome)) else t
      case SendMessage(task) => if task == id then Some(Task(now.epoch, Queued, now.foreground, Spawned)) else t
      case ExpireIdle(task) => if task == id then Some(now.(status := CompletedTask)) else t
      case Stop(task) => if task == id then Some(Ended(now)) else t
      case StopCollected(_, task) => if task == id then Some(Ended(now)) else t
      case Remove(task) => if task == id then None else t
      case _ => t
  }

  function Ended(t: Task): (r: Task) {
    if t.status in {CompletedTask, FailedTask, Killed, Interrupted} then t else t.(status := Killed)
  }

  function TaskTold(id: Name, t: Option<Task>, steps: seq<Step>): (r: Option<Task>)
    decreases |steps|
  {
    if steps == [] then t else TaskTold(id, TaskAfter(id, t, steps[0]), steps[1..])
  }

  function Registered(s: State, id: Name): (t: Option<Task>) {
    if id in s.tasks then Some(s.tasks[id]) else None
  }

  predicate Readmits(e: Step, id: Name) {
    e.Admit? && e.task == id
  }

  lemma {:induction false} TaskAloneStep(s: State, e: Step, id: Name)
    requires Enabled(s, e) && !Readmits(e, id)
    ensures Registered(Apply(s, e), id) == TaskAfter(id, Registered(s, id), e)
  {
  }

  /** Clears, children, other tasks and their interleaving make no difference to a task but through its own
      steps: its state is what its own starts, ends, messages and stops make of it, until it is removed. */
  lemma {:induction false} TasksAreAlone(s: State, steps: seq<Step>, id: Name)
    requires Legal(s, steps) && forall i :: 0 <= i < |steps| ==> !Readmits(steps[i], id)
    ensures Registered(Execute(s, steps), id) == TaskTold(id, Registered(s, id), steps)
    decreases |steps|
  {
    hide Apply, Enabled, TaskAfter;
    if steps != [] {
      TaskAloneStep(s, steps[0], id);
      TasksAreAlone(Apply(s, steps[0]), steps[1..], id);
    }
  }

  // ----- The recorder -----

  predicate Resets(e: Step) {
    e.WriteReset? && e.stored
  }

  /** No run has begun yet, or no reset was written since the last one began. */
  predicate Accepts(steps: seq<Step>) {
    if steps == [] then true
    else
      var before, last := steps[..|steps| - 1], steps[|steps| - 1];
      last.BeginRun? || (if Resets(last) then BeginRun !in before else Accepts(before))
  }

  predicate Knows(s: State, done: seq<Step>) {
    && (s.recorder == None <==> BeginRun !in done)
    && (s.recorder.Some? ==> s.recorder.value <= s.generation)
    && (s.recorder == None || s.recorder == Some(s.generation) <==> Accepts(done))
  }

  lemma {:induction false} AcceptsSnoc(done: seq<Step>, e: Step)
    ensures Accepts(done + [e]) <==> e.BeginRun? || (if Resets(e) then BeginRun !in done else Accepts(done))
  {
    assert (done + [e])[..|done|] == done;
  }

  lemma {:induction false} StepKnows(s: State, done: seq<Step>, e: Step)
    requires Enabled(s, e) && Knows(s, done)
    ensures Knows(Apply(s, e), done + [e])
  {
    AcceptsSnoc(done, e);
    hide Accepts;
  }

  lemma {:induction false} RunKnows(s: State, done: seq<Step>, steps: seq<Step>)
    requires Legal(s, steps) && Knows(s, done)
    ensures Knows(Execute(s, steps), done + steps)
    decreases |steps|
  {
    hide Apply, Enabled, Knows;
    if steps == [] {
      assert done + steps == done;
    } else {
      StepKnows(s, done, steps[0]);
      RunKnows(Apply(s, steps[0]), done + [steps[0]], steps[1..]);
      assert done + [steps[0]] + steps[1..] == done + steps;
    }
  }

  /** The step changes the status of this task in a way that is announced. */
  predicate Changes(s: State, e: Step, id: Name) {
    && id in s.tasks
    && match e
       case StartWorker(task) => task == id && s.tasks[id].status == Queued
       case FinishWorker(task, _) => task == id && s.tasks[id].status !in {Killed, Interrupted}
       case FinishForeground(task, _) => task == id
       case ExpireIdle(task) => task == id
       case Stop(task) => task == id && Ended(s.tasks[id]) != s.tasks[id]
       case StopCollected(_, task) => task == id && Ended(s.tasks[id]) != s.tasks[id]
       case _ => false
  }

  /** In every run a change of status is announced exactly if no run has begun yet or no reset was written since
      the last run began, and then with the task's own epoch. */
  lemma {:induction false} AnnouncedExactly(steps: seq<Step>, e: Step, id: Name)
    requires Legal(Initial(), steps) && Enabled(Execute(Initial(), steps), e)
    requires Execute(Initial(), steps).emitting == None
    ensures var s := Execute(Initial(), steps);
            var out := Apply(s, e).emitting;
            && (out.Some? && out.value.TaskStatus? && out.value.task == id <==> Changes(s, e, id) && Accepts(steps))
            && (Changes(s, e, id) && Accepts(steps) ==>
                  out == Some(TaskStatus(id, s.tasks[id].epoch, s.tasks[id].foreground)))
  {
    assert Knows(Initial(), []);
    RunKnows(Initial(), [], steps);
    assert [] + steps == steps;
    hide Legal, Execute, Accepts, Apply, Enabled, Changes;
    AnnounceStep(Execute(Initial(), steps), e, id);
  }

  lemma {:induction false} AnnounceStep(s: State, e: Step, id: Name)
    requires Enabled(s, e) && s.emitting == None
    ensures var out, open := Apply(s, e).emitting, s.recorder == None || s.recorder == Some(s.generation);
            && (out.Some? && out.value.TaskStatus? && out.value.task == id <==> Changes(s, e, id) && open)
            && (Changes(s, e, id) && open ==>
                  out == Some(TaskStatus(id, s.tasks[id].epoch, s.tasks[id].foreground)))
  {
  }
}
