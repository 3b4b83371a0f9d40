/** Clearing a session (agent/loop.go, agent/child_admission.go, agent/runtime_state.go,
    agent/task_runtime.go): child runtimes and tasks hold leases of a session epoch; a clear
    retires the old epoch, waits for the children it can reach, stops the old tasks and only then
    writes the session-reset event. Children, admissions and clears interleave freely. */
module ClearProtocol {
  import opened Prelude

  datatype Status = Queued | Running | IdleWorker | CompletedTask | FailedTask | Killed | Interrupted

  predicate IsTerminal(s: Status) {
    s in {CompletedTask, FailedTask, Killed, Interrupted}
  }

  /** A background worker goroutine serves at most one request at a time. */
  datatype Worker = NoWorker | Spawned | Serving

  datatype Task = Task(epoch: nat, status: Status, foreground: bool, worker: Worker)

  /** A child runtime under its lease; `writing` while inside the critical section of a durable
      write whose lease check has passed. */
  datatype Child = Child(epoch: nat, writing: bool)

  datatype Event =
    | ChildEvent(child: Name, epoch: nat)
    | TaskCreated(task: Name, epoch: nat)
    | TaskStatus(task: Name, epoch: nat, foreground: bool)
    | SessionReset(epoch: nat)

  /** Progress of one clear after its session part. */
  datatype Clear = Retired(epoch: nat) | Stopping(epoch: nat, refs: set<Name>) | Stopped(epoch: nat)

  /** `aborting` holds the runtimes still to be waited for while a clear holds the session lock.
      `emitting` is a task event on its way to the journal, under the lock of the task registry.
      `generation` is that of the published state, `recorder` the one the recorder began its last
      run under. `floor` is the newest epoch whose predecessors have all been retired and stopped. */
  datatype State = State(
    epoch: nat,
    agents: map<Name, Name>,
    children: map<Name, Child>,
    tasks: map<Name, Task>,
    emitting: Option<Event>,
    aborting: Option<set<Name>>,
    clears: map<Name, Clear>,
    generation: nat,
    recorder: Option<nat>,
    floor: nat,
    journal: seq<Event>)

  datatype Step =
    | Register(lease: nat, agent: Name, child: Name)
    | BeginWrite(child: Name)
    | Append(child: Name)
    | EndWrite(child: Name)
    | Admit(lease: nat, task: Name, foreground: bool)
    | Emit(stored: bool)
    | BeginRun
    | StartWorker(task: Name)
    | FinishWorker(task: Name, outcome: Status)
    | FinishForeground(task: Name, outcome: Status)
    | SendMessage(task: Name)
    | ExpireIdle(task: Name)
    | Stop(task: Name)
    | Remove(task: Name)
    | ClearSession
    | AbortChild(child: Name)
    | SessionRetired(clear: Name)
    | CollectTasks(clear: Name)
    | StopCollected(clear: Name, task: Name)
    | ShutdownDone(clear: Name)
    | WriteReset(clear: Name, stored: bool)

  // ----- Steps -----

  predicate LeaseIsCurrent(s: State, lease: nat) {
    lease == s.epoch
  }

  /** A runtime's session context is cancelled as soon as its epoch is left. */
  predicate Expired(s: State, c: Child) {
    c.epoch < s.epoch
  }

  function RegisterChild(s: State, lease: nat, agent: Name, child: Name): (r: State) {
    if !LeaseIsCurrent(s, lease) || (child in s.children && Expired(s, s.children[child])) then s
    else s.(children := s.children[child := Child(lease, false)], agents := s.agents[agent := child])
  }

  function StatusAfterStop(t: Task): (r: Task) {
    if IsTerminal(t.status) then t else t.(status := Killed)
  }

  /** The recorder takes events until its generation is left, and again from the next run on. */
  predicate Fence(s: State) {
    s.recorder == None || s.recorder == Some(s.generation)
  }

  /** Put a task into the registry; a change of its status is announced if the fence lets it pass. */
  function Update(s: State, task: Name, t: Task, announced: bool): (r: State) {
    s.(tasks := s.tasks[task := t],
       emitting := if announced && Fence(s) then Some(TaskStatus(task, t.epoch, t.foreground)) else s.emitting)
  }

  function StopTask(s: State, task: Name): (r: State) {
    if task !in s.tasks then s
    else Update(s, task, StatusAfterStop(s.tasks[task]), !IsTerminal(s.tasks[task].status))
  }

  /** The worker takes up its request, unless it was stopped meanwhile. */
  function Started(t: Task): (r: Task) {
    if t.status == Queued then t.(status := Running, worker := Serving) else t.(worker := NoWorker)
  }

  /** The worker is done; a stopped or interrupted task keeps its status. */
  function Finished(t: Task, outcome: Status): (r: Task) {
    if t.status == Killed || t.status == Interrupted then t.(worker := NoWorker)
    else t.(status := outcome, worker := NoWorker)
  }

  /** Which steps the locks and the program order allow. */
  predicate Enabled(s: State, e: Step) {
    match e
    case Register(lease, _, child) =>
      s.aborting == None && lease <= s.epoch && (child in s.children ==> !s.children[child].writing)
    case BeginWrite(child) => child in s.children && !s.children[child].writing
    case Append(child) => child in s.children && s.children[child].writing
    case EndWrite(child) => child in s.children && s.children[child].writing
    case Admit(lease, task, _) => s.aborting == None && s.emitting == None && lease <= s.epoch && task !in s.tasks
    case Emit(_) => s.emitting.Some?
    case BeginRun => true
    case StartWorker(task) => s.emitting == None && task in s.tasks && s.tasks[task].worker == Spawned
    case FinishWorker(task, outcome) =>
      s.emitting == None && task in s.tasks && s.tasks[task].worker == Serving
      && outcome in {CompletedTask, FailedTask, Interrupted, IdleWorker}
    case FinishForeground(task, outcome) =>
      s.emitting == None && task in s.tasks && s.tasks[task].foreground && outcome in {CompletedTask, FailedTask}
    case SendMessage(task) =>
      s.emitting == None && task in s.tasks && s.tasks[task].status == IdleWorker
    case ExpireIdle(task) => s.emitting == None && task in s.tasks && s.tasks[task].status == IdleWorker
    case Stop(_) => s.emitting == None
    case Remove(task) => s.emitting == None && task in s.tasks
    case ClearSession => s.aborting == None
    case AbortChild(child) => s.aborting.Some? && (child in s.children ==> !s.children[child].writing)
    case SessionRetired(clear) => s.aborting == Some({}) && clear !in s.clears
    case CollectTasks(clear) => s.emitting == None && clear in s.clears && s.clears[clear].Retired?
    case StopCollected(clear, task) =>
      s.emitting == None && clear in s.clears && s.clears[clear].Stopping? && task in s.clears[clear].refs
    case ShutdownDone(clear) =>
      s.emitting == None && clear in s.clears && s.clears[clear].Stopping? && s.clears[clear].refs == {}
    case WriteReset(clear, _) => clear in s.clears && s.clears[clear].Stopped?
  }

  function Apply(s: State, e: Step): (r: State)
    requires Enabled(s, e)
  {
    match e
    case Register(lease, agent, child) => RegisterChild(s, lease, agent, child)
    case BeginWrite(child) =>
      if Expired(s, s.children[child]) then s
      else s.(children := s.children[child := s.children[child].(writing := true)])
    case Append(child) => s.(journal := s.journal + [ChildEvent(child, s.children[child].epoch)])
    case EndWrite(child) => s.(children := s.children[child := s.children[child].(writing := false)])
    case Admit(lease, task, foreground) =>
      if !LeaseIsCurrent(s, lease) then s
      else s.(tasks := s.tasks[task := Task(lease, if foreground then Running else Queued, foreground,
                                            if foreground then NoWorker else Spawned)],
              emitting := Some(TaskCreated(task, lease)))
    case Emit(stored) =>
      s.(journal := s.journal + if stored then [s.emitting.value] else [], emitting := None)
    case BeginRun => s.(recorder := Some(s.generation))
    case StartWorker(task) => Update(s, task, Started(s.tasks[task]), s.tasks[task].status == Queued)
    case FinishWorker(task, outcome) =>
      Update(s, task, Finished(s.tasks[task], outcome), s.tasks[task].status !in {Killed, Interrupted})
    case FinishForeground(task, outcome) => Update(s, task, s.tasks[task].(status := outcome), true)
    case SendMessage(task) =>
      Update(s, task, s.tasks[task].(status := Queued, worker := Spawned), false)
    case ExpireIdle(task) => Update(s, task, s.tasks[task].(status := CompletedTask), true)
    case Stop(task) => StopTask(s, task)
    case Remove(task) => s.(tasks := s.tasks - {task})
    case ClearSession => s.(epoch := s.epoch + 1, aborting := Some(s.agents.Values))
    case AbortChild(child) => s.(aborting := Some(s.aborting.value - {child}))
    case SessionRetired(clear) =>
      s.(aborting := None, agents := map[], clears := s.clears[clear := Retired(s.epoch)])
    case CollectTasks(clear) =>
      var refs := set t | t in s.tasks && !IsTerminal(s.tasks[t].status);
      s.(clears := s.clears[clear := Stopping(s.clears[clear].epoch, refs)])
    case StopCollected(clear, task) =>
      var c := s.clears[clear];
      StopTask(s, task).(clears := s.clears[clear := Stopping(c.epoch, c.refs - {task})])
    case ShutdownDone(clear) =>
      var e := s.clears[clear].epoch;
      s.(clears := s.clears[clear := Stopped(e)], floor := if s.floor < e then e else s.floor)
    case WriteReset(clear, stored) =>
      var done := s.(clears := s.clears - {clear});
      if !stored then done
      else done.(journal := s.journal + [SessionReset(s.clears[clear].epoch)], generation := s.generation + 1)
  }
}
