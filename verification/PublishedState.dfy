/** The published state of one agent (agent/runtime_state.go) and the optimistic check of its
    context manager (agentContext/manager.go). Execution edits detached drafts; a draft is
    published only by the run that owns it, and only after the durable write succeeded. */
module PublishedState {
  import opened Prelude
  import opened RunState
  import RunLaws

  datatype Context = Context(version: nat, generation: nat, revision: nat, body: Text)

  datatype Snapshot =
    Snapshot(generation: nat, revision: nat, context: Context, extraction: nat, yolo: bool, body: Text)

  /** A detached copy of the state, owned by the run `token`. */
  datatype Draft = Draft(token: Token, context: Context, extraction: nat, yolo: bool, policy: nat, body: Text)

  /** A compaction candidate prepared against revision `base` of generation `generation`. */
  datatype Candidate = Candidate(base: nat, generation: nat, next: Context)

  /** `unpublished` records that a checkpoint was written which the runtime then did not publish. */
  datatype Published =
    Published(core: Core, snapshot: Snapshot, manager: Context, policy: nat, expired: bool, unpublished: bool)

  predicate Supported(version: nat) {
    version == 0 || version == 3
  }

  const FRESH_BODY: Text := 0

  function FreshSnapshot(generation: nat): (s: Snapshot) {
    Snapshot(generation, 0, Context(3, generation, 0, FRESH_BODY), 0, false, FRESH_BODY)
  }

  function New(): (p: Published) {
    Published(Start(1), FreshSnapshot(1), Context(3, 1, 0, FRESH_BODY), 0, false, false)
  }

  // ----- The context manager -----

  function ManagerRestore(m: Context, c: Context): (r: Context) {
    if !Supported(c.version) then m
    else c.(version := 3, generation := if c.generation == 0 then 1 else c.generation)
  }

  predicate ManagerAccepts(m: Context, r: Candidate) {
    m.revision == r.base && m.generation == r.generation
  }

  function ManagerCommit(m: Context, r: Candidate): (out: Context) {
    if ManagerAccepts(m, r) then r.next.(revision := m.revision + 1) else m
  }

  // ----- Publishing operations -----

  /** The durable write refuses an expired session before it reaches the store. */
  predicate Persists(p: Published, stored: bool) {
    stored && !p.expired
  }

  /** A draft older than the last policy change takes the published choice. */
  function SyncPolicy(p: Published, d: Draft): (r: Draft) {
    if d.policy < p.policy then d.(yolo := p.snapshot.yolo, policy := p.policy) else d
  }

  function NextSnapshot(p: Published, d: Draft): (s: Snapshot) {
    Snapshot(p.snapshot.generation, p.snapshot.revision + 1,
             d.context.(generation := p.snapshot.generation, revision := p.snapshot.context.revision + 1),
             Max(d.extraction, p.snapshot.extraction), d.yolo, d.body)
  }

  function Commit(p: Published, d: Draft, stored: bool): (r: (Published, Draft)) {
    if !IsLive(p.core, d.token) then (p, d)
    else
      var synced := SyncPolicy(p, d);
      var next := NextSnapshot(p, synced);
      if !Persists(p, stored) then (p, synced)
      else (p.(snapshot := next, manager := ManagerRestore(p.manager, next.context)),
            synced.(context := next.context, extraction := next.extraction))
  }

  predicate Fresh(p: Published, d: Draft, r: Candidate) {
    IsLive(p.core, d.token) && r.generation == p.snapshot.generation && r.base == p.snapshot.context.revision
  }

  function CommitContext(p: Published, d: Draft, r: Candidate, stored: bool): (out: (Published, Draft)) {
    var next := p.snapshot.(revision := p.snapshot.revision + 1, context := r.next.(revision := r.base + 1));
    if !Fresh(p, d, r) || !Persists(p, stored) then (p, d)
    else if !ManagerAccepts(p.manager, r) then (p.(unpublished := true), d)
    else (p.(snapshot := next, manager := ManagerCommit(p.manager, r)), d.(context := next.context))
  }

  /** The locked part of Reset; the abort before it is a step of its own. */
  function Reset(p: Published, stored: bool): (r: Published) {
    var blank := FreshSnapshot(p.snapshot.generation + 1);
    if !Persists(p, stored) then p
    else p.(core := Renew(p.core, blank.generation), snapshot := blank,
            manager := ManagerRestore(p.manager, blank.context))
  }

  function Restored(p: Published, s: Snapshot): (r: Snapshot) {
    var generation := Max(s.generation, p.snapshot.generation + 1);
    s.(generation := generation, context := s.context.(generation := generation))
  }

  function Restore(p: Published, s: Snapshot): (r: Published) {
    var next := Restored(p, s);
    if Active(p.core.run.phase) then p
    else p.(core := Renew(p.core, next.generation), snapshot := next,
            manager := ManagerRestore(p.manager, next.context))
  }

  function AdvanceMemory(p: Published, generation: nat, seq_: nat, stored: bool): (r: Published) {
    if generation != p.snapshot.generation || seq_ <= p.snapshot.extraction || !Persists(p, stored) then p
    else p.(snapshot := p.snapshot.(extraction := seq_, revision := p.snapshot.revision + 1))
  }

  function SetYolo(p: Published, enabled: bool, stored: bool): (r: Published) {
    if !Persists(p, stored) then p
    else p.(snapshot := p.snapshot.(yolo := enabled, revision := p.snapshot.revision + 1), policy := p.policy + 1)
  }

  function DraftFor(p: Published): (d: Draft) {
    Draft(p.core.run.token, p.snapshot.context, p.snapshot.extraction, p.snapshot.yolo, p.policy, p.snapshot.body)
  }

  // ----- Runs: one runtime, the drafts it handed out and the candidates prepared from it -----

  datatype World = World(p: Published, drafts: seq<Draft>, candidates: seq<Candidate>)

  datatype Event =
    | EvBegin(previous: Option<Token>, id: Name, contextDone: bool)
    | EvLive(step: Step)
    | EvEdit(d: nat, body: Text, view: Text, yolo: bool)
    | EvPrepare(view: Text)
    | EvRecordCompiled
    | EvCommit(d: nat, stored: bool)
    | EvCommitContext(d: nat, k: nat, stored: bool)
    | EvReset(stored: bool)
    | EvRestore(snapshot: Snapshot)
    | EvAdvanceMemory(generation: nat, extraction: nat, stored: bool)
    | EvSetYolo(enabled: bool, stored: bool)
    | EvExpire

  predicate Permitted(w: World, e: Event) {
    match e
    case EvBegin(_, id, _) => id != NoName
    case EvLive(step) => !step.StepBegin? && !step.StepBeginRecovery? && !step.StepRenew? && Allowed(w.p.core, step)
    case EvEdit(d, _, _, _) => d < |w.drafts|
    case EvCommit(d, _) => d < |w.drafts|
    case EvCommitContext(d, k, _) => d < |w.drafts| && k < |w.candidates|
    case _ => true
  }

  ghost function Happen(w: World, e: Event): (r: World)
    requires Permitted(w, e)
  {
    match e
    case EvBegin(previous, id, contextDone) =>
      var p := w.p.(core := if previous.None? then BeginRun(w.p.core, id, w.p.expired, contextDone)
                            else BeginRecovery(w.p.core, previous.value, id, w.p.expired, contextDone));
      if p == w.p then w else w.(p := p, drafts := w.drafts + [DraftFor(p)])
    case EvLive(step) => w.(p := w.p.(core := Apply(w.p.core, step)))
    case EvEdit(d, body, view, yolo) =>
      w.(drafts := w.drafts[d := w.drafts[d].(body := body, yolo := yolo,
          context := w.drafts[d].context.(body := view))])
    case EvPrepare(view) =>
      w.(candidates := w.candidates + [Candidate(w.p.manager.revision, w.p.manager.generation,
          w.p.manager.(body := view))])
    case EvRecordCompiled =>
      var c := w.p.snapshot.context;
      w.(candidates := w.candidates + [Candidate(c.revision, c.generation, c)])
    case EvCommit(d, stored) =>
      var r := Commit(w.p, w.drafts[d], stored);
      w.(p := r.0, drafts := w.drafts[d := r.1])
    case EvCommitContext(d, k, stored) =>
      var r := CommitContext(w.p, w.drafts[d], w.candidates[k], stored);
      w.(p := r.0, drafts := w.drafts[d := r.1])
    case EvReset(stored) => w.(p := Reset(w.p, stored))
    case EvRestore(s) => w.(p := Restore(w.p, s))
    case EvAdvanceMemory(generation, extraction, stored) => w.(p := AdvanceMemory(w.p, generation, extraction, stored))
    case EvSetYolo(enabled, stored) => w.(p := SetYolo(w.p, enabled, stored))
    case EvExpire => w.(p := w.p.(expired := true))
  }

  ghost predicate Possible(w: World, events: seq<Event>)
    decreases |events|
  {
    events == [] || (Permitted(w, events[0]) && Possible(Happen(w, events[0]), events[1..]))
  }

  ghost function After(w: World, events: seq<Event>): (r: World)
    requires Possible(w, events)
    decreases |events|
  {
    if events == [] then w else After(Happen(w, events[0]), events[1..])
  }

  // ----- Published versions only go up -----

  predicate Earlier(a: Snapshot, b: Snapshot) {
    a.generation < b.generation || (a.generation == b.generation && a.revision < b.revision)
  }

  lemma EventPublishesUpwards(w: World, e: Event)
    requires Permitted(w, e)
    ensures Happen(w, e).p.snapshot == w.p.snapshot || Earlier(w.p.snapshot, Happen(w, e).p.snapshot)
  {
  }

  /** Along every run, either nothing was published or the version went up lexicographically;
      hence a (generation, revision) pair names one published snapshot. */
  lemma {:induction false} VersionsStrictlyIncrease(w: World, events: seq<Event>)
    requires Possible(w, events)
    ensures var a, b := w.p.snapshot, After(w, events).p.snapshot;
            && (a == b || Earlier(a, b))
            && (a.generation == b.generation && a.revision == b.revision ==> a == b)
    decreases |events|
  {
    if events != [] {
      EventPublishesUpwards(w, events[0]);
      VersionsStrictlyIncrease(Happen(w, events[0]), events[1..]);
    }
  }

  /** The same for contexts: each publication that touches the context leaves the version behind. */
  predicate EarlierContext(a: Snapshot, b: Snapshot) {
    a.generation < b.generation || (a.generation == b.generation && a.context.revision < b.context.revision)
  }

  lemma EventMovesContextUpwards(w: World, e: Event)
    requires Permitted(w, e)
    ensures var a, b := w.p.snapshot, Happen(w, e).p.snapshot;
            (a.generation == b.generation && a.context == b.context) || EarlierContext(a, b)
  {
  }

  /** Along every run a context version (generation, context revision) names one context. */
  lemma {:induction false} ContextVersionsIncrease(w: World, events: seq<Event>)
    requires Possible(w, events)
    ensures var a, b := w.p.snapshot, After(w, events).p.snapshot;
            && ((a.generation == b.generation && a.context == b.context) || EarlierContext(a, b))
            && (a.generation == b.generation && a.context.revision == b.context.revision ==> a.context == b.context)
    decreases |events|
  {
    if events != [] {
      EventMovesContextUpwards(w, events[0]);
      ContextVersionsIncrease(Happen(w, events[0]), events[1..]);
    }
  }

  /** A candidate that is still fresh later on is committed over the very context it was prepared
      from; a change of context in between makes it stale for good. */
  lemma FreshCandidateMeetsItsContext(w: World, view: Text, events: seq<Event>, d: Draft)
    requires Agrees(w.p) && Possible(w, events)
    requires Fresh(After(w, events).p, d, Candidate(w.p.manager.revision, w.p.manager.generation,
        w.p.manager.(body := view)))
    ensures After(w, events).p.snapshot.context == w.p.snapshot.context
  {
    ContextVersionsIncrease(w, events);
  }

  // ----- The context manager agrees with the published state -----

  /** The working view of the context manager is the published context, in the published
      generation. */
  predicate Agrees(p: Published) {
    && p.manager.generation == p.snapshot.context.generation && p.manager.revision == p.snapshot.context.revision
    && p.manager.body == p.snapshot.context.body
    && p.snapshot.context.generation == p.snapshot.generation == p.core.generation
    && p.snapshot.generation >= 1
  }

  /** Drafts and candidates in circulation carry supported versions, and a candidate proposes a
      context of the generation it was prepared in. */
  predicate WorldInv(w: World) {
    && Agrees(w.p) && !w.p.unpublished
    && Supported(w.p.snapshot.context.version) && Supported(w.p.manager.version)
    && (forall i :: 0 <= i < |w.drafts| ==> Supported(w.drafts[i].context.version))
    && (forall i :: 0 <= i < |w.candidates| ==>
          w.candidates[i].next.generation == w.candidates[i].generation && Supported(w.candidates[i].next.version))
  }

  /** Only a restore can bring in an unsupported context version. */
  predicate RestoresSupported(events: seq<Event>) {
    forall i :: 0 <= i < |events| && events[i].EvRestore? ==> Supported(events[i].snapshot.context.version)
  }

  lemma LiveStepKeepsGeneration(c: Core, s: Step)
    requires !s.StepRenew?
    ensures Apply(c, s).generation == c.generation
  {
  }

  lemma EventKeepsWorld(w: World, e: Event)
    requires WorldInv(w) && Permitted(w, e) && (e.EvRestore? ==> Supported(e.snapshot.context.version))
    ensures WorldInv(Happen(w, e))
  {
    if e.EvLive? {
      LiveStepKeepsGeneration(w.p.core, e.step);
    }
  }

  /** In every run whose restored snapshots have a supported context version, the manager agrees
      with the published state throughout, so no checkpoint is ever written in vain. */
  lemma {:induction false} ManagerAlwaysAgrees(w: World, events: seq<Event>)
    requires WorldInv(w) && Possible(w, events) && RestoresSupported(events)
    ensures WorldInv(After(w, events))
    decreases |events|
  {
    if events != [] {
      EventKeepsWorld(w, events[0]);
      ManagerAlwaysAgrees(Happen(w, events[0]), events[1..]);
    }
  }

  /** The optimistic check cannot fail once the candidate has passed the runtime's own check. */
  lemma DurableCandidateIsAccepted(p: Published, d: Draft, r: Candidate)
    requires Agrees(p) && Fresh(p, d, r)
    ensures ManagerAccepts(p.manager, r)
  {
  }

  /** A restore into an agreeing runtime keeps the agreement if and only if the restored context
      has a supported version. */
  lemma RestoreAgreesExactly(p: Published, s: Snapshot)
    requires Agrees(p) && !Active(p.core.run.phase)
    ensures Agrees(Restore(p, s)) <==> Supported(s.context.version)
  {
  }

  lemma NewAgrees()
    ensures WorldInv(World(New(), [], []))
  {
  }

  /** A new runtime and its manager agree in every run, and no checkpoint is written in vain. */
  lemma {:induction false} NewRuntimeAgrees(events: seq<Event>)
    requires Possible(World(New(), [], []), events) && RestoresSupported(events)
    ensures Agrees(After(World(New(), [], []), events).p) && !After(World(New(), [], []), events).p.unpublished
  {
    hide Possible, After, Agrees;
    NewAgrees();
    ManagerAlwaysAgrees(World(New(), [], []), events);
  }

  // ----- Stale drafts -----

  /** What an event does to the run. */
  function CoreStep(w: World, e: Event): (s: Option<Step>) {
    match e
    case EvBegin(None, id, contextDone) => Some(StepBegin(id, w.p.expired, contextDone))
    case EvBegin(Some(previous), id, contextDone) => Some(StepBeginRecovery(previous, id, w.p.expired, contextDone))
    case EvLive(step) => Some(step)
    case EvReset(stored) => if Persists(w.p, stored) then Some(StepRenew(w.p.snapshot.generation + 1)) else None
    case EvRestore(s) =>
      if Active(w.p.core.run.phase) then None else Some(StepRenew(Restored(w.p, s).generation))
    case _ => None
  }

  lemma CoreFollows(w: World, e: Event)
    requires Permitted(w, e)
    ensures CoreStep(w, e).Some? ==> Allowed(w.p.core, CoreStep(w, e).value)
    ensures Happen(w, e).p.core ==
            if CoreStep(w, e).Some? then Apply(w.p.core, CoreStep(w, e).value) else w.p.core
  {
  }

  lemma TokensStay(w: World, e: Event, d: nat)
    requires Permitted(w, e) && d < |w.drafts|
    ensures d < |Happen(w, e).drafts| && Happen(w, e).drafts[d].token == w.drafts[d].token
  {
  }

  lemma {:induction false} EventKeepsCore(w: World, e: Event)
    requires Permitted(w, e) && Inv(w.p.core)
    ensures Inv(Happen(w, e).p.core)
  {
    CoreFollows(w, e);
    hide Happen, Apply;
    if CoreStep(w, e).Some? {
      StepKeepsPhase(w.p.core, CoreStep(w, e).value);
      StepKeepsTickets(w.p.core, CoreStep(w, e).value);
    }
  }

  /** A draft whose run is over can publish again exactly when a run is begun under its id in its
      own generation. */
  lemma {:induction false} DraftRevivedExactly(w: World, e: Event, d: nat)
    requires Permitted(w, e) && Inv(w.p.core) && d < |w.drafts| && !IsLive(w.p.core, w.drafts[d].token)
    ensures var t, c := w.drafts[d].token, w.p.core;
            IsLive(Happen(w, e).p.core, t) <==>
              && e.EvBegin? && e.id == t.id && t.generation == c.generation
              && !Active(c.run.phase) && !w.p.expired && !e.contextDone
              && (e.previous.Some? ==> Matches(c, e.previous.value) && c.run.reason != ByUser)
  {
    CoreFollows(w, e);
    hide Happen, Apply, IsLive;
    if CoreStep(w, e).Some? {
      RunLaws.RevivedExactly(w.p.core, CoreStep(w, e).value, w.drafts[d].token);
    }
  }

  predicate Begins(e: Event, id: Name) {
    e.EvBegin? && e.id == id
  }

  /** Once its run is over, a draft publishes nothing through either commit, in any continuation
      that does not begin another run under the same id. */
  lemma {:induction false} StaleDraftPublishesNothing(w: World, events: seq<Event>, d: nat, r: Candidate, stored: bool)
    requires Possible(w, events) && Inv(w.p.core) && d < |w.drafts| && !IsLive(w.p.core, w.drafts[d].token)
    requires forall i :: 0 <= i < |events| ==> !Begins(events[i], w.drafts[d].token.id)
    ensures var v := After(w, events);
            && d < |v.drafts|
            && Commit(v.p, v.drafts[d], stored).0 == v.p && CommitContext(v.p, v.drafts[d], r, stored).0 == v.p
    decreases |events|
  {
    hide Happen, Permitted;
    if events != [] {
      EventKeepsCore(w, events[0]);
      TokensStay(w, events[0], d);
      DraftRevivedExactly(w, events[0], d);
      assert !Begins(events[0], w.drafts[d].token.id);
      StaleDraftPublishesNothing(Happen(w, events[0]), events[1..], d, r, stored);
    }
  }

  predicate Obsolete(w: World, d: nat) {
    d < |w.drafts| && w.drafts[d].token.generation < w.p.core.generation
  }

  lemma EventKeepsObsolete(w: World, e: Event, d: nat)
    requires Permitted(w, e) && Obsolete(w, d) && w.p.core.generation <= w.p.snapshot.generation
    ensures Obsolete(Happen(w, e), d) && Happen(w, e).p.core.generation <= Happen(w, e).p.snapshot.generation
  {
    if e.EvLive? {
      LiveStepKeepsGeneration(w.p.core, e.step);
    }
  }

  /** A draft of an earlier conversation generation never publishes again, whatever happens and
      even if its run id is used again. */
  lemma {:induction false} ObsoleteDraftNeverPublishes(w: World, events: seq<Event>, d: nat, r: Candidate, stored: bool)
    requires Possible(w, events) && Obsolete(w, d) && w.p.core.generation <= w.p.snapshot.generation
    ensures var v := After(w, events);
            && d < |v.drafts|
            && Commit(v.p, v.drafts[d], stored).0 == v.p && CommitContext(v.p, v.drafts[d], r, stored).0 == v.p
    decreases |events|
  {
    if events != [] {
      EventKeepsObsolete(w, events[0], d);
      ObsoleteDraftNeverPublishes(Happen(w, events[0]), events[1..], d, r, stored);
    }
  }

  // ----- What goes wrong after an unsupported restore -----

  const UNSUPPORTED := Snapshot(1, 0, Context(1, 1, 0, FRESH_BODY), 0, false, FRESH_BODY)

  function UnsupportedRun(): (events: seq<Event>) {
    [EvRestore(UNSUPPORTED), EvBegin(None, 7, false), EvRecordCompiled, EvCommitContext(0, 0, true)]
  }

  /** After restoring an unsupported context version the next context commit writes its
      checkpoint and then fails. */
  lemma {:induction false} UnsupportedRestoreTearsCommit()
    ensures var w := World(New(), [], []);
            Possible(w, UnsupportedRun()) && After(w, UnsupportedRun()).p.unpublished
  {
    var w, es := World(New(), [], []), UnsupportedRun();
    var w1 := Happen(w, es[0]);
    var w2 := Happen(w1, es[1]);
    var w3 := Happen(w2, es[2]);
    var w4 := Happen(w3, es[3]);
    assert w4.p.unpublished;
    assert es == [es[0]] + ([es[1]] + ([es[2]] + ([es[3]] + [])));
    hide Happen, Permitted;
    OneEvent(w3, es[3], []);
    OneEvent(w2, es[2], [es[3]]);
    OneEvent(w1, es[1], [es[2]] + [es[3]]);
    OneEvent(w, es[0], [es[1]] + ([es[2]] + [es[3]]));
  }

  lemma OneEvent(w: World, e: Event, rest: seq<Event>)
    requires Permitted(w, e)
    ensures Possible(w, [e] + rest) <==> Possible(Happen(w, e), rest)
    ensures Possible(w, [e] + rest) ==> After(w, [e] + rest) == After(Happen(w, e), rest)
  {
    assert ([e] + rest)[1..] == rest;
  }
}
