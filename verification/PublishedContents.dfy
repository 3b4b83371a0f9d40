/** What is published (agent/runtime_state.go): along every run the published contents are those of the last
    draft, candidate, reset or restore that got through. */
module PublishedContents {
  import opened Prelude
  import opened RunState
  import opened PublishedState

  /** A durable write of a live draft. */
  predicate GetsThrough(w: World, d: nat, stored: bool)
    requires d < |w.drafts|
  {
    stored && !w.p.expired && IsLive(w.p.core, w.drafts[d].token)
  }

  /** A candidate prepared from the very version that is published and held by the manager. */
  predicate Current(w: World, k: nat)
    requires k < |w.candidates|
  {
    var r := w.candidates[k];
    && r.generation == w.p.snapshot.generation == w.p.manager.generation
    && r.base == w.p.snapshot.context.revision == w.p.manager.revision
  }

  // ----- What one event publishes -----

  function SetsBody(w: World, e: Event): (t: Option<Text>)
    requires Permitted(w, e)
  {
    match e
    case EvCommit(d, stored) => if GetsThrough(w, d, stored) then Some(w.drafts[d].body) else None
    case EvReset(stored) => if stored && !w.p.expired then Some(FRESH_BODY) else None
    case EvRestore(s) => if Active(w.p.core.run.phase) then None else Some(s.body)
    case _ => None
  }

  function SetsView(w: World, e: Event): (t: Option<Text>)
    requires Permitted(w, e)
  {
    match e
    case EvCommit(d, stored) => if GetsThrough(w, d, stored) then Some(w.drafts[d].context.body) else None
    case EvCommitContext(d, k, stored) =>
      if GetsThrough(w, d, stored) && Current(w, k) then Some(w.candidates[k].next.body) else None
    case EvReset(stored) => if stored && !w.p.expired then Some(FRESH_BODY) else None
    case EvRestore(s) => if Active(w.p.core.run.phase) then None else Some(s.context.body)
    case _ => None
  }

  /** A draft decides the policy unless a newer one was published meanwhile. */
  function SetsPolicy(w: World, e: Event): (t: Option<bool>)
    requires Permitted(w, e)
  {
    match e
    case EvCommit(d, stored) =>
      if GetsThrough(w, d, stored) && w.drafts[d].policy >= w.p.policy then Some(w.drafts[d].yolo) else None
    case EvSetYolo(enabled, stored) => if stored && !w.p.expired then Some(enabled) else None
    case EvReset(stored) => if stored && !w.p.expired then Some(false) else None
    case EvRestore(s) => if Active(w.p.core.run.phase) then None else Some(s.yolo)
    case _ => None
  }

  /** The memory cursor after an event: the larger one, except that resets and restores start over. */
  function CursorAfter(w: World, e: Event): (n: nat)
    requires Permitted(w, e)
  {
    var now := w.p.snapshot.extraction;
    match e
    case EvCommit(d, stored) =>
      if GetsThrough(w, d, stored) && w.drafts[d].extraction > now then w.drafts[d].extraction else now
    case EvAdvanceMemory(generation, extraction, stored) =>
      if stored && !w.p.expired && generation == w.p.snapshot.generation && extraction > now then extraction else now
    case EvReset(stored) => if stored && !w.p.expired then 0 else now
    case EvRestore(s) => if Active(w.p.core.run.phase) then now else s.extraction
    case _ => now
  }

  function Or<T>(a: Option<T>, b: T): (t: T) {
    if a.Some? then a.value else b
  }

  /** An event publishes exactly that. */
  lemma {:induction false} EventPublishes(w: World, e: Event)
    requires Permitted(w, e)
    ensures var s, r := w.p.snapshot, Happen(w, e).p.snapshot;
            && r.body == Or(SetsBody(w, e), s.body)
            && r.context.body == Or(SetsView(w, e), s.context.body)
            && r.yolo == Or(SetsPolicy(w, e), s.yolo)
            && r.extraction == CursorAfter(w, e)
  {
    hide Apply, BeginRun, BeginRecovery, IsLive;
  }

  // ----- Along every run -----

  /** What the last event that set it has set, along a run. */
  ghost function LastBody(w: World, events: seq<Event>): (t: Option<Text>)
    requires Possible(w, events)
    decreases |events|
  {
    if events == [] then None
    else
      var later := LastBody(Happen(w, events[0]), events[1..]);
      if later.Some? then later else SetsBody(w, events[0])
  }

  ghost function LastView(w: World, events: seq<Event>): (t: Option<Text>)
    requires Possible(w, events)
    decreases |events|
  {
    if events == [] then None
    else
      var later := LastView(Happen(w, events[0]), events[1..]);
      if later.Some? then later else SetsView(w, events[0])
  }

  ghost function LastPolicy(w: World, events: seq<Event>): (t: Option<bool>)
    requires Possible(w, events)
    decreases |events|
  {
    if events == [] then None
    else
      var later := LastPolicy(Happen(w, events[0]), events[1..]);
      if later.Some? then later else SetsPolicy(w, events[0])
  }

  /** Along every run the published body is that of the last stored commit of a live draft, reset or
      restore; the published view that of the last of these or of the last current candidate; and the
      published policy that of the last draft without a newer policy, switch, reset or restore. */
  lemma {:induction false} PublishedIsLastSet(w: World, events: seq<Event>)
    requires Possible(w, events)
    ensures var r := After(w, events).p.snapshot;
            && r.body == Or(LastBody(w, events), w.p.snapshot.body)
            && r.context.body == Or(LastView(w, events), w.p.snapshot.context.body)
            && r.yolo == Or(LastPolicy(w, events), w.p.snapshot.yolo)
    decreases |events|
  {
    hide Happen, Permitted, SetsBody, SetsView, SetsPolicy, CursorAfter;
    if events != [] {
      EventPublishes(w, events[0]);
      PublishedIsLastSet(Happen(w, events[0]), events[1..]);
    }
  }

  // ----- What a draft holds -----

  /** The draft `d` is handed out by this event. */
  ghost predicate Opens(w: World, e: Event, d: nat)
    requires Permitted(w, e)
  {
    d == |w.drafts| && d < |Happen(w, e).drafts|
  }

  ghost function WritesDraft(w: World, e: Event, d: nat): (t: Option<Text>)
    requires Permitted(w, e)
  {
    if Opens(w, e, d) then Some(w.p.snapshot.body)
    else if e.EvEdit? && e.d == d then Some(e.body)
    else None
  }

  ghost function WritesView(w: World, e: Event, d: nat): (t: Option<Text>)
    requires Permitted(w, e)
  {
    if Opens(w, e, d) then Some(w.p.snapshot.context.body)
    else if e.EvEdit? && e.d == d then Some(e.view)
    else if e.EvCommitContext? && e.d == d then
      if GetsThrough(w, d, e.stored) && Current(w, e.k) then Some(w.candidates[e.k].next.body) else None
    else None
  }

  /** A new draft is a copy of what is published, under the policy of that moment; later only its own edits
      and candidates change it. */
  lemma {:induction false} EventWritesDraft(w: World, e: Event, d: nat)
    requires Permitted(w, e) && d < |Happen(w, e).drafts|
    ensures var r := Happen(w, e).drafts[d];
            && d <= |w.drafts| && (d == |w.drafts| ==> Opens(w, e, d))
            && (d < |w.drafts| ==>
                  && r.body == Or(WritesDraft(w, e, d), w.drafts[d].body)
                  && r.context.body == Or(WritesView(w, e, d), w.drafts[d].context.body))
            && (d == |w.drafts| ==>
                  && r.body == w.p.snapshot.body && r.context.body == w.p.snapshot.context.body
                  && r.yolo == w.p.snapshot.yolo && r.extraction == w.p.snapshot.extraction
                  && r.policy == w.p.policy && IsLive(Happen(w, e).p.core, r.token))
  {
    hide Apply;
  }

  ghost function LastWritten(w: World, events: seq<Event>, d: nat): (t: Option<Text>)
    requires Possible(w, events)
    decreases |events|
  {
    if events == [] then None
    else
      var later := LastWritten(Happen(w, events[0]), events[1..], d);
      if later.Some? then later else WritesDraft(w, events[0], d)
  }

  lemma {:induction false} DraftHoldsLastWritten(w: World, events: seq<Event>, d: nat)
    requires Possible(w, events) && d < |After(w, events).drafts|
    ensures d >= |w.drafts| ==> LastWritten(w, events, d).Some?
    ensures After(w, events).drafts[d].body ==
            if LastWritten(w, events, d).Some? then LastWritten(w, events, d).value else w.drafts[d].body
    decreases |events|
  {
    hide Permitted, WritesDraft, Happen;
    if events != [] {
      var v := Happen(w, events[0]);
      DraftHoldsLastWritten(v, events[1..], d);
      if d < |v.drafts| {
        EventWritesDraft(w, events[0], d);
        OpenedIsWritten(w, events[0], d);
      }
      DraftsStay(w, events[0]);
    }
  }

  lemma OpenedIsWritten(w: World, e: Event, d: nat)
    requires Permitted(w, e) && d < |Happen(w, e).drafts|
    ensures d == |w.drafts| ==> WritesDraft(w, e, d) == Some(w.p.snapshot.body)
  {
  }

  lemma DraftsStay(w: World, e: Event)
    requires Permitted(w, e)
    ensures |w.drafts| <= |Happen(w, e).drafts|
  {
  }

  /** A stored commit of a live draft publishes what was last written to that draft: its last edit, or what
      was published when it was handed out. */
  lemma {:induction false} CommitPublishesLastEdit(w: World, events: seq<Event>, d: nat)
    requires |w.drafts| == 0 && Possible(w, events)
    requires var v := After(w, events); d < |v.drafts| && GetsThrough(v, d, true)
    ensures LastWritten(w, events, d).Some?
    ensures Happen(After(w, events), EvCommit(d, true)).p.snapshot.body == LastWritten(w, events, d).value
  {
    hide Possible, After, Happen;
    DraftHoldsLastWritten(w, events, d);
    EventPublishes(After(w, events), EvCommit(d, true));
  }

  // ----- Whose policy counts -----

  /** No draft knows a policy that was never published. */
  predicate PolicyKnown(w: World) {
    forall i :: 0 <= i < |w.drafts| ==> w.drafts[i].policy <= w.p.policy
  }

  lemma {:induction false} EventKeepsPolicyKnown(w: World, e: Event)
    requires Permitted(w, e) && PolicyKnown(w)
    ensures PolicyKnown(Happen(w, e)) && w.p.policy <= Happen(w, e).p.policy
  {
    hide Apply, BeginRun, BeginRecovery, IsLive;
  }

  lemma {:induction false} PoliciesAreKnown(w: World, events: seq<Event>)
    requires PolicyKnown(w) && Possible(w, events)
    ensures PolicyKnown(After(w, events))
    decreases |events|
  {
    hide PolicyKnown, Happen, Permitted;
    if events != [] {
      EventKeepsPolicyKnown(w, events[0]);
      PoliciesAreKnown(Happen(w, events[0]), events[1..]);
    }
  }

  lemma {:induction false} StaysBehind(w: World, e: Event, d: nat)
    requires Permitted(w, e) && d < |w.drafts| && w.drafts[d].policy < w.p.policy && (e.EvCommit? ==> e.d != d)
    ensures d < |Happen(w, e).drafts| && Happen(w, e).drafts[d].policy < Happen(w, e).p.policy
  {
    hide Apply, BeginRun, BeginRecovery, IsLive;
  }

  lemma {:induction false} BehindUntilCommitted(w: World, events: seq<Event>, d: nat)
    requires Possible(w, events) && d < |w.drafts| && w.drafts[d].policy < w.p.policy
    requires forall i :: 0 <= i < |events| && events[i].EvCommit? ==> events[i].d != d
    ensures var r := After(w, events); d < |r.drafts| && r.drafts[d].policy < r.p.policy
    decreases |events|
  {
    hide Happen, Permitted;
    if events != [] {
      StaysBehind(w, events[0], d);
      BehindUntilCommitted(Happen(w, events[0]), events[1..], d);
    }
  }

  /** A choice of the user outlives every draft that was out at the time: whatever happens in between, edits
      of that draft included, its first commit publishes the policy it finds and not its own. */
  lemma {:induction false} ChoiceOutlivesDrafts(before: seq<Event>, enabled: bool, between: seq<Event>, d: nat)
    requires Possible(World(New(), [], []), before)
    requires var w := After(World(New(), [], []), before);
             && !w.p.expired && d < |w.drafts| && Possible(Happen(w, EvSetYolo(enabled, true)), between)
    requires forall i :: 0 <= i < |between| && between[i].EvCommit? ==> between[i].d != d
    ensures var w := After(World(New(), [], []), before);
            var v := After(Happen(w, EvSetYolo(enabled, true)), between);
            && d < |v.drafts|
            && forall stored :: Happen(v, EvCommit(d, stored)).p.snapshot.yolo == v.p.snapshot.yolo
  {
    hide Possible, After, Happen;
    var w := After(World(New(), [], []), before);
    PoliciesAreKnown(World(New(), [], []), before);
    ChoiceIsNewer(w, enabled, d);
    BehindUntilCommitted(Happen(w, EvSetYolo(enabled, true)), between, d);
    var v := After(Happen(w, EvSetYolo(enabled, true)), between);
    forall stored ensures Happen(v, EvCommit(d, stored)).p.snapshot.yolo == v.p.snapshot.yolo {
      EventPublishes(v, EvCommit(d, stored));
    }
  }

  /** Behind a commit that gets through, the draft is a copy of what is published, as if it had just been
      handed out; a commit that does not leaves its contents and its context alone. */
  lemma CommittedDraftIsInStep(w: World, d: nat, stored: bool)
    requires d < |w.drafts| && PolicyKnown(w)
    ensures var v := Happen(w, EvCommit(d, stored));
            var s, t := v.p.snapshot, w.drafts[d];
            if GetsThrough(w, d, stored)
            then v.drafts[d] == Draft(t.token, s.context, s.extraction, s.yolo, v.p.policy, s.body)
            else v.drafts[d].body == t.body && v.drafts[d].context == t.context
  {
  }

  lemma ChoiceIsNewer(w: World, enabled: bool, d: nat)
    requires PolicyKnown(w) && !w.p.expired && d < |w.drafts|
    ensures var c := Happen(w, EvSetYolo(enabled, true));
            && d < |c.drafts| && c.drafts[d].policy < c.p.policy && c.p.snapshot.yolo == enabled
  {
  }

  // ----- Candidates -----

  lemma {:induction false} CandidatesStay(w: World, events: seq<Event>, k: nat)
    requires Possible(w, events) && k < |w.candidates|
    ensures k < |After(w, events).candidates| && After(w, events).candidates[k] == w.candidates[k]
    decreases |events|
  {
    hide Apply, Commit, CommitContext, BeginRun, BeginRecovery;
    if events != [] {
      CandidatesStay(Happen(w, events[0]), events[1..], k);
    }
  }

  /** A compaction publishes the very view that was prepared: whatever happens in between, if its commit gets
      through, that view is what is published and what the draft holds. */
  lemma {:induction false} PreparedViewIsPublished(w: World, view: Text, between: seq<Event>, d: nat)
    requires Possible(Happen(w, EvPrepare(view)), between)
    requires d < |After(Happen(w, EvPrepare(view)), between).drafts|
    ensures var v, k := After(Happen(w, EvPrepare(view)), between), |w.candidates|;
            && k < |v.candidates|
            && (GetsThrough(v, d, true) && Current(v, k) ==>
                  var r := Happen(v, EvCommitContext(d, k, true));
                  r.p.snapshot.context.body == view && r.drafts[d].context.body == view)
  {
    var prepared, k := Happen(w, EvPrepare(view)), |w.candidates|;
    assert prepared.candidates[k].next.body == view;
    CandidatesStay(prepared, between, k);
    var v := After(prepared, between);
    hide Possible, After, Happen;
    if GetsThrough(v, d, true) && Current(v, k) {
      EventPublishes(v, EvCommitContext(d, k, true));
      CommittedContextIsHeld(v, d, k);
    }
  }

  lemma CommittedContextIsHeld(w: World, d: nat, k: nat)
    requires d < |w.drafts| && k < |w.candidates| && GetsThrough(w, d, true) && Current(w, k)
    ensures var r := Happen(w, EvCommitContext(d, k, true));
            d < |r.drafts| && r.drafts[d].context.body == w.candidates[k].next.body
  {
  }
}
