/** The retry and continue skeleton of the query loop (agent/loop.go, agent/output_recovery.go,
    agent/run_state.go) against an arbitrary provider with finite streams. */
module QueryLoop {
  import opened Prelude

  const MAX_API_ERRORS := 3
  const MAX_CONTEXT_RETRIES := 3
  const MAX_OUTPUT_RETRIES := 3
  const DEFAULT_MAX_TURNS := 100

  datatype Fault = Fatal | TooLong | Transient

  /** What a provider stream may deliver. `Broken` is any event after which the loop returns at
      once: an observed cancellation or a journal that refuses a write. */
  datatype Item =
    | Text(blank: bool) | ToolUse | Truncation | Other
    | Error(fault: Fault) | Transport(fault: Fault) | Broken

  datatype Turn = Turn(text: bool, toolCalls: nat, tooLong: bool, truncated: bool, hadError: bool)

  const NEW_TURN := Turn(false, 0, false, false, false)

  datatype Counters = Counters(turnCount: nat, contextRetries: nat, escalated: bool, retries: nat, apiErrors: nat)

  /** The state of reading a stream: the turn so far, the error counter, and how reading ended. */
  datatype Ending = Open | Ended | Returned

  datatype Reading = Reading(turn: Turn, apiErrors: nat, ending: Ending)

  /** An error without tool calls that came after visible text: the text is kept as the answer. */
  predicate CommitsFinalText(t: Turn) {
    t.hadError && t.toolCalls == 0 && t.text
  }

  function ReadItem(r: Reading, i: Item): (out: Reading) {
    match i
    case Text(blank) => r.(turn := r.turn.(text := r.turn.text || !blank))
    case ToolUse => r.(turn := r.turn.(toolCalls := r.turn.toolCalls + 1))
    case Truncation => r.(turn := r.turn.(truncated := true))
    case Other => r
    case Broken => r.(ending := Returned)
    case Error(fault) =>
      if fault == Fatal then r.(ending := Returned)
      else if fault == TooLong then r.(turn := r.turn.(tooLong := true), ending := Ended)
      else
        var failed := Reading(r.turn.(hadError := true), r.apiErrors + 1, Ended);
        if !CommitsFinalText(failed.turn) && failed.apiErrors >= MAX_API_ERRORS then failed.(ending := Returned)
            else failed
    case Transport(fault) =>
      if fault == Fatal then r.(ending := Returned)
      else if fault == TooLong then r.(turn := r.turn.(tooLong := true), ending := Ended)
      else
        var failed := Reading(r.turn.(hadError := true), r.apiErrors + 1, Ended);
        if failed.apiErrors >= MAX_API_ERRORS then failed.(ending := Returned) else failed
  }

  function ReadAll(r: Reading, items: seq<Item>): (out: Reading)
    decreases |items|
  {
    if items == [] || r.ending != Open then r else ReadAll(ReadItem(r, items[0]), items[1..])
  }

  method ReadStream(items: seq<Item>, apiErrors: nat) returns (turn: Turn, errors: nat, returned: bool)
    ensures var r := ReadAll(Reading(NEW_TURN, apiErrors, Open), items);
            turn == r.turn && errors == r.apiErrors && (returned <==> r.ending == Returned)
  {
    hide ReadItem;
    var reading := Reading(NEW_TURN, apiErrors, Open);
    var i := 0;
    assert items[0..] == items;
    while i < |items| && reading.ending == Open
      invariant 0 <= i <= |items|
      invariant ReadAll(reading, items[i..]) == ReadAll(Reading(NEW_TURN, apiErrors, Open), items)
    {
      assert items[i..][0] == items[i] && items[i..][1..] == items[i + 1..];
      reading := ReadItem(reading, items[i]);
      i := i + 1;
    }
    return reading.turn, reading.apiErrors, reading.ending == Returned;
  }

  // ----- Output recovery -----

  datatype Recovery = Proceed | Again | Fail

  /** A truncated answer without tool calls is first retried with a larger limit, then continued
      up to three times. */
  function OutputRecovery(c: Counters, toolCalls: nat): (r: (Counters, Recovery))
    ensures r.1 == Again ==> OutputLeft(r.0) == OutputLeft(c) - 1
    ensures r.1 != Again ==> r.0 == c
  {
    if toolCalls > 0 then (c, Proceed)
    else if !c.escalated then (c.(escalated := true), Again)
    else if c.retries < MAX_OUTPUT_RETRIES then (c.(retries := c.retries + 1), Again)
    else (c, Fail)
  }

  // ----- One iteration -----

  /** After reading a stream: None to return, Some to go round again. */
  function Decide(c: Counters, turn: Turn, errors: nat, recovered: bool): (r: Option<Counters>) {
    var keepsText := CommitsFinalText(turn);
    var hadError := turn.hadError && !keepsText;
    var d := c.(apiErrors := if hadError then errors else 0);
    if hadError && turn.toolCalls == 0 && d.apiErrors < MAX_API_ERRORS then Some(d)
    else if turn.tooLong then
      if d.contextRetries >= MAX_CONTEXT_RETRIES || !recovered then None
      else Some(d.(contextRetries := d.contextRetries + 1, retries := 0, escalated := false))
    else
      var o := if turn.truncated then OutputRecovery(d, turn.toolCalls) else (d, Proceed);
      if o.1 == Again then Some(o.0)
      else if o.1 == Fail || turn.toolCalls == 0 then None
      else Some(o.0.(retries := 0, turnCount := o.0.turnCount + 1))
  }

  /** The provider and the surroundings, by number of the request. */
  datatype Env = Env(stream: nat -> seq<Item>, recovers: nat -> bool, interrupted: nat -> bool)

  function NextCounters(c: Counters, env: Env, k: nat): (r: Option<Counters>) {
    var reading := ReadAll(Reading(NEW_TURN, c.apiErrors, Open), env.stream(k));
    if reading.ending == Returned then None else Decide(c, reading.turn, reading.apiErrors, env.recovers(k))
  }

  // ----- The measure -----

  function TurnsLeft(c: Counters, limit: nat): (n: nat) {
    if c.turnCount >= limit then 0 else limit - c.turnCount
  }

  function ContextLeft(c: Counters): (n: nat) {
    if c.contextRetries >= MAX_CONTEXT_RETRIES then 0 else MAX_CONTEXT_RETRIES - c.contextRetries
  }

  function OutputLeft(c: Counters): (n: nat) {
    (if c.escalated then 0 else 1) + if c.retries >= MAX_OUTPUT_RETRIES then 0 else MAX_OUTPUT_RETRIES - c.retries
  }

  function ErrorsLeft(c: Counters): (n: nat) {
    if c.apiErrors >= MAX_API_ERRORS then 0 else MAX_API_ERRORS - c.apiErrors
  }

  /** The lexicographic order behind termination: an earlier component drops, or it stays and a
      later one drops; later components may be reset. */
  predicate Smaller(a: Counters, b: Counters, limit: nat) {
    || TurnsLeft(a, limit) < TurnsLeft(b, limit)
    || (TurnsLeft(a, limit) == TurnsLeft(b, limit) && ContextLeft(a) < ContextLeft(b))
    || (TurnsLeft(a, limit) == TurnsLeft(b, limit) && ContextLeft(a) == ContextLeft(b) && OutputLeft(a) < OutputLeft(b))
    || (TurnsLeft(a, limit) == TurnsLeft(b, limit) && ContextLeft(a) == ContextLeft(b) && OutputLeft(a) == OutputLeft(b)
        && ErrorsLeft(a) < ErrorsLeft(b))
  }

  /** How many more requests the counters leave room for; see RequestBound. */
  function Room(c: Counters, limit: nat): (n: nat) {
    3 * (4 * TurnsLeft(c, limit) + 5 * ContextLeft(c) + OutputLeft(c)) + ErrorsLeft(c)
  }

  /** Counters as a run can have them at the head of the loop. */
  predicate Sound(c: Counters) {
    c.contextRetries <= MAX_CONTEXT_RETRIES && c.retries <= MAX_OUTPUT_RETRIES && c.apiErrors < MAX_API_ERRORS
  }

  lemma {:induction false} ReadingCounts(r: Reading, items: seq<Item>)
    requires r.apiErrors < MAX_API_ERRORS && r.ending == Open && !r.turn.hadError
    ensures var out := ReadAll(r, items);
            out.ending != Returned ==>
              if out.turn.hadError
              then out.apiErrors == r.apiErrors + 1 && (CommitsFinalText(out.turn) || out.apiErrors < MAX_API_ERRORS)
              else out.apiErrors == r.apiErrors
    decreases |items|
  {
    if items != [] {
      var next := ReadItem(r, items[0]);
      if next.ending == Open {
        ReadingCounts(next, items[1..]);
      }
    }
  }

  /** Every iteration that goes round again makes the counters smaller, uses up room, and leaves
      them sound. */
  lemma {:induction false} IterationShrinks(c: Counters, env: Env, k: nat, limit: nat)
    requires Sound(c) && c.turnCount < limit && NextCounters(c, env, k).Some?
    ensures var d := NextCounters(c, env, k).value;
            Sound(d) && Smaller(d, c, limit) && Room(d, limit) < Room(c, limit)
  {
    ReadingCounts(Reading(NEW_TURN, c.apiErrors, Open), env.stream(k));
    var reading := ReadAll(Reading(NEW_TURN, c.apiErrors, Open), env.stream(k));
    hide ReadAll;
    DecisionShrinks(c, reading.turn, reading.apiErrors, env.recovers(k), limit);
  }

  lemma DecisionShrinks(c: Counters, turn: Turn, errors: nat, recovered: bool, limit: nat)
    requires Sound(c) && c.turnCount < limit && Decide(c, turn, errors, recovered).Some?
    requires turn.hadError ==> errors == c.apiErrors + 1 && (CommitsFinalText(turn) || errors < MAX_API_ERRORS)
    ensures var d := Decide(c, turn, errors, recovered).value;
            Sound(d) && Smaller(d, c, limit) && Room(d, limit) < Room(c, limit)
  {
  }

  // ----- The loop -----

  /** Number of requests sent before the loop returns. */
  function Requests(c: Counters, env: Env, k: nat, limit: nat): (n: nat)
    requires Sound(c)
    decreases Room(c, limit)
  {
    if env.interrupted(k) || c.turnCount >= limit then 0
    else
      var next := NextCounters(c, env, k);
      if next.None? then 1
      else
        IterationShrinks(c, env, k, limit);
        1 + Requests(next.value, env, k + 1, limit)
  }

  /** The loop itself. Dafny checks the lexicographic measure of the source's four budgets. */
  method Query(start: Counters, configuredTurns: int, env: Env) returns (requests: nat)
    requires Sound(start)
    ensures requests == Requests(start, env, 0, if configuredTurns > 0 then configuredTurns else DEFAULT_MAX_TURNS)
  {
    var limit := if configuredTurns <= 0 then DEFAULT_MAX_TURNS else configuredTurns;
    var c := start;
    requests := 0;
    while true
      invariant Sound(c)
      invariant requests + Requests(c, env, requests, limit) == Requests(start, env, 0, limit)
      decreases TurnsLeft(c, limit), ContextLeft(c), OutputLeft(c), ErrorsLeft(c)
    {
      if env.interrupted(requests) {
        break;
      }
      if c.turnCount >= limit {
        break;
      }
      var turn, errors, returned := ReadStream(env.stream(requests), c.apiErrors);
      var next := if returned then None else Decide(c, turn, errors, env.recovers(requests));
      assert next == NextCounters(c, env, requests);
      if next.None? {
        requests := requests + 1;
        break;
      }
      IterationShrinks(c, env, requests, limit);
      requests := requests + 1;
      c := next.value;
    }
  }

  /** However the provider behaves, the number of requests is at most linear in the turns left:
      with fresh counters and n turns at most 12 n + 48. */
  lemma {:induction false} RequestBound(c: Counters, env: Env, k: nat, limit: nat)
    requires Sound(c)
    ensures Requests(c, env, k, limit) <= if c.turnCount >= limit then 0 else Room(c, limit) - 12
    decreases Room(c, limit)
  {
    if !env.interrupted(k) && c.turnCount < limit {
      var next := NextCounters(c, env, k);
      if next.Some? {
        IterationShrinks(c, env, k, limit);
        RequestBound(next.value, env, k + 1, limit);
      }
    }
  }

  // ----- The bound is attained -----

  /** A provider that always uses up the cheapest budget left. */
  function WorstStream(c: Counters): (items: seq<Item>) {
    if ErrorsLeft(c) > 1 then [Transport(Transient)]
    else if OutputLeft(c) > 0 then [Truncation]
    else if ContextLeft(c) > 0 then [Transport(TooLong)]
    else [ToolUse]
  }

  function WorstNext(c: Counters): (d: Counters) {
    var next := NextCounters(c, Env(_ => WorstStream(c), _ => true, _ => false), 0);
    if next.Some? then next.value else c
  }

  function WorstAt(start: Counters, k: nat): (c: Counters) {
    if k == 0 then start else WorstNext(WorstAt(start, k - 1))
  }

  function WorstEnv(start: Counters): (env: Env) {
    Env((k: nat) => WorstStream(WorstAt(start, k)), _ => true, _ => false)
  }

  lemma WorstStep(c: Counters, limit: nat)
    requires Sound(c) && c.turnCount < limit
    ensures Sound(WorstNext(c)) && Room(WorstNext(c), limit) == Room(c, limit) - 1
    ensures NextCounters(c, Env(_ => WorstStream(c), _ => true, _ => false), 0) == Some(WorstNext(c))
  {
    var r := Reading(NEW_TURN, c.apiErrors, Open);
    var items := WorstStream(c);
    assert ReadAll(r, items) == ReadItem(r, items[0]) by {
      assert items[1..] == [];
    }
  }

  lemma {:induction false} WorstEnvStep(start: Counters, k: nat, limit: nat)
    requires Sound(WorstAt(start, k)) && WorstAt(start, k).turnCount < limit
    ensures var c, d := WorstAt(start, k), WorstAt(start, k + 1);
            && !WorstEnv(start).interrupted(k) && NextCounters(c, WorstEnv(start), k) == Some(d)
            && Sound(d) && Room(d, limit) == Room(c, limit) - 1 && d == WorstNext(c)
  {
    WorstStep(WorstAt(start, k), limit);
    assert WorstEnv(start).stream(k) == WorstStream(WorstAt(start, k));
    hide ReadAll, Decide, Room, WorstStream;
  }

  /** Against that provider the loop sends exactly as many requests as the bound allows. */
  lemma {:induction false} BoundIsAttained(start: Counters, k: nat, limit: nat)
    requires Sound(WorstAt(start, k)) && WorstAt(start, k).turnCount < limit
    ensures Requests(WorstAt(start, k), WorstEnv(start), k, limit) == Room(WorstAt(start, k), limit) - 12
    decreases Room(WorstAt(start, k), limit)
  {
    hide NextCounters, WorstAt, WorstEnv, Room, WorstNext;
    WorstEnvStep(start, k, limit);
    if WorstAt(start, k + 1).turnCount < limit {
      BoundIsAttained(start, k + 1, limit);
    } else {
      LastTurn(WorstAt(start, k), limit);
    }
  }

  lemma LastTurn(c: Counters, limit: nat)
    requires Sound(c) && c.turnCount < limit <= WorstNext(c).turnCount
    ensures Room(c, limit) == 13
  {
    var r := Reading(NEW_TURN, c.apiErrors, Open);
    var items := WorstStream(c);
    assert ReadAll(r, items) == ReadItem(r, items[0]) by {
      assert items[1..] == [];
    }
  }
}
