/** What the query loop does behind a request, read off the provider's stream (agent/loop.go). */
module QueryStream {
  import opened QueryLoop

  /** Items after which the loop reads no further. */
  predicate Stops(i: Item) {
    i.Error? || i.Transport? || i.Broken?
  }

  /** The loop reads `items` up to position `k`. */
  predicate StopsAt(items: seq<Item>, k: nat) {
    k <= |items| && (k < |items| ==> Stops(items[k])) && forall i :: 0 <= i < k ==> !Stops(items[i])
  }

  predicate EndsWith(items: seq<Item>, k: nat, fault: Fault) {
    k < |items| && (items[k] == Error(fault) || items[k] == Transport(fault))
  }

  /** Visible text without a tool call: an answer of its own, even if the stream then fails. */
  predicate Answers(seen: seq<Item>) {
    Text(false) in seen && ToolUse !in seen
  }

  // ----- Reading -----

  /** The turn behind `seen`, of which no item ends the reading. */
  function Noted(t: Turn, seen: seq<Item>): (r: Turn) {
    t.(text := t.text || Text(false) in seen,
       toolCalls := t.toolCalls + multiset(seen)[ToolUse],
       truncated := t.truncated || Truncation in seen)
  }

  lemma NotedCons(r: Reading, i: Item, rest: seq<Item>)
    requires r.ending == Open && !Stops(i)
    ensures ReadItem(r, i).ending == Open && ReadItem(r, i).apiErrors == r.apiErrors
    ensures Noted(ReadItem(r, i).turn, rest) == Noted(r.turn, [i] + rest)
  {
    assert forall x :: x in [i] + rest <==> x == i || x in rest;
    assert multiset([i] + rest) == multiset{i} + multiset(rest);
  }

  lemma {:induction false} SeenIsRead(items: seq<Item>, k: nat, r: Reading)
    requires StopsAt(items, k) && r.ending == Open
    ensures var seen := r.(turn := Noted(r.turn, items[..k]));
            ReadAll(r, items) == if k < |items| then ReadItem(seen, items[k]) else seen
    decreases k
  {
    hide ReadItem, Noted;
    if k > 0 {
      assert items[..k] == [items[0]] + items[1..][..k - 1];
      NotedCons(r, items[0], items[1..][..k - 1]);
      SeenIsRead(items[1..], k - 1, ReadItem(r, items[0]));
    } else {
      StopsHere(items, r);
    }
  }

  lemma StopsHere(items: seq<Item>, r: Reading)
    requires StopsAt(items, 0) && r.ending == Open
    ensures r.(turn := Noted(r.turn, items[..0])) == r
    ensures ReadAll(r, items) == if items == [] then r else ReadItem(r, items[0])
  {
    if items != [] {
      var last := ReadItem(r, items[0]);
      assert last.ending != Open && ReadAll(last, items[1..]) == last;
    }
  }

  // ----- Deciding -----

  /** The loop sends another request behind a stream that stops at `k`. */
  predicate GoesOn(c: Counters, items: seq<Item>, k: nat, recovered: bool)
    requires k <= |items|
  {
    var seen := items[..k];
    var continued := ToolUse !in seen && Truncation in seen && (!c.escalated || c.retries < MAX_OUTPUT_RETRIES);
    if k == |items| then ToolUse in seen || continued
    else
      match items[k]
      case Error(TooLong) => recovered && c.contextRetries < MAX_CONTEXT_RETRIES
      case Transport(TooLong) => recovered && c.contextRetries < MAX_CONTEXT_RETRIES
      case Error(Transient) => if Answers(seen) then continued else c.apiErrors + 1 < MAX_API_ERRORS
      case Transport(Transient) => c.apiErrors + 1 < MAX_API_ERRORS && (Answers(seen) ==> continued)
      case _ => false
  }

  /** A request is followed by another one exactly if its stream asks for it: it calls tools, or was cut
      off with retries left, or failed in a way that may be tried again. A failure behind visible text
      without calls is no reason to try again. */
  lemma {:induction false} StreamDecides(c: Counters, env: Env, n: nat, k: nat)
    requires Sound(c) && StopsAt(env.stream(n), k)
    ensures NextCounters(c, env, n).Some? <==> GoesOn(c, env.stream(n), k, env.recovers(n))
  {
    SeenIsRead(env.stream(n), k, Reading(NEW_TURN, c.apiErrors, Open));
    hide ReadAll;
  }

  /** What going on behind that stream costs. */
  predicate Charged(c: Counters, items: seq<Item>, k: nat, d: Counters)
    requires k <= |items|
  {
    var seen := items[..k];
    var failed := EndsWith(items, k, Transient) && !Answers(seen);
    && d.apiErrors == (if failed then c.apiErrors + 1 else 0)
    && if EndsWith(items, k, TooLong)
       then d == c.(apiErrors := 0, contextRetries := c.contextRetries + 1, retries := 0, escalated := false)
       else if ToolUse in seen then d == c.(apiErrors := d.apiErrors, turnCount := c.turnCount + 1, retries := 0)
       else if failed then d == c.(apiErrors := d.apiErrors)
       else if c.escalated then d == c.(apiErrors := 0, retries := c.retries + 1)
       else d == c.(apiErrors := 0, escalated := true)
  }

  /** The counters behind the request say which of the four budgets its stream has used. */
  lemma {:induction false} StreamCharges(c: Counters, env: Env, n: nat, k: nat)
    requires Sound(c) && StopsAt(env.stream(n), k) && NextCounters(c, env, n).Some?
    ensures Charged(c, env.stream(n), k, NextCounters(c, env, n).value)
  {
    SeenIsRead(env.stream(n), k, Reading(NEW_TURN, c.apiErrors, Open));
    hide ReadAll;
  }
}
