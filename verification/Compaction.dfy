/** Where a history may be cut, and what a compacted history keeps (agentContext/message.go,
    agentContext/manager.go). */
module Compaction {
  import opened Prelude
  import opened Messages

  /** A history entry: its context id, whether it is transient runtime context, and the message. */
  datatype Entry = Entry(cid: Name, transient: bool, message: Message)

  function Uses(e: Entry): (s: set<Name>) {
    set b | b in BlocksOf(e.message) && b.ToolUse? :: b.id
  }

  function Results(e: Entry): (s: set<Name>) {
    set b | b in BlocksOf(e.message) && b.ToolResult? :: b.id
  }

  function AllUses(h: seq<Entry>): (s: set<Name>) {
    set i, id | 0 <= i < |h| && id in Uses(h[i]) :: id
  }

  function AllResults(h: seq<Entry>): (s: set<Name>) {
    set i, id | 0 <= i < |h| && id in Results(h[i]) :: id
  }

  /** No retained result has a call before the cut. */
  predicate SafeCut(h: seq<Entry>, cut: nat) {
    cut <= |h| && AllUses(h[..cut]) !! AllResults(h[cut..])
  }

  // ----- The greatest safe cut -----

  /** The results of the retained tail. */
  method CollectNeeded(h: seq<Entry>, start: nat) returns (needed: set<Name>)
    requires start <= |h|
    ensures needed == AllResults(h[start..])
  {
    needed := {};
    for i := start to |h|
      invariant needed == AllResults(h[start..i])
    {
      NextResults(h, start, i);
      needed := needed + Results(h[i]);
    }
    assert h[start..|h|] == h[start..];
  }

  lemma NextResults(h: seq<Entry>, start: nat, i: nat)
    requires start <= i < |h|
    ensures AllResults(h[start..i + 1]) == AllResults(h[start..i]) + Results(h[i])
  {
    var a, b := h[start..i], h[start..i + 1];
    assert b == a + [h[i]];
    forall id ensures id in AllResults(b) <==> id in AllResults(a) + Results(h[i]) {
      if id in AllResults(b) {
        var k :| 0 <= k < |b| && id in Results(b[k]);
        assert k < |a| ==> b[k] == a[k];
      }
      if id in AllResults(a) {
        var k :| 0 <= k < |a| && id in Results(a[k]);
        assert b[k] == a[k];
      }
      if id in Results(h[i]) {
        assert b[|a|] == h[i];
      }
    }
  }

  /** The first entry before `start` with a needed call, or `start`. */
  method FirstNeeded(h: seq<Entry>, start: nat, needed: set<Name>) returns (next: nat)
    requires start <= |h|
    ensures next <= start
    ensures forall i :: 0 <= i < next ==> Uses(h[i]) * needed == {}
    ensures next < start ==> Uses(h[next]) * needed != {}
  {
    next := start;
    for i := 0 to start
      invariant next <= start && (next < start ==> next < i && Uses(h[next]) * needed != {})
      invariant forall k :: 0 <= k < (if next < start then next else i) ==> Uses(h[k]) * needed == {}
    {
      if Uses(h[i]) * needed != {} && i < next {
        next := i;
      }
    }
  }

  /** The greatest cut that keeps at least the wanted tail and is safe. */
  ghost predicate IsCut(h: seq<Entry>, keep: nat, start: nat) {
    && SafeCut(h, start) && start <= Max(0, |h| - keep)
    && forall cut: nat :: SafeCut(h, cut) && cut <= Max(0, |h| - keep) ==> cut <= start
  }

  method SafeTailStart(h: seq<Entry>, keep: nat) returns (start: nat)
    ensures IsCut(h, keep, start)
  {
    hide AllUses, AllResults, Uses, Results;
    start := if |h| < keep then 0 else |h| - keep;
    while true
      invariant start <= Max(0, |h| - keep) && start <= |h|
      invariant forall cut: nat :: SafeCut(h, cut) && cut <= Max(0, |h| - keep) ==> cut <= start
      decreases start
    {
      var needed := CollectNeeded(h, start);
      var next := FirstNeeded(h, start, needed);
      if next == start {
        SafeHere(h, start, needed);
        return;
      }
      forall cut: nat | SafeCut(h, cut) && cut <= start ensures cut <= next {
        NoSafeCutBetween(h, start, next, cut, needed);
      }
      start := next;
    }
  }

  lemma CutIsInside(h: seq<Entry>, keep: nat, end: nat)
    requires IsCut(h, keep, end)
    ensures end <= |h| && SafeCut(h, end) && (h != [] && 0 < keep ==> end < |h|)
  {
  }

  lemma SafeHere(h: seq<Entry>, start: nat, needed: set<Name>)
    requires start <= |h| && needed == AllResults(h[start..]) && forall i :: 0 <= i < start ==>
        Uses(h[i]) * needed == {}
    ensures SafeCut(h, start)
  {
    forall id | id in AllUses(h[..start]) ensures id !in needed {
      var i :| 0 <= i < start && id in Uses(h[..start][i]);
      assert h[..start][i] == h[i] && id !in Uses(h[i]) * needed;
    }
  }

  lemma UsedBefore(h: seq<Entry>, cut: nat, i: nat, id: Name)
    requires i < cut <= |h| && id in Uses(h[i])
    ensures id in AllUses(h[..cut])
  {
    assert h[..cut][i] == h[i];
  }

  /** A safe cut at or before `start` cannot leave a call needed after `start` behind. */
  lemma NoSafeCutBetween(h: seq<Entry>, start: nat, next: nat, cut: nat, needed: set<Name>)
    requires next < start <= |h| && needed == AllResults(h[start..]) && Uses(h[next]) * needed != {}
    requires SafeCut(h, cut) && cut <= start
    ensures cut <= next
  {
    var id :| id in Uses(h[next]) * needed;
    var k :| 0 <= k < |h[start..]| && id in Results(h[start..][k]);
    assert h[cut..][k + start - cut] == h[start..][k];
    assert id in AllResults(h[cut..]);
    if next < cut {
      UsedBefore(h, cut, next, id);
    }
  }

  // ----- Replacing the history by a summary -----

  /** A user message that is neither a tool result nor transient runtime context. */
  predicate PlainRequest(e: Entry) {
    e.message.role == User && Results(e) == {} && !e.transient
  }

  /** Position of the latest plain request, if any. */
  predicate IsLatest(h: seq<Entry>, i: nat) {
    i < |h| && PlainRequest(h[i]) && forall k :: i < k < |h| ==> !PlainRequest(h[k])
  }

  method FindLatest(h: seq<Entry>, before: nat) returns (found: Option<nat>)
    requires before <= |h|
    ensures found.Some? ==> IsLatest(h[..before], found.value)
    ensures found.None? ==> forall k :: 0 <= k < before ==> !PlainRequest(h[k])
  {
    hide PlainRequest;
    var i := before;
    while i > 0
      invariant 0 <= i <= before && forall k :: i <= k < before ==> !PlainRequest(h[k])
    {
      i := i - 1;
      if PlainRequest(h[i]) {
        return Some(i);
      }
    }
    return None;
  }

  /** The summary, the latest plain request before the tail unless there is none, and the tail. */
  ghost predicate IsReplacement(h: seq<Entry>, tail: nat, handoff: Entry, out: seq<Entry>) {
    && tail <= |h|
    && if exists k :: 0 <= k < tail && PlainRequest(h[k])
       then exists i: nat :: IsLatest(h[..tail], i) && out == [handoff] + [h[i]] + h[tail..]
       else out == [handoff] + h[tail..]
  }

  method BuildReplacement(h: seq<Entry>, tail: nat, handoff: Entry) returns (candidate: seq<Entry>)
    requires SafeCut(h, tail) && Uses(handoff) == {} && Results(handoff) == {}
    ensures Keeps(h, candidate) && IsReplacement(h, tail, handoff, candidate)
  {
    candidate := [handoff];
    var latest := FindLatest(h, tail);
    if latest.Some? {
      candidate := candidate + [h[latest.value]];
    }
    ghost var lead := candidate;
    candidate := candidate + h[tail..];
    LeadKeeps(h, tail, lead, latest);
    if latest.Some? {
      assert PlainRequest(h[latest.value]) by { assert h[..tail][latest.value] == h[latest.value]; }
    }
  }

  /** What every compacted history keeps: the calls of the results it retains, and the latest plain
      request. In particular it orphans no result. */
  ghost predicate Keeps(h: seq<Entry>, out: seq<Entry>) {
    && AllResults(out) * AllUses(h) <= AllUses(out)
    && (AllResults(h) <= AllUses(h) ==> AllResults(out) <= AllUses(out))
    && (forall i: nat :: IsLatest(h, i) ==> h[i] in out)
  }

  lemma KeepsItself(h: seq<Entry>)
    ensures Keeps(h, h)
  {
  }

  lemma LeadKeeps(h: seq<Entry>, tail: nat, lead: seq<Entry>, latest: Option<nat>)
    requires SafeCut(h, tail) && |lead| == (if latest.Some? then 2 else 1)
    requires Uses(lead[0]) == {} && Results(lead[0]) == {}
    requires latest.Some? ==> IsLatest(h[..tail], latest.value) && lead[1] == h[latest.value]
    requires latest.None? ==> forall k :: 0 <= k < tail ==> !PlainRequest(h[k])
    ensures Keeps(h, lead + h[tail..])
  {
    var out := lead + h[tail..];
    forall id | id in AllResults(out) ensures id in AllResults(h[tail..]) && id in AllResults(h) {
      LeadHasNoResults(h, tail, lead, id);
    }
    forall id | id in AllResults(out) && id in AllUses(h) ensures id in AllUses(out) {
      LeadHasNoResults(h, tail, lead, id);
      CallIsInTail(h, tail, id);
      var k :| 0 <= k < |h[tail..]| && id in Uses(h[tail..][k]);
      assert out[|lead| + k] == h[tail..][k];
    }
    forall i: nat | IsLatest(h, i) ensures h[i] in out {
      if i < tail {
        assert h[..tail][i] == h[i];
        assert latest.Some?;
        assert latest.value == i by {
          assert h[..tail][latest.value] == h[latest.value];
        }
        assert out[1] == h[i];
      } else {
        assert out[|lead| + i - tail] == h[i];
      }
    }
  }

  lemma LeadHasNoResults(h: seq<Entry>, tail: nat, lead: seq<Entry>, id: Name)
    requires tail <= |h| && id in AllResults(lead + h[tail..])
    requires forall k :: 0 <= k < |lead| ==> Results(lead[k]) == {}
    ensures id in AllResults(h[tail..]) && id in AllResults(h)
  {
    var out := lead + h[tail..];
    var k :| 0 <= k < |out| && id in Results(out[k]);
    assert out[k] == h[tail..][k - |lead|] == h[tail + k - |lead|];
  }

  lemma CallIsInTail(h: seq<Entry>, tail: nat, id: Name)
    requires SafeCut(h, tail) && id in AllResults(h[tail..]) && id in AllUses(h)
    ensures id in AllUses(h[tail..])
  {
    var k :| 0 <= k < |h| && id in Uses(h[k]);
    if k < tail {
      UsedBefore(h, tail, k, id);
    } else {
      assert h[tail..][k - tail] == h[k];
    }
  }

  /** The summary stage: the history is replaced exactly if something lies before the cut for four
      entries and a summary succeeds and pays off, and then by the replacement for that cut. Either way
      nothing required is lost. */
  method ReplaceHistory(h: seq<Entry>, handoff: Option<Entry>, paysOff: bool) returns (out: seq<Entry>, replaced: bool)
    requires handoff.Some? ==> Uses(handoff.value) == {} && Results(handoff.value) == {}
    ensures Keeps(h, out)
    ensures exists tail: nat ::
              && IsCut(h, 4, tail) && (replaced <==> 0 < tail && handoff.Some? && paysOff)
              && if replaced then IsReplacement(h, tail, handoff.value, out) else out == h
  {
    hide *;
    KeepsItself(h);
    out, replaced := h, false;
    var tail := SafeTailStart(h, 4);
    CutIsInside(h, 4, tail);
    if tail > 0 && handoff.Some? {
      var candidate := BuildReplacement(h, tail, handoff.value);
      if paysOff {
        out, replaced := candidate, true;
      }
    }
  }
}
