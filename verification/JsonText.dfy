/** Two byte scanners over JSON text: the delimiter repair (agent/memory_structured_response.go)
    and the separator spacing (api/client.go). */
module JsonText {
  import opened Prelude

  predicate IsSpace(c: char) {
    c == ' ' || c == '\t' || c == '\r' || c == '\n'
  }

  // ----- The string scanner -----

  /** Inside a string or not, after a backslash or not, and the last byte that is no space. */
  datatype State = State(inString: bool, escaped: bool, last: Option<char>)

  const START := State(false, false, None)

  function Advance(s: State, c: char): (r: State) {
    var last := if IsSpace(c) then s.last else Some(c);
    if !s.inString then State(c == '"', false, last)
    else if s.escaped then State(true, false, last)
    else if c == '\\' then State(true, true, last)
    else State(c != '"', false, last)
  }

  function Run(s: State, t: string): (r: State)
    decreases |t|
  {
    if t == [] then s else Run(Advance(s, t[0]), t[1..])
  }

  lemma {:induction false} RunConcat(s: State, a: string, b: string)
    ensures Run(s, a + b) == Run(Run(s, a), b)
    decreases |a|
  {
    if a == [] {
      assert a + b == b;
    } else {
      assert (a + b)[0] == a[0] && (a + b)[1..] == a[1..] + b;
      RunConcat(Advance(s, a[0]), a[1..], b);
    }
  }

  function At(t: string, i: nat): (s: State)
    requires i <= |t|
  {
    Run(START, t[..i])
  }

  lemma AtNext(t: string, i: nat)
    requires i < |t|
    ensures At(t, i + 1) == Advance(At(t, i), t[i])
  {
    assert t[..i + 1] == t[..i] + [t[i]];
    RunConcat(START, t[..i], [t[i]]);
    assert [t[i]][1..] == [];
  }

  // ----- Neighbours -----

  /** `c` is the last non-space before `before`. */
  ghost predicate IsPrevious(t: string, before: nat, c: Option<char>)
    requires before <= |t|
  {
    if c.None? then forall j :: 0 <= j < before ==> IsSpace(t[j])
    else exists k: nat :: k < before && t[k] == c.value && !IsSpace(t[k]) && forall j :: k < j < before ==>
        IsSpace(t[j])
  }

  /** The scanner's memory of the last non-space is what looking back would find. */
  lemma {:induction false} LastIsPrevious(t: string, i: nat)
    requires i <= |t|
    ensures IsPrevious(t, i, At(t, i).last)
  {
    if i > 0 {
      LastIsPrevious(t, i - 1);
      AtNext(t, i - 1);
      var c := At(t, i - 1).last;
      if !IsSpace(t[i - 1]) {
        assert t[i - 1] == At(t, i).last.value;
      } else if c.Some? {
        var k: nat :| k < i - 1 && t[k] == c.value && !IsSpace(t[k]) && forall j :: k < j < i - 1 ==> IsSpace(t[j]);
        assert k < i && forall j :: k < j < i ==> IsSpace(t[j]);
      }
    }
  }

  lemma PreviousIsUnique(t: string, i: nat, a: Option<char>, b: Option<char>)
    requires i <= |t| && IsPrevious(t, i, a) && IsPrevious(t, i, b)
    ensures a == b
  {
  }

  method PreviousNonSpace(t: string, before: nat) returns (c: Option<char>)
    requires before <= |t|
    ensures c == At(t, before).last
  {
    LastIsPrevious(t, before);
    ghost var expected := At(t, before).last;
    hide At;
    var i := before;
    while i > 0
      invariant 0 <= i <= before && forall j :: i <= j < before ==> IsSpace(t[j])
    {
      i := i - 1;
      if !IsSpace(t[i]) {
        assert IsPrevious(t, before, Some(t[i]));
        PreviousIsUnique(t, before, Some(t[i]), expected);
        return Some(t[i]);
      }
    }
    PreviousIsUnique(t, before, None, expected);
    return None;
  }

  function Following(t: string, from: nat): (c: Option<char>)
    decreases |t| - from
  {
    if from >= |t| then None else if IsSpace(t[from]) then Following(t, from + 1) else Some(t[from])
  }

  method NextNonSpace(t: string, from: nat) returns (c: Option<char>)
    ensures c == Following(t, from)
  {
    var i := from;
    while i < |t|
      invariant from <= i && Following(t, i) == Following(t, from)
    {
      if !IsSpace(t[i]) {
        return Some(t[i]);
      }
      i := i + 1;
    }
    return None;
  }

  // ----- The repair -----

  predicate Closes(c: Option<char>) {
    c == Some('}') || c == Some(']')
  }

  predicate Opens(c: Option<char>) {
    c == Some('{') || c == Some('[') || c == Some('"')
  }

  /** A colon outside strings between a finished value and a new one. */
  predicate Misplaced(t: string, i: nat)
    requires i < |t|
  {
    t[i] == ':' && !At(t, i).inString && Closes(At(t, i).last) && Opens(Following(t, i + 1))
  }

  /** Exactly the misplaced colons become commas. */
  function Repaired(t: string): (r: string)
    ensures |r| == |t|
  {
    seq(|t|, i requires 0 <= i < |t| => if Misplaced(t, i) then ',' else t[i])
  }

  method RepairDelimiters(t: string) returns (repaired: string)
    ensures repaired == Repaired(t)
    ensures |repaired| == |t|
    ensures forall i :: 0 <= i < |t| && At(t, i).inString ==> repaired[i] == t[i]
  {
    hide At, Closes, Opens;
    repaired := [];
    var inString, escaped := false, false;
    StartsOutside(t);
    for i := 0 to |t|
      invariant |repaired| == i && inString == At(t, i).inString && escaped == At(t, i).escaped
      invariant !inString ==> !escaped
      invariant forall j :: 0 <= j < i ==> repaired[j] == Repaired(t)[j]
    {
      AtNext(t, i);
      var current := t[i];
      if inString {
        repaired := repaired + [current];
        if escaped {
          escaped := false;
        } else if current == '\\' {
          escaped := true;
        } else if current == '"' {
          inString := false;
        }
      } else if current == '"' {
        inString := true;
        repaired := repaired + [current];
      } else {
        var misplaced := false;
        if current == ':' {
          var previous := PreviousNonSpace(t, i);
          var next := NextNonSpace(t, i + 1);
          misplaced := Closes(previous) && Opens(next);
        }
        repaired := repaired + [if misplaced then ',' else current];
      }
    }
  }

  lemma StartsOutside(t: string)
    ensures At(t, 0) == START
  {
  }

  // ----- Repairing twice -----

  /** The repaired text has the same strings and the same closing and opening neighbours. */
  lemma {:induction false} SameScan(t: string, i: nat)
    requires i <= |t|
    ensures var a, b := At(t, i), At(Repaired(t), i);
            a.inString == b.inString && a.escaped == b.escaped && (Closes(a.last) <==> Closes(b.last))
  {
    if i > 0 {
      SameScan(t, i - 1);
      AtNext(t, i - 1);
      AtNext(Repaired(t), i - 1);
      hide At;
      assert Repaired(t)[i - 1] == if Misplaced(t, i - 1) then ',' else t[i - 1];
    } else {
      StartsOutside(t);
      StartsOutside(Repaired(t));
    }
  }

  lemma {:induction false} SameFollowing(t: string, from: nat)
    ensures Opens(Following(t, from)) <==> Opens(Following(Repaired(t), from))
    decreases |t| - from
  {
    if from < |t| {
      SameFollowing(t, from + 1);
    }
  }

  /** The repair is idempotent. */
  lemma {:induction false} RepairingTwice(t: string)
    ensures Repaired(Repaired(t)) == Repaired(t)
  {
    var r := Repaired(t);
    forall i | 0 <= i < |t| ensures Repaired(r)[i] == r[i] {
      SameScan(t, i);
      SameFollowing(t, i + 1);
      hide At, Following;
    }
  }

  /** No colon outside strings follows a closing bracket. */
  predicate Quiet(s: State, t: string)
    decreases |t|
  {
    t == [] || (!(t[0] == ':' && !s.inString && Closes(s.last)) && Quiet(Advance(s, t[0]), t[1..]))
  }

  lemma {:induction false} QuietConcat(s: State, a: string, b: string)
    ensures Quiet(s, a + b) <==> Quiet(s, a) && Quiet(Run(s, a), b)
    decreases |a|
  {
    if a == [] {
      assert a + b == b;
    } else {
      assert (a + b)[0] == a[0] && (a + b)[1..] == a[1..] + b;
      QuietConcat(Advance(s, a[0]), a[1..], b);
    }
  }

  lemma QuietIsUnchanged(t: string)
    requires Quiet(START, t)
    ensures Repaired(t) == t
  {
    forall i | 0 <= i < |t| ensures !Misplaced(t, i) {
      assert t == t[..i] + t[i..];
      QuietConcat(START, t[..i], t[i..]);
      assert t[i..][0] == t[i];
    }
  }

  // ----- Spacing separators -----

  predicate IsSeparator(s: State, c: char) {
    !s.inString && (c == ':' || c == ',')
  }

  /** A space after every separator outside strings. */
  function Spaced(s: State, t: string): (r: string)
    decreases |t|
  {
    if t == [] then []
    else [t[0]] + (if IsSeparator(s, t[0]) then [' '] else []) + Spaced(Advance(s, t[0]), t[1..])
  }

  method SpaceSeparators(data: string) returns (out: string)
    ensures out == Spaced(START, data)
  {
    hide Spaced, Run;
    out := [];
    var inString, escaped := false, false;
    ghost var s := START;
    assert data[0..] == data;
    for i := 0 to |data|
      invariant inString == s.inString && escaped == s.escaped && (!inString ==> !escaped)
      invariant out + Spaced(s, data[i..]) == Spaced(START, data)
    {
      SpacedStep(s, data, i);
      var b := data[i];
      s := Advance(s, b);
      out := out + [b];
      if escaped {
        escaped := false;
      } else if inString {
        if b == '\\' {
          escaped := true;
        } else if b == '"' {
          inString := false;
        }
      } else if b == '"' {
        inString := true;
      } else if b == ':' || b == ',' {
        out := out + [' '];
      }
    }
    SpacedNothing(s, data[|data|..]);
  }

  lemma SpacedNothing(s: State, t: string)
    requires t == []
    ensures Spaced(s, t) == []
  {
  }

  lemma SpacedStep(s: State, t: string, i: nat)
    requires i < |t|
    ensures Spaced(s, t[i..]) ==
            if IsSeparator(s, t[i]) then [t[i]] + [' '] + Spaced(Advance(s, t[i]), t[i + 1..])
            else [t[i]] + Spaced(Advance(s, t[i]), t[i + 1..])
  {
    assert t[i..][1..] == t[i + 1..];
    assert [t[i]] + [] == [t[i]];
  }

  /** Dropping the byte after every separator outside strings. */
  function Unspaced(s: State, t: string): (r: string)
    decreases |t|
  {
    if t == [] then []
    else if IsSeparator(s, t[0]) && |t| > 1 then [t[0]] + Unspaced(Advance(s, t[0]), t[2..])
    else [t[0]] + Unspaced(Advance(s, t[0]), t[1..])
  }

  /** Spacing adds nothing but the spaces: dropping them again gives the text back, whatever it is. */
  lemma {:induction false} UnspacingUndoes(s: State, t: string)
    ensures Unspaced(s, Spaced(s, t)) == t
    decreases |t|
  {
    if t != [] {
      var next := Advance(s, t[0]);
      UnspacingUndoes(next, t[1..]);
      var spaced, rest := Spaced(s, t), Spaced(next, t[1..]);
      if IsSeparator(s, t[0]) {
        assert spaced == [t[0]] + [' '] + rest && spaced[2..] == rest;
      } else {
        assert spaced == [t[0]] + rest && spaced[1..] == rest;
      }
      assert t == [t[0]] + t[1..];
    }
  }
}
