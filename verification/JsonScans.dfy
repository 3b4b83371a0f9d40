/** Scanning rendered JSON: the repair changes nothing and the spacing only adds white space. */
module JsonScans {
  import opened Prelude
  import opened JsonText
  import opened JsonGrammar

  predicate Outside(s: State) {
    !s.inString && !s.escaped
  }

  /** Scanning `t` from `s` meets no misplaced colon, ends in `r`, and spacing gives `spaced`. */
  predicate Scans(s: State, t: string, spaced: string, r: State) {
    Quiet(s, t) && Run(s, t) == r && Spaced(s, t) == spaced
  }

  lemma {:induction false} SpacedConcat(s: State, a: string, b: string)
    ensures Spaced(s, a + b) == Spaced(s, a) + Spaced(Run(s, a), b)
    decreases |a|
  {
    if a == [] {
      assert a + b == b;
    } else {
      assert (a + b)[0] == a[0] && (a + b)[1..] == a[1..] + b;
      var first := [a[0]] + if IsSeparator(s, a[0]) then [' '] else [];
      var next := Advance(s, a[0]);
      assert Spaced(s, a + b) == first + Spaced(next, a[1..] + b) && Spaced(s, a) == first + Spaced(next, a[1..]);
      assert Run(s, a) == Run(next, a[1..]);
      hide Spaced, Run;
      SpacedConcat(next, a[1..], b);
      Assoc(first, Spaced(next, a[1..]), Spaced(Run(next, a[1..]), b));
    }
  }

  lemma Join(s: State, a: string, a': string, m: State, b: string, b': string, r: State)
    requires Scans(s, a, a', m) && Scans(m, b, b', r)
    ensures Scans(s, a + b, a' + b', r)
  {
    RunConcat(s, a, b);
    QuietConcat(s, a, b);
    SpacedConcat(s, a, b);
  }

  lemma NothingScans(s: State)
    ensures Scans(s, [], [], s)
  {
  }

  lemma CharScans(s: State, c: char)
    requires c == ':' && !s.inString ==> !Closes(s.last)
    ensures Scans(s, [c], if IsSeparator(s, c) then [c, ' '] else [c], Advance(s, c))
  {
    assert [c][1..] == [];
    assert [c] + [] + [] == [c] && [c] + [' '] + [] == [c, ' '];
    NothingScans(Advance(s, c));
  }

  /** A first byte that is no separator and no misplaced colon, and the rest. */
  lemma ConsScans(s: State, t: string, r: State)
    requires t != [] && !IsSeparator(s, t[0]) && Scans(Advance(s, t[0]), t[1..], t[1..], r)
    ensures Scans(s, t, t, r)
  {
    CharScans(s, t[0]);
    assert [t[0]] + t[1..] == t;
    Join(s, [t[0]], [t[0]], Advance(s, t[0]), t[1..], t[1..], r);
  }

  lemma {:induction false} GapScans(s: State, t: string)
    requires Outside(s) && AllSpace(t)
    ensures Scans(s, t, t, s)
    decreases |t|
  {
    if t == [] {
      NothingScans(s);
    } else {
      hide Scans;
      assert Advance(s, t[0]) == s;
      GapScans(s, t[1..]);
      ConsScans(s, t, s);
    }
  }

  lemma {:induction false} WordScans(s: State, t: string) returns (r: State)
    requires Outside(s) && forall i :: 0 <= i < |t| ==> !IsStructural(t[i])
    ensures Outside(r) && Scans(s, t, t, r)
    decreases |t|
  {
    if t == [] {
      NothingScans(s);
      return s;
    }
    hide Scans;
    r := WordScans(Advance(s, t[0]), t[1..]);
    ConsScans(s, t, r);
  }

  lemma {:induction false} BodyScans(s: State, t: string) returns (r: State)
    requires s.inString && IsBody(s.escaped, t)
    ensures r.inString && !r.escaped && Scans(s, t, t, r)
    decreases |t|
  {
    if t == [] {
      NothingScans(s);
      return s;
    }
    hide Scans;
    r := BodyScans(Advance(s, t[0]), t[1..]);
    ConsScans(s, t, r);
  }

  /** Every string ends outside strings, just after a quote. */
  lemma {:induction false} QuotedScans(s: State, body: string)
    requires Outside(s) && IsBody(false, body)
    ensures Scans(s, Quoted(body), Quoted(body), State(false, false, Some('"')))
  {
    hide Scans;
    var inside := Advance(s, '"');
    CharScans(s, '"');
    var ended := BodyScans(inside, body);
    CharScans(ended, '"');
    Join(s, ['"'], ['"'], inside, body, body, ended);
    Join(s, ['"'] + body, ['"'] + body, ended, ['"'], ['"'], Advance(ended, '"'));
  }

  lemma {:induction false} ValueScans(s: State, v: Value) returns (r: State)
    requires Outside(s) && WellFormed(v)
    ensures Outside(r) && Scans(s, Render(v), Render(AddSpace(v)), r)
    decreases v
  {
    hide Scans;
    match v {
      case Word(text) => r := WordScans(s, text);
      case Str(body) =>
        QuotedScans(s, body);
        r := State(false, false, Some('"'));
      case Arr(elements) =>
        CharScans(s, '[');
        var m := ElementsScan(Advance(s, '['), elements);
        r := BracketScans(s, '[', RenderElements(elements), RenderElements(SpaceElements(elements)), m, ']');
      case Obj(members) =>
        CharScans(s, '{');
        var m := MembersScan(Advance(s, '{'), members);
        r := BracketScans(s, '{', RenderMembers(members), RenderMembers(SpaceMembers(members)), m, '}');
    }
  }

  lemma {:induction false} BracketScans(s: State, open: char, t: string, t': string, m: State, close: char)
    returns (r: State)
    requires Outside(s) && Outside(m) && open in "[{" && close in "]}"
    requires Scans(Advance(s, open), t, t', m)
    ensures Outside(r) && Scans(s, [open] + t + [close], [open] + t' + [close], r)
  {
    hide Scans;
    CharScans(s, open);
    CharScans(m, close);
    r := Advance(m, close);
    Join(s, [open], [open], Advance(s, open), t, t', m);
    Join(s, [open] + t, [open] + t', m, [close], [close], r);
  }

  /** A comma outside strings gains a space. */
  lemma {:induction false} CommaScans(s: State, t: string, t': string, r: State)
    requires Outside(s) && Scans(Advance(s, ','), t, t', r)
    ensures Scans(s, [','] + t, [','] + ([' '] + t'), r)
  {
    hide Scans;
    CharScans(s, ',');
    Join(s, [','], [',', ' '], Advance(s, ','), t, t', r);
    assert [',', ' '] + t' == [','] + ([' '] + t');
  }

  lemma LeadAddsSpace(e: Elements)
    ensures RenderElements(Lead(e)) == [' '] + RenderElements(e)
  {
    if e.Element? {
      var tail := if e.rest.Some? then [','] + RenderElements(e.rest.value) else [];
      assert ([' '] + e.before) + Render(e.value) + e.after + tail ==
          [' '] + (e.before + Render(e.value) + e.after + tail);
    }
  }

  lemma {:induction false} ElementsScan(s: State, e: Elements) returns (r: State)
    requires Outside(s) && WellFormedElements(e)
    ensures Outside(r) && Scans(s, RenderElements(e), RenderElements(SpaceElements(e)), r)
    decreases e
  {
    hide Scans;
    if e.NoElements? {
      GapScans(s, e.gap);
      return s;
    }
    GapScans(s, e.before);
    var m := ValueScans(s, e.value);
    GapScans(m, e.after);
    var a, a' := Render(e.value), Render(AddSpace(e.value));
    Join(s, e.before, e.before, s, a, a', m);
    Join(s, e.before + a, e.before + a', m, e.after, e.after, m);
    var t, t' := e.before + a + e.after, e.before + a' + e.after;
    var tail, tail' := "", "";
    if e.rest.None? {
      NothingScans(m);
      r := m;
    } else {
      r := ElementsScan(Advance(m, ','), e.rest.value);
      var spaced := SpaceElements(e.rest.value);
      CommaScans(m, RenderElements(e.rest.value), RenderElements(spaced), r);
      LeadAddsSpace(spaced);
      tail, tail' := [','] + RenderElements(e.rest.value), [','] + RenderElements(Lead(spaced));
    }
    Join(s, t, t', m, tail, tail', r);
  }

  lemma LeadAddsSpaceToMember(m: Members)
    ensures RenderMembers(LeadMember(m)) == [' '] + RenderMembers(m)
  {
    if m.Member? {
      var tail := Quoted(m.name) + m.mid + [':'] + m.lead + Render(m.value) + m.after
                  + if m.rest.Some? then [','] + RenderMembers(m.rest.value) else [];
      assert RenderMembers(m) == m.before + tail;
      assert RenderMembers(LeadMember(m)) == ([' '] + m.before) + tail;
      assert ([' '] + m.before) + tail == [' '] + (m.before + tail);
    }
  }

  /** A name and its colon: the colon follows a quote, so it is never misplaced. */
  lemma {:induction false} NameScans(s: State, m: Members) returns (r: State)
    requires Outside(s) && m.Member? && WellFormedMembers(m)
    ensures Outside(r)
    ensures Scans(s, m.before + Quoted(m.name) + m.mid + [':'] + m.lead,
                  m.before + Quoted(m.name) + m.mid + [':'] + ([' '] + m.lead), r)
  {
    hide Scans, Quoted;
    var named := State(false, false, Some('"'));
    GapScans(s, m.before);
    QuotedScans(s, m.name);
    GapScans(named, m.mid);
    CharScans(named, ':');
    r := Advance(named, ':');
    GapScans(r, m.lead);
    var name := Quoted(m.name);
    Join(s, m.before, m.before, s, name, name, named);
    Join(s, m.before + name, m.before + name, named, m.mid, m.mid, named);
    var t := m.before + name + m.mid;
    Join(s, t, t, named, [':'], [':', ' '], r);
    Join(s, t + [':'], t + [':', ' '], r, m.lead, m.lead, r);
    assert (t + [':', ' ']) + m.lead == t + [':'] + ([' '] + m.lead);
  }

  lemma {:induction false} MembersScan(s: State, m: Members) returns (r: State)
    requires Outside(s) && WellFormedMembers(m)
    ensures Outside(r) && Scans(s, RenderMembers(m), RenderMembers(SpaceMembers(m)), r)
    decreases m
  {
    hide Scans, Quoted;
    if m.NoMembers? {
      GapScans(s, m.gap);
      return s;
    }
    var named := NameScans(s, m);
    var valued := ValueScans(named, m.value);
    GapScans(valued, m.after);
    var t := m.before + Quoted(m.name) + m.mid + [':'] + m.lead;
    var t' := m.before + Quoted(m.name) + m.mid + [':'] + ([' '] + m.lead);
    var a, a' := Render(m.value), Render(AddSpace(m.value));
    Join(s, t, t', named, a, a', valued);
    Join(s, t + a, t' + a', valued, m.after, m.after, valued);
    var tail, tail' := "", "";
    if m.rest.None? {
      NothingScans(valued);
      r := valued;
    } else {
      r := MembersScan(Advance(valued, ','), m.rest.value);
      var spaced := SpaceMembers(m.rest.value);
      CommaScans(valued, RenderMembers(m.rest.value), RenderMembers(spaced), r);
      LeadAddsSpaceToMember(spaced);
      tail, tail' := [','] + RenderMembers(m.rest.value), [','] + RenderMembers(LeadMember(spaced));
    }
    Join(s, t + a + m.after, t' + a' + m.after, valued, tail, tail', r);
  }

  // ----- The two theorems -----

  /** A JSON text: a value with white space around it. */
  function TextOf(before: string, v: Value, after: string): (t: string) {
    before + Render(v) + after
  }

  lemma {:induction false} TextScans(before: string, v: Value, after: string) returns (r: State)
    requires AllSpace(before) && AllSpace(after) && WellFormed(v)
    ensures Scans(START, TextOf(before, v, after), TextOf(before, AddSpace(v), after), r)
  {
    hide Scans;
    GapScans(START, before);
    r := ValueScans(START, v);
    GapScans(r, after);
    Join(START, before, before, START, Render(v), Render(AddSpace(v)), r);
    Join(START, before + Render(v), before + Render(AddSpace(v)), r, after, after, r);
  }

  /** The delimiter repair leaves every JSON text unchanged. */
  lemma RepairKeepsValidText(before: string, v: Value, after: string)
    requires AllSpace(before) && AllSpace(after) && WellFormed(v)
    ensures Repaired(TextOf(before, v, after)) == TextOf(before, v, after)
  {
    var r := TextScans(before, v, after);
    QuietIsUnchanged(TextOf(before, v, after));
  }

  /** The spaced text renders the same tree with more white space. */
  lemma SpacingRendersSpacedTree(before: string, v: Value, after: string)
    requires AllSpace(before) && AllSpace(after) && WellFormed(v)
    ensures Spaced(START, TextOf(before, v, after)) == TextOf(before, AddSpace(v), after)
    ensures WellFormed(AddSpace(v)) && MeaningOf(AddSpace(v)) == MeaningOf(v)
  {
    var r := TextScans(before, v, after);
    SpacingKeepsMeaning(v);
    SpacedIsWellFormed(v);
  }

  lemma {:induction false} SpacedIsWellFormed(v: Value)
    requires WellFormed(v)
    ensures WellFormed(AddSpace(v))
    decreases v
  {
    match v
    case Arr(elements) => SpacedElementsAreWellFormed(elements);
    case Obj(members) => SpacedMembersAreWellFormed(members);
    case _ =>
  }

  lemma {:induction false} SpacedElementsAreWellFormed(e: Elements)
    requires WellFormedElements(e)
    ensures WellFormedElements(SpaceElements(e)) && WellFormedElements(Lead(SpaceElements(e)))
    ensures e.Element? <==> Lead(SpaceElements(e)).Element?
    decreases e
  {
    if e.Element? {
      SpacedIsWellFormed(e.value);
      if e.rest.Some? {
        SpacedElementsAreWellFormed(e.rest.value);
      }
    }
  }

  lemma {:induction false} SpacedMembersAreWellFormed(m: Members)
    requires WellFormedMembers(m)
    ensures WellFormedMembers(SpaceMembers(m)) && WellFormedMembers(LeadMember(SpaceMembers(m)))
    ensures m.Member? <==> LeadMember(SpaceMembers(m)).Member?
    decreases m
  {
    if m.Member? {
      SpacedIsWellFormed(m.value);
      if m.rest.Some? {
        SpacedMembersAreWellFormed(m.rest.value);
      }
    }
  }
}
