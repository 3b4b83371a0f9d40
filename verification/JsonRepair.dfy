/** What the delimiter repair repairs (agent/memory_structured_response.go): a JSON text some of whose
    commas were written as colons. */
module JsonRepair {
  import opened Prelude
  import opened JsonText
  import opened JsonGrammar
  import opened JsonScans
  import opened JsonReading

  // ----- The commas of a tree -----

  /** A comma of a rendered tree at offset `at`; a joint lies between a closing bracket and an opening
      bracket or a quote. */
  datatype Comma = Comma(at: nat, joint: bool)

  function Shifted(cs: set<Comma>, n: nat): (r: set<Comma>) {
    set c | c in cs :: Comma(c.at + n, c.joint)
  }

  predicate Bracketed(v: Value) {
    v.Arr? || v.Obj?
  }

  /** All commas between elements and between members, at any depth. */
  function Commas(v: Value): (s: set<Comma>)
    decreases v
  {
    match v
    case Arr(elements) => Shifted(ElementCommas(elements), 1)
    case Obj(members) => Shifted(MemberCommas(members), 1)
    case _ => {}
  }

  function ElementCommas(e: Elements): (s: set<Comma>)
    decreases e
  {
    match e
    case NoElements(_) => {}
    case Element(before, value, after, rest) =>
      var end := |before + Render(value) + after|;
      Shifted(Commas(value), |before|)
      + if rest.None? then {}
        else {Comma(end, Bracketed(value) && rest.value.Element? && !rest.value.value.Word?)}
             + Shifted(ElementCommas(rest.value), end + 1)
  }

  function MemberCommas(m: Members): (s: set<Comma>)
    decreases m
  {
    match m
    case NoMembers(_) => {}
    case Member(before, name, mid, lead, value, after, rest) =>
      var start := |before + Quoted(name) + mid + [':'] + lead|;
      var end := start + |Render(value) + after|;
      Shifted(Commas(value), start)
      + if rest.None? then {}
        else {Comma(end, Bracketed(value) && rest.value.Member?)} + Shifted(MemberCommas(rest.value), end + 1)
  }

  /** The text with a colon in place of some of its commas. */
  function Damaged(t: string, hit: set<Comma>): (r: string) {
    seq(|t|, i requires 0 <= i < |t| => if IsHit(hit, i) then ':' else t[i])
  }

  predicate IsHit(hit: set<Comma>, i: nat) {
    exists c :: c in hit && c.at == i
  }

  // ----- Commas outside strings -----

  /** A comma outside strings, and whether a closing bracket stands before it and an opening bracket
      or a quote behind it. */
  predicate IsComma(t: string, i: nat) {
    i < |t| && t[i] == ',' && Outside(At(t, i))
  }

  predicate IsJoint(t: string, i: nat)
    requires i < |t|
  {
    Closes(At(t, i).last) && Opens(Following(t, i + 1))
  }

  ghost predicate Located(t: string, base: nat, cs: set<Comma>) {
    forall c :: c in cs ==> IsComma(t, base + c.at) && (c.joint <==> IsJoint(t, base + c.at))
  }

  lemma LocatedShift(t: string, base: nat, cs: set<Comma>, n: nat)
    requires Located(t, base + n, cs)
    ensures Located(t, base, Shifted(cs, n))
  {
    forall c | c in Shifted(cs, n) ensures IsComma(t, base + c.at) && (c.joint <==> IsJoint(t, base + c.at)) {
      var d :| d in cs && c == Comma(d.at + n, d.joint);
      assert base + n + d.at == base + c.at;
    }
  }

  lemma LocatedUnion(t: string, base: nat, a: set<Comma>, b: set<Comma>)
    requires Located(t, base, a) && Located(t, base, b)
    ensures Located(t, base, a + b)
  {
  }

  /** Where the scanner stands behind `x`. */
  lemma AtSplit(x: string, y: string)
    ensures At(x + y, |x|) == Run(START, x)
  {
    assert (x + y)[..|x|] == x;
  }

  lemma {:induction false} FollowingSplit(x: string, gap: string, y: string)
    requires AllSpace(gap) && y != [] && !IsSpace(y[0])
    ensures Following(x + gap + y, |x|) == Some(y[0])
    decreases |gap|
  {
    var t := x + gap + y;
    if gap == [] {
      assert t[|x|] == y[0];
    } else {
      assert t[|x|] == gap[0];
      FollowingSplit(x + [gap[0]], gap[1..], y);
      assert x + [gap[0]] + gap[1..] == x + gap;
    }
  }

  // ----- The commas of a tree are where the rendering has them -----

  lemma {:induction false} RunLast(s: State, t: string)
    requires t != [] && !IsSpace(t[|t| - 1])
    ensures Run(s, t).last == Some(t[|t| - 1])
  {
    var front, c := t[..|t| - 1], t[|t| - 1];
    assert t == front + [c] && [c][1..] == [];
    RunConcat(s, front, [c]);
  }

  lemma LastByte(v: Value)
    requires WellFormed(v)
    ensures Render(v) != [] && !IsSpace(Render(v)[|Render(v)| - 1])
    ensures Closes(Some(Render(v)[|Render(v)| - 1])) <==> Bracketed(v)
  {
  }

  /** Behind a value and its white space the scanner is outside strings, and remembers a closing bracket
      exactly if the value ends in one. */
  lemma {:induction false} BehindValue(x: string, v: Value, after: string)
    requires Outside(Run(START, x)) && WellFormed(v) && AllSpace(after)
    ensures var r := Run(START, x + Render(v) + after); Outside(r) && (Closes(r.last) <==> Bracketed(v))
  {
    hide Run, Closes, Render, WellFormed;
    var s := Run(START, x);
    var r := ValueScans(s, v);
    LastByte(v);
    RunLast(s, Render(v));
    GapScans(r, after);
    RunConcat(START, x, Render(v));
    RunConcat(START, x + Render(v), after);
  }

  lemma {:induction false} BehindGap(x: string, gap: string)
    requires Outside(Run(START, x)) && AllSpace(gap)
    ensures Outside(Run(START, x + gap))
  {
    hide Run;
    GapScans(Run(START, x), gap);
    RunConcat(START, x, gap);
  }

  lemma {:induction false} BehindByte(x: string, c: char)
    requires Outside(Run(START, x)) && c != '"'
    ensures Outside(Run(START, x + [c]))
  {
    RunConcat(START, x, [c]);
    assert [c][1..] == [];
  }

  lemma {:induction false} BehindName(x: string, m: Members)
    requires Outside(Run(START, x)) && m.Member? && WellFormedMembers(m)
    ensures Outside(Run(START, x + (m.before + Quoted(m.name) + m.mid + [':'] + m.lead)))
  {
    hide Run, Quoted;
    var r := NameScans(Run(START, x), m);
    RunConcat(START, x, m.before + Quoted(m.name) + m.mid + [':'] + m.lead);
  }

  /** A comma between `x` and what opens behind it. */
  lemma {:induction false} LocateComma(x: string, joint: bool, gap: string, y: string)
    requires Outside(Run(START, x)) && AllSpace(gap) && y != [] && !IsSpace(y[0])
    requires joint <==> Closes(Run(START, x).last) && Opens(Some(y[0]))
    ensures Located(x + [','] + gap + y, 0, {Comma(|x|, joint)})
  {
    var t := x + [','] + gap + y;
    assert t == x + ([','] + gap + y);
    AtSplit(x, [','] + gap + y);
    FollowingSplit(x + [','], gap, y);
  }

  lemma LocatedFrom(t: string, base: nat, cs: set<Comma>)
    requires Located(t, 0, Shifted(cs, base))
    ensures Located(t, base, cs)
  {
    forall c | c in cs ensures IsComma(t, base + c.at) && (c.joint <==> IsJoint(t, base + c.at)) {
      assert Comma(c.at + base, c.joint) in Shifted(cs, base);
    }
  }

  lemma ShiftedOne(at: nat, joint: bool, n: nat)
    ensures Shifted({Comma(at, joint)}, n) == {Comma(at + n, joint)}
  {
  }

  lemma {:induction false} LocateValue(x: string, v: Value, y: string)
    requires Outside(Run(START, x)) && WellFormed(v)
    ensures Located(x + Render(v) + y, |x|, Commas(v))
    decreases v, 0
  {
    hide Run, Located;
    match v {
      case Arr(elements) =>
        BehindByte(x, '[');
        LocateElements(x + ['['], elements, [']'] + y);
        Rebracket(x, '[', RenderElements(elements), ']', y);
        LocatedShift(x + Render(v) + y, |x|, ElementCommas(elements), 1);
      case Obj(members) =>
        BehindByte(x, '{');
        LocateMembers(x + ['{'], members, ['}'] + y);
        Rebracket(x, '{', RenderMembers(members), '}', y);
        LocatedShift(x + Render(v) + y, |x|, MemberCommas(members), 1);
      case _ => NoCommas(x + Render(v) + y, |x|);
    }
  }

  lemma NoCommas(t: string, base: nat)
    ensures Located(t, base, {})
  {
  }

  lemma Rebracket(x: string, open: char, a: string, close: char, y: string)
    ensures (x + [open]) + a + ([close] + y) == x + ([open] + a + [close]) + y
  {
  }

  /** A value with what stands before and behind it, and the text around all that. */
  lemma {:induction false} LocateItem(x: string, lead: string, v: Value, after: string, y: string)
    requires Outside(Run(START, x + lead)) && WellFormed(v) && AllSpace(after)
    ensures var item := lead + Render(v) + after;
            && Located(x + item + y, |x|, Shifted(Commas(v), |lead|))
            && Outside(Run(START, x + item)) && (Closes(Run(START, x + item).last) <==> Bracketed(v))
    decreases v, 1
  {
    var a := Render(v);
    hide Run, Located, Render, Commas, WellFormed;
    LocateValue(x + lead, v, after + y);
    ItemPieces(x, lead, a, after, y);
    LocatedShift(x + (lead + a + after) + y, |x|, Commas(v), |lead|);
    BehindValue(x + lead, v, after);
  }

  lemma ItemPieces(x: string, lead: string, a: string, after: string, y: string)
    ensures x + (lead + a + after) + y == (x + lead) + a + (after + y)
    ensures x + (lead + a + after) == (x + lead) + a + after
  {
  }

  /** A comma behind an item, and a further item behind the comma. */
  lemma TailPieces(x: string, item: string, more: string, y: string)
    ensures x + (item + ([','] + more)) + y == x + item + ([','] + more + y)
    ensures x + (item + ([','] + more)) + y == (x + item + [',']) + more + y
  {
  }

  lemma GapPieces(x: string, gap: string, z: string, more: string, y: string)
    requires more + y == gap + z
    ensures (x + [',']) + more + y == x + [','] + gap + z
  {
    assert (x + [',']) + more + y == (x + [',']) + (more + y);
    assert (x + [',']) + (gap + z) == x + [','] + gap + z;
  }

  /** The comma behind an item, located in the whole text. */
  lemma {:induction false} LocateBehind(x: string, item: string, joint: bool, gap: string, z: string, more: string,
                                        y: string)
    requires Outside(Run(START, x + item)) && AllSpace(gap) && z != [] && !IsSpace(z[0]) && more + y == gap + z
    requires joint <==> Closes(Run(START, x + item).last) && Opens(Some(z[0]))
    ensures Located(x + (item + ([','] + more)) + y, |x|, {Comma(|item|, joint)})
    ensures Outside(Run(START, x + item + [',']))
  {
    hide Run, Located, Closes, Opens, AllSpace;
    LocateComma(x + item, joint, gap, z);
    GapPieces(x + item, gap, z, more, y);
    TailPieces(x, item, more, y);
    ShiftedOne(|item|, joint, |x|);
    LocatedFrom(x + (item + ([','] + more)) + y, |x|, {Comma(|item|, joint)});
    BehindByte(x + item, ',');
  }

  lemma RenderedElement(e: Elements)
    requires e.Element?
    ensures var item := e.before + Render(e.value) + e.after;
            RenderElements(e) == if e.rest.Some? then item + ([','] + RenderElements(e.rest.value)) else item
  {
    var item := e.before + Render(e.value) + e.after;
    assert item + [] == item;
  }

  /** What a list of elements starts with, behind its white space. */
  lemma {:induction false} ElementOpens(e: Elements, y: string) returns (z: string)
    requires e.Element? && WellFormedElements(e)
    ensures RenderElements(e) + y == e.before + z && z != [] && !IsSpace(z[0])
    ensures Opens(Some(z[0])) <==> !e.value.Word?
  {
    FirstByte(e.value);
    var a, rest := Render(e.value), if e.rest.Some? then [','] + RenderElements(e.rest.value) else [];
    RenderedElement(e);
    z := a + (e.after + rest + y);
    assert z[0] == a[0];
    hide Render, RenderElements;
    OpensPieces(e.before, a, e.after, rest, y);
    assert e.before + a + e.after + [] == e.before + a + e.after;
  }

  lemma OpensPieces(before: string, a: string, after: string, rest: string, y: string)
    ensures (before + a + after + rest) + y == before + (a + (after + rest + y))
    ensures (before + a + after + rest) == before + a + after + rest
  {
  }

  lemma {:induction false} LocateElements(x: string, e: Elements, y: string)
    requires Outside(Run(START, x)) && WellFormedElements(e)
    ensures Located(x + RenderElements(e) + y, |x|, ElementCommas(e))
    decreases e
  {
    hide Run, Located, Closes, Opens;
    if e.NoElements? {
      NoCommas(x + RenderElements(e) + y, |x|);
    } else {
      var item := e.before + Render(e.value) + e.after;
      RenderedElement(e);
      BehindGap(x, e.before);
      if e.rest.None? {
        LocateItem(x, e.before, e.value, e.after, y);
        assert Shifted(Commas(e.value), |e.before|) + {} == Shifted(Commas(e.value), |e.before|);
      } else {
        var rest := e.rest.value;
        var more := RenderElements(rest);
        LocateItem(x, e.before, e.value, e.after, [','] + more + y);
        var z := ElementOpens(rest, y);
        var joint := Bracketed(e.value) && !rest.value.Word?;
        LocateBehind(x, item, joint, rest.before, z, more, y);
        LocateElements(x + item + [','], rest, y);
        hide Render, RenderElements, Commas;
        TailPieces(x, item, more, y);
        JoinCommas(x + (item + ([','] + more)) + y, |x|, Shifted(Commas(e.value), |e.before|), |item|, joint,
                   ElementCommas(rest));
      }
    }
  }

  lemma {:induction false} JoinCommas(t: string, base: nat, first: set<Comma>, end: nat, joint: bool, rest: set<Comma>)
    requires Located(t, base, first) && Located(t, base, {Comma(end, joint)}) && Located(t, base + (end + 1), rest)
    ensures Located(t, base, first + ({Comma(end, joint)} + Shifted(rest, end + 1)))
  {
    hide Located;
    LocatedShift(t, base, rest, end + 1);
    LocatedUnion(t, base, {Comma(end, joint)}, Shifted(rest, end + 1));
    LocatedUnion(t, base, first, {Comma(end, joint)} + Shifted(rest, end + 1));
  }

  function NamePart(m: Members): (t: string)
    requires m.Member?
  {
    m.before + Quoted(m.name) + m.mid + [':'] + m.lead
  }

  lemma {:induction false} RenderedMember(m: Members)
    requires m.Member?
    ensures var item := NamePart(m) + Render(m.value) + m.after;
            RenderMembers(m) == if m.rest.Some? then item + ([','] + RenderMembers(m.rest.value)) else item
  {
    var item := NamePart(m) + Render(m.value) + m.after;
    assert item + [] == item;
  }

  lemma {:induction false} MemberOpens(m: Members, y: string) returns (z: string)
    requires m.Member?
    ensures RenderMembers(m) + y == m.before + z && z != [] && z[0] == '"'
  {
    hide RenderMembers, AfterName;
    MemberParts(m, y);
    z := ['"'] + (m.name + (['"'] + AfterName(m, y)));
  }

  lemma {:induction false} LocateMembers(x: string, m: Members, y: string)
    requires Outside(Run(START, x)) && WellFormedMembers(m)
    ensures Located(x + RenderMembers(m) + y, |x|, MemberCommas(m))
    decreases m
  {
    hide Run, Located, Closes, Quoted;
    if m.NoMembers? {
      NoCommas(x + RenderMembers(m) + y, |x|);
    } else {
      var named := NamePart(m);
      var item := named + Render(m.value) + m.after;
      RenderedMember(m);
      BehindName(x, m);
      if m.rest.None? {
        LocateItem(x, named, m.value, m.after, y);
        assert Shifted(Commas(m.value), |named|) + {} == Shifted(Commas(m.value), |named|);
      } else {
        var rest := m.rest.value;
        var more := RenderMembers(rest);
        LocateItem(x, named, m.value, m.after, [','] + more + y);
        var z := MemberOpens(rest, y);
        var joint := Bracketed(m.value);
        LocateBehind(x, item, joint, rest.before, z, more, y);
        LocateMembers(x + item + [','], rest, y);
        hide Render, RenderMembers, Commas, NamePart;
        TailPieces(x, item, more, y);
        JoinCommas(x + (item + ([','] + more)) + y, |x|, Shifted(Commas(m.value), |named|), |item|, joint,
                   MemberCommas(rest));
      }
    }
  }

  // ----- Scanning the damaged text -----

  /** Commas written as colons do not change what the scanner sees of strings and brackets. */
  lemma {:induction false} SameScan(t: string, hit: set<Comma>, i: nat)
    requires i <= |t| && forall c :: c in hit ==> IsComma(t, c.at)
    ensures var a, b := At(t, i), At(Damaged(t, hit), i);
            a.inString == b.inString && a.escaped == b.escaped && (Closes(a.last) <==> Closes(b.last))
  {
    if i == 0 {
      StartsOutside(t);
      StartsOutside(Damaged(t, hit));
    } else {
      SameScan(t, hit, i - 1);
      AtNext(t, i - 1);
      AtNext(Damaged(t, hit), i - 1);
      hide At;
    }
  }

  lemma {:induction false} SameFollowing(t: string, hit: set<Comma>, from: nat)
    requires forall c :: c in hit ==> IsComma(t, c.at)
    ensures Opens(Following(t, from)) <==> Opens(Following(Damaged(t, hit), from))
    decreases |t| - from
  {
    hide At;
    if from < |t| {
      SameFollowing(t, hit, from + 1);
    }
  }

  /** Each hit comma is repaired exactly if it is a joint. */
  lemma {:induction false} RepairedAt(t: string, hit: set<Comma>, i: nat)
    requires i < |t| && (forall c :: c in hit ==> IsComma(t, c.at)) && !Misplaced(t, i)
    ensures Repaired(Damaged(t, hit))[i] == t[i] <==> (IsHit(hit, i) ==> IsJoint(t, i))
  {
    SameScan(t, hit, i);
    SameFollowing(t, hit, i + 1);
    hide At, Following;
  }

  lemma {:induction false} RepairsExactly(t: string, hit: set<Comma>)
    requires Repaired(t) == t && Located(t, 0, hit)
    ensures Repaired(Damaged(t, hit)) == t <==> forall c :: c in hit ==> c.joint
  {
    assert forall c :: c in hit ==> IsComma(t, 0 + c.at);
    forall i | 0 <= i < |t|
      ensures !Misplaced(t, i)
      ensures Repaired(Damaged(t, hit))[i] == t[i] <==> (IsHit(hit, i) ==> IsJoint(t, i))
    {
      assert Repaired(t)[i] == t[i];
      RepairedAt(t, hit, i);
    }
    if c :| c in hit && !c.joint {
      assert IsHit(hit, c.at) && !IsJoint(t, 0 + c.at);
    }
    hide Misplaced;
    if forall c :: c in hit ==> c.joint {
      forall i | 0 <= i < |t| ensures Repaired(Damaged(t, hit))[i] == t[i] {
        if c :| c in hit && c.at == i {
          assert IsJoint(t, 0 + c.at);
        }
      }
    }
  }

  /** Take any JSON text and write any of its commas as colons: the repair gives the text back, and with it
      its one reading, if and only if each of those commas lies between a closing bracket and an opening
      bracket or a quote. */
  lemma {:induction false} RepairRestoresExactly(before: string, v: Value, after: string, hit: set<Comma>)
    requires AllSpace(before) && AllSpace(after) && WellFormed(v) && hit <= Commas(v)
    ensures var t := TextOf(before, v, after);
            var repaired := Repaired(Damaged(t, Shifted(hit, |before|)));
            && (repaired == t <==> forall c :: c in hit ==> c.joint)
            && ((forall c :: c in hit ==> c.joint) ==> Read(repaired) == Some(MeaningOf(v)))
  {
    assert Run(START, []) == START && [] + before == before;
    BehindGap([], before);
    LocateValue(before, v, after);
    var t := TextOf(before, v, after);
    LocatedPart(t, |before|, Commas(v), hit);
    hide Run, Commas, Located, Render, Repaired, WellFormed, AllSpace;
    RepairKeepsValidText(before, v, after);
    LocatedShift(t, 0, hit, |before|);
    RepairsExactly(t, Shifted(hit, |before|));
    ShiftKeepsJoints(hit, |before|);
    ReadIsRight(t, before, v, after);
  }

  lemma LocatedPart(t: string, base: nat, cs: set<Comma>, part: set<Comma>)
    requires Located(t, base, cs) && part <= cs
    ensures Located(t, base, part)
  {
  }

  lemma ShiftKeepsJoints(cs: set<Comma>, n: nat)
    ensures (forall c :: c in Shifted(cs, n) ==> c.joint) <==> forall c :: c in cs ==> c.joint
  {
    forall c | c in cs ensures Comma(c.at + n, c.joint) in Shifted(cs, n) {
    }
  }
}
