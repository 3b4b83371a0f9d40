/** Rendered JSON has one reading: a text is the rendering of at most one tree. Hence a text can be
    read back, and spacing its separators does not change what is read. */
module JsonReading {
  import opened Prelude
  import opened JsonText
  import opened JsonGrammar
  import opened JsonScans

  /** What may stand behind a value: nothing, white space, a comma or a closing bracket. */
  predicate EndsValue(t: string) {
    t == [] || IsSpace(t[0]) || t[0] == ',' || t[0] == ']' || t[0] == '}'
  }

  lemma {:induction false} SplitSpaces(a: string, b: string, x: string, y: string)
    requires AllSpace(a) && AllSpace(b) && a + x == b + y
    requires (x != [] ==> !IsSpace(x[0])) && (y != [] ==> !IsSpace(y[0]))
    ensures a == b && x == y
    decreases |a|
  {
    var t := a + x;
    assert a == [] ==> t == x;
    assert b == [] ==> t == y;
    assert a != [] ==> t[0] == a[0];
    assert b != [] ==> t[0] == b[0];
    if a != [] && b != [] {
      assert a[1..] + x == t[1..] && b[1..] + y == t[1..];
      SplitSpaces(a[1..], b[1..], x, y);
      assert a == [t[0]] + a[1..] && b == [t[0]] + b[1..];
    }
  }

  lemma {:induction false} SplitWords(a: string, b: string, x: string, y: string)
    requires forall i :: 0 <= i < |a| ==> !IsStructural(a[i]) && !IsSpace(a[i])
    requires forall i :: 0 <= i < |b| ==> !IsStructural(b[i]) && !IsSpace(b[i])
    requires EndsValue(x) && EndsValue(y) && a + x == b + y
    ensures a == b && x == y
    decreases |a|
  {
    var t := a + x;
    assert a == [] ==> t == x;
    assert b == [] ==> t == y;
    assert a != [] ==> t[0] == a[0];
    assert b != [] ==> t[0] == b[0];
    if a != [] && b != [] {
      assert a[1..] + x == t[1..] && b[1..] + y == t[1..];
      SplitWords(a[1..], b[1..], x, y);
      assert a == [t[0]] + a[1..] && b == [t[0]] + b[1..];
    }
  }

  lemma {:induction false} SplitBodies(escaped: bool, a: string, b: string, x: string, y: string)
    requires IsBody(escaped, a) && IsBody(escaped, b) && a + x == b + y
    requires x != [] && y != [] && x[0] == '"' && y[0] == '"'
    ensures a == b && x == y
    decreases |a|
  {
    var t := a + x;
    assert a == [] ==> t == x;
    assert b == [] ==> t == y;
    assert a != [] ==> t[0] == a[0];
    assert b != [] ==> t[0] == b[0];
    if a != [] && b != [] {
      assert a[1..] + x == t[1..] && b[1..] + y == t[1..];
      SplitBodies(!escaped && a[0] == '\\', a[1..], b[1..], x, y);
      assert a == [t[0]] + a[1..] && b == [t[0]] + b[1..];
    }
  }

  /** A value's text starts with a byte that tells its kind. */
  lemma FirstByte(v: Value)
    requires WellFormed(v)
    ensures Render(v) != [] && !IsSpace(Render(v)[0]) && Render(v)[0] !in ",:]}"
    ensures v.Str? <==> Render(v)[0] == '"'
    ensures v.Arr? <==> Render(v)[0] == '['
    ensures v.Obj? <==> Render(v)[0] == '{'
  {
  }

  /** What follows a value inside brackets. */
  lemma TailEnds(after: string, tail: string)
    requires AllSpace(after) && tail != [] && (tail[0] == ',' || tail[0] == ']' || tail[0] == '}')
    ensures EndsValue(after + tail) && after + tail != []
  {
    if after != [] {
      assert (after + tail)[0] == after[0];
    } else {
      assert after + tail == tail;
    }
  }

  lemma Unwrap(open: char, a: string, close: char, x: string, b: string, y: string)
    requires [open] + a + [close] + x == [open] + b + [close] + y
    ensures a + ([close] + x) == b + ([close] + y)
  {
    assert ([open] + a + [close] + x)[1..] == a + ([close] + x);
    assert ([open] + b + [close] + y)[1..] == b + ([close] + y);
  }

  /** A value is determined by any text that starts with it. */
  lemma {:induction false} SplitValues(v: Value, w: Value, x: string, y: string)
    requires WellFormed(v) && WellFormed(w) && EndsValue(x) && EndsValue(y) && Render(v) + x == Render(w) + y
    ensures v == w && x == y
    decreases v
  {
    FirstByte(v);
    FirstByte(w);
    var t := Render(v) + x;
    assert t[0] == Render(v)[0] == Render(w)[0];
    match v {
      case Word(text) => SplitWords(text, w.text, x, y);
      case Str(body) =>
        Unwrap('"', body, '"', x, w.body, y);
        SplitBodies(false, body, w.body, ['"'] + x, ['"'] + y);
        assert x == (['"'] + x)[1..] && y == (['"'] + y)[1..];
      case Arr(elements) =>
        Unwrap('[', RenderElements(elements), ']', x, RenderElements(w.elements), y);
        SplitElements(elements, w.elements, [']'] + x, [']'] + y);
        assert x == ([']'] + x)[1..] && y == ([']'] + y)[1..];
      case Obj(members) =>
        Unwrap('{', RenderMembers(members), '}', x, RenderMembers(w.members), y);
        SplitMembers(members, w.members, ['}'] + x, ['}'] + y);
        assert x == (['}'] + x)[1..] && y == (['}'] + y)[1..];
    }
  }

  function ElementsTail(rest: Option<Elements>, x: string): (t: string) {
    (if rest.Some? then [','] + RenderElements(rest.value) else []) + x
  }

  lemma {:induction false} ElementParts(e: Elements, x: string)
    requires e.Element?
    ensures RenderElements(e) + x == e.before + (Render(e.value) + (e.after + ElementsTail(e.rest, x)))
  {
    var tail := if e.rest.Some? then [','] + RenderElements(e.rest.value) else [];
    assert RenderElements(e) == e.before + Render(e.value) + e.after + tail;
    hide RenderElements, Render;
    assert e.before + Render(e.value) + e.after + tail + x == e.before + (Render(e.value) + (e.after + (tail + x)));
  }

  /** The text of a list starts, behind its white space, with a closing bracket or with a value. */
  lemma ElementsHead(e: Elements, x: string) returns (gap: string, u: string)
    requires WellFormedElements(e) && x != [] && x[0] == ']'
    ensures RenderElements(e) + x == gap + u && AllSpace(gap) && u != [] && !IsSpace(u[0])
    ensures e.NoElements? ==> gap == e.gap && u == x
    ensures e.Element? ==> gap == e.before && u == Render(e.value) + (e.after + ElementsTail(e.rest, x)) && u[0] != ']'
  {
    if e.NoElements? {
      return e.gap, x;
    }
    ElementParts(e, x);
    FirstByte(e.value);
    return e.before, Render(e.value) + (e.after + ElementsTail(e.rest, x));
  }

  lemma {:induction false} SplitElements(e: Elements, f: Elements, x: string, y: string)
    requires WellFormedElements(e) && WellFormedElements(f)
    requires x != [] && y != [] && x[0] == ']' && y[0] == ']'
    requires RenderElements(e) + x == RenderElements(f) + y
    ensures e == f && x == y
    decreases e
  {
    var g, u := ElementsHead(e, x);
    var h, w := ElementsHead(f, y);
    SplitSpaces(g, h, u, w);
    if e.Element? {
      assert f.Element?;
      var tail, tail' := ElementsTail(e.rest, x), ElementsTail(f.rest, y);
      TailStarts(e.rest, x);
      TailStarts(f.rest, y);
      TailEnds(e.after, tail);
      TailEnds(f.after, tail');
      SplitValues(e.value, f.value, e.after + tail, f.after + tail');
      SplitSpaces(e.after, f.after, tail, tail');
      if e.rest.Some? {
        assert f.rest.Some?;
        assert tail[1..] == RenderElements(e.rest.value) + x && tail'[1..] == RenderElements(f.rest.value) + y;
        SplitElements(e.rest.value, f.rest.value, x, y);
      } else {
        assert tail == x;
      }
    }
  }

  lemma TailStarts(rest: Option<Elements>, x: string)
    requires x != [] && x[0] == ']'
    ensures var t := ElementsTail(rest, x); t != [] && t[0] == if rest.Some? then ',' else ']'
  {
    if rest.None? {
      assert ElementsTail(rest, x) == x;
    }
  }

  function MembersTail(rest: Option<Members>, x: string): (t: string) {
    (if rest.Some? then [','] + RenderMembers(rest.value) else []) + x
  }

  /** The text of a member behind its name. */
  function AfterName(m: Members, x: string): (t: string)
    requires m.Member?
  {
    m.mid + ([':'] + (m.lead + (Render(m.value) + (m.after + MembersTail(m.rest, x)))))
  }

  lemma {:induction false} MemberParts(m: Members, x: string)
    requires m.Member?
    ensures RenderMembers(m) + x == m.before + (['"'] + (m.name + (['"'] + AfterName(m, x))))
  {
    var tail := if m.rest.Some? then [','] + RenderMembers(m.rest.value) else [];
    var a, v := Quoted(m.name), Render(m.value);
    assert RenderMembers(m) == m.before + a + m.mid + [':'] + m.lead + v + m.after + tail;
    hide RenderMembers, Render;
    assert m.before + a + m.mid + [':'] + m.lead + v + m.after + tail + x
        == m.before + (a + (m.mid + ([':'] + (m.lead + (v + (m.after + (tail + x)))))));
    var r := AfterName(m, x);
    assert (['"'] + m.name + ['"']) + r == ['"'] + (m.name + (['"'] + r));
  }

  lemma MembersHead(m: Members, x: string) returns (gap: string, u: string)
    requires WellFormedMembers(m) && x != [] && x[0] == '}'
    ensures RenderMembers(m) + x == gap + u && AllSpace(gap) && u != [] && !IsSpace(u[0])
    ensures m.NoMembers? ==> gap == m.gap && u == x
    ensures m.Member? ==> gap == m.before && u == ['"'] + (m.name + (['"'] + AfterName(m, x)))
  {
    if m.NoMembers? {
      return m.gap, x;
    }
    MemberParts(m, x);
    return m.before, ['"'] + (m.name + (['"'] + AfterName(m, x)));
  }

  lemma MembersTailStarts(rest: Option<Members>, x: string)
    requires x != [] && x[0] == '}'
    ensures var t := MembersTail(rest, x); t != [] && t[0] == if rest.Some? then ',' else '}'
  {
    if rest.None? {
      assert MembersTail(rest, x) == x;
    }
  }

  lemma {:induction false} SplitMembers(m: Members, n: Members, x: string, y: string)
    requires WellFormedMembers(m) && WellFormedMembers(n)
    requires x != [] && y != [] && x[0] == '}' && y[0] == '}'
    requires RenderMembers(m) + x == RenderMembers(n) + y
    ensures m == n && x == y
    decreases m, 1
  {
    var g, u := MembersHead(m, x);
    var h, w := MembersHead(n, y);
    SplitSpaces(g, h, u, w);
    if m.Member? {
      assert n.Member?;
      assert u[1..] == m.name + (['"'] + AfterName(m, x)) && w[1..] == n.name + (['"'] + AfterName(n, y));
      var p, q := ['"'] + AfterName(m, x), ['"'] + AfterName(n, y);
      SplitBodies(false, m.name, n.name, p, q);
      assert p[1..] == AfterName(m, x) && q[1..] == AfterName(n, y);
      SplitAfterNames(m, n, x, y);
    }
  }

  lemma {:induction false} SplitAfterNames(m: Members, n: Members, x: string, y: string)
    requires m.Member? && n.Member? && WellFormedMembers(m) && WellFormedMembers(n)
    requires x != [] && y != [] && x[0] == '}' && y[0] == '}' && AfterName(m, x) == AfterName(n, y)
    ensures m.mid == n.mid && m.lead == n.lead && m.value == n.value && m.after == n.after && m.rest == n.rest && x == y
    decreases m, 0
  {
    var tail, tail' := MembersTail(m.rest, x), MembersTail(n.rest, y);
    var a, b := Render(m.value) + (m.after + tail), Render(n.value) + (n.after + tail');
    FirstByte(m.value);
    FirstByte(n.value);
    SplitSpaces(m.mid, n.mid, [':'] + (m.lead + a), [':'] + (n.lead + b));
    assert ([':'] + (m.lead + a))[1..] == m.lead + a && ([':'] + (n.lead + b))[1..] == n.lead + b;
    SplitSpaces(m.lead, n.lead, a, b);
    MembersTailStarts(m.rest, x);
    MembersTailStarts(n.rest, y);
    TailEnds(m.after, tail);
    TailEnds(n.after, tail');
    SplitValues(m.value, n.value, m.after + tail, n.after + tail');
    SplitSpaces(m.after, n.after, tail, tail');
    if m.rest.Some? {
      assert n.rest.Some?;
      assert tail[1..] == RenderMembers(m.rest.value) + x && tail'[1..] == RenderMembers(n.rest.value) + y;
      SplitMembers(m.rest.value, n.rest.value, x, y);
    } else {
      assert tail == x;
    }
  }

  // ----- Reading -----

  ghost predicate IsTextOf(t: string, before: string, v: Value, after: string) {
    AllSpace(before) && AllSpace(after) && WellFormed(v) && t == TextOf(before, v, after)
  }

  /** A JSON text has exactly one tree. */
  lemma OneReading(t: string, b: string, v: Value, a: string, b': string, v': Value, a': string)
    requires IsTextOf(t, b, v, a) && IsTextOf(t, b', v', a')
    ensures v == v'
  {
    assert t == b + (Render(v) + a) && t == b' + (Render(v') + a');
    FirstByte(v);
    FirstByte(v');
    SplitSpaces(b, b', Render(v) + a, Render(v') + a');
    SplitValues(v, v', a, a');
  }

  /** The value a text stands for, if it is a JSON text. */
  ghost function Read(t: string): (m: Option<Meaning>) {
    if exists b, v, a :: IsTextOf(t, b, v, a)
    then var b, v, a :| IsTextOf(t, b, v, a); Some(MeaningOf(v))
    else None
  }

  lemma ReadIsRight(t: string, b: string, v: Value, a: string)
    requires IsTextOf(t, b, v, a)
    ensures Read(t) == Some(MeaningOf(v))
  {
    var b', v', a' :| IsTextOf(t, b', v', a') && Read(t) == Some(MeaningOf(v'));
    OneReading(t, b, v, a, b', v', a');
  }

  /** Spacing the separators of a JSON text does not change what is read from it, and neither does
      the delimiter repair. */
  lemma ScannersKeepReading(t: string, b: string, v: Value, a: string)
    requires IsTextOf(t, b, v, a)
    ensures Read(Spaced(START, t)) == Read(t) == Some(MeaningOf(v))
    ensures Repaired(t) == t
  {
    SpacingRendersSpacedTree(b, v, a);
    RepairKeepsValidText(b, v, a);
    ReadIsRight(t, b, v, a);
    ReadIsRight(Spaced(START, t), b, AddSpace(v), a);
  }
}
