/** JSON texts as rendered syntax trees, in the layout of section 4 of RFC 8259: a name separator
    always follows a string. Both scanners leave such texts meaning what they meant. */
module JsonGrammar {
  import opened Prelude
  import opened JsonText

  /** A tree keeps the white space around its parts. Literals and numbers are words. */
  datatype Value =
    | Word(text: string)
    | Str(body: string)
    | Arr(elements: Elements)
    | Obj(members: Members)

  datatype Elements =
    | NoElements(gap: string)
    | Element(before: string, value: Value, after: string, rest: Option<Elements>)

  datatype Members =
    | NoMembers(gap: string)
    | Member(before: string, name: string, mid: string, lead: string, value: Value, after: string,
        rest: Option<Members>)

  // ----- Well-formed trees -----

  predicate AllSpace(t: string) {
    forall i :: 0 <= i < |t| ==> IsSpace(t[i])
  }

  predicate IsStructural(c: char) {
    c == '"' || c == ':' || c == ',' || c == '[' || c == ']' || c == '{' || c == '}'
  }

  /** A word is not empty and has no quote, no bracket, no separator and no space. */
  predicate IsWord(t: string) {
    t != [] && forall i :: 0 <= i < |t| ==> !IsStructural(t[i]) && !IsSpace(t[i])
  }

  /** A string body ends outside an escape and has no bare quote. */
  predicate IsBody(escaped: bool, t: string)
    decreases |t|
  {
    if t == [] then !escaped
    else if escaped then IsBody(false, t[1..])
    else if t[0] == '\\' then IsBody(true, t[1..])
    else t[0] != '"' && IsBody(false, t[1..])
  }

  predicate WellFormed(v: Value)
    decreases v
  {
    match v
    case Word(text) => IsWord(text)
    case Str(body) => IsBody(false, body)
    case Arr(elements) => WellFormedElements(elements)
    case Obj(members) => WellFormedMembers(members)
  }

  predicate WellFormedElements(e: Elements)
    decreases e
  {
    match e
    case NoElements(gap) => AllSpace(gap)
    case Element(before, value, after, rest) =>
      AllSpace(before) && AllSpace(after) && WellFormed(value)
          && (rest.Some? ==> rest.value.Element? && WellFormedElements(rest.value))
  }

  predicate WellFormedMembers(m: Members)
    decreases m
  {
    match m
    case NoMembers(gap) => AllSpace(gap)
    case Member(before, name, mid, lead, value, after, rest) =>
      AllSpace(before) && AllSpace(mid) && AllSpace(lead) && AllSpace(after) && IsBody(false, name) && WellFormed(value)
      && (rest.Some? ==> rest.value.Member? && WellFormedMembers(rest.value))
  }

  // ----- Rendering -----

  function Quoted(body: string): (t: string) {
    ['"'] + body + ['"']
  }

  function Render(v: Value): (t: string)
    decreases v
  {
    match v
    case Word(text) => text
    case Str(body) => Quoted(body)
    case Arr(elements) => ['['] + RenderElements(elements) + [']']
    case Obj(members) => ['{'] + RenderMembers(members) + ['}']
  }

  function RenderElements(e: Elements): (t: string)
    decreases e
  {
    match e
    case NoElements(gap) => gap
    case Element(before, value, after, rest) =>
      before + Render(value) + after + if rest.Some? then [','] + RenderElements(rest.value) else []
  }

  function RenderMembers(m: Members): (t: string)
    decreases m
  {
    match m
    case NoMembers(gap) => gap
    case Member(before, name, mid, lead, value, after, rest) =>
      before + Quoted(name) + mid + [':'] + lead + Render(value) + after
      + if rest.Some? then [','] + RenderMembers(rest.value) else []
  }

  // ----- Meaning -----

  /** The tree without its white space. */
  datatype Meaning =
    | Atom(text: string)
    | Text(body: string)
    | List(items: seq<Meaning>)
    | Record(fields: seq<(string, Meaning)>)

  function MeaningOf(v: Value): (m: Meaning)
    decreases v
  {
    match v
    case Word(text) => Atom(text)
    case Str(body) => Text(body)
    case Arr(elements) => List(Items(elements))
    case Obj(members) => Record(Fields(members))
  }

  function Items(e: Elements): (r: seq<Meaning>)
    decreases e
  {
    match e
    case NoElements(_) => []
    case Element(_, value, _, rest) => [MeaningOf(value)] + if rest.Some? then Items(rest.value) else []
  }

  function Fields(m: Members): (r: seq<(string, Meaning)>)
    decreases m
  {
    match m
    case NoMembers(_) => []
    case Member(_, name, _, _, value, _, rest) =>
      [(name, MeaningOf(value))] + if rest.Some? then Fields(rest.value) else []
  }

  // ----- Spacing a tree -----

  /** One more space after every separator. */
  function AddSpace(v: Value): (r: Value)
    decreases v
  {
    match v
    case Arr(elements) => Arr(SpaceElements(elements))
    case Obj(members) => Obj(SpaceMembers(members))
    case _ => v
  }

  function SpaceElements(e: Elements): (r: Elements)
    decreases e
  {
    match e
    case NoElements(gap) => e
    case Element(before, value, after, rest) =>
      Element(before, AddSpace(value), after, if rest.Some? then Some(Lead(SpaceElements(rest.value))) else None)
  }

  function Lead(e: Elements): (r: Elements) {
    if e.NoElements? then NoElements([' '] + e.gap) else e.(before := [' '] + e.before)
  }

  function SpaceMembers(m: Members): (r: Members)
    decreases m
  {
    match m
    case NoMembers(gap) => m
    case Member(before, name, mid, lead, value, after, rest) =>
      Member(before, name, mid, [' '] + lead, AddSpace(value), after,
             if rest.Some? then Some(LeadMember(SpaceMembers(rest.value))) else None)
  }

  function LeadMember(m: Members): (r: Members) {
    if m.NoMembers? then NoMembers([' '] + m.gap) else m.(before := [' '] + m.before)
  }

  lemma {:induction false} SpacingKeepsMeaning(v: Value)
    ensures MeaningOf(AddSpace(v)) == MeaningOf(v)
    decreases v
  {
    match v
    case Arr(elements) => SpacingKeepsItems(elements);
    case Obj(members) => SpacingKeepsFields(members);
    case _ =>
  }

  lemma {:induction false} SpacingKeepsItems(e: Elements)
    ensures Items(SpaceElements(e)) == Items(e) && Items(Lead(SpaceElements(e))) == Items(e)
    decreases e
  {
    if e.Element? {
      SpacingKeepsMeaning(e.value);
      if e.rest.Some? {
        SpacingKeepsItems(e.rest.value);
      }
    }
  }

  lemma {:induction false} SpacingKeepsFields(m: Members)
    ensures Fields(SpaceMembers(m)) == Fields(m) && Fields(LeadMember(SpaceMembers(m))) == Fields(m)
    decreases m
  {
    if m.Member? {
      SpacingKeepsMeaning(m.value);
      if m.rest.Some? {
        SpacingKeepsFields(m.rest.value);
      }
    }
  }
}
