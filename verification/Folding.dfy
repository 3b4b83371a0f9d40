/** Folding old stretches of a history into regions, time and again, and the view that is shown to the
    model (agentContext/manager.go). */
module Folding {
  import opened Prelude
  import opened Messages
  import opened Compaction

  datatype Region = Region(ids: seq<Name>, summary: Text)

  function Ids(h: seq<Entry>): (r: seq<Name>) {
    seq(|h|, i requires 0 <= i < |h| => h[i].cid)
  }

  function FoldedIds(regions: seq<Region>): (s: set<Name>) {
    set k, id | 0 <= k < |regions| && id in regions[k].ids :: id
  }

  /** A region names a stretch of at least three consecutive unused entries before `end`. */
  ghost predicate Stretch(h: seq<Entry>, end: nat, used: set<Name>, r: Region)
    requires end <= |h|
  {
    exists a: nat, b: nat :: IsStretch(h, end, used, r, a, b)
  }

  predicate IsStretch(h: seq<Entry>, end: nat, used: set<Name>, r: Region, a: nat, b: nat)
    requires end <= |h|
  {
    a + 3 <= b <= end && r.ids == Ids(h[a..b]) && forall i :: a <= i < b ==> h[i].cid !in used
  }

  predicate Unused(h: seq<Entry>, used: set<Name>, a: nat, b: nat)
    requires b <= |h|
  {
    forall i :: a <= i < b ==> h[i].cid !in used
  }

  /** Every stretch of three or more unused entries before `limit` is folded. */
  ghost predicate Folds(h: seq<Entry>, limit: nat, used: set<Name>, regions: seq<Region>)
    requires limit <= |h|
  {
    forall a: nat, b: nat, i: nat :: a + 3 <= b <= limit && Unused(h, used, a, b) && a <= i < b ==>
        h[i].cid in FoldedIds(regions)
  }

  /** The stretches of at least three unused entries before the cut become regions, and nothing
      else does. */
  method FoldRegions(h: seq<Entry>, end: nat, used: set<Name>, summary: Text) returns (regions: seq<Region>)
    requires end <= |h|
    ensures forall k :: 0 <= k < |regions| ==> Stretch(h, end, used, regions[k])
    ensures Folds(h, end, used, regions)
  {
    hide Folds, FoldedIds;
    regions := [];
    var start := 0;
    NothingToFold(h, used, regions);
    while start < end
      invariant 0 <= start && (0 < start < end ==> h[start].cid in used)
      invariant forall k :: 0 <= k < |regions| ==> Stretch(h, end, used, regions[k])
      invariant Folds(h, if start < end then start else end, used, regions)
    {
      ghost var head := start;
      while start < end && h[start].cid in used
        invariant head <= start <= end
        invariant forall i :: head <= i < start ==> h[i].cid in used
      {
        start := start + 1;
      }
      var stop := start;
      while stop < end && h[stop].cid !in used
        invariant start <= stop <= end
        invariant Unused(h, used, start, stop)
      {
        stop := stop + 1;
      }
      ghost var before := regions;
      if stop - start >= 3 {
        var region := Region(Ids(h[start..stop]), summary);
        assert IsStretch(h, end, used, region, start, stop);
        regions := regions + [region];
      }
      FoldStep(h, used, before, regions, head, start, stop);
      start := if stop < start + 1 then start + 1 else stop;
    }
  }

  lemma NothingToFold(h: seq<Entry>, used: set<Name>, regions: seq<Region>)
    ensures Folds(h, 0, used, regions)
  {
  }

  /** An unused stretch that reaches past `head` starts behind the used entries found there. */
  lemma StretchStartsLate(h: seq<Entry>, used: set<Name>, head: nat, start: nat, a: nat, b: nat)
    requires head <= start <= |h| && head < b <= |h| && a < b && (0 < head ==> h[head].cid in used)
    requires forall i :: head <= i < start ==> h[i].cid in used
    requires Unused(h, used, a, b)
    ensures start <= a
  {
    var first, second := h[a], h[head];
  }

  lemma FoldStep(h: seq<Entry>, used: set<Name>, before: seq<Region>, regions: seq<Region>, head: nat, start: nat,
      stop: nat)
    requires head <= start <= stop <= |h| && (0 < head ==> head < |h| && h[head].cid in used)
    requires forall i :: head <= i < start ==> h[i].cid in used
    requires Folds(h, head, used, before)
    requires if stop - start >= 3 then exists r: Region :: regions == before + [r] && r.ids == Ids(h[start..stop])
        else regions == before
    ensures Folds(h, stop, used, regions)
  {
    forall a: nat, b: nat, i: nat | a + 3 <= b <= stop && Unused(h, used, a, b) && a <= i < b
      ensures h[i].cid in FoldedIds(regions)
    {
      if b <= head {
        assert h[i].cid in FoldedIds(before);
        var k, id :| 0 <= k < |before| && id in before[k].ids && id == h[i].cid;
        assert regions[k] == before[k] && h[i].cid in regions[k].ids;
      } else {
        StretchStartsLate(h, used, head, start, a, b);
        var r :| regions == before + [r] && r.ids == Ids(h[start..stop]);
        assert r.ids[i - start] == h[i].cid && h[i].cid in r.ids && regions[|before|] == r;
      }
    }
  }

  function SummaryEntry(summary: Text): (e: Entry) {
    Entry(NoName, true, Message(User, NoName, false, Blocks([Block.Text(summary, false)])))
  }

  /** Which summary stands before which entry: that of the last region starting there. */
  function Inserts(regions: seq<Region>): (m: map<Name, Text>) {
    if regions == [] then map[]
    else
      var last := regions[|regions| - 1];
      var before := Inserts(regions[..|regions| - 1]);
      if last.ids == [] then before else before[last.ids[0] := last.summary]
  }

  function ProjectFrom(h: seq<Entry>, inserts: map<Name, Text>, folded: set<Name>): (r: seq<Entry>) {
    if h == [] then []
    else (if h[0].cid in inserts then [SummaryEntry(inserts[h[0].cid])] else [])
         + (if h[0].cid in folded then [] else [h[0]]) + ProjectFrom(h[1..], inserts, folded)
  }

  /** The model's view: each region appears as its summary, everything else as it is. */
  method ProjectRegions(h: seq<Entry>, regions: seq<Region>) returns (result: seq<Entry>)
    ensures result == ProjectFrom(h, Inserts(regions), FoldedIds(regions))
  {
    hide ProjectFrom, FoldedIds;
    var inserts, skip := CollectRegions(regions);
    result := [];
    assert h[0..] == h;
    for i := 0 to |h|
      invariant result + ProjectFrom(h[i..], inserts, skip) == ProjectFrom(h, inserts, skip)
    {
      ProjectStep(h, i, inserts, skip);
      if h[i].cid in inserts {
        result := result + [SummaryEntry(inserts[h[i].cid])];
      }
      if h[i].cid !in skip {
        result := result + [h[i]];
      }
    }
    ProjectNothing(h[|h|..], inserts, skip);
  }

  lemma ProjectNothing(h: seq<Entry>, inserts: map<Name, Text>, folded: set<Name>)
    requires h == []
    ensures ProjectFrom(h, inserts, folded) == []
  {
  }

  lemma ProjectStep(h: seq<Entry>, i: nat, inserts: map<Name, Text>, folded: set<Name>)
    requires i < |h|
    ensures ProjectFrom(h[i..], inserts, folded) ==
            (if h[i].cid in inserts then [SummaryEntry(inserts[h[i].cid])] else [])
            + (if h[i].cid in folded then [] else [h[i]]) + ProjectFrom(h[i + 1..], inserts, folded)
  {
    assert h[i..][1..] == h[i + 1..];
  }

  method CollectRegions(regions: seq<Region>) returns (inserts: map<Name, Text>, skip: set<Name>)
    ensures inserts == Inserts(regions) && skip == FoldedIds(regions)
  {
    inserts, skip := map[], {};
    for k := 0 to |regions|
      invariant inserts == Inserts(regions[..k]) && skip == FoldedIds(regions[..k])
    {
      var region := regions[k];
      assert regions[..k + 1][..k] == regions[..k];
      FoldedStep(regions, k);
      if region.ids != [] {
        inserts := inserts[region.ids[0] := region.summary];
        skip := skip + set id | id in region.ids;
      }
    }
    assert regions[..|regions|] == regions;
  }

  lemma FoldedStep(regions: seq<Region>, k: nat)
    requires k < |regions|
    ensures FoldedIds(regions[..k + 1]) == FoldedIds(regions[..k]) + set id | id in regions[k].ids
  {
    var a, b := regions[..k], regions[..k + 1];
    forall id ensures id in FoldedIds(b) <==> id in FoldedIds(a) || id in regions[k].ids {
      if id in FoldedIds(b) {
        var j :| 0 <= j < |b| && id in b[j].ids;
        assert j < k ==> a[j] == b[j];
      }
      if id in FoldedIds(a) {
        var j :| 0 <= j < |a| && id in a[j].ids;
        assert a[j] == b[j];
      }
      if id in regions[k].ids {
        assert b[k] == regions[k];
      }
    }
  }

  /** The entries that are not folded, in order. */
  function Unfolded(h: seq<Entry>, folded: set<Name>): (r: seq<Entry>) {
    if h == [] then [] else (if h[0].cid in folded then [] else [h[0]]) + Unfolded(h[1..], folded)
  }

  function NamedOnly(h: seq<Entry>): (r: seq<Entry>) {
    if h == [] then [] else (if h[0].cid == NoName then [] else [h[0]]) + NamedOnly(h[1..])
  }

  lemma {:induction false} NamedOnlyConcat(a: seq<Entry>, b: seq<Entry>)
    ensures NamedOnly(a + b) == NamedOnly(a) + NamedOnly(b)
  {
    if a == [] {
      assert a + b == b;
    } else {
      assert (a + b)[0] == a[0] && (a + b)[1..] == a[1..] + b;
      NamedOnlyConcat(a[1..], b);
    }
  }

  /** Leaving the summaries out, the projection is the history without the folded entries, in its
      order. */
  lemma {:induction false} ProjectionIsTheRest(h: seq<Entry>, inserts: map<Name, Text>, folded: set<Name>)
    requires forall e :: e in h ==> e.cid != NoName
    ensures NamedOnly(ProjectFrom(h, inserts, folded)) == Unfolded(h, folded)
  {
    if h != [] {
      var summary := if h[0].cid in inserts then [SummaryEntry(inserts[h[0].cid])] else [];
      var shown := if h[0].cid in folded then [] else [h[0]];
      var rest := ProjectFrom(h[1..], inserts, folded);
      ProjectionIsTheRest(h[1..], inserts, folded);
      assert NamedOnly(summary) == [] && NamedOnly(shown) == shown by { assert h[0] in h; }
      hide NamedOnly, ProjectFrom;
      NamedOnlyConcat(summary + shown, rest);
      NamedOnlyConcat(summary, shown);
      ProjectHead(h, inserts, folded);
    }
  }

  lemma ProjectHead(h: seq<Entry>, inserts: map<Name, Text>, folded: set<Name>)
    requires h != []
    ensures ProjectFrom(h, inserts, folded) ==
            (if h[0].cid in inserts then [SummaryEntry(inserts[h[0].cid])] else [])
            + (if h[0].cid in folded then [] else [h[0]]) + ProjectFrom(h[1..], inserts, folded)
  {
  }

  /** Which entries the projection shows besides summaries. */
  lemma {:induction false} ProjectionShows(h: seq<Entry>, inserts: map<Name, Text>, folded: set<Name>, e: Entry)
    ensures e in h && e.cid !in folded ==> e in ProjectFrom(h, inserts, folded)
    ensures e in ProjectFrom(h, inserts, folded) ==>
              (e in h && e.cid !in folded) || (Uses(e) == {} && Results(e) == {})
  {
    if h != [] {
      ProjectionShows(h[1..], inserts, folded, e);
      ProjectHead(h, inserts, folded);
      hide ProjectFrom;
      assert h == [h[0]] + h[1..];
      if h[0].cid in inserts {
        SummaryIsPlain(inserts[h[0].cid]);
      }
    }
  }

  lemma SummaryIsPlain(summary: Text)
    ensures Uses(SummaryEntry(summary)) == {} && Results(SummaryEntry(summary)) == {}
  {
  }

  // ----- What is folded -----

  /** Entry `i` lies in a run of at least three unused entries before the cut. */
  ghost predicate Long(h: seq<Entry>, end: nat, used: set<Name>, i: nat)
    requires end <= |h|
  {
    exists a: nat, b: nat :: a + 3 <= b <= end && a <= i < b && Unused(h, used, a, b)
  }

  /** New regions for exactly the long stretches. */
  ghost predicate FoldsOf(h: seq<Entry>, end: nat, used: set<Name>, regions: seq<Region>)
    requires end <= |h|
  {
    Folds(h, end, used, regions) && forall k :: 0 <= k < |regions| ==> Stretch(h, end, used, regions[k])
  }

  lemma {:induction false} StretchIsLong(h: seq<Entry>, end: nat, used: set<Name>, r: Region, i: nat)
    requires end <= |h| && i < |h| && Distinct(Ids(h)) && Stretch(h, end, used, r) && h[i].cid in r.ids
    ensures Long(h, end, used, i)
  {
    var a: nat, b: nat :| IsStretch(h, end, used, r, a, b);
    var n :| 0 <= n < |r.ids| && r.ids[n] == h[i].cid;
    assert Ids(h)[a + n] == h[a + n].cid == h[i].cid == Ids(h)[i];
    assert a + n == i && Unused(h, used, a, b);
  }

  /** An entry gets into a new region if and only if it is long. */
  lemma {:induction false} FoldedExactly(h: seq<Entry>, end: nat, used: set<Name>, regions: seq<Region>, i: nat)
    requires end <= |h| && i < |h| && Distinct(Ids(h)) && FoldsOf(h, end, used, regions)
    ensures h[i].cid in FoldedIds(regions) <==> Long(h, end, used, i)
  {
    if h[i].cid in FoldedIds(regions) {
      var k, id :| 0 <= k < |regions| && id in regions[k].ids && id == h[i].cid;
      hide Stretch, Folds, Long;
      StretchIsLong(h, end, used, regions[k], i);
    }
  }

  lemma LongIsUnused(h: seq<Entry>, end: nat, used: set<Name>, i: nat)
    requires end <= |h| && Long(h, end, used, i)
    ensures i < end && h[i].cid !in used
  {
  }

  // ----- One more fold -----

  /** The latest plain request and everything folded before stay out of new regions. */
  ghost function UsedIds(h: seq<Entry>, past: seq<Region>): (s: set<Name>) {
    FoldedIds(past) + set i | 0 <= i < |h| && IsLatest(h, i) :: h[i].cid
  }

  /** What the source adds to the old regions: the long stretches before the cut that keeps ten
      entries. */
  ghost predicate IsFold(h: seq<Entry>, past: seq<Region>, added: seq<Region>) {
    exists end :: IsCut(h, 10, end) && FoldsOf(h, end, UsedIds(h, past), added)
  }

  method CollectUsed(h: seq<Entry>, past: seq<Region>) returns (used: set<Name>)
    ensures used == UsedIds(h, past)
  {
    var latest := FindLatest(h, |h|);
    assert h[..|h|] == h;
    used := {};
    if latest.Some? {
      used := {h[latest.value].cid};
    }
    OneLatest(h, latest);
    ghost var first := used;
    for k := 0 to |past|
      invariant used == first + FoldedIds(past[..k])
    {
      FoldedStep(past, k);
      used := used + set id | id in past[k].ids;
    }
    assert past[..|past|] == past;
  }

  lemma OneLatest(h: seq<Entry>, latest: Option<nat>)
    requires latest.Some? ==> IsLatest(h, latest.value)
    requires latest.None? ==> forall k :: 0 <= k < |h| ==> !PlainRequest(h[k])
    ensures (set i | 0 <= i < |h| && IsLatest(h, i) :: h[i].cid) == if latest.Some? then {h[latest.value].cid} else {}
  {
    assert forall i :: IsLatest(h, i) ==> latest.Some? && i == latest.value;
  }

  /** The fold of the source: the old regions are kept, the new ones added behind them. */
  method FoldHistory(h: seq<Entry>, past: seq<Region>, summary: Text) returns (regions: seq<Region>)
    ensures past <= regions && IsFold(h, past, regions[|past|..])
  {
    hide IsCut, Folds, Stretch, UsedIds;
    var end := SafeTailStart(h, 10);
    assert end <= |h| by { CutIsInside(h, 10, end); }
    var used := CollectUsed(h, past);
    var added := FoldRegions(h, end, used, summary);
    regions := past + added;
    assert regions[|past|..] == added && FoldsOf(h, end, used, added);
  }

  /** Entry `i` is not shown: it was folded before, or it is long. */
  ghost predicate Hidden(h: seq<Entry>, end: nat, past: seq<Region>, i: nat)
    requires end <= |h| && i < |h|
  {
    h[i].cid in FoldedIds(past) || Long(h, end, UsedIds(h, past), i)
  }

  lemma FoldedConcat(a: seq<Region>, b: seq<Region>)
    ensures FoldedIds(a + b) == FoldedIds(a) + FoldedIds(b)
  {
    forall id ensures id in FoldedIds(a + b) <==> id in FoldedIds(a) || id in FoldedIds(b) {
      if id in FoldedIds(a + b) {
        var k :| 0 <= k < |a + b| && id in (a + b)[k].ids;
        assert k < |a| ==> a[k] == (a + b)[k];
        assert k >= |a| ==> b[k - |a|] == (a + b)[k];
      }
      if id in FoldedIds(a) {
        var k :| 0 <= k < |a| && id in a[k].ids;
        assert (a + b)[k] == a[k];
      }
      if id in FoldedIds(b) {
        var k :| 0 <= k < |b| && id in b[k].ids;
        assert (a + b)[|a| + k] == b[k];
      }
    }
  }

  lemma {:induction false} HiddenExactly(h: seq<Entry>, end: nat, past: seq<Region>, added: seq<Region>, i: nat)
    requires end <= |h| && i < |h| && Distinct(Ids(h)) && FoldsOf(h, end, UsedIds(h, past), added)
    ensures h[i].cid in FoldedIds(past + added) <==> Hidden(h, end, past, i)
  {
    hide FoldsOf, FoldedIds, Long, UsedIds;
    FoldedConcat(past, added);
    FoldedExactly(h, end, UsedIds(h, past), added, i);
  }

  /** The view of the model after a fold, old and new regions together. */
  function View(h: seq<Entry>, regions: seq<Region>): (p: seq<Entry>) {
    ProjectFrom(h, Inserts(regions), FoldedIds(regions))
  }

  /** After a fold the view still shows every entry behind the cut and the latest plain request, unless
      an earlier fold hides it. */
  lemma {:induction false} FoldingKeeps(h: seq<Entry>, end: nat, past: seq<Region>, added: seq<Region>, i: nat)
    requires end <= |h| && i < |h| && Distinct(Ids(h)) && FoldsOf(h, end, UsedIds(h, past), added)
    requires (end <= i || IsLatest(h, i)) && h[i].cid !in FoldedIds(past)
    ensures h[i] in View(h, past + added)
  {
    var used := UsedIds(h, past);
    assert IsLatest(h, i) ==> h[i].cid in used;
    HiddenExactly(h, end, past, added, i);
    if Long(h, end, used, i) {
      LongIsUnused(h, end, used, i);
    }
    hide FoldsOf, Long, IsLatest, ProjectFrom, FoldedIds;
    ProjectionShows(h, Inserts(past + added), FoldedIds(past + added), h[i]);
  }

  // ----- Results without their calls -----

  /** The calls and the results of the entries that stay visible. */
  function ShownUses(h: seq<Entry>, folded: set<Name>): (s: set<Name>) {
    set i, id | 0 <= i < |h| && h[i].cid !in folded && id in Uses(h[i]) :: id
  }

  function ShownResults(h: seq<Entry>, folded: set<Name>): (s: set<Name>) {
    set i, id | 0 <= i < |h| && h[i].cid !in folded && id in Results(h[i]) :: id
  }

  lemma {:induction false} ProjectedPairs(h: seq<Entry>, inserts: map<Name, Text>, folded: set<Name>)
    ensures AllUses(ProjectFrom(h, inserts, folded)) == ShownUses(h, folded)
    ensures AllResults(ProjectFrom(h, inserts, folded)) == ShownResults(h, folded)
  {
    var p := ProjectFrom(h, inserts, folded);
    hide ProjectFrom, Uses, Results;
    forall k | 0 <= k < |p|
      ensures Uses(p[k]) <= ShownUses(h, folded) && Results(p[k]) <= ShownResults(h, folded)
    {
      ProjectionShows(h, inserts, folded, p[k]);
    }
    forall i | 0 <= i < |h| && h[i].cid !in folded
      ensures Uses(h[i]) <= AllUses(p) && Results(h[i]) <= AllResults(p)
    {
      ProjectionShows(h, inserts, folded, h[i]);
      var k :| 0 <= k < |p| && p[k] == h[i];
    }
  }

  /** Some entry that is not hidden makes the call. */
  ghost predicate CallShown(h: seq<Entry>, end: nat, past: seq<Region>, id: Name)
    requires end <= |h|
  {
    exists i :: 0 <= i < |h| && id in Uses(h[i]) && !Hidden(h, end, past, i)
  }

  /** The results of an entry are all called by entries that are not hidden. */
  ghost predicate ResultsCalled(h: seq<Entry>, end: nat, past: seq<Region>, j: nat)
    requires end <= |h| && j < |h|
  {
    forall id :: id in Results(h[j]) ==> CallShown(h, end, past, id)
  }

  lemma {:induction false} ShownMeans(h: seq<Entry>, end: nat, past: seq<Region>, added: seq<Region>, id: Name)
    requires end <= |h| && Distinct(Ids(h)) && FoldsOf(h, end, UsedIds(h, past), added)
    ensures id in ShownUses(h, FoldedIds(past + added)) <==> CallShown(h, end, past, id)
  {
    hide FoldsOf, Hidden, FoldedIds, Uses, UsedIds;
    forall i | 0 <= i < |h| ensures h[i].cid in FoldedIds(past + added) <==> Hidden(h, end, past, i) {
      HiddenExactly(h, end, past, added, i);
    }
  }

  /** After a fold the view shows no result without its call if and only if, before the fold, every
      entry that is neither long nor folded already has its results called by such entries. */
  lemma {:induction false} FoldingOrphansExactly(h: seq<Entry>, end: nat, past: seq<Region>, added: seq<Region>)
    requires end <= |h| && Distinct(Ids(h)) && FoldsOf(h, end, UsedIds(h, past), added)
    ensures var p := View(h, past + added);
            AllResults(p) <= AllUses(p) <==>
              forall j :: 0 <= j < |h| && !Hidden(h, end, past, j) ==> ResultsCalled(h, end, past, j)
  {
    var folded := FoldedIds(past + added);
    ProjectedPairs(h, Inserts(past + added), folded);
    hide FoldsOf, Hidden, FoldedIds, Uses, Results, UsedIds, ProjectFrom, CallShown;
    forall j | 0 <= j < |h| ensures h[j].cid in folded <==> Hidden(h, end, past, j) {
      HiddenExactly(h, end, past, added, j);
    }
    forall id ensures id in ShownUses(h, folded) <==> CallShown(h, end, past, id) {
      ShownMeans(h, end, past, added, id);
    }
    hide ShownUses;
  }

  /** No earlier fold hides an entry behind the cut. */
  predicate FoldedBelow(h: seq<Entry>, end: nat, past: seq<Region>)
    requires end <= |h|
  {
    forall i :: end <= i < |h| ==> h[i].cid !in FoldedIds(past)
  }

  /** Behind a safe cut every result has its call behind the cut. */
  lemma {:induction false} TailCall(h: seq<Entry>, end: nat, j: nat, id: Name)
    requires SafeCut(h, end) && AllResults(h) <= AllUses(h) && end <= j < |h| && id in Results(h[j])
    ensures exists i :: end <= i < |h| && id in Uses(h[i])
  {
    hide Uses, Results;
    assert id in AllResults(h);
    assert h[end..][j - end] == h[j] && id in AllResults(h[end..]);
    var i :| 0 <= i < |h| && id in Uses(h[i]);
    if i < end {
      UsedBefore(h, end, i, id);
      assert false;
    }
  }

  /** As long as no earlier fold reaches past the cut, only the entries before the cut matter. */
  lemma {:induction false} OnlyBeforeTheCut(h: seq<Entry>, end: nat, past: seq<Region>, j: nat)
    requires SafeCut(h, end) && AllResults(h) <= AllUses(h) && FoldedBelow(h, end, past) && end <= j < |h|
    ensures ResultsCalled(h, end, past, j)
  {
    forall id | id in Results(h[j]) ensures CallShown(h, end, past, id) {
      TailCall(h, end, j, id);
      var i :| end <= i < |h| && id in Uses(h[i]);
      if Long(h, end, UsedIds(h, past), i) {
        LongIsUnused(h, end, UsedIds(h, past), i);
        assert false;
      }
    }
  }

  lemma ResultAfter(g: seq<Entry>, cut: nat, j: nat, id: Name)
    requires cut <= j < |g| && id in Results(g[j])
    ensures id in AllResults(g[cut..])
  {
    assert g[cut..][j - cut] == g[j];
  }

  lemma {:induction false} FoldingOrphansBeforeCut(h: seq<Entry>, end: nat, past: seq<Region>, added: seq<Region>)
    requires SafeCut(h, end) && AllResults(h) <= AllUses(h) && FoldedBelow(h, end, past)
    requires Distinct(Ids(h)) && FoldsOf(h, end, UsedIds(h, past), added)
    ensures var p := View(h, past + added);
            AllResults(p) <= AllUses(p) <==>
              forall j :: 0 <= j < end && !Hidden(h, end, past, j) ==> ResultsCalled(h, end, past, j)
  {
    hide FoldsOf, Hidden, ResultsCalled, UsedIds, View, FoldedBelow;
    FoldingOrphansExactly(h, end, past, added);
    forall j | end <= j < |h| ensures ResultsCalled(h, end, past, j) {
      OnlyBeforeTheCut(h, end, past, j);
    }
  }

  /** A cut that was safe in an earlier history is not reached any more only because a result that
      came later has its call before it. */
  lemma {:induction false} CutRetreatsBecause(g: seq<Entry>, h: seq<Entry>, before: nat, now: nat)
    requires g <= h && SafeCut(g, before) && before <= Max(0, |h| - 10) && IsCut(h, 10, now) && now < before
    ensures exists j, id :: |g| <= j < |h| && id in Results(h[j]) && id in AllUses(h[..before])
  {
    hide Uses, Results;
    assert !SafeCut(h, before);
    var id :| id in AllUses(h[..before]) && id in AllResults(h[before..]);
    assert g[..before] == h[..before];
    var k :| 0 <= k < |h[before..]| && id in Results(h[before..][k]);
    if before + k < |g| {
      ResultAfter(g, before, before + k, id);
      assert false;
    }
  }

  // ----- Histories that are folded time and again -----

  /** Every result stands in the entry behind its call. */
  predicate Adjacent(h: seq<Entry>) {
    forall j, id :: 0 <= j < |h| && id in Results(h[j]) ==> 0 < j && id in Uses(h[j - 1])
  }

  predicate RequestsCallNothing(h: seq<Entry>) {
    forall i :: 0 <= i < |h| && PlainRequest(h[i]) ==> Uses(h[i]) == {}
  }

  /** Results are folded together with their calls. */
  predicate Closed(h: seq<Entry>, folded: set<Name>) {
    forall j :: 0 < j < |h| && Results(h[j]) != {} ==> (h[j].cid in folded <==> h[j - 1].cid in folded)
  }

  ghost predicate Spared(h: seq<Entry>, folded: set<Name>) {
    forall i: nat :: IsLatest(h, i) ==> h[i].cid !in folded
  }

  datatype Context = Context(history: seq<Entry>, regions: seq<Region>)

  datatype Act = Append(e: Entry) | Fold(added: seq<Region>)

  /** A new entry has a new id and, if it holds results, stands behind their calls; a fold is one of the
      source. */
  ghost predicate Can(c: Context, act: Act) {
    match act
    case Append(e) =>
      e.cid !in Ids(c.history) && Adjacent(c.history + [e]) && RequestsCallNothing(c.history + [e])
    case Fold(added) => IsFold(c.history, c.regions, added)
  }

  function Next(c: Context, act: Act): (r: Context) {
    match act
    case Append(e) => c.(history := c.history + [e])
    case Fold(added) => c.(regions := c.regions + added)
  }

  ghost predicate FoldInv(c: Context) {
    var folded := FoldedIds(c.regions);
    && Distinct(Ids(c.history)) && Adjacent(c.history) && RequestsCallNothing(c.history)
    && (forall id :: id in folded ==> id in Ids(c.history))
    && Closed(c.history, folded) && Spared(c.history, folded)
    && (c.history != [] ==> c.history[|c.history| - 1].cid !in folded)
  }

  lemma {:induction false} AppendKeeps(c: Context, e: Entry)
    requires FoldInv(c) && Can(c, Append(e))
    ensures FoldInv(Next(c, Append(e)))
  {
    var h, g, folded := c.history, c.history + [e], FoldedIds(c.regions);
    hide FoldedIds, Uses, Results;
    assert Ids(g) == Ids(h) + [e.cid];
    assert e.cid !in folded;
    forall j | 0 < j < |g| && Results(g[j]) != {} ensures g[j].cid in folded <==> g[j - 1].cid in folded {
      if j < |h| {
        assert g[j] == h[j] && g[j - 1] == h[j - 1];
      } else {
        assert g[j - 1] == h[|h| - 1];
      }
    }
    forall i: nat | IsLatest(g, i) ensures g[i].cid !in folded {
      if i < |h| {
        LatestBefore(h, e, i);
      }
    }
  }

  lemma LatestBefore(h: seq<Entry>, e: Entry, i: nat)
    requires IsLatest(h + [e], i) && i < |h|
    ensures IsLatest(h, i)
  {
    forall k | i < k < |h| ensures !PlainRequest(h[k]) {
      assert (h + [e])[k] == h[k];
    }
  }

  /** In such a history neighbours are folded together. */
  lemma {:induction false} LongTogether(h: seq<Entry>, end: nat, used: set<Name>, j: nat)
    requires end <= |h| && 0 < j < |h| && j != end && (h[j].cid in used <==> h[j - 1].cid in used)
    ensures Long(h, end, used, j) <==> Long(h, end, used, j - 1)
  {
    if Long(h, end, used, j) {
      var a: nat, b: nat :| a + 3 <= b <= end && a <= j < b && Unused(h, used, a, b);
      assert Unused(h, used, if a < j then a else j - 1, b);
    }
    if Long(h, end, used, j - 1) {
      var a: nat, b: nat :| a + 3 <= b <= end && a <= j - 1 < b && Unused(h, used, a, b);
      assert Unused(h, used, a, if j < b then b else j + 1);
    }
  }

  lemma {:induction false} FoldKeepsClosed(c: Context, added: seq<Region>, end: nat, j: nat)
    requires FoldInv(c) && IsCut(c.history, 10, end) && end <= |c.history|
    requires FoldsOf(c.history, end, UsedIds(c.history, c.regions), added)
    requires 0 < j < |c.history| && Results(c.history[j]) != {}
    ensures var folded := FoldedIds(c.regions + added); c.history[j].cid in folded <==> c.history[j - 1].cid in folded
  {
    var h, past, used := c.history, c.regions, UsedIds(c.history, c.regions);
    assert (h[j].cid in FoldedIds(past)) <==> (h[j - 1].cid in FoldedIds(past));
    PairIsNoRequest(h, j);
    UsedTogether(h, past, j);
    NoCutBetween(h, end, j);
    hide FoldInv, FoldsOf, Long, FoldedIds, UsedIds, IsCut;
    LongTogether(h, end, used, j);
    HiddenExactly(h, end, past, added, j);
    HiddenExactly(h, end, past, added, j - 1);
  }

  lemma PairIsNoRequest(h: seq<Entry>, j: nat)
    requires Adjacent(h) && RequestsCallNothing(h) && 0 < j < |h| && Results(h[j]) != {}
    ensures !PlainRequest(h[j]) && !PlainRequest(h[j - 1])
  {
    var id :| id in Results(h[j]);
    assert id in Uses(h[j - 1]);
  }

  lemma {:induction false} UsedTogether(h: seq<Entry>, past: seq<Region>, j: nat)
    requires Distinct(Ids(h)) && 0 < j < |h| && !PlainRequest(h[j]) && !PlainRequest(h[j - 1])
    requires h[j].cid in FoldedIds(past) <==> h[j - 1].cid in FoldedIds(past)
    ensures h[j].cid in UsedIds(h, past) <==> h[j - 1].cid in UsedIds(h, past)
  {
    hide FoldedIds, PlainRequest;
    forall k | k in {j, j - 1} ensures h[k].cid in UsedIds(h, past) <==> h[k].cid in FoldedIds(past) {
      forall i | 0 <= i < |h| && IsLatest(h, i) ensures h[i].cid != h[k].cid {
        assert Ids(h)[i] == h[i].cid && Ids(h)[k] == h[k].cid;
      }
    }
  }

  /** A safe cut does not part a result from its call. */
  lemma {:induction false} NoCutBetween(h: seq<Entry>, end: nat, j: nat)
    requires SafeCut(h, end) && Adjacent(h) && 0 < j < |h| && Results(h[j]) != {}
    ensures j != end
  {
    var id :| id in Results(h[j]);
    assert id in Uses(h[j - 1]);
    hide Uses, Results;
    if j == end {
      UsedBefore(h, end, j - 1, id);
      ResultAfter(h, end, j, id);
    }
  }

  lemma {:induction false} FoldKeeps(c: Context, added: seq<Region>)
    requires FoldInv(c) && Can(c, Fold(added))
    ensures FoldInv(Next(c, Fold(added)))
  {
    var h, past := c.history, c.regions;
    var end :| IsCut(h, 10, end) && FoldsOf(h, end, UsedIds(h, past), added);
    CutIsInside(h, 10, end);
    var folded := FoldedIds(past + added);
    hide IsCut, FoldsOf, Uses, Results, IsLatest, FoldedIds, UsedIds;
    forall j | 0 < j < |h| && Results(h[j]) != {} ensures h[j].cid in folded <==> h[j - 1].cid in folded {
      FoldKeepsClosed(c, added, end, j);
    }
    forall i: nat | i < |h| && (IsLatest(h, i) || i == |h| - 1) ensures h[i].cid !in folded {
      NotFolded(h, end, past, added, i);
    }
    AddedAreThere(h, end, past, added);
    LatestIsInside(h);
  }

  lemma LatestIsInside(h: seq<Entry>)
    ensures forall i: nat :: IsLatest(h, i) ==> i < |h|
  {
  }

  lemma {:induction false} NotFolded(h: seq<Entry>, end: nat, past: seq<Region>, added: seq<Region>, i: nat)
    requires end <= |h| && i < |h| && Distinct(Ids(h)) && FoldsOf(h, end, UsedIds(h, past), added)
    requires (end <= i || IsLatest(h, i)) && h[i].cid !in FoldedIds(past)
    ensures h[i].cid !in FoldedIds(past + added)
  {
    var used := UsedIds(h, past);
    assert IsLatest(h, i) ==> h[i].cid in used;
    HiddenExactly(h, end, past, added, i);
    if Long(h, end, used, i) {
      LongIsUnused(h, end, used, i);
    }
  }

  lemma {:induction false} AddedAreThere(h: seq<Entry>, end: nat, past: seq<Region>, added: seq<Region>)
    requires end <= |h| && FoldsOf(h, end, UsedIds(h, past), added)
    requires forall id :: id in FoldedIds(past) ==> id in Ids(h)
    ensures forall id :: id in FoldedIds(past + added) ==> id in Ids(h)
  {
    FoldedConcat(past, added);
    forall id | id in FoldedIds(added) ensures id in Ids(h) {
      var k, x :| 0 <= k < |added| && x in added[k].ids && x == id;
      hide Folds, Stretch, UsedIds, FoldedIds;
      StretchIsThere(h, end, UsedIds(h, past), added[k], id);
    }
  }

  lemma StretchIsThere(h: seq<Entry>, end: nat, used: set<Name>, r: Region, id: Name)
    requires end <= |h| && Stretch(h, end, used, r) && id in r.ids
    ensures id in Ids(h)
  {
    var a: nat, b: nat :| IsStretch(h, end, used, r, a, b);
    var n :| 0 <= n < |r.ids| && r.ids[n] == id;
    assert Ids(h)[a + n] == h[a + n].cid == id;
  }

  ghost predicate Legal(c: Context, acts: seq<Act>)
    decreases |acts|
  {
    acts == [] || (Can(c, acts[0]) && Legal(Next(c, acts[0]), acts[1..]))
  }

  ghost function Execute(c: Context, acts: seq<Act>): (r: Context)
    decreases |acts|
  {
    if acts == [] then c else Execute(Next(c, acts[0]), acts[1..])
  }

  lemma {:induction false} RunKeepsFolds(c: Context, acts: seq<Act>)
    requires FoldInv(c) && Legal(c, acts)
    ensures FoldInv(Execute(c, acts))
    decreases |acts|
  {
    hide FoldInv, Can, Next;
    if acts != [] {
      match acts[0] {
        case Append(e) => AppendKeeps(c, e);
        case Fold(added) => FoldKeeps(c, added);
      }
      RunKeepsFolds(Next(c, acts[0]), acts[1..]);
    }
  }

  lemma EmptyFolds()
    ensures FoldInv(Context([], []))
  {
  }

  /** However often a growing history is folded, as long as every result comes right behind its call,
      the view shows no result without its call, and it shows the latest plain request. */
  lemma {:induction false} AdjacentPairsStayTogether(acts: seq<Act>, i: nat)
    requires Legal(Context([], []), acts)
    ensures var c := Execute(Context([], []), acts);
            var p := View(c.history, c.regions);
            AllResults(p) <= AllUses(p) && (IsLatest(c.history, i) ==> c.history[i] in p)
  {
    EmptyFolds();
    RunKeepsFolds(Context([], []), acts);
    var c := Execute(Context([], []), acts);
    hide Legal, Execute;
    NothingOrphaned(c);
    if i < |c.history| {
      ProjectionShows(c.history, Inserts(c.regions), FoldedIds(c.regions), c.history[i]);
    }
  }

  lemma {:induction false} NothingOrphaned(c: Context)
    requires FoldInv(c)
    ensures var p := View(c.history, c.regions); AllResults(p) <= AllUses(p)
  {
    var h, folded := c.history, FoldedIds(c.regions);
    ProjectedPairs(h, Inserts(c.regions), folded);
    hide ProjectFrom, FoldedIds, Uses, Results, IsLatest;
    forall j, id | 0 <= j < |h| && h[j].cid !in folded && id in Results(h[j]) ensures id in ShownUses(h, folded) {
      assert id in Uses(h[j - 1]) && h[j - 1].cid !in folded;
    }
  }

  // ----- A fold that parts a result from its call -----

  function Call(cid: Name, id: Name): (e: Entry) {
    Entry(cid, false, Message(Assistant, NoName, false, Blocks([ToolUse(id, 0)])))
  }

  function Reply(cid: Name, id: Name): (e: Entry) {
    Entry(cid, false, Message(User, NoName, false, Blocks([ToolResult(id, 0, false)])))
  }

  function Say(role: Role, cid: Name): (e: Entry) {
    Entry(cid, false, Message(role, NoName, false, Plain(0)))
  }

  lemma EntryMeans(role: Role, cid: Name, id: Name)
    ensures Uses(Call(cid, id)) == {id} && Results(Call(cid, id)) == {}
    ensures Uses(Reply(cid, id)) == {} && Results(Reply(cid, id)) == {id}
    ensures Uses(Say(role, cid)) == {} && Results(Say(role, cid)) == {}
  {
  }

  /** A call, two requests, the latest request, the result of the call, and ten further replies. */
  function SplitPair(): (h: seq<Entry>)
    ensures |h| == 15
  {
    [Call(1, 9), Say(User, 2), Say(User, 3), Say(User, 4), Reply(5, 9)]
    + seq(10, i requires 0 <= i < 10 => Say(Assistant, 6 + i))
  }

  lemma {:induction false} SplitPairMeans(i: nat)
    requires i < 15
    ensures var e := SplitPair()[i];
            && e.cid == i + 1
            && Uses(e) == (if i == 0 then {9} else {}) && Results(e) == (if i == 4 then {9} else {})
            && (PlainRequest(e) <==> 1 <= i <= 3)
  {
    EntryMeans(User, i + 1, 9);
    EntryMeans(Assistant, i + 1, 9);
    hide Uses, Results;
  }

  lemma {:induction false} SplitPairCut(end: nat)
    requires IsCut(SplitPair(), 10, end)
    ensures end == 5 && Distinct(Ids(SplitPair())) && UsedIds(SplitPair(), []) == {4}
  {
    var h := SplitPair();
    forall i: nat | i < 15
      ensures h[i].cid == i + 1 && (PlainRequest(h[i]) <==> 1 <= i <= 3)
      ensures Uses(h[i]) == (if i == 0 then {9} else {}) && Results(h[i]) == (if i == 4 then {9} else {})
    {
      SplitPairMeans(i);
    }
    hide SplitPair, Uses, Results, PlainRequest;
    assert SafeCut(h, 5) by {
      forall id ensures id !in AllResults(h[5..]) {
        assert forall k :: 0 <= k < 10 ==> h[5..][k] == h[5 + k];
      }
    }
    assert PlainRequest(h[3]) && h[3].cid == 4;
    LatestOnly(h, 3);
  }

  lemma LatestOnly(h: seq<Entry>, n: nat)
    requires IsLatest(h, n)
    ensures UsedIds(h, []) == {h[n].cid}
  {
    OneLatest(h, Some(n));
    assert FoldedIds([]) == {};
  }

  lemma {:induction false} SplitPairHidden()
    ensures Long(SplitPair(), 5, {4}, 0) && !Long(SplitPair(), 5, {4}, 4)
  {
    var h := SplitPair();
    SplitPairMeans(0);
    SplitPairMeans(1);
    SplitPairMeans(2);
    SplitPairMeans(3);
    hide SplitPair;
    assert Unused(h, {4}, 0, 3);
    forall a: nat, b: nat | a + 3 <= b <= 5 && a <= 4 < b ensures !Unused(h, {4}, a, b) {
      assert h[3].cid == 4;
    }
  }

  /** Its call lies in a long stretch and its result behind the latest request, in a stretch too short to
      fold: every fold of this history shows the result without the call. */
  lemma {:induction false} ShortStretchOrphansResult(added: seq<Region>)
    requires IsFold(SplitPair(), [], added)
    ensures var p := View(SplitPair(), added); 9 in AllResults(p) && 9 !in AllUses(p)
  {
    var h := SplitPair();
    var end :| IsCut(h, 10, end) && FoldsOf(h, end, UsedIds(h, []), added);
    SplitPairCut(end);
    SplitPairHidden();
    hide SplitPair, IsCut, FoldsOf, Long, Uses, Results, FoldedIds, UsedIds;
    assert [] + added == added;
    FoldedExactly(h, 5, {4}, added, 0);
    FoldedExactly(h, 5, {4}, added, 4);
    ProjectedPairs(h, Inserts(added), FoldedIds(added));
    SplitPairMeans(4);
    assert 9 in ShownResults(h, FoldedIds(added));
    forall i: nat | i < 15 && h[i].cid !in FoldedIds(added) ensures 9 !in Uses(h[i]) {
      SplitPairMeans(i);
    }
  }
}
