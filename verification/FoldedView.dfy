/** What the model is shown of a folded history, entry by entry (agentContext/manager.go). */
module FoldedView {
  import opened Prelude
  import opened Messages
  import opened Compaction
  import opened Folding

  /** Region `k` is the last one that starts with this entry. */
  predicate Heads(regions: seq<Region>, k: nat, cid: Name) {
    && k < |regions| && regions[k].ids != [] && regions[k].ids[0] == cid
    && forall j :: k < j < |regions| && regions[j].ids != [] ==> regions[j].ids[0] != cid
  }

  /** What is shown in place of one entry: the summary of the last region that starts with it, as a passing
      remark of the user, and the entry itself unless some region holds it. */
  ghost predicate ShownAs(e: Entry, regions: seq<Region>, piece: seq<Entry>) {
    exists note, rest ::
      && piece == note + rest
      && (if exists k: nat :: Heads(regions, k, e.cid)
          then exists k: nat :: Heads(regions, k, e.cid) && note == [Remark(regions[k].summary)]
          else note == [])
      && rest == if exists j :: 0 <= j < |regions| && e.cid in regions[j].ids then [] else [e]
  }

  function Remark(summary: Text): (e: Entry) {
    Entry(NoName, true, Message(User, NoName, false, Blocks([Block.Text(summary, false)])))
  }

  function Flat(pieces: seq<seq<Entry>>): (r: seq<Entry>) {
    if pieces == [] then [] else pieces[0] + Flat(pieces[1..])
  }

  lemma {:induction false} InsertsMean(regions: seq<Region>, cid: Name)
    ensures cid in Inserts(regions) <==> exists k: nat :: Heads(regions, k, cid)
    ensures forall k: nat :: Heads(regions, k, cid) ==>
              cid in Inserts(regions) && Inserts(regions)[cid] == regions[k].summary
  {
    if regions != [] {
      var n := |regions| - 1;
      var front, last := regions[..n], regions[n];
      InsertsMean(front, cid);
      if last.ids != [] && last.ids[0] == cid {
        assert Heads(regions, n, cid);
      } else {
        forall k: nat ensures Heads(regions, k, cid) <==> Heads(front, k, cid) {
        }
      }
    }
  }

  lemma {:induction false} PieceIsShown(e: Entry, regions: seq<Region>)
    ensures ShownAs(e, regions, (if e.cid in Inserts(regions) then [SummaryEntry(Inserts(regions)[e.cid])] else [])
                                + (if e.cid in FoldedIds(regions) then [] else [e]))
  {
    InsertsMean(regions, e.cid);
    hide Inserts;
  }

  /** The view shows each entry of the history in its place, and nothing else. */
  lemma {:induction false} ViewIsShown(h: seq<Entry>, regions: seq<Region>) returns (pieces: seq<seq<Entry>>)
    ensures |pieces| == |h| && View(h, regions) == Flat(pieces)
    ensures forall i :: 0 <= i < |h| ==> ShownAs(h[i], regions, pieces[i])
    decreases |h|
  {
    if h == [] {
      pieces := [];
    } else {
      var rest := ViewIsShown(h[1..], regions);
      ProjectHead(h, Inserts(regions), FoldedIds(regions));
      PieceIsShown(h[0], regions);
      hide ProjectFrom, Inserts, FoldedIds, ShownAs;
      var piece := (if h[0].cid in Inserts(regions) then [SummaryEntry(Inserts(regions)[h[0].cid])] else [])
                   + (if h[0].cid in FoldedIds(regions) then [] else [h[0]]);
      pieces := [piece] + rest;
      assert pieces[1..] == rest;
    }
  }

  // ----- The latest request -----

  predicate NoRequest(h: seq<Entry>) {
    forall i :: 0 <= i < |h| ==> !PlainRequest(h[i])
  }

  lemma RemarkIsNoRequest(summary: Text)
    ensures !PlainRequest(SummaryEntry(summary))
  {
  }

  lemma {:induction false} NoRequestShown(h: seq<Entry>, inserts: map<Name, Text>, folded: set<Name>)
    requires NoRequest(h)
    ensures NoRequest(ProjectFrom(h, inserts, folded))
    decreases |h|
  {
    hide PlainRequest;
    if h != [] {
      NoRequestShown(h[1..], inserts, folded);
      ProjectHead(h, inserts, folded);
      hide ProjectFrom;
      if h[0].cid in inserts {
        RemarkIsNoRequest(inserts[h[0].cid]);
      }
    }
  }

  lemma LatestBehind(front: seq<Entry>, h: seq<Entry>, i: nat)
    requires IsLatest(h, i)
    ensures IsLatest(front + h, |front| + i) && (front + h)[|front| + i] == h[i]
  {
  }

  lemma LatestHere(front: seq<Entry>, e: Entry, h: seq<Entry>)
    requires PlainRequest(e) && NoRequest(h)
    ensures IsLatest(front + [e] + h, |front|) && (front + [e] + h)[|front|] == e
  {
  }

  /** Whatever is folded, the latest request the model is shown is the latest request of the history, as long
      as no region holds it: summaries never count as requests. */
  lemma {:induction false} LatestRequestIsShown(h: seq<Entry>, inserts: map<Name, Text>, folded: set<Name>, i: nat)
    returns (k: nat)
    requires IsLatest(h, i) && h[i].cid !in folded
    ensures IsLatest(ProjectFrom(h, inserts, folded), k) && ProjectFrom(h, inserts, folded)[k] == h[i]
    decreases |h|
  {
    var note := if h[0].cid in inserts then [SummaryEntry(inserts[h[0].cid])] else [];
    var shown := if h[0].cid in folded then [] else [h[0]];
    var rest := ProjectFrom(h[1..], inserts, folded);
    ProjectHead(h, inserts, folded);
    if i == 0 {
      NoRequestShown(h[1..], inserts, folded);
      hide ProjectFrom, PlainRequest;
      LatestHere(note, h[0], rest);
      k := |note|;
    } else {
      assert IsLatest(h[1..], i - 1);
      var later := LatestRequestIsShown(h[1..], inserts, folded, i - 1);
      hide ProjectFrom, IsLatest;
      LatestBehind(note + shown, rest, later);
      k := |note + shown| + later;
    }
  }
}
