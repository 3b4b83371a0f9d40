/** A disk as a map from paths to contents, and the three tree operations a layout migration is
    made of (apppaths/migrate.go). Directories exist through their files. */
module FileTree {
  import opened Prelude

  type Path = seq<Name>

  type Files = map<Path, Text>

  /** `p` is `root` or lies inside it. */
  predicate Inside(root: Path, p: Path) {
    root <= p
  }

  function Rebase(p: Path, from: Path, to: Path): (r: Path)
    requires Inside(from, p)
    ensures Inside(to, r)
  {
    to + p[|from|..]
  }

  lemma RebaseBack(p: Path, from: Path, to: Path)
    requires Inside(from, p)
    ensures Rebase(Rebase(p, from, to), to, from) == p
  {
  }

  predicate Holds(fs: Files, root: Path) {
    exists p :: p in fs && Inside(root, p)
  }

  /** Where the files of `from` go when the tree is put at `to`. */
  function Targets(fs: Files, from: Path, to: Path): (s: set<Path>) {
    set p | p in fs && Inside(from, p) :: Rebase(p, from, to)
  }

  lemma TargetsMeans(fs: Files, from: Path, to: Path, q: Path)
    ensures q in Targets(fs, from, to) <==> Inside(to, q) && Rebase(q, to, from) in fs
  {
    if q in Targets(fs, from, to) {
      var p :| p in fs && Inside(from, p) && q == Rebase(p, from, to);
      RebaseBack(p, from, to);
    }
    if Inside(to, q) && Rebase(q, to, from) in fs {
      RebaseBack(q, to, from);
    }
  }

  /** Copy the tree `from` to `to`; a file already there is overwritten. */
  function CopyTree(fs: Files, from: Path, to: Path): (r: Files)
    ensures forall q :: q in r <==> q in fs || (Inside(to, q) && Rebase(q, to, from) in fs)
    ensures forall q :: q in r ==>
              r[q] == if Inside(to, q) && Rebase(q, to, from) in fs then fs[Rebase(q, to, from)] else fs[q]
  {
    assert forall q :: q in Targets(fs, from, to) <==> Inside(to, q) && Rebase(q, to, from) in fs by {
      forall q ensures q in Targets(fs, from, to) <==> Inside(to, q) && Rebase(q, to, from) in fs {
        TargetsMeans(fs, from, to, q);
      }
    }
    map q | q in fs.Keys + Targets(fs, from, to) ::
      if Inside(to, q) && Rebase(q, to, from) in fs then fs[Rebase(q, to, from)] else fs[q]
  }

  function RemoveTree(fs: Files, root: Path): (r: Files) {
    map p | p in fs && !Inside(root, p) :: fs[p]
  }

  /** Rename the tree `from` to `to`. */
  function MoveTree(fs: Files, from: Path, to: Path): (r: Files)
    ensures forall q :: q in r <==> (q in fs && !Inside(from, q)) || (Inside(to, q) && Rebase(q, to, from) in fs)
    ensures forall q :: q in r ==>
              r[q] == if Inside(to, q) && Rebase(q, to, from) in fs then fs[Rebase(q, to, from)] else fs[q]
  {
    assert forall q :: q in Targets(fs, from, to) <==> Inside(to, q) && Rebase(q, to, from) in fs by {
      forall q ensures q in Targets(fs, from, to) <==> Inside(to, q) && Rebase(q, to, from) in fs {
        TargetsMeans(fs, from, to, q);
      }
    }
    map q | q in RemoveTree(fs, from).Keys + Targets(fs, from, to) ::
      if Inside(to, q) && Rebase(q, to, from) in fs then fs[Rebase(q, to, from)] else fs[q]
  }

  lemma SameFiles(a: Files, b: Files)
    requires forall p :: p in a <==> p in b
    requires forall p :: p in a && p in b ==> a[p] == b[p]
    ensures a == b
  {
  }

  /** Removing the copy undoes a copy if and only if no file lay at the destination. */
  lemma {:induction false} UncopyExactly(fs: Files, from: Path, to: Path)
    requires !Inside(from, to)
    ensures RemoveTree(CopyTree(fs, from, to), to) == fs <==> !Holds(fs, to)
  {
    var back := RemoveTree(CopyTree(fs, from, to), to);
    hide CopyTree;
    if Holds(fs, to) {
      var p :| p in fs && Inside(to, p);
      assert p !in back;
    } else {
      SameFiles(back, fs);
    }
  }

  /** Where one file is after a move and its reversal. */
  lemma {:induction false} UnmoveOne(fs: Files, from: Path, to: Path, p: Path)
    requires !Holds(fs, to) && !Inside(from, to)
    ensures var there := MoveTree(fs, from, to);
            var back := MoveTree(there, to, from);
            && (p in back <==> p in fs) && (p in fs ==> back[p] == fs[p])
  {
    var there := MoveTree(fs, from, to);
    var back := MoveTree(there, to, from);
    hide MoveTree;
    if Inside(from, p) {
      RebaseBack(p, from, to);
      var q := Rebase(p, from, to);
      assert q !in fs;
      assert q in there <==> p in fs;
    }
  }

  /** Moving back undoes a move if and only if no file lay at the destination, when source and
      destination do not overlap. */
  lemma UnmoveExactly(fs: Files, from: Path, to: Path)
    requires !Inside(from, to) && !Inside(to, from)
    ensures MoveTree(MoveTree(fs, from, to), to, from) == fs <==> !Holds(fs, to)
  {
    var back := MoveTree(MoveTree(fs, from, to), to, from);
    if Holds(fs, to) {
      var p :| p in fs && Inside(to, p);
      LeavesDestination(fs, from, to, p);
    } else {
      forall p ensures (p in back <==> p in fs) && (p in fs ==> back[p] == fs[p]) {
        UnmoveOne(fs, from, to, p);
      }
      SameFiles(back, fs);
    }
  }

  lemma {:induction false} LeavesDestination(fs: Files, from: Path, to: Path, p: Path)
    requires !Inside(from, to) && !Inside(to, from) && Inside(to, p)
    ensures p !in MoveTree(MoveTree(fs, from, to), to, from)
  {
    assert !Inside(from, p);
    hide MoveTree;
  }
}
