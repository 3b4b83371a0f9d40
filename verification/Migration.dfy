/** The layout migration as a transaction on a disk (apppaths/migrate.go): operations are applied
    one after the other, a few files are rewritten under snapshots, and every failure before the
    layout is committed puts everything back. Each file operation is atomic. */
module Migration {
  import opened Prelude
  import opened FileTree

  datatype Kind = Copy | Move | RenameCase

  datatype Status = Planned | Identical | Missing

  datatype Operation = Operation(kind: Kind, source: Path, destination: Path, status: Status)

  predicate Skipped(op: Operation) {
    op.status == Identical || op.status == Missing
  }

  /** A completed operation, and whether it left its source in place. */
  datatype Completed = Completed(op: Operation, copied: bool)

  function Applied(fs: Files, c: Completed): (r: Files) {
    if c.copied && c.op.kind != RenameCase then CopyTree(fs, c.op.source, c.op.destination)
    else MoveTree(fs, c.op.source, c.op.destination)
  }

  function Undone(fs: Files, c: Completed): (r: Files) {
    if c.copied && c.op.kind != RenameCase then RemoveTree(fs, c.op.destination)
    else MoveTree(fs, c.op.destination, c.op.source)
  }

  /** The destination is not inside the source and holds no files at this moment. */
  predicate Clean(fs: Files, op: Operation) {
    !Inside(op.source, op.destination) && !Holds(fs, op.destination)
  }

  /** Undoing one operation restores the disk if its destination was clean; and for operations on
      disjoint trees only then. */
  lemma UndoRestores(fs: Files, c: Completed)
    requires !Inside(c.op.source, c.op.destination)
    ensures Clean(fs, c.op) ==> Undone(Applied(fs, c), c) == fs
    ensures !Inside(c.op.destination, c.op.source) ==> (Undone(Applied(fs, c), c) == fs <==> Clean(fs, c.op))
  {
    var from, to := c.op.source, c.op.destination;
    if c.copied && c.op.kind != RenameCase {
      UncopyExactly(fs, from, to);
    } else if !Inside(to, from) {
      UnmoveExactly(fs, from, to);
    } else if Clean(fs, c.op) {
      forall p ensures var back := MoveTree(MoveTree(fs, from, to), to, from);
                       (p in back <==> p in fs) && (p in fs ==> back[p] == fs[p])
      {
        UnmoveOne(fs, from, to, p);
      }
      SameFiles(Undone(Applied(fs, c), c), fs);
    }
  }

  // ----- Sequences of operations -----

  function ApplyAll(fs: Files, done: seq<Completed>): (r: Files)
    decreases |done|
  {
    if done == [] then fs else Applied(ApplyAll(fs, done[..|done| - 1]), done[|done| - 1])
  }

  function UndoAll(fs: Files, done: seq<Completed>): (r: Files)
    decreases |done|
  {
    if done == [] then fs else UndoAll(Undone(fs, done[|done| - 1]), done[..|done| - 1])
  }

  /** Every destination was clean when its operation was applied. */
  predicate AllClean(fs: Files, done: seq<Completed>)
    decreases |done|
  {
    done == [] || (AllClean(fs, done[..|done| - 1]) && Clean(ApplyAll(fs, done[..|done| - 1]), done[|done| - 1].op))
  }

  /** Undoing any completed operations in reverse order restores the original disk. */
  lemma {:induction false} RollbackRestores(fs: Files, done: seq<Completed>)
    requires AllClean(fs, done)
    ensures UndoAll(ApplyAll(fs, done), done) == fs
    decreases |done|
  {
    if done != [] {
      var before := done[..|done| - 1];
      UndoRestores(ApplyAll(fs, before), done[|done| - 1]);
      RollbackRestores(fs, before);
    }
  }

  // ----- File snapshots -----

  datatype FileSnapshot = FileSnapshot(path: Path, content: Option<Text>)

  function Snapshot(fs: Files, p: Path): (s: FileSnapshot) {
    FileSnapshot(p, if p in fs then Some(fs[p]) else None)
  }

  function PutBack(fs: Files, s: FileSnapshot): (r: Files) {
    if s.content.Some? then fs[s.path := s.content.value] else fs - {s.path}
  }

  /** Snapshots are restored in the order they were taken. */
  function PutAllBack(fs: Files, snaps: seq<FileSnapshot>): (r: Files)
    decreases |snaps|
  {
    if snaps == [] then fs else PutBack(PutAllBack(fs, snaps[..|snaps| - 1]), snaps[|snaps| - 1])
  }

  /** `snaps` records files as they are in `original`, and no other file has changed since. */
  ghost predicate Covers(original: Files, fs: Files, snaps: seq<FileSnapshot>) {
    && (forall i :: 0 <= i < |snaps| ==> snaps[i] == Snapshot(original, snaps[i].path))
    && (forall p :: p !in Paths(snaps) ==> (p in original <==> p in fs) && (p in original ==> fs[p] == original[p]))
  }

  function Paths(snaps: seq<FileSnapshot>): (s: set<Path>) {
    set i | 0 <= i < |snaps| :: snaps[i].path
  }

  /** One file after all snapshots are back. */
  lemma {:induction false} OneFileBack(original: Files, fs: Files, snaps: seq<FileSnapshot>, p: Path)
    requires forall i :: 0 <= i < |snaps| ==> snaps[i] == Snapshot(original, snaps[i].path)
    ensures var r := PutAllBack(fs, snaps);
            if p in Paths(snaps) then (p in r <==> p in original) && (p in original ==> r[p] == original[p])
            else (p in r <==> p in fs) && (p in fs ==> r[p] == fs[p])
    decreases |snaps|
  {
    if snaps != [] {
      var before := snaps[..|snaps| - 1];
      OneFileBack(original, fs, before, p);
      assert p in Paths(snaps) <==> p in Paths(before) || p == snaps[|snaps| - 1].path by {
        PathsGrow(before, snaps[|snaps| - 1]);
        assert snaps == before + [snaps[|snaps| - 1]];
      }
    }
  }

  lemma PathsGrow(snaps: seq<FileSnapshot>, s: FileSnapshot)
    ensures Paths(snaps + [s]) == Paths(snaps) + {s.path}
  {
    var all := snaps + [s];
    forall p ensures p in Paths(all) <==> p in Paths(snaps) + {s.path} {
      if p in Paths(snaps) {
        var i :| 0 <= i < |snaps| && snaps[i].path == p;
        assert all[i] == snaps[i];
      }
      if p == s.path {
        assert all[|snaps|] == s;
      }
    }
  }

  lemma SnapshotsRestore(original: Files, fs: Files, snaps: seq<FileSnapshot>)
    requires Covers(original, fs, snaps)
    ensures PutAllBack(fs, snaps) == original
  {
    forall p ensures var r := PutAllBack(fs, snaps);
                     (p in r <==> p in original) && (p in original ==> r[p] == original[p])
    {
      OneFileBack(original, fs, snaps, p);
    }
    SameFiles(PutAllBack(fs, snaps), original);
  }

  lemma NothingCovered(fs: Files)
    ensures Covers(fs, fs, [])
  {
  }

  /** Taking the snapshot of a file not rewritten so far. */
  lemma SnapshotCovers(original: Files, fs: Files, snaps: seq<FileSnapshot>, p: Path)
    requires Covers(original, fs, snaps) && p !in Paths(snaps)
    ensures Covers(original, fs, snaps + [Snapshot(fs, p)])
  {
    PathsGrow(snaps, Snapshot(fs, p));
    assert Snapshot(fs, p) == Snapshot(original, p);
  }

  /** New contents, or removal, for some files. */
  type Edit = map<Path, Option<Text>>

  function Edited(fs: Files, edit: Edit, allowed: set<Path>): (r: Files) {
    map p | p in fs.Keys + (edit.Keys * allowed)
            && (if p in edit && p in allowed then edit[p].Some? else p in fs) ::
      if p in edit && p in allowed then edit[p].value else fs[p]
  }

  /** Rewriting snapshotted files keeps them covered. */
  lemma EditCovers(original: Files, fs: Files, snaps: seq<FileSnapshot>, edit: Edit, allowed: set<Path>)
    requires Covers(original, fs, snaps) && allowed <= Paths(snaps)
    ensures Covers(original, Edited(fs, edit, allowed), snaps)
  {
  }

  // ----- Files outside all operations -----

  predicate Outside(q: Path, c: Completed) {
    !Inside(c.op.source, q) && !Inside(c.op.destination, q)
  }

  lemma UndoneWithout(fs: Files, c: Completed, q: Path)
    requires Outside(q, c)
    ensures Undone(fs - {q}, c) == Undone(fs, c) - {q}
  {
    var a, b := Undone(fs - {q}, c), Undone(fs, c) - {q};
    if c.copied && c.op.kind != RenameCase {
      SameFiles(a, b);
    } else {
      MovedWithout(fs, c.op.destination, c.op.source, q);
    }
  }

  lemma MovedWithout(fs: Files, from: Path, to: Path, q: Path)
    requires !Inside(from, q) && !Inside(to, q)
    ensures MoveTree(fs - {q}, from, to) == MoveTree(fs, from, to) - {q}
  {
    var a, b := MoveTree(fs - {q}, from, to), MoveTree(fs, from, to) - {q};
    forall p ensures (p in a <==> p in b) && (p in a && p in b ==> a[p] == b[p]) {
      if Inside(to, p) {
        assert Rebase(p, to, from) != q;
      }
    }
    SameFiles(a, b);
  }

  lemma {:induction false} UndoAllWithout(fs: Files, done: seq<Completed>, q: Path)
    requires forall i :: 0 <= i < |done| ==> Outside(q, done[i])
    ensures UndoAll(fs - {q}, done) == UndoAll(fs, done) - {q}
    decreases |done|
  {
    if done != [] {
      var last := done[|done| - 1];
      UndoneWithout(fs, last, q);
      UndoAllWithout(Undone(fs, last), done[..|done| - 1], q);
    }
  }

  lemma {:induction false} PutAllBackWithout(fs: Files, snaps: seq<FileSnapshot>, q: Path)
    requires q !in Paths(snaps)
    ensures PutAllBack(fs - {q}, snaps) == PutAllBack(fs, snaps) - {q}
    decreases |snaps|
  {
    if snaps != [] {
      var before, last := snaps[..|snaps| - 1], snaps[|snaps| - 1];
      assert snaps == before + [last];
      PathsGrow(before, last);
      PutAllBackWithout(fs, before, q);
    }
  }
}
