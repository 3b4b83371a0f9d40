/** The migration step by step on a mutable disk, with every exit of the source
    (apppaths/migrate.go). */
module MigrationRun {
  import opened Prelude
  import opened FileTree
  import opened Migration

  datatype Plan = Plan(
    ops: seq<Operation>, preserve: bool, sourceRoot: Path, backup: Path,
    manifest: Option<Path>, settings: Path, managed: Path, mcp: Path, report: Path, layout: Path, memory: Name)

  /** The rewritten files are different files. When the source root is another one than the target,
      its backup lies beside it, and the report, which belongs to the target, lies in neither; when
      the migration works in place, nothing is asked of the report. */
  predicate WellPlanned(p: Plan) {
    && p.settings != p.managed && p.settings != p.mcp && p.managed != p.mcp
    && (p.manifest.Some? ==> p.manifest.value !in {p.settings, p.managed, p.mcp})
    && (p.preserve ==>
          && !Inside(p.sourceRoot, p.backup) && !Inside(p.backup, p.sourceRoot)
          && !Inside(p.sourceRoot, p.report) && !Inside(p.backup, p.report))
  }

  /** The memory data that a committed migration deletes: of the backup, or of the root itself. */
  function Retired(p: Plan): (r: Path) {
    (if p.preserve then p.backup else p.sourceRoot) + [p.memory]
  }

  /** Where the migration stopped. */
  datatype Stage =
    | BackupTaken | Operations | PreCommit | TakeManifest | WriteManifest | TakeConfig | RewriteSettings | RewriteMcp
    | Inspect | KeepSource | WriteReport | WriteLayout | Committed | RetireMemory

  /** What fails, and what the rewriting stages write. A failing stage may still have written. */
  datatype Env = Env(opFails: nat -> bool, fails: Stage -> bool,
                     manifestEdit: Edit, settingsEdit: Edit, mcpEdit: Edit, reportText: Text, layoutText: Text)

  /** The disk between applying the operations and committing: `base` is the disk right after the
      operations, and all later changes are covered by snapshots. */
  ghost predicate Tracks(start: Files, done: seq<Completed>, fs: Files, snaps: seq<FileSnapshot>) {
    Covers(ApplyAll(start, done), fs, snaps)
  }

  lemma UnwindRestores(start: Files, done: seq<Completed>, fs: Files, snaps: seq<FileSnapshot>)
    requires Tracks(start, done, fs, snaps)
    ensures AllClean(start, done) ==> UndoAll(PutAllBack(fs, snaps), done) == start
  {
    SnapshotsRestore(ApplyAll(start, done), fs, snaps);
    if AllClean(start, done) {
      RollbackRestores(start, done);
    }
  }

  class Disk {
    var files: Files

    constructor (initial: Files)
      ensures files == initial
    {
      files := initial;
    }

    /** Restore snapshots in the order they were taken. */
    method RestoreFiles(snaps: seq<FileSnapshot>)
      modifies this
      ensures files == PutAllBack(old(files), snaps)
    {
      var i := 0;
      while i < |snaps|
        invariant 0 <= i <= |snaps| && files == PutAllBack(old(files), snaps[..i])
      {
        assert snaps[..i + 1][..i] == snaps[..i];
        if snaps[i].content.None? {
          files := files - {snaps[i].path};
        } else {
          files := files[snaps[i].path := snaps[i].content.value];
        }
        i := i + 1;
      }
      assert snaps[..i] == snaps;
    }

    /** Undo completed operations, the last one first. */
    method Rollback(done: seq<Completed>)
      modifies this
      ensures files == UndoAll(old(files), done)
    {
      var i := |done|;
      assert done[..i] == done;
      while i > 0
        invariant 0 <= i <= |done| && UndoAll(files, done[..i]) == UndoAll(old(files), done)
      {
        i := i - 1;
        assert done[..i + 1][..i] == done[..i] && done[..i + 1][i] == done[i];
        files := Undone(files, done[i]);
      }
      assert done[..0] == [];
    }

    /** Undo everything after a failure: files first, then the operations. */
    method Unwind(done: seq<Completed>, snaps: seq<FileSnapshot>, ghost start: Files)
      requires Tracks(start, done, files, snaps)
      modifies this
      ensures AllClean(start, done) ==> files == start
    {
      UnwindRestores(start, done, files, snaps);
      RestoreFiles(snaps);
      Rollback(done);
    }

    /** Apply the planned operations in order until one fails. */
    method ApplyOperations(plan: Plan, env: Env) returns (ok: bool, done: seq<Completed>)
      modifies this
      ensures files == ApplyAll(old(files), done)
      ensures done <= ToApply(plan.ops, plan.preserve) && (ok ==> done == ToApply(plan.ops, plan.preserve))
      ensures !ok ==> exists i: nat :: StopsAt(plan, env, i, done)
    {
      hide ApplyAll, Applied, ToApply;
      done := [];
      ok := true;
      NothingApplied(files, plan.ops, plan.preserve);
      for i := 0 to |plan.ops|
        invariant ok && files == ApplyAll(old(files), done) && done == ToApply(plan.ops[..i], plan.preserve)
      {
        var op := plan.ops[i];
        ToApplyStep(plan.ops, i, plan.preserve);
        if !Skipped(op) {
          var c := Completed(op, op.kind == Copy || plan.preserve);
          if env.opFails(i) {
            ToApplyGrows(plan.ops, i, plan.preserve);
            assert StopsAt(plan, env, i, done);
            return false, done;
          }
          ApplyAllStep(old(files), done, c);
          files := Applied(files, c);
          done := done + [c];
        }
      }
      assert plan.ops[..|plan.ops|] == plan.ops;
    }

    /** Rewrite snapshotted files. */
    method Rewrite(edit: Edit, allowed: set<Path>, snaps: seq<FileSnapshot>, ghost start: Files,
        ghost done: seq<Completed>)
      requires Tracks(start, done, files, snaps) && allowed <= Paths(snaps)
      modifies this
      ensures Tracks(start, done, files, snaps) && files == Edited(old(files), edit, allowed)
    {
      EditCovers(ApplyAll(start, done), files, snaps, edit, allowed);
      files := Edited(files, edit, allowed);
    }

    /** The project manifest, the settings and the two MCP files, each under a snapshot. */
    method RewriteFiles(plan: Plan, env: Env, ghost start: Files, ghost done: seq<Completed>)
      returns (stopped: Stage, snaps: seq<FileSnapshot>)
      requires WellPlanned(plan) && files == ApplyAll(start, done)
      modifies this
      ensures Tracks(start, done, files, snaps)
      ensures Paths(snaps) <= RewrittenPaths(plan)
      ensures stopped == Committed ==> files == Rewritten(old(files), plan, env)
      ensures stopped in {TakeManifest, WriteManifest, TakeConfig, RewriteSettings, RewriteMcp, Committed}
    {
      hide *;
      snaps := [];
      StartTracking(start, done, plan);
      if plan.manifest.Some? {
        if env.fails(TakeManifest) {
          return TakeManifest, snaps;
        }
        TakeSnapshot(start, done, files, snaps, plan.manifest.value);
        snaps := snaps + [Snapshot(files, plan.manifest.value)];
        ManifestPaths(plan, snaps);
        Rewrite(env.manifestEdit, {plan.manifest.value}, snaps, start, done);
        if env.fails(WriteManifest) {
          return WriteManifest, snaps;
        }
      }
      if env.fails(TakeConfig) {
        return TakeConfig, snaps;
      }
      snaps := TakeConfigSnapshots(plan, snaps, start, done);
      Rewrite(env.settingsEdit, {plan.settings}, snaps, start, done);
      if env.fails(RewriteSettings) {
        return RewriteSettings, snaps;
      }
      Rewrite(env.mcpEdit, {plan.managed, plan.mcp}, snaps, start, done);
      RewrittenMeans(ApplyAll(start, done), plan, env);
      return if env.fails(RewriteMcp) then RewriteMcp else Committed, snaps;
    }

    method TakeConfigSnapshots(plan: Plan, taken: seq<FileSnapshot>, ghost start: Files, ghost done: seq<Completed>)
      returns (snaps: seq<FileSnapshot>)
      requires WellPlanned(plan) && Tracks(start, done, files, taken)
      requires Paths(taken) <= if plan.manifest.Some? then {plan.manifest.value} else {}
      ensures Tracks(start, done, files, snaps)
      ensures {plan.settings, plan.managed, plan.mcp} <= Paths(snaps) <= RewrittenPaths(plan)
    {
      hide Tracks, Paths;
      snaps := taken;
      TakeSnapshot(start, done, files, snaps, plan.settings);
      snaps := snaps + [Snapshot(files, plan.settings)];
      TakeSnapshot(start, done, files, snaps, plan.managed);
      snaps := snaps + [Snapshot(files, plan.managed)];
      TakeSnapshot(start, done, files, snaps, plan.mcp);
      snaps := snaps + [Snapshot(files, plan.mcp)];
    }

    /** The whole migration. Every exit before the layout commit leaves the disk as it was; a failed
        layout commit leaves it as it was except that a report file is gone. */
    method Migrate(plan: Plan, env: Env) returns (stopped: Stage, ghost done: seq<Completed>)
      requires WellPlanned(plan)
      modifies this
      ensures stopped !in {Committed, WriteLayout} && AllClean(old(files), done) ==> files == old(files)
      ensures stopped == WriteLayout && AllClean(old(files), done) && ReportApart(plan, done) ==>
                files == old(files) - {plan.report} && (files == old(files) <==> plan.report !in old(files))
      ensures stopped !in {BackupTaken, Operations} ==> done == ToApply(plan.ops, plan.preserve)
      ensures stopped == BackupTaken <==> plan.preserve && Holds(old(files), plan.backup)
      ensures stopped == Committed ==> files == Final(Rewritten(ApplyAll(old(files), done), plan, env), plan, env)
    {
      hide *;
      ghost var start := files;
      done := [];
      if plan.preserve && Holds(files, plan.backup) {
        return BackupTaken, done;
      }
      var ok, completed := ApplyOperations(plan, env);
      done := completed;
      if !ok || env.fails(PreCommit) {
        StartTracking(start, done, plan);
        Unwind(completed, [], start);
        return (if ok then PreCommit else Operations), done;
      }
      var snaps;
      stopped, snaps := RewriteFiles(plan, env, start, done);
      if stopped != Committed {
        Unwind(completed, snaps, start);
        return;
      }
      if env.fails(Inspect) {
        Unwind(completed, snaps, start);
        return Inspect, done;
      }
      stopped := Finish(plan, env, completed, snaps, start);
      WithoutOne(start, plan.report);
    }

    /** Keep the source, write the report, and commit the layout. */
    method Finish(plan: Plan, env: Env, done: seq<Completed>, snaps: seq<FileSnapshot>, ghost start: Files)
      returns (stopped: Stage)
      requires WellPlanned(plan) && Tracks(start, done, files, snaps) && Paths(snaps) <= RewrittenPaths(plan)
      modifies this
      ensures stopped in {KeepSource, WriteReport} && AllClean(start, done) ==> files == start
      ensures stopped == WriteLayout && AllClean(start, done) && ReportApart(plan, done) ==>
          files == start - {plan.report}
      ensures stopped == Committed ==> files == Final(old(files), plan, env)
      ensures stopped in {KeepSource, WriteReport, WriteLayout, Committed}
    {
      hide *;
      ghost var before := files;
      if plan.preserve {
        if env.fails(KeepSource) || Holds(files, plan.backup) {
          Unwind(done, snaps, start);
          return KeepSource;
        }
        SourceReturns(plan, files);
        files := MoveTree(files, plan.sourceRoot, plan.backup);
      }
      if env.fails(WriteReport) {
        RestoreSource(plan, before);
        Unwind(done, snaps, start);
        return WriteReport;
      }
      ghost var kept := files;
      files := files[plan.report := env.reportText];
      if env.fails(WriteLayout) {
        ReportRemoved(kept, plan.report, env.reportText);
        files := files - {plan.report};
        ReportLeaves(plan, before, kept);
        RestoreSource(plan, before - {plan.report});
        WithoutReport(plan, start, done, before, snaps);
        RestoreFiles(snaps);
        Rollback(done);
        return WriteLayout;
      }
      files := files[plan.layout := env.layoutText];
      if !env.fails(RetireMemory) {
        files := RemoveTree(files, Retired(plan));
      }
      FinalMeans(before, plan, env);
      return Committed;
    }

    /** Rename the backup back, if the source root is gone. */
    method RestoreSource(plan: Plan, ghost before: Files)
      requires WellPlanned(plan)
      requires if plan.preserve then Kept(plan, before, files) else files == before
      modifies this
      ensures files == before
    {
      if plan.preserve && !Holds(files, plan.sourceRoot) {
        files := MoveTree(files, plan.backup, plan.sourceRoot);
      }
    }
  }

  /** The operations that are carried out, in order. */
  function ToApply(ops: seq<Operation>, preserve: bool): (done: seq<Completed>) {
    if ops == [] then []
    else
      var op := ops[|ops| - 1];
      ToApply(ops[..|ops| - 1], preserve) + if Skipped(op) then [] else [Completed(op, op.kind == Copy || preserve)]
  }

  /** Operation `i` fails, after all earlier ones were carried out. */
  predicate StopsAt(plan: Plan, env: Env, i: nat, done: seq<Completed>) {
    i < |plan.ops| && env.opFails(i) && !Skipped(plan.ops[i]) && done == ToApply(plan.ops[..i], plan.preserve)
  }

  lemma NothingApplied(fs: Files, ops: seq<Operation>, preserve: bool)
    ensures ApplyAll(fs, []) == fs && ToApply(ops[..0], preserve) == []
  {
  }

  lemma ApplyAllStep(fs: Files, done: seq<Completed>, c: Completed)
    ensures ApplyAll(fs, done + [c]) == Applied(ApplyAll(fs, done), c)
  {
    assert (done + [c])[..|done|] == done;
  }

  lemma ToApplyStep(ops: seq<Operation>, i: nat, preserve: bool)
    requires i < |ops|
    ensures ToApply(ops[..i + 1], preserve) == if Skipped(ops[i]) then ToApply(ops[..i], preserve)
              else ToApply(ops[..i], preserve) + [Completed(ops[i], ops[i].kind == Copy || preserve)]
  {
    assert ops[..i + 1][..i] == ops[..i];
    assert ToApply(ops[..i], preserve) + [] == ToApply(ops[..i], preserve);
  }

  lemma {:induction false} ToApplyGrows(ops: seq<Operation>, i: nat, preserve: bool)
    requires i < |ops|
    ensures ToApply(ops[..i], preserve) <= ToApply(ops, preserve)
    decreases |ops|
  {
    if i < |ops| - 1 {
      ToApplyGrows(ops[..|ops| - 1], i, preserve);
      assert ops[..|ops| - 1][..i] == ops[..i];
    }
  }

  lemma WithoutOne(fs: Files, p: Path)
    ensures fs - {p} == fs <==> p !in fs
  {
  }

  /** The disk after the manifest, the settings and the two MCP files are rewritten. */
  function Rewritten(fs: Files, plan: Plan, env: Env): (r: Files) {
    var manifested := if plan.manifest.Some? then Edited(fs, env.manifestEdit, {plan.manifest.value}) else fs;
    Edited(Edited(manifested, env.settingsEdit, {plan.settings}), env.mcpEdit, {plan.managed, plan.mcp})
  }

  lemma RewrittenMeans(fs: Files, plan: Plan, env: Env)
    ensures plan.manifest.None? ==>
              Rewritten(fs, plan, env) == Edited(Edited(fs, env.settingsEdit, {plan.settings}), env.mcpEdit,
                  {plan.managed, plan.mcp})
    ensures plan.manifest.Some? ==>
              Rewritten(fs, plan, env) == Edited(Edited(Edited(fs, env.manifestEdit, {plan.manifest.value}),
                env.settingsEdit, {plan.settings}), env.mcpEdit, {plan.managed, plan.mcp})
  {
  }

  function WithReports(fs: Files, plan: Plan, env: Env): (r: Files) {
    var kept := if plan.preserve then MoveTree(fs, plan.sourceRoot, plan.backup) else fs;
    kept[plan.report := env.reportText][plan.layout := env.layoutText]
  }

  /** The committed disk: the source kept aside, the report and the layout written, and the retired
      memory data deleted if that works. */
  function Final(fs: Files, plan: Plan, env: Env): (r: Files) {
    if env.fails(RetireMemory) then WithReports(fs, plan, env)
        else RemoveTree(WithReports(fs, plan, env), Retired(plan))
  }

  lemma FinalMeans(fs: Files, plan: Plan, env: Env)
    ensures var kept := if plan.preserve then MoveTree(fs, plan.sourceRoot, plan.backup) else fs;
            var written := kept[plan.report := env.reportText][plan.layout := env.layoutText];
            Final(fs, plan, env) == if env.fails(RetireMemory) then written else RemoveTree(written, Retired(plan))
  {
  }

  /** Where a file lies after the source root was kept aside. */
  function Place(plan: Plan, p: Path): (q: Path) {
    if plan.preserve && Inside(plan.sourceRoot, p) then Rebase(p, plan.sourceRoot, plan.backup) else p
  }

  /** Committing loses exactly the retired memory data: every other file, the report and the layout
      aside, is in its place with its contents. */
  lemma CommitKeepsFiles(fs: Files, plan: Plan, env: Env, p: Path)
    requires WellPlanned(plan) && p in fs && (plan.preserve ==> !Holds(fs, plan.backup))
    requires Place(plan, p) !in {plan.report, plan.layout}
    ensures var q := Place(plan, p);
            var memory := (if plan.preserve then plan.backup else plan.sourceRoot) + [plan.memory];
            && (q in Final(fs, plan, env) <==> env.fails(RetireMemory) || !Inside(memory, q))
            && (q in Final(fs, plan, env) ==> Final(fs, plan, env)[q] == fs[p])
  {
    if plan.preserve && Inside(plan.sourceRoot, p) {
      RebaseBack(p, plan.sourceRoot, plan.backup);
    }
  }

  function RewrittenPaths(plan: Plan): (s: set<Path>) {
    {plan.settings, plan.managed, plan.mcp} + if plan.manifest.Some? then {plan.manifest.value} else {}
  }

  /** The report is none of the files the migration touches. */
  predicate ReportApart(plan: Plan, done: seq<Completed>) {
    plan.report !in RewrittenPaths(plan) && forall i :: 0 <= i < |done| ==> Outside(plan.report, done[i])
  }

  lemma StartTracking(start: Files, done: seq<Completed>, plan: Plan)
    ensures Tracks(start, done, ApplyAll(start, done), []) && Paths([]) == {} && Paths([]) <= RewrittenPaths(plan)
  {
    NothingCovered(ApplyAll(start, done));
  }

  lemma TakeSnapshot(start: Files, done: seq<Completed>, fs: Files, snaps: seq<FileSnapshot>, p: Path)
    requires Tracks(start, done, fs, snaps) && p !in Paths(snaps)
    ensures Tracks(start, done, fs, snaps + [Snapshot(fs, p)])
    ensures Paths(snaps + [Snapshot(fs, p)]) == Paths(snaps) + {p}
  {
    SnapshotCovers(ApplyAll(start, done), fs, snaps, p);
    PathsGrow(snaps, Snapshot(fs, p));
  }

  lemma ManifestPaths(plan: Plan, snaps: seq<FileSnapshot>)
    requires plan.manifest.Some?
    ensures plan.manifest.value in RewrittenPaths(plan)
  {
  }

  /** `now` is `before` with the source root renamed to its backup, and nothing else lives there. */
  ghost predicate Kept(plan: Plan, before: Files, now: Files) {
    && now == MoveTree(before, plan.sourceRoot, plan.backup) && !Holds(before, plan.backup)
    && !Holds(now, plan.sourceRoot) && MoveTree(now, plan.backup, plan.sourceRoot) == before
  }

  lemma SourceReturns(plan: Plan, before: Files)
    requires WellPlanned(plan) && plan.preserve && !Holds(before, plan.backup)
    ensures Kept(plan, before, MoveTree(before, plan.sourceRoot, plan.backup))
  {
    UnmoveExactly(before, plan.sourceRoot, plan.backup);
    var now := MoveTree(before, plan.sourceRoot, plan.backup);
    forall q | q in now ensures !Inside(plan.sourceRoot, q) {
    }
  }

  lemma ReportRemoved(fs: Files, report: Path, text: Text)
    ensures fs[report := text] - {report} == fs - {report}
  {
  }

  lemma ReportLeaves(plan: Plan, before: Files, kept: Files)
    requires WellPlanned(plan)
    requires if plan.preserve then Kept(plan, before, kept) else kept == before
    ensures if plan.preserve then Kept(plan, before - {plan.report}, kept - {plan.report})
            else kept - {plan.report} == before - {plan.report}
  {
    if plan.preserve {
      MovedWithout(before, plan.sourceRoot, plan.backup, plan.report);
      SourceReturns(plan, before - {plan.report});
    }
  }

  lemma WithoutReport(plan: Plan, start: Files, done: seq<Completed>, before: Files, snaps: seq<FileSnapshot>)
    requires Tracks(start, done, before, snaps) && Paths(snaps) <= RewrittenPaths(plan)
    ensures AllClean(start, done) && ReportApart(plan, done) ==>
              UndoAll(PutAllBack(before - {plan.report}, snaps), done) == start - {plan.report}
  {
    if AllClean(start, done) && ReportApart(plan, done) {
      PutAllBackWithout(before, snaps, plan.report);
      UndoAllWithout(PutAllBack(before, snaps), done, plan.report);
      UnwindRestores(start, done, before, snaps);
    }
  }
}
