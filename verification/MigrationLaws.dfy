/** What a migration carries out and what it writes (apppaths/migrate.go). */
module MigrationLaws {
  import opened Prelude
  import opened FileTree
  import opened Migration
  import opened MigrationRun

  function Operations(done: seq<Completed>): (ops: seq<Operation>) {
    seq(|done|, i requires 0 <= i < |done| => done[i].op)
  }

  /** The operations still to be done, in order. */
  function Due(ops: seq<Operation>): (r: seq<Operation>) {
    if ops == [] then []
    else
      (match ops[0].status
       case Planned => [ops[0]]
       case Identical => []
       case Missing => []) + Due(ops[1..])
  }

  lemma {:induction false} DueSnoc(ops: seq<Operation>, op: Operation)
    ensures Due(ops + [op]) == Due(ops) + if op.status == Planned then [op] else []
    decreases |ops|
  {
    if ops == [] {
      assert ops + [op] == [op] && [op][1..] == [];
    } else {
      assert (ops + [op])[0] == ops[0] && (ops + [op])[1..] == ops[1..] + [op];
      DueSnoc(ops[1..], op);
    }
  }

  /** The planned operations are carried out in order; each leaves its source in place exactly if it is a copy
      or the source root is to be preserved. */
  lemma {:induction false} PlannedAreApplied(ops: seq<Operation>, preserve: bool)
    ensures Operations(ToApply(ops, preserve)) == Due(ops)
    ensures forall c :: c in ToApply(ops, preserve) ==> (c.copied <==> c.op.kind == Copy || preserve)
  {
    if ops != [] {
      var front, op := ops[..|ops| - 1], ops[|ops| - 1];
      assert ops == front + [op];
      DueSnoc(front, op);
      PlannedAreApplied(front, preserve);
    }
  }

  /** An operation brings each file of its source to the same place under its destination, and takes it away
      from the source exactly if it does not copy; renaming never copies. Files outside both stay. */
  lemma AppliedCarries(fs: Files, c: Completed, p: Path)
    requires p in fs
    ensures var r, from, to := Applied(fs, c), c.op.source, c.op.destination;
            && (Inside(from, p) ==> to + p[|from|..] in r && r[to + p[|from|..]] == fs[p])
            && (Inside(from, p) && !Inside(to, p) ==>
                  (p in r <==> c.copied && c.op.kind != RenameCase) && (p in r ==> r[p] == fs[p]))
            && (!Inside(from, p) && !Inside(to, p) ==> p in r && r[p] == fs[p])
  {
    if Inside(c.op.source, p) {
      RebaseBack(p, c.op.source, c.op.destination);
    }
  }

  // ----- The rewritten files -----

  /** What an edit makes of one file. */
  function After(edit: Edit, p: Path, content: Option<Text>): (r: Option<Text>) {
    if p in edit then edit[p] else content
  }

  function At(fs: Files, p: Path): (r: Option<Text>) {
    if p in fs then Some(fs[p]) else None
  }

  lemma EditedAt(fs: Files, edit: Edit, allowed: set<Path>, p: Path)
    ensures At(Edited(fs, edit, allowed), p) == if p in allowed then After(edit, p, At(fs, p)) else At(fs, p)
  {
  }

  /** Each configuration file gets what its own stage writes, and no other file changes. */
  lemma {:induction false} RewritesExactly(fs: Files, plan: Plan, env: Env, p: Path)
    requires WellPlanned(plan)
    ensures At(Rewritten(fs, plan, env), p) ==
            if p == plan.settings then After(env.settingsEdit, p, At(fs, p))
            else if p == plan.managed || p == plan.mcp then After(env.mcpEdit, p, At(fs, p))
            else if plan.manifest == Some(p) then After(env.manifestEdit, p, At(fs, p))
            else At(fs, p)
  {
    hide Edited, At, After;
    var manifested := if plan.manifest.Some? then Edited(fs, env.manifestEdit, {plan.manifest.value}) else fs;
    var settled := Edited(manifested, env.settingsEdit, {plan.settings});
    if plan.manifest.Some? {
      EditedAt(fs, env.manifestEdit, {plan.manifest.value}, p);
    }
    EditedAt(manifested, env.settingsEdit, {plan.settings}, p);
    EditedAt(settled, env.mcpEdit, {plan.managed, plan.mcp}, p);
  }

  /** A committed migration has written its layout, and its report unless both are one file; they are there
      afterwards unless they lie in the memory data that is then deleted. */
  lemma ReportsAreWritten(fs: Files, plan: Plan, env: Env)
    ensures var final := Final(fs, plan, env);
            var memory := (if plan.preserve then plan.backup else plan.sourceRoot) + [plan.memory];
            && (env.fails(RetireMemory) || !Inside(memory, plan.layout) ==>
                  At(final, plan.layout) == Some(env.layoutText))
            && (plan.report != plan.layout && (env.fails(RetireMemory) || !Inside(memory, plan.report)) ==>
                  At(final, plan.report) == Some(env.reportText))
  {
  }
}
