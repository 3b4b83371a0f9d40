/** Task records by parent scope (agent/task_runtime.go): how many children each scope has, and
    which records lie below a scope. */
module TaskForest {
  import opened Prelude
  import opened ClearProtocol

  datatype Record = Record(parent: Name, status: Status, reusable: bool)

  type Records = map<Name, Record>

  function ChildrenOf(rs: Records, scope: Name): (s: set<Name>) {
    set id | id in rs && rs[id].parent == scope
  }

  /** The ids of the records that are not terminal. */
  function Unfinished(rs: Records): (s: set<Name>) {
    set id | id in rs && !IsTerminal(rs[id].status)
  }

  function Count(counts: map<Name, nat>, scope: Name): (n: nat) {
    if scope in counts then counts[scope] else 0
  }

  /** Child counts are the numbers of records per parent scope, with no entry for zero. */
  ghost predicate Exact(rs: Records, counts: map<Name, nat>) {
    && (forall scope :: Count(counts, scope) == |ChildrenOf(rs, scope)|)
    && (forall scope :: scope in counts ==> counts[scope] > 0)
  }

  function Incremented(counts: map<Name, nat>, scope: Name): (r: map<Name, nat>) {
    counts[scope := Count(counts, scope) + 1]
  }

  function Decremented(counts: map<Name, nat>, scope: Name): (r: map<Name, nat>) {
    var remaining := Count(counts, scope) - 1;
    if remaining > 0 then counts[scope := remaining] else counts - {scope}
  }

  lemma ChildrenAfterInsert(rs: Records, id: Name, r: Record, scope: Name)
    requires id !in rs
    ensures |ChildrenOf(rs[id := r], scope)| == |ChildrenOf(rs, scope)| + if scope == r.parent then 1 else 0
  {
    if scope == r.parent {
      assert ChildrenOf(rs[id := r], scope) == ChildrenOf(rs, scope) + {id};
    } else {
      assert ChildrenOf(rs[id := r], scope) == ChildrenOf(rs, scope);
    }
  }

  lemma ChildrenAfterRemove(rs: Records, id: Name, scope: Name)
    requires id in rs
    ensures |ChildrenOf(rs, scope)| == |ChildrenOf(rs - {id}, scope)| + if scope == rs[id].parent then 1 else 0
  {
    if scope == rs[id].parent {
      assert ChildrenOf(rs, scope) == ChildrenOf(rs - {id}, scope) + {id};
    } else {
      assert ChildrenOf(rs, scope) == ChildrenOf(rs - {id}, scope);
    }
  }

  lemma ChildrenAfterReplace(rs: Records, id: Name, r: Record, scope: Name)
    requires id in rs && rs[id].parent == r.parent
    ensures ChildrenOf(rs[id := r], scope) == ChildrenOf(rs, scope)
  {
  }

  /** Registering keeps the counts exact if and only if its id is new. */
  lemma RegisterExactly(rs: Records, counts: map<Name, nat>, id: Name, r: Record)
    requires Exact(rs, counts)
    ensures Exact(rs[id := r], Incremented(counts, r.parent)) <==> id !in rs
  {
    var now, next := rs[id := r], Incremented(counts, r.parent);
    if id !in rs {
      forall scope ensures Count(next, scope) == |ChildrenOf(now, scope)| {
        ChildrenAfterInsert(rs, id, r, scope);
      }
    } else {
      ChildrenAfterInsert(rs - {id}, id, r, r.parent);
      ChildrenAfterRemove(rs, id, r.parent);
      assert (rs - {id})[id := r] == now;
      assert Count(next, r.parent) == Count(counts, r.parent) + 1;
      var p := rs[id].parent;
      ChildrenAfterInsert(rs - {id}, id, r, p);
      ChildrenAfterRemove(rs, id, p);
      assert Count(next, p) != |ChildrenOf(now, p)|;
    }
  }

  lemma UnregisterKeepsExact(rs: Records, counts: map<Name, nat>, id: Name)
    requires Exact(rs, counts) && id in rs
    ensures Exact(rs - {id}, Decremented(counts, rs[id].parent))
  {
    var now, next := rs - {id}, Decremented(counts, rs[id].parent);
    ChildrenAfterRemove(rs, id, rs[id].parent);
    forall scope ensures Count(next, scope) == |ChildrenOf(now, scope)| {
      ChildrenAfterRemove(rs, id, scope);
    }
  }

  lemma StatusKeepsExact(rs: Records, counts: map<Name, nat>, id: Name, r: Record)
    requires Exact(rs, counts) && id in rs && rs[id].parent == r.parent
    ensures Exact(rs[id := r], counts)
  {
    forall scope ensures Count(counts, scope) == |ChildrenOf(rs[id := r], scope)| {
      ChildrenAfterReplace(rs, id, r, scope);
    }
  }

  // ----- Forests -----

  /** No record is its own ancestor: depths grow from parent to child and are bounded. */
  ghost predicate Forest(rs: Records, depth: Name -> nat, bound: nat) {
    forall id :: id in rs ==> depth(rs[id].parent) < depth(id) <= bound
  }

  /** `id` is a descendant of `scope`. */
  ghost predicate Below(rs: Records, depth: Name -> nat, bound: nat, scope: Name, id: Name)
    requires Forest(rs, depth, bound)
    decreases depth(id)
  {
    id in rs && (rs[id].parent == scope || Below(rs, depth, bound, scope, rs[id].parent))
  }

  lemma {:induction false} BelowIsDeeper(rs: Records, depth: Name -> nat, bound: nat, scope: Name, id: Name)
    requires Forest(rs, depth, bound) && Below(rs, depth, bound, scope, id)
    ensures depth(scope) < depth(id)
    decreases depth(id)
  {
    if rs[id].parent != scope {
      BelowIsDeeper(rs, depth, bound, scope, rs[id].parent);
    }
  }

  /** What lies below a child of a scope lies below the scope. */
  lemma {:induction false} BelowChild(rs: Records, depth: Name -> nat, bound: nat, scope: Name, child: Name, id: Name)
    requires Forest(rs, depth, bound) && child in rs && rs[child].parent == scope
    requires Below(rs, depth, bound, child, id)
    ensures Below(rs, depth, bound, scope, id)
    decreases depth(id)
  {
    if rs[id].parent != child {
      BelowChild(rs, depth, bound, scope, child, rs[id].parent);
    }
  }

  /** A child of `scope` is not below another child of `scope`. */
  lemma SiblingsAreApart(rs: Records, depth: Name -> nat, bound: nat, scope: Name, a: Name, b: Name)
    requires Forest(rs, depth, bound) && a in rs && b in rs && rs[a].parent == scope && rs[b].parent == scope
    ensures !Below(rs, depth, bound, a, b)
  {
    if Below(rs, depth, bound, a, b) {
      if scope != a {
        BelowIsDeeper(rs, depth, bound, a, scope);
      }
    }
  }

  /** `now` is `rs` after removing some subtrees: parents are as before and stay with their
      remaining children. */
  ghost predicate Pruned(rs: Records, now: Records) {
    forall id :: id in now ==>
      id in rs && now[id].parent == rs[id].parent && (rs[id].parent in rs ==> rs[id].parent in now)
  }

  lemma {:induction false} PruningKeepsBelow(rs: Records, now: Records, depth: Name -> nat, bound: nat,
      scope: Name, id: Name)
    requires Forest(rs, depth, bound) && Forest(now, depth, bound) && Pruned(rs, now) && id in now
    ensures Below(now, depth, bound, scope, id) <==> Below(rs, depth, bound, scope, id)
    decreases depth(id)
  {
    if rs[id].parent in now {
      PruningKeepsBelow(rs, now, depth, bound, scope, rs[id].parent);
    }
  }

  /** With no child left in a scope, nothing is left below it. */
  lemma {:induction false} NoChildrenNothingBelow(rs: Records, depth: Name -> nat, bound: nat, scope: Name, id: Name)
    requires Forest(rs, depth, bound) && ChildrenOf(rs, scope) == {}
    ensures !Below(rs, depth, bound, scope, id)
    decreases depth(id)
  {
    if id in rs {
      assert id !in ChildrenOf(rs, scope);
      NoChildrenNothingBelow(rs, depth, bound, scope, rs[id].parent);
    }
  }

  /** Registering a new task that has no children yet keeps the forest a forest. */
  lemma RegisterKeepsForest(rs: Records, depth: Name -> nat, bound: nat, id: Name, r: Record)
    returns (d: Name -> nat, b: nat)
    requires Forest(rs, depth, bound) && r.parent != id && ChildrenOf(rs, id) == {} && id !in rs
    ensures Forest(rs[id := r], d, b)
  {
    d := x => if x == id then depth(r.parent) + 1 else depth(x);
    b := Max(bound, depth(r.parent) + 1);
    forall x | x in rs[id := r] ensures d(rs[id := r][x].parent) < d(x) <= b {
      if x != id {
        assert x !in ChildrenOf(rs, id);
      }
    }
  }
}
