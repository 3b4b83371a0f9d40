/** The session registry as a mutable object (agent/runtime_state.go, agent/child_admission.go).
    Each method keeps the object in step with a state of the clear protocol; where the source
    waits for the lock of a child runtime, the method asks for that lock to be free. */
module SessionRuntime {
  import opened Prelude
  import opened ClearProtocol
  import opened ClearLaws

  class Registry {
    var epoch: nat
    var agents: map<Name, Name>
    var children: map<Name, Child>

    ghost predicate Represents(s: State)
      reads this
    {
      s.epoch == epoch && s.agents == agents && s.children == children
    }

    constructor ()
      ensures Represents(Initial())
    {
      epoch, agents, children := 1, map[], map[];
    }

    /** Register a child under a lease; a stale lease or an expired runtime is refused. */
    method Register(lease: nat, agent: Name, child: Name, ghost s: State) returns (ok: bool)
      requires Represents(s) && Enabled(s, ClearProtocol.Register(lease, agent, child))
      modifies this
      ensures Represents(Apply(s, ClearProtocol.Register(lease, agent, child)))
      ensures ok <==> lease == old(epoch) && (child in old(children) ==> old(children[child].epoch) >= old(epoch))
      ensures ok ==> agent in agents && agents[agent] == child
      ensures !ok ==> unchanged(this)
    {
      if lease != epoch {
        return false;
      }
      if child in children && children[child].epoch < epoch {
        return false;
      }
      children := children[child := Child(lease, false)];
      agents := agents[agent := child];
      return true;
    }

    /** Retire the epoch: cancel its lifetime, abort every registered child in any order, and
        empty the registry. The whole call is a run of the protocol. */
    method Reset(clear: Name, ghost s: State) returns (ghost steps: seq<Step>)
      requires Represents(s) && s.aborting == None && clear !in s.clears
      requires forall c :: c in agents.Values && c in children ==> !children[c].writing
      modifies this
      ensures Legal(s, steps) && Represents(Execute(s, steps))
      ensures var r := Execute(s, steps);
              r == s.(epoch := s.epoch + 1, agents := map[], clears := s.clears[clear := Retired(s.epoch + 1)])
    {
      hide Apply, Enabled;
      epoch := epoch + 1;
      steps := [ClearSession];
      Cleared(s);
      var todo := agents.Values;
      while todo != {}
        invariant todo <= agents.Values
        invariant Legal(s, steps) && Execute(s, steps) == s.(epoch := s.epoch + 1, aborting := Some(todo))
        invariant epoch == s.epoch + 1 && agents == s.agents && children == s.children
        decreases |todo|
      {
        var child :| child in todo;
        Aborted(Execute(s, steps), child, todo);
        ExecuteConcat(s, steps, [AbortChild(child)]);
        steps := steps + [AbortChild(child)];
        todo := todo - {child};
      }
      RetiredStep(Execute(s, steps), clear);
      ExecuteConcat(s, steps, [SessionRetired(clear)]);
      steps := steps + [SessionRetired(clear)];
      agents := map[];
    }
  }

  lemma {:induction false} Cleared(s: State)
    requires s.aborting == None
    ensures Legal(s, [ClearSession]) && Execute(s, [ClearSession]) ==
        s.(epoch := s.epoch + 1, aborting := Some(s.agents.Values))
  {
    OneStep(s, [ClearSession]);
  }

  lemma {:induction false} Aborted(s: State, child: Name, todo: set<Name>)
    requires s.aborting == Some(todo) && (child in s.children ==> !s.children[child].writing)
    ensures Legal(s, [AbortChild(child)]) && Execute(s, [AbortChild(child)]) == s.(aborting := Some(todo - {child}))
  {
    OneStep(s, [AbortChild(child)]);
  }

  lemma {:induction false} RetiredStep(s: State, clear: Name)
    requires s.aborting == Some({}) && clear !in s.clears
    ensures Legal(s, [SessionRetired(clear)])
    ensures Execute(s, [SessionRetired(clear)]) == s.(aborting := None, agents := map[],
        clears := s.clears[clear := Retired(s.epoch)])
  {
    OneStep(s, [SessionRetired(clear)]);
  }
}
