/** The recurrence counts as the controller keeps them: two dictionaries, changed step by
    step, and the walk along the predecessors. */
module LineageCounts {
  import opened Wrappers
  import opened Lineage
  import opened LineageMoves

  // The controller's two dictionaries.

  class RecurrenceCounts {
    var lineage: map<string, nat>
    var agentCounts: map<Attribution, nat>
    ghost var steps: seq<Step>

    ghost function State(): Book
      reads this
    {
      Book(lineage, agentCounts)
    }

    /** The dictionaries are those of the run so far. */
    ghost predicate Valid()
      reads this
    {
      State() == Run(steps)
    }

    /** What the run laws say of the object: the counts sum to the admissions, and under
        each key there is what its agents contributed and what was moved there. */
    ghost predicate Accounted()
      reads this
    {
      && Total(lineage) == Admissions(steps)
      && (forall key :: Of(lineage, key) == Attributed(agentCounts, key) + MovedInto(steps, key))
    }

    lemma IsAccounted()
      requires Valid()
      ensures Accounted()
    {
      RunBalanced(steps);
      forall key ensures Of(lineage, key) == Attributed(agentCounts, key) + MovedInto(steps, key) {
        RunSlack(steps, key);
      }
    }

    constructor ()
      ensures Valid() && steps == [] && State() == NEW_BOOK
    {
      lineage, agentCounts, steps := map[], map[], [];
    }

    /** Note a step that the dictionaries have taken. */
    ghost method Note(step: Step)
      requires State() == Take(Run(steps), step)
      modifies this`steps
      ensures steps == old(steps) + [step] && State() == old(State())
      ensures Valid() && Accounted()
    {
      assert (steps + [step])[..|steps|] == steps;
      steps := steps + [step];
      IsAccounted();
    }

    method CountAdmission(agent: string, key: string)
      requires Valid()
      modifies this
      ensures State() == Count(old(State()), agent, key)
      ensures forall k :: Of(lineage, k) == Of(old(lineage), k) + if k == key then 1 else 0
      ensures forall p :: Of(agentCounts, p) == Of(old(agentCounts), p) + if p == (agent, key) then 1 else 0
      ensures Valid() && Accounted() && steps == old(steps) + [Admitted(agent, key)]
    {
      lineage := lineage[key := Of(lineage, key) + 1];
      agentCounts := agentCounts[(agent, key) := Of(agentCounts, (agent, key)) + 1];
      Note(Admitted(agent, key));
    }

    method TakeAncestor(r: AgentRecord, key: string) returns (attributed: nat)
      modifies this`lineage, this`agentCounts
      ensures (State(), attributed) == TakeFrom(old(State()), r, key)
    {
      var envelope := LatestFailure(r);
      if envelope.None? { return 0; }
      var oldKey := LineageKey(r, envelope.value);
      if oldKey == key { return 0; }
      attributed := Of(agentCounts, (r.agentId, oldKey));
      agentCounts := agentCounts - {(r.agentId, oldKey)};
      if attributed > 0 {
        var remaining := Of(lineage, oldKey) - attributed;
        if remaining > 0 {
          lineage := lineage[oldKey := remaining];
        } else {
          lineage := lineage - {oldKey};
        }
      }
    }

    /** Walk the predecessors and take what they contributed under other keys. */
    method TakePredecessors(records: map<string, AgentRecord>, r: AgentRecord, key: string) returns (migrated: nat)
      modifies this`lineage, this`agentCounts
      ensures (State(), migrated) == TakeAll(old(State()), Chain(records, {r.agentId}, r.predecessor), key)
    {
      migrated := 0;
      var seen := {r.agentId};
      var ancestorId := r.predecessor;
      ghost var walked, rest := [], Chain(records, seen, ancestorId);
      ghost var before, chain := State(), rest;
      while ancestorId.Some? && ancestorId.value !in seen && ancestorId.value in records
        invariant rest == Chain(records, seen, ancestorId)
        invariant chain == walked + rest
        invariant (State(), migrated) == TakeAll(before, walked, key)
        decreases |rest|
      {
        var ancestor := records[ancestorId.value];
        ChainGoesOn(records, seen, ancestorId.value);
        TakeOneMore(before, walked, ancestor, key);
        seen := seen + {ancestorId.value};
        var attributed := TakeAncestor(ancestor, key);
        migrated := migrated + attributed;
        ancestorId := ancestor.predecessor;
        MoveOne(walked, rest);
        walked, rest := walked + [ancestor], rest[1..];
      }
      assert chain == walked;
    }

    method ResolveLineageKey(records: map<string, AgentRecord>, r: AgentRecord, e: Envelope) returns (key: string)
      requires Valid()
      modifies this
      ensures (State(), key) == Resolve(old(State()), records, r, e)
      ensures Settles(old(State()), State(), records, r, e, key)
      ensures Valid() && Accounted() && steps == old(steps) + [Resolved(records, r, e)]
    {
      RunBalanced(steps);
      ResolveExactly(State(), records, r, e);
      key := Migrate(records, r, e);
      Note(Resolved(records, r, e));
    }

    method Migrate(records: map<string, AgentRecord>, r: AgentRecord, e: Envelope) returns (key: string)
      modifies this`lineage, this`agentCounts
      ensures (State(), key) == Resolve(old(State()), records, r, e)
    {
      key := LineageKey(r, e);
      if IsPackage(key) {
        var migrated := TakePredecessors(records, r, key);
        if migrated > 0 { lineage := lineage[key := Of(lineage, key) + migrated]; }
      }
    }
  }

  lemma ChainGoesOn(records: map<string, AgentRecord>, seen: set<string>, id: string)
    requires id in records && id !in seen
    ensures Chain(records, seen, Some(id)) == [records[id]] + Chain(records, seen + {id}, records[id].predecessor)
  {
  }

  lemma MoveOne<T>(walked: seq<T>, rest: seq<T>)
    requires |rest| > 0
    ensures walked + rest == walked + [rest[0]] + rest[1..]
  {
  }

  lemma TakeOneMore(b: Book, walked: seq<AgentRecord>, r: AgentRecord, key: string)
    ensures var (c, n) := TakeAll(b, walked, key);
            var (d, m) := TakeFrom(c, r, key);
            TakeAll(b, walked + [r], key) == (d, n + m)
  {
    assert (walked + [r])[..|walked|] == walked;
  }
}
