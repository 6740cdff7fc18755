/**
  The mutable kernel state over the Vec-backed collections, and the label loops and rebuild methods
  on it. Each collection is a place owned by the state: overwriting a field overwrites its place.
*/
module Kernel {
  import opened Types
  import opened Spec
  import opened Collections

  // ---- Abstraction ----

  ghost function PolicyOf(p: PolicyV): PolicyK {
    Policy(p.tool, AsSet(p.requiredCaps), p.confClearance, p.integFloor, p.integInspect, p.outputConf,
           p.outputInteg, AsSet(p.declaredEgress), p.policyDigest)
  }

  ghost function PendingOf(j: PendingV): PendingK {
    Pending(j.agent, PolicyOf(j.policy), AsSet(j.egress), j.admission, j.disposition, j.authorized, j.quarantined)
  }

  ghost function ScopeOf(sc: ScopeV): ScopeK {
    Scope(sc.challenge, sc.agent, PolicyOf(sc.policy), AsSet(sc.egress), sc.argsHash, sc.authorized)
  }

  ghost function PendingsOf(m: map<InvocationId, PendingV>): map<InvocationId, PendingK> {
    map i | i in m :: PendingOf(m[i])
  }

  ghost function ScopesOf(m: map<InvocationId, ScopeV>): map<InvocationId, ScopeK> {
    map i | i in m :: ScopeOf(m[i])
  }

  // ---- Uniqueness inside stored records ----

  ghost predicate UniquePolicy(p: PolicyV) {
    Unique(p.requiredCaps) && Unique(p.declaredEgress)
  }

  ghost predicate UniquePendings(entries: seq<(InvocationId, PendingV)>) {
    forall e | e in entries :: UniquePolicy(e.1.policy) && Unique(e.1.egress)
  }

  ghost predicate UniqueScopes(entries: seq<(InvocationId, ScopeV)>) {
    forall e | e in entries :: UniquePolicy(e.1.policy) && Unique(e.1.egress)
  }

  lemma DropPendingIs(entries: seq<(InvocationId, PendingV)>, a: AgentId)
    requires UniqueKeys(entries)
    ensures PendingsOf(AsMap(Keep(entries, (i, j: PendingV) => j.agent != a))) == DropPending(PendingsOf(AsMap(entries)), a)
  {
    KeepIs(entries, (i, j: PendingV) => j.agent != a);
  }

  lemma DropChallengesIs(entries: seq<(InvocationId, ScopeV)>, a: AgentId)
    requires UniqueKeys(entries)
    ensures ScopesOf(AsMap(Keep(entries, (i, sc: ScopeV) => sc.agent != a))) == DropChallenges(ScopesOf(AsMap(entries)), a)
  {
    KeepIs(entries, (i, sc: ScopeV) => sc.agent != a);
  }

  lemma DropGrantsIs(entries: seq<(CrossingKey, CrossingGrant)>, a: AgentId)
    requires UniqueKeys(entries)
    ensures AsMap(Keep(entries, (k: CrossingKey, g) => k.agent != a)) == DropGrants(AsMap(entries), a)
  {
    KeepIs(entries, (k: CrossingKey, g) => k.agent != a);
  }

  ghost function Demoted(j: PendingV, a: AgentId): PendingV {
    if j.agent == a then j.(disposition := MonitorBypassed) else j
  }

  lemma DemoteIs(entries: seq<(InvocationId, PendingV)>, a: AgentId)
    requires UniqueKeys(entries)
    ensures PendingsOf(AsMap(Rewrite(entries, j => Demoted(j, a)))) == Demote(PendingsOf(AsMap(entries)), a)
  {
    RewriteIs(entries, j => Demoted(j, a));
  }

  // ---- Traversals ----

  ghost predicate AllOwned(entries: seq<(InvocationId, PendingV)>, a: AgentId, ok: PendingK -> bool) {
    forall e | e in entries && e.1.agent == a :: ok(PendingOf(e.1))
  }

  ghost function Outputs<L>(entries: seq<(InvocationId, PendingV)>, a: AgentId, output: PolicyK -> L): set<L> {
    set e | e in entries && e.1.agent == a :: output(PolicyOf(e.1.policy))
  }

  lemma AllOwnedNext(entries: seq<(InvocationId, PendingV)>, i: nat, a: AgentId, ok: PendingK -> bool)
    requires i < |entries|
    ensures AllOwned(entries[..i + 1], a, ok)
        <==> AllOwned(entries[..i], a, ok) && (entries[i].1.agent == a ==> ok(PendingOf(entries[i].1)))
  {
    assert entries[..i + 1] == entries[..i] + [entries[i]];
  }

  lemma OutputsNext<L>(entries: seq<(InvocationId, PendingV)>, i: nat, a: AgentId, output: PolicyK -> L)
    requires i < |entries|
    ensures Outputs(entries[..i + 1], a, output)
         == Outputs(entries[..i], a, output) + (if entries[i].1.agent == a then {output(PolicyOf(entries[i].1.policy))} else {})
  {
    assert entries[..i + 1] == entries[..i] + [entries[i]];
  }

  /** A whole traversal answers the quantifier over the map. */
  lemma AllOwnedIs(entries: seq<(InvocationId, PendingV)>, a: AgentId, ok: PendingK -> bool)
    requires UniqueKeys(entries)
    ensures var m := PendingsOf(AsMap(entries));
            AllOwned(entries, a, ok) <==> forall i | i in m && Owned(m, i, a) :: ok(m[i])
  {
    AsMapEntries(entries);
    var m := PendingsOf(AsMap(entries));
    if forall i | i in m && Owned(m, i, a) :: ok(m[i]) {
      forall e | e in entries && e.1.agent == a ensures ok(PendingOf(e.1)) {
        assert m[e.0] == PendingOf(e.1) && Owned(m, e.0, a);
      }
    }
    if AllOwned(entries, a, ok) {
      forall i | i in m && Owned(m, i, a) ensures ok(m[i]) {
        var k :| 0 <= k < |entries| && entries[k].0 == i;
        assert entries[k] in entries;
      }
    }
  }

  lemma OutputsAre<L>(entries: seq<(InvocationId, PendingV)>, a: AgentId, output: PolicyK -> L)
    requires UniqueKeys(entries)
    ensures var m := PendingsOf(AsMap(entries));
            Outputs(entries, a, output) == set i | i in m && Owned(m, i, a) :: output(m[i].policy)
  {
    AsMapEntries(entries);
    var m := PendingsOf(AsMap(entries));
    forall l | l in Outputs(entries, a, output) ensures exists i :: i in m && Owned(m, i, a) && output(m[i].policy) == l {
      var e :| e in entries && e.1.agent == a && output(PolicyOf(e.1.policy)) == l;
      assert m[e.0] == PendingOf(e.1) && Owned(m, e.0, a);
    }
    forall i | i in m && Owned(m, i, a) ensures output(m[i].policy) in Outputs(entries, a, output) {
      var k :| 0 <= k < |entries| && entries[k].0 == i;
      assert entries[k] in entries;
    }
  }

  lemma PendingsInsert(m: map<InvocationId, PendingV>, i: InvocationId, j: PendingV)
    ensures PendingsOf(m[i := j]) == PendingsOf(m)[i := PendingOf(j)]
  {
  }

  lemma PendingsRemove(m: map<InvocationId, PendingV>, i: InvocationId)
    ensures PendingsOf(m - {i}) == PendingsOf(m) - {i}
  {
  }

  lemma ScopesInsert(m: map<InvocationId, ScopeV>, i: InvocationId, sc: ScopeV)
    ensures ScopesOf(m[i := sc]) == ScopesOf(m)[i := ScopeOf(sc)]
  {
  }

  lemma ScopesRemove(m: map<InvocationId, ScopeV>, i: InvocationId)
    ensures ScopesOf(m - {i}) == ScopesOf(m) - {i}
  {
  }

  class KernelState {
    var agentActive: seq<AgentId>
    var agentParent: seq<(AgentId, AgentId)>
    var agentCap: seq<(AgentId, seq<CapKind>)>
    var taintLevels: seq<(AgentId, seq<ConfLevel>)>
    var integLevels: seq<(AgentId, seq<IntegLevel>)>
    var pending: seq<(InvocationId, PendingV)>
    var challenges: seq<(InvocationId, ScopeV)>
    var consumedIds: seq<InvocationId>
    var consumedAttestations: seq<AttestationId>
    var consumedCrossings: seq<CrossingId>
    var crossingGrants: seq<(CrossingKey, CrossingGrant)>
    var toolRegistered: seq<ToolId>

    /** Keys and elements are unique everywhere. */
    ghost predicate Valid()
      reads this
    {
      && Unique(agentActive) && UniqueKeys(agentParent)
      && UniqueKeys(agentCap) && UniqueValues(agentCap)
      && UniqueKeys(taintLevels) && UniqueValues(taintLevels)
      && UniqueKeys(integLevels) && UniqueValues(integLevels)
      && UniqueKeys(pending) && UniquePendings(pending)
      && UniqueKeys(challenges) && UniqueScopes(challenges)
      && Unique(consumedIds) && Unique(consumedAttestations) && Unique(consumedCrossings)
      && UniqueKeys(crossingGrants) && Unique(toolRegistered)
    }

    /** The abstract state this kernel state represents. */
    ghost function View(): State
      reads this
    {
      State(AsSet(agentActive), AsMap(agentParent), SetsOf(AsMap(agentCap)), SetsOf(AsMap(taintLevels)),
            SetsOf(AsMap(integLevels)), PendingsOf(AsMap(pending)), ScopesOf(AsMap(challenges)),
            AsSet(consumedIds), AsSet(consumedAttestations), AsSet(consumedCrossings),
            AsMap(crossingGrants), AsSet(toolRegistered))
    }

    /** Root is active and holds all fifteen capabilities. */
    constructor Initial()
      ensures Valid() && View() == Spec.Initial()
    {
      agentParent, taintLevels, integLevels, pending, challenges := [], [], [], [], [];
      consumedIds, consumedAttestations, consumedCrossings, crossingGrants, toolRegistered := [], [], [], [], [];
      var allCaps := Collect(ALL_CAPS);
      var active := SetInsert([], ROOT);
      var caps := MapInsert([], ROOT, allCaps);
      agentActive := active;
      agentCap := caps;
      assert AsSet(allCaps) == set c: CapKind | c in ALL_CAPS;
    }

    constructor Clone(source: KernelState)
      requires source.Valid()
      ensures Valid() && View() == source.View()
    {
      agentActive := source.agentActive;
      agentParent := source.agentParent;
      agentCap := source.agentCap;
      taintLevels := source.taintLevels;
      integLevels := source.integLevels;
      pending := source.pending;
      challenges := source.challenges;
      consumedIds := source.consumedIds;
      consumedAttestations := source.consumedAttestations;
      consumedCrossings := source.consumedCrossings;
      crossingGrants := source.crossingGrants;
      toolRegistered := source.toolRegistered;
    }

    /** Held taint and the frozen output level of every pending record of the agent. */
    method SpeculativeTaint(agent: AgentId) returns (taint: seq<ConfLevel>)
      requires Valid()
      ensures Unique(taint) && AsSet(taint) == SpecTaint(View(), agent)
    {
      ghost var output := (p: PolicyK) => p.outputConf;
      taint := MapGetSet(taintLevels, agent);
      ghost var held := AsSet(taint);
      var i := 0;
      while i < |pending|
        invariant 0 <= i <= |pending|
        invariant Unique(taint) && AsSet(taint) == held + Outputs(pending[..i], agent, output)
      {
        OutputsNext(pending, i, agent, output);
        var inv, j := MapVisit(pending, i);
        if j.Some? && j.value.agent == agent {
          taint := SetInsert(taint, j.value.policy.outputConf);
        }
        i := i + 1;
      }
      assert pending[..i] == pending;
      OutputsAre(pending, agent, output);
    }

    method SpeculativeInteg(agent: AgentId) returns (integ: seq<IntegLevel>)
      requires Valid()
      ensures Unique(integ) && AsSet(integ) == SpecInteg(View(), agent)
    {
      ghost var output := (p: PolicyK) => p.outputInteg;
      integ := MapGetSet(integLevels, agent);
      ghost var held := AsSet(integ);
      var i := 0;
      while i < |pending|
        invariant 0 <= i <= |pending|
        invariant Unique(integ) && AsSet(integ) == held + Outputs(pending[..i], agent, output)
      {
        OutputsNext(pending, i, agent, output);
        var inv, j := MapVisit(pending, i);
        if j.Some? && j.value.agent == agent {
          integ := SetInsert(integ, j.value.policy.outputInteg);
        }
        i := i + 1;
      }
      assert pending[..i] == pending;
      OutputsAre(pending, agent, output);
    }

    // ---- Operations on one stored collection ----

    method RemoveCaps(agent: AgentId)
      requires Valid()
      modifies this`agentCap
      ensures Valid()
      ensures View() == old(View()).(caps := old(View()).caps - {agent})
    {
      agentCap := MapRemoveSet(agentCap, agent);
    }

    method RemoveTaint(agent: AgentId)
      requires Valid()
      modifies this`taintLevels
      ensures Valid()
      ensures View() == old(View()).(taint := old(View()).taint - {agent})
    {
      taintLevels := MapRemoveSet(taintLevels, agent);
    }

    method RemoveInteg(agent: AgentId)
      requires Valid()
      modifies this`integLevels
      ensures Valid()
      ensures View() == old(View()).(integ := old(View()).integ - {agent})
    {
      integLevels := MapRemoveSet(integLevels, agent);
    }

    method AddCap(agent: AgentId, cap: CapKind)
      requires Valid()
      modifies this`agentCap
      ensures Valid()
      ensures View() == old(View()).(caps := Extend(old(View()).caps, agent, {cap}))
    {
      agentCap := MapInsertInto(agentCap, agent, cap);
    }

    method AddTaint(agent: AgentId, level: ConfLevel)
      requires Valid()
      modifies this`taintLevels
      ensures Valid()
      ensures View() == old(View()).(taint := Extend(old(View()).taint, agent, {level}))
    {
      taintLevels := MapInsertInto(taintLevels, agent, level);
    }

    method AddInteg(agent: AgentId, level: IntegLevel)
      requires Valid()
      modifies this`integLevels
      ensures Valid()
      ensures View() == old(View()).(integ := Extend(old(View()).integ, agent, {level}))
    {
      integLevels := MapInsertInto(integLevels, agent, level);
    }

    method InsertPending(inv: InvocationId, j: PendingV)
      requires Valid() && UniquePolicy(j.policy) && Unique(j.egress)
      modifies this`pending
      ensures Valid()
      ensures View() == old(View()).(pending := old(View()).pending[inv := PendingOf(j)])
    {
      PendingsInsert(AsMap(pending), inv, j);
      pending := MapInsert(pending, inv, j);
    }

    method RemovePending(inv: InvocationId)
      requires Valid()
      modifies this`pending
      ensures Valid()
      ensures View() == old(View()).(pending := old(View()).pending - {inv})
    {
      PendingsRemove(AsMap(pending), inv);
      pending := MapRemove(pending, inv);
    }

    method InsertChallenge(inv: InvocationId, sc: ScopeV)
      requires Valid() && UniquePolicy(sc.policy) && Unique(sc.egress)
      modifies this`challenges
      ensures Valid()
      ensures View() == old(View()).(challenges := old(View()).challenges[inv := ScopeOf(sc)])
    {
      ScopesInsert(AsMap(challenges), inv, sc);
      challenges := MapInsert(challenges, inv, sc);
    }

    method RemoveChallenge(inv: InvocationId)
      requires Valid()
      modifies this`challenges
      ensures Valid()
      ensures View() == old(View()).(challenges := old(View()).challenges - {inv})
    {
      ScopesRemove(AsMap(challenges), inv);
      challenges := MapRemove(challenges, inv);
    }

    method ConsumeId(inv: InvocationId)
      requires Valid()
      modifies this`consumedIds
      ensures Valid()
      ensures View() == old(View()).(consumedIds := old(View()).consumedIds + {inv})
    {
      consumedIds := SetInsert(consumedIds, inv);
    }

    method ConsumeAttestation(id: AttestationId)
      requires Valid()
      modifies this`consumedAttestations
      ensures Valid()
      ensures View() == old(View()).(consumedAttestations := old(View()).consumedAttestations + {id})
    {
      consumedAttestations := SetInsert(consumedAttestations, id);
    }

    method ConsumeCrossing(id: CrossingId)
      requires Valid()
      modifies this`consumedCrossings
      ensures Valid()
      ensures View() == old(View()).(consumedCrossings := old(View()).consumedCrossings + {id})
    {
      consumedCrossings := SetInsert(consumedCrossings, id);
    }

    // ---- Rebuilds ----

    /** Drop every pending record of the agent. */
    method DropPendingOf(agent: AgentId)
      requires Valid()
      modifies this`pending
      ensures Valid()
      ensures View() == old(View()).(pending := DropPending(old(View()).pending, agent))
    {
      ghost var keep := (i, j: PendingV) => j.agent != agent;
      var kept: seq<(InvocationId, PendingV)> := [];
      var i := 0;
      while i < |pending|
        invariant 0 <= i <= |pending| && pending == old(pending)
        invariant UniqueKeys(kept) && UniquePendings(kept)
        invariant AsMap(kept) == AsMap(Keep(pending[..i], keep))
      {
        KeepNext(pending, i, keep);
        var inv, j := MapVisit(pending, i);
        assert pending[i] in pending;
        if j.Some? && j.value.agent != agent {
          kept := MapInsert(kept, inv, j.value);
        }
        i := i + 1;
      }
      assert pending[..i] == pending;
      DropPendingIs(pending, agent);
      pending := kept;
    }

    method DropChallengesOf(agent: AgentId)
      requires Valid()
      modifies this`challenges
      ensures Valid()
      ensures View() == old(View()).(challenges := DropChallenges(old(View()).challenges, agent))
    {
      ghost var keep := (i, sc: ScopeV) => sc.agent != agent;
      var kept: seq<(InvocationId, ScopeV)> := [];
      var i := 0;
      while i < |challenges|
        invariant 0 <= i <= |challenges| && challenges == old(challenges)
        invariant UniqueKeys(kept) && UniqueScopes(kept)
        invariant AsMap(kept) == AsMap(Keep(challenges[..i], keep))
      {
        KeepNext(challenges, i, keep);
        var inv, sc := MapVisit(challenges, i);
        assert challenges[i] in challenges;
        if sc.Some? && sc.value.agent != agent {
          kept := MapInsert(kept, inv, sc.value);
        }
        i := i + 1;
      }
      assert challenges[..i] == challenges;
      DropChallengesIs(challenges, agent);
      challenges := kept;
    }

    method DropGrantsOf(agent: AgentId)
      requires Valid()
      modifies this`crossingGrants
      ensures Valid()
      ensures View() == old(View()).(grants := DropGrants(old(View()).grants, agent))
    {
      ghost var keep := (k: CrossingKey, g) => k.agent != agent;
      var kept: seq<(CrossingKey, CrossingGrant)> := [];
      var i := 0;
      while i < |crossingGrants|
        invariant 0 <= i <= |crossingGrants| && crossingGrants == old(crossingGrants)
        invariant UniqueKeys(kept)
        invariant AsMap(kept) == AsMap(Keep(crossingGrants[..i], keep))
      {
        KeepNext(crossingGrants, i, keep);
        var key, g := MapVisit(crossingGrants, i);
        if g.Some? && key.agent != agent {
          kept := MapInsert(kept, key, g.value);
        }
        i := i + 1;
      }
      assert crossingGrants[..i] == crossingGrants;
      DropGrantsIs(crossingGrants, agent);
      crossingGrants := kept;
    }

    /** Demote every pending record of the agent; how it was admitted stays on record. */
    method DemoteAllOf(agent: AgentId)
      requires Valid()
      modifies this`pending
      ensures Valid()
      ensures View() == old(View()).(pending := Demote(old(View()).pending, agent))
    {
      ghost var f := j => Demoted(j, agent);
      var rebuilt: seq<(InvocationId, PendingV)> := [];
      var i := 0;
      while i < |pending|
        invariant 0 <= i <= |pending| && pending == old(pending)
        invariant UniqueKeys(rebuilt) && UniquePendings(rebuilt)
        invariant AsMap(rebuilt) == AsMap(Rewrite(pending[..i], f))
      {
        RewriteNext(pending, i, f);
        var inv, found := MapVisit(pending, i);
        assert pending[i] in pending;
        if found.Some? {
          var j := found.value;
          if j.agent == agent {
            j := j.(disposition := MonitorBypassed);
          }
          rebuilt := MapInsert(rebuilt, inv, j);
        }
        i := i + 1;
      }
      assert pending[..i] == pending;
      DemoteIs(pending, agent);
      pending := rebuilt;
    }

    /** Spend one use of a grant; nothing happens without one. The subtraction cannot underflow. */
    method DecrementGrantAt(agent: AgentId, assignment: AssignmentDigest)
      requires Valid()
      requires CrossingKey(agent, assignment) in View().grants ==> View().grants[CrossingKey(agent, assignment)].remaining > 0
      modifies this`crossingGrants
      ensures Valid()
      ensures View() == old(View()).(grants := SpendGrant(old(View()).grants, CrossingKey(agent, assignment)))
    {
      var key := CrossingKey(agent, assignment);
      var g := MapGet(crossingGrants, key);
      if g.Some? {
        crossingGrants := MapInsert(crossingGrants, key, CrossingGrant(g.value.remaining - 1, g.value.provisioned));
      }
    }
  }
}
