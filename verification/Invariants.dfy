/**
  The inductive invariant of the state machine, bundle by bundle, and its preservation by every
  accepted command.
*/
module Invariants {
  import opened Types
  import opened Spec

  // ---- Bundles ----

  /** Every nonempty set of children has a member whose parent lies outside the set. */
  ghost predicate Acyclic(parent: map<AgentId, AgentId>) {
    forall group: set<AgentId> | group != {} && group <= parent.Keys :: exists c :: c in group && parent[c] !in group
  }

  ghost predicate Tree(s: State) {
    && ROOT in s.active
    && s.parent.Keys == s.active - {ROOT}
    && Acyclic(s.parent)
  }

  /** Root holds everything; an agent holds at most what its active parent holds. */
  ghost predicate CapTree(s: State) {
    && (forall c: CapKind :: c in Of(s.caps, ROOT))
    && (forall a | a in s.parent && s.parent[a] in s.active :: Of(s.caps, a) <= Of(s.caps, s.parent[a]))
  }

  /** An inactive agent owns nothing. */
  ghost predicate Clean(s: State) {
    && s.caps.Keys <= s.active
    && s.taint.Keys <= s.active
    && s.integ.Keys <= s.active
    && (forall i | i in s.pending :: s.pending[i].agent in s.active)
    && (forall i | i in s.challenges :: s.challenges[i].agent in s.active)
    && (forall k | k in s.grants :: k.agent in s.active && s.grants[k].remaining <= s.grants[k].provisioned)
  }

  /** What admission froze: a non-root owner, a registered tool, coherent floors and an attested
      egress set that narrows and covers the declared one. */
  ghost predicate Scoped(s: State, agent: AgentId, p: PolicyK, egress: set<EgressKind>) {
    && agent != ROOT
    && p.tool in s.tools
    && p.integInspect.Le(p.integFloor)
    && egress <= p.declaredEgress
    && EgressCovers(p.declaredEgress, egress)
  }

  ghost predicate Admitted(s: State, bg: Background) {
    && (forall i | i in s.pending ::
          var j := s.pending[i];
          && i in s.consumedIds
          && Scoped(s, j.agent, j.policy, j.egress)
          && j.disposition != Blocked
          && (j.Contained() ==> j.authorized && j.policy.requiredCaps <= Of(s.caps, j.agent))
          && (bg.mode == Enforce ==> j.Contained() && j.admission != Bypassed))
    && (forall i | i in s.challenges ::
          var sc := s.challenges[i];
          && i in s.consumedIds
          && i !in s.pending
          && Scoped(s, sc.agent, sc.policy, sc.egress)
          && bg.mode == Enforce)
  }

  /** Inspected admissions carry consumed attestations, never shared by two records. */
  ghost predicate Evidenced(s: State) {
    && (forall i | i in s.pending && s.pending[i].Vouched() ::
          s.pending[i].admission.attestation in s.consumedAttestations)
    && (forall i, k | i in s.pending && k in s.pending && i != k && s.pending[i].Vouched() && s.pending[k].Vouched() ::
          s.pending[i].admission.attestation != s.pending[k].admission.attestation)
  }

  /** A record tolerates a confidentiality level its owner holds. */
  ghost predicate Tolerates(bg: Background, j: PendingK, level: ConfLevel) {
    level.Le(j.policy.confClearance) && FlowOk(bg, level, j.egress, j.Vouched())
  }

  predicate ToleratesInteg(j: PendingK, level: IntegLevel) {
    IntegOk(level, j.policy, j.Vouched())
  }

  ghost predicate ContainedPair(s: State, i: InvocationId, k: InvocationId) {
    && i in s.pending && k in s.pending
    && s.pending[i].agent == s.pending[k].agent
    && s.pending[i].Contained() && s.pending[k].Contained()
  }

  /** Contained records tolerate every label their owner holds. */
  ghost predicate HeldConfined(s: State, bg: Background) {
    forall i | i in s.pending && s.pending[i].Contained() ::
      && (forall l | l in Of(s.taint, s.pending[i].agent) :: Tolerates(bg, s.pending[i], l))
      && (forall l | l in Of(s.integ, s.pending[i].agent) :: ToleratesInteg(s.pending[i], l))
  }

  /** Contained records of one agent tolerate one another's output. */
  ghost predicate PairConfined(s: State, bg: Background) {
    forall i, k | ContainedPair(s, i, k) ::
      && Tolerates(bg, s.pending[i], s.pending[k].policy.outputConf)
      && ToleratesInteg(s.pending[i], s.pending[k].policy.outputInteg)
  }

  ghost predicate Inv(s: State, bg: Background) {
    && Tree(s)
    && CapTree(s)
    && Clean(s)
    && Admitted(s, bg)
    && Evidenced(s)
    && HeldConfined(s, bg)
    && PairConfined(s, bg)
  }

  // ---- The initial state ----

  lemma InitialInv(bg: Background)
    ensures Inv(Initial(), bg)
  {
    forall c: CapKind ensures c in ALL_CAPS {
      AllCapsComplete(c);
    }
  }

  lemma AllCapsComplete(c: CapKind)
    ensures exists i :: 0 <= i < |ALL_CAPS| && ALL_CAPS[i] == c
  {
    match c
    case CapFilesystemRead => assert ALL_CAPS[0] == c;
    case CapFilesystemWrite => assert ALL_CAPS[1] == c;
    case CapFilesystemDelete => assert ALL_CAPS[2] == c;
    case CapNetworkEgress => assert ALL_CAPS[3] == c;
    case CapNetworkIngress => assert ALL_CAPS[4] == c;
    case CapExecutionShell => assert ALL_CAPS[5] == c;
    case CapExecutionCode => assert ALL_CAPS[6] == c;
    case CapCredentials => assert ALL_CAPS[7] == c;
    case CapSystemInfo => assert ALL_CAPS[8] == c;
    case CapSystemModify => assert ALL_CAPS[9] == c;
    case CapClipboard => assert ALL_CAPS[10] == c;
    case CapBrowserNavigate => assert ALL_CAPS[11] == c;
    case CapDatabaseRead => assert ALL_CAPS[12] == c;
    case CapDatabaseWrite => assert ALL_CAPS[13] == c;
    case CapIpc => assert ALL_CAPS[14] == c;
  }

  // ---- Removing and adding agents ----

  lemma AcyclicRemove(parent: map<AgentId, AgentId>, a: AgentId)
    requires Acyclic(parent)
    ensures Acyclic(parent - {a})
  {
    var less := parent - {a};
    forall group: set<AgentId> | group != {} && group <= less.Keys
      ensures exists c :: c in group && less[c] !in group
    {
      assert group <= parent.Keys;
      var c :| c in group && parent[c] !in group;
      assert less[c] !in group;
    }
  }

  lemma AcyclicAddLeaf(parent: map<AgentId, AgentId>, leaf: AgentId, p: AgentId)
    requires Acyclic(parent)
    requires leaf !in parent && leaf != p
    requires forall c | c in parent :: parent[c] != leaf
    ensures Acyclic(parent[leaf := p])
  {
    var more := parent[leaf := p];
    forall group: set<AgentId> | group != {} && group <= more.Keys
      ensures exists c :: c in group && more[c] !in group
    {
      var rest := group - {leaf};
      if rest == {} {
        assert group == {leaf};
        assert leaf in group && more[leaf] !in group;
      } else {
        assert rest <= parent.Keys;
        var c :| c in rest && parent[c] !in rest;
        assert c in group && more[c] !in group;
      }
    }
  }

  // ---- Ownership: tree, capabilities and cleanliness ----

  ghost predicate Owning(s: State) {
    Tree(s) && CapTree(s) && Clean(s)
  }

  lemma ClearOwning(s: State, a: AgentId)
    requires Owning(s) && a != ROOT
    ensures Owning(Clear(s, a))
  {
    assert Of(Clear(s, a).caps, ROOT) == Of(s.caps, ROOT);
    AcyclicRemove(s.parent, a);
  }

  /** Below the invariant an inactive agent owns nothing, so a delegation only adds. */
  lemma DelegateOnlyAdds(s: State, bg: Background, grantor: AgentId, grantee: AgentId)
    requires bg.rootAgent == ROOT && Owning(s) && DelegateStep(s, bg, grantor, grantee).Accepted?
    ensures grantee !in s.active && grantee !in s.parent
    ensures DelegateStep(s, bg, grantor, grantee).next == s.(active := s.active + {grantee}, parent := s.parent[grantee := grantor])
  {
    hide CapTree, Acyclic;
    var kept := map c | c in s.parent && c != grantee && s.parent[c] != grantee :: s.parent[c];
    assert kept == s.parent;
    NothingToClear(s, grantee);
  }

  lemma NothingToClear(s: State, a: AgentId)
    requires Clean(s) && a !in s.active
    ensures Clear(s, a) == s.(active := s.active - {a}, parent := s.parent - {a})
  {
    assert s.caps - {a} == s.caps && s.taint - {a} == s.taint && s.integ - {a} == s.integ;
    assert DropPending(s.pending, a) == s.pending;
    assert DropChallenges(s.challenges, a) == s.challenges;
    assert DropGrants(s.grants, a) == s.grants;
  }

  lemma DelegateOwning(s: State, bg: Background, grantor: AgentId, grantee: AgentId)
    requires bg.rootAgent == ROOT && Owning(s) && DelegateStep(s, bg, grantor, grantee).Accepted?
    ensures Owning(DelegateStep(s, bg, grantor, grantee).next)
  {
    hide DelegateStep, Owning, Acyclic;
    DelegateOnlyAdds(s, bg, grantor, grantee);
    DelegateGuards(s, bg, grantor, grantee);
    AdoptOwning(s, grantor, grantee);
  }

  lemma DelegateGuards(s: State, bg: Background, grantor: AgentId, grantee: AgentId)
    requires DelegateStep(s, bg, grantor, grantee).Accepted?
    ensures grantor in s.active && grantee !in s.active && grantee != bg.rootAgent && !IsParent(s, grantee)
  {
    hide Clear, IsParent;
  }

  lemma AdoptOwning(s: State, grantor: AgentId, grantee: AgentId)
    requires Owning(s) && grantor in s.active && grantee !in s.active && grantee !in s.parent && grantee != ROOT
    requires !IsParent(s, grantee)
    ensures Owning(s.(active := s.active + {grantee}, parent := s.parent[grantee := grantor]))
  {
    hide Tree, CapTree, Clean, IsParent, Acyclic;
    AdoptedIsAcyclic(s, grantor, grantee);
    AdoptedOwning(s, grantor, grantee);
  }

  lemma AdoptedIsAcyclic(s: State, grantor: AgentId, grantee: AgentId)
    requires Tree(s) && grantor in s.active && grantee !in s.active && grantee !in s.parent && !IsParent(s, grantee)
    ensures Acyclic(s.parent[grantee := grantor])
  {
    assert forall c | c in s.parent :: s.parent[c] != grantee;
    AcyclicAddLeaf(s.parent, grantee, grantor);
  }

  lemma AdoptedOwning(s: State, grantor: AgentId, grantee: AgentId)
    requires Owning(s) && grantor in s.active && grantee !in s.active && grantee != ROOT && !IsParent(s, grantee)
    requires Acyclic(s.parent[grantee := grantor])
    ensures Owning(s.(active := s.active + {grantee}, parent := s.parent[grantee := grantor]))
  {
    hide Acyclic;
    assert forall c | c in s.parent :: s.parent[c] != grantee;
  }

  lemma GrantCapabilityOwning(s: State, parent: AgentId, child: AgentId, cap: CapKind)
    requires Owning(s) && GrantCapabilityStep(s, parent, child, cap).Accepted?
    ensures Owning(GrantCapabilityStep(s, parent, child, cap).next)
  {
    assert Of(s.caps, ROOT) <= Of(GrantCapabilityStep(s, parent, child, cap).next.caps, ROOT);
  }

  /** Agents, edges and capabilities stay; owners of new entries are active. */
  lemma FrameOwning(s: State, t: State)
    requires Owning(s) && t.active == s.active && t.parent == s.parent && t.caps == s.caps
    requires t.taint.Keys <= s.active && t.integ.Keys <= s.active
    requires forall i | i in t.pending :: t.pending[i].agent in s.active
    requires forall i | i in t.challenges :: t.challenges[i].agent in s.active
    requires forall k | k in t.grants :: k.agent in s.active && t.grants[k].remaining <= t.grants[k].provisioned
    ensures Owning(t)
  {
  }

  // ---- Records: what may happen to the pending records of a state without new admissions ----

  /** `t` keeps some records and challenges of `s`, unchanged except that a record may be
      quarantined, or demoted in monitor mode; owners lose no capability. */
  ghost predicate Weakens(s: State, t: State, bg: Background) {
    && (forall i | i in t.pending ::
          && i in s.pending
          && var j, k := s.pending[i], t.pending[i];
          && k == j.(disposition := k.disposition, quarantined := k.quarantined)
          && (k.disposition == j.disposition || (k.disposition == MonitorBypassed && bg.mode == Monitor))
          && k.policy.tool in t.tools
          && Of(s.caps, k.agent) <= Of(t.caps, k.agent))
    && (forall i | i in t.challenges ::
          && i in s.challenges && t.challenges[i] == s.challenges[i]
          && t.challenges[i].policy.tool in t.tools)
    && s.consumedIds <= t.consumedIds
    && s.consumedAttestations <= t.consumedAttestations
  }

  lemma WeakensAdmitted(s: State, t: State, bg: Background)
    requires Admitted(s, bg) && Weakens(s, t, bg)
    ensures Admitted(t, bg)
  {
  }

  lemma WeakensEvidenced(s: State, t: State, bg: Background)
    requires Evidenced(s) && Weakens(s, t, bg)
    ensures Evidenced(t)
  {
  }

  /** Every label that `t` adds is tolerated by the contained records of the agent that gains it. */
  ghost predicate Absorbs(s: State, t: State, bg: Background) {
    forall i | i in t.pending && t.pending[i].Contained() ::
      && (forall l | l in Of(t.taint, t.pending[i].agent) ::
            l in Of(s.taint, t.pending[i].agent) || Tolerates(bg, t.pending[i], l))
      && (forall l | l in Of(t.integ, t.pending[i].agent) ::
            l in Of(s.integ, t.pending[i].agent) || ToleratesInteg(t.pending[i], l))
  }

  lemma WeakensConfined(s: State, t: State, bg: Background)
    requires HeldConfined(s, bg) && PairConfined(s, bg) && Weakens(s, t, bg) && Absorbs(s, t, bg)
    ensures HeldConfined(t, bg) && PairConfined(t, bg)
  {
    hide FlowOk, IntegOk;
    forall i, k | ContainedPair(t, i, k)
      ensures Tolerates(bg, t.pending[i], t.pending[k].policy.outputConf)
      ensures ToleratesInteg(t.pending[i], t.pending[k].policy.outputInteg)
    {
      assert ContainedPair(s, i, k);
    }
  }

  lemma OfOthers<T>(m: map<AgentId, set<T>>, a: AgentId, b: AgentId)
    requires a != b
    ensures Of(m - {a}, b) == Of(m, b)
  {
  }

  lemma ClearWeakens(s: State, bg: Background, a: AgentId)
    requires Admitted(s, bg)
    ensures Weakens(s, Clear(s, a), bg)
  {
    var t := Clear(s, a);
    forall i | i in t.pending
      ensures i in s.pending && t.pending[i] == s.pending[i] && t.pending[i].policy.tool in t.tools
      ensures Of(s.caps, t.pending[i].agent) <= Of(t.caps, t.pending[i].agent)
    {
      OfOthers(s.caps, a, t.pending[i].agent);
    }
  }

  lemma ClearAbsorbs(s: State, bg: Background, a: AgentId)
    ensures Absorbs(s, Clear(s, a), bg)
  {
    var t := Clear(s, a);
    forall i | i in t.pending
      ensures Of(t.taint, t.pending[i].agent) == Of(s.taint, t.pending[i].agent)
      ensures Of(t.integ, t.pending[i].agent) == Of(s.integ, t.pending[i].agent)
    {
      OfOthers(s.taint, a, t.pending[i].agent);
      OfOthers(s.integ, a, t.pending[i].agent);
    }
  }

  lemma ClearKeepsInv(s: State, bg: Background, a: AgentId)
    requires Inv(s, bg) && a != ROOT
    ensures Inv(Clear(s, a), bg)
  {
    ClearOwning(s, a);
    ClearWeakens(s, bg, a);
    ClearAbsorbs(s, bg, a);
    WeakensKeepsInv(s, Clear(s, a), bg);
  }

  lemma WeakensKeepsInv(s: State, t: State, bg: Background)
    requires Inv(s, bg) && Owning(t) && Weakens(s, t, bg) && Absorbs(s, t, bg)
    ensures Inv(t, bg)
  {
    WeakensAdmitted(s, t, bg);
    WeakensEvidenced(s, t, bg);
    WeakensConfined(s, t, bg);
  }

  lemma DelegateKeepsInv(s: State, bg: Background, grantor: AgentId, grantee: AgentId)
    requires bg.rootAgent == ROOT && Inv(s, bg) && DelegateStep(s, bg, grantor, grantee).Accepted?
    ensures Inv(DelegateStep(s, bg, grantor, grantee).next, bg)
  {
    var u, t := Clear(s, grantee), DelegateStep(s, bg, grantor, grantee).next;
    DelegateOwning(s, bg, grantor, grantee);
    ClearWeakens(s, bg, grantee);
    ClearAbsorbs(s, bg, grantee);
    assert t == u.(active := t.active, parent := t.parent);
    assert Weakens(s, t, bg) && Absorbs(s, t, bg);
    WeakensKeepsInv(s, t, bg);
  }

  /** Registering and unregistering tools, and granting crossings, touch no record. */
  lemma BookkeepingWeakens(s: State, t: State, bg: Background)
    requires Admitted(s, bg) && t == s.(tools := t.tools, grants := t.grants)
    requires forall i | i in s.pending :: s.pending[i].policy.tool in t.tools
    requires forall i | i in s.challenges :: s.challenges[i].policy.tool in t.tools
    ensures Weakens(s, t, bg) && Absorbs(s, t, bg)
  {
    hide Admitted;
  }

  lemma CapabilityWeakens(s: State, bg: Background, child: AgentId, cap: CapKind)
    requires Admitted(s, bg)
    ensures var t := s.(caps := Extend(s.caps, child, {cap})); Weakens(s, t, bg) && Absorbs(s, t, bg)
  {
  }

  lemma StructureWeakens(s: State, bg: Background, c: CommandK)
    requires Admitted(s, bg) && Step(s, bg, c).Accepted?
    requires c.RegisterTool? || c.UnregisterTool? || c.GrantCapability? || c.GrantCrossing?
    ensures var t := Step(s, bg, c).next; Weakens(s, t, bg) && Absorbs(s, t, bg)
  {
    hide BeginStep, AuthorizeStep, SettleStep, CrossStep, IngestStep, DelegateStep, RevokeStep, CascadeRevokeStep,
         Weakens, Absorbs, Extend;
    if c.GrantCapability? {
      CapabilityWeakens(s, bg, c.child, c.cap);
    } else {
      BookkeepingWeakens(s, Step(s, bg, c).next, bg);
    }
  }

  // ---- Labels ----

  lemma ReleaseWeakens(s: State, bg: Background, a: AgentId, confs: set<ConfLevel>, integs: set<IntegLevel>,
                       bypassed: bool)
    requires Admitted(s, bg) && (bypassed ==> bg.mode == Monitor)
    ensures Weakens(s, Release(s, a, confs, integs, bypassed), bg)
  {
  }

  lemma ReleaseAbsorbs(s: State, bg: Background, a: AgentId, confs: set<ConfLevel>, integs: set<IntegLevel>,
                       bypassed: bool)
    requires bypassed || Holds(s.pending, bg, a, confs, integs)
    ensures Absorbs(s, Release(s, a, confs, integs, bypassed), bg)
  {
    var t := Release(s, a, confs, integs, bypassed);
    forall i | i in t.pending && t.pending[i].Contained()
      ensures forall l | l in Of(t.taint, t.pending[i].agent) ::
                l in Of(s.taint, t.pending[i].agent) || Tolerates(bg, t.pending[i], l)
      ensures forall l | l in Of(t.integ, t.pending[i].agent) ::
                l in Of(s.integ, t.pending[i].agent) || ToleratesInteg(t.pending[i], l)
    {
      assert t.pending[i] == s.pending[i];
      if t.pending[i].agent == a {
        assert Owned(s.pending, i, a);
      }
    }
  }

  lemma ReleaseKeepsInv(s: State, bg: Background, a: AgentId, confs: set<ConfLevel>, integs: set<IntegLevel>,
                        bypassed: bool)
    requires Inv(s, bg) && a in s.active
    requires if bypassed then bg.mode == Monitor else Holds(s.pending, bg, a, confs, integs)
    ensures Inv(Release(s, a, confs, integs, bypassed), bg)
  {
    var t := Release(s, a, confs, integs, bypassed);
    FrameOwning(s, t);
    ReleaseWeakens(s, bg, a, confs, integs, bypassed);
    ReleaseAbsorbs(s, bg, a, confs, integs, bypassed);
    WeakensKeepsInv(s, t, bg);
  }

  lemma CrossKeepsInv(s: State, bg: Background, q: CrossInput)
    requires Inv(s, bg) && CrossStep(s, bg, q).Accepted?
    ensures Inv(CrossStep(s, bg, q).next, bg)
  {
    hide Inv, Spec.EndorsedOk;
    var confs, integs := ReleasedConfs(s, q), ReleasedIntegs(s, q);
    var holds := Holds(s.pending, bg, q.rcv, confs, integs);
    ReleaseKeepsInv(s, bg, q.rcv, confs, integs, !holds);
    CrossBookkeeping(Release(s, q.rcv, confs, integs, !holds), CrossStep(s, bg, q).next, bg,
                     CrossingKey(q.rcv, q.assignment));
  }

  /** Burning ids and spending a grant disturbs nothing else. */
  lemma CrossBookkeeping(s: State, t: State, bg: Background, key: CrossingKey)
    requires Inv(s, bg)
    requires t == s.(consumedCrossings := t.consumedCrossings, consumedAttestations := t.consumedAttestations,
                     grants := t.grants)
    requires s.consumedAttestations <= t.consumedAttestations
    requires t.grants == s.grants || t.grants == SpendGrant(s.grants, key)
    ensures Inv(t, bg)
  {
    hide FlowOk;
    FrameOwning(s, t);
    assert HeldConfined(t, bg);
    assert forall i, k | ContainedPair(t, i, k) :: ContainedPair(s, i, k);
  }

  // ---- Settlement ----

  lemma SettleWeakens(s: State, bg: Background, inv: InvocationId, outcome: Outcome, att: Option<ResolutionAttestation>)
    requires Admitted(s, bg) && SettleStep(s, inv, outcome, att).Accepted?
    ensures Weakens(s, SettleStep(s, inv, outcome, att).next, bg)
  {
    hide SettleStep;
    SettleMoves(s, inv, outcome, att);
  }

  /** Settlement re-checks nothing: the record it closes was pairwise compatible with every other
      contained record of its owner, so they absorb its output. */
  lemma SettleAbsorbs(s: State, bg: Background, inv: InvocationId, outcome: Outcome, att: Option<ResolutionAttestation>)
    requires PairConfined(s, bg) && SettleStep(s, inv, outcome, att).Accepted?
    ensures Absorbs(s, SettleStep(s, inv, outcome, att).next, bg)
  {
    hide SettleStep, FlowOk, IntegOk;
    SettleMoves(s, inv, outcome, att);
    var t := SettleStep(s, inv, outcome, att).next;
    forall i | i in t.pending && t.pending[i].Contained() && outcome != Ambiguous
      ensures forall l | l in Of(t.taint, t.pending[i].agent) ::
                l in Of(s.taint, t.pending[i].agent) || Tolerates(bg, t.pending[i], l)
      ensures forall l | l in Of(t.integ, t.pending[i].agent) ::
                l in Of(s.integ, t.pending[i].agent) || ToleratesInteg(t.pending[i], l)
    {
      assert t.pending[i] == s.pending[i];
      if t.pending[i].agent == s.pending[inv].agent {
        assert ContainedPair(s, i, inv);
      }
    }
  }

  lemma SettleKeepsInv(s: State, bg: Background, inv: InvocationId, outcome: Outcome, att: Option<ResolutionAttestation>)
    requires Inv(s, bg) && SettleStep(s, inv, outcome, att).Accepted?
    ensures Inv(SettleStep(s, inv, outcome, att).next, bg)
  {
    hide SettleStep, Weakens, Absorbs, CapTree, Acyclic, Evidenced, HeldConfined, PairConfined;
    SettleMoves(s, inv, outcome, att);
    var t := SettleStep(s, inv, outcome, att).next;
    SettleWeakens(s, bg, inv, outcome, att);
    FrameOwning(s, t);
    SettleAbsorbs(s, bg, inv, outcome, att);
    WeakensKeepsInv(s, t, bg);
  }

  // ---- Admission ----

  ghost predicate Fresh(s: State, bg: Background, inv: InvocationId, j: PendingK) {
    && inv !in s.pending && inv !in s.challenges && inv in s.consumedIds
    && j.agent in s.active
    && j.disposition != Blocked
    && Scoped(s, j.agent, j.policy, j.egress)
    && (j.Vouched() ==> j.admission.attestation in s.consumedAttestations)
    && (j.Contained() ==> j.admission != Bypassed && Gate(s, bg, j.agent, j.policy, j.egress, j.authorized, !j.Vouched()))
    && (!j.Contained() ==> bg.mode == Monitor)
  }

  lemma PendAdmitted(s: State, bg: Background, inv: InvocationId, j: PendingK)
    requires Admitted(s, bg) && Fresh(s, bg, inv, j)
    ensures Admitted(s.(pending := s.pending[inv := j]), bg)
  {
  }

  lemma PendEvidenced(s: State, bg: Background, inv: InvocationId, j: PendingK)
    requires Evidenced(s) && Fresh(s, bg, inv, j)
    requires j.Vouched() ==> forall i | i in s.pending && s.pending[i].Vouched() ::
               s.pending[i].admission.attestation != j.admission.attestation
    ensures Evidenced(s.(pending := s.pending[inv := j]))
  {
  }

  /** A contained record tolerates what its owner holds and every contained record of that owner, and
      is tolerated by them, because it passed the gate. */
  lemma PendConfined(s: State, bg: Background, inv: InvocationId, j: PendingK)
    requires HeldConfined(s, bg) && PairConfined(s, bg) && Fresh(s, bg, inv, j)
    ensures var t := s.(pending := s.pending[inv := j]); HeldConfined(t, bg) && PairConfined(t, bg)
  {
    hide CheckCapability, Scoped, EgressCovers;
    var t := s.(pending := s.pending[inv := j]);
    if j.Contained() {
      assert forall l | l in Of(s.taint, j.agent) :: l in SpecTaint(s, j.agent);
      assert forall l | l in Of(s.integ, j.agent) :: l in SpecInteg(s, j.agent);
    }
    forall i, k | ContainedPair(t, i, k)
      ensures Tolerates(bg, t.pending[i], t.pending[k].policy.outputConf)
      ensures ToleratesInteg(t.pending[i], t.pending[k].policy.outputInteg)
    {
      if i != inv && k != inv {
        assert ContainedPair(s, i, k);
      } else if k != inv {
        assert Owned(s.pending, k, j.agent);
        assert s.pending[k].policy.outputConf in SpecTaint(s, j.agent);
        assert s.pending[k].policy.outputInteg in SpecInteg(s, j.agent);
      } else if i != inv {
        assert Owned(s.pending, i, j.agent);
      }
    }
  }

  lemma PendKeepsInv(s: State, bg: Background, inv: InvocationId, j: PendingK)
    requires Inv(s, bg) && Fresh(s, bg, inv, j)
    requires j.Vouched() ==> forall i | i in s.pending && s.pending[i].Vouched() ::
               s.pending[i].admission.attestation != j.admission.attestation
    ensures Inv(s.(pending := s.pending[inv := j]), bg)
  {
    FrameOwning(s, s.(pending := s.pending[inv := j]));
    PendAdmitted(s, bg, inv, j);
    PendEvidenced(s, bg, inv, j);
    PendConfined(s, bg, inv, j);
  }

  lemma BurnWeakens(s: State, t: State, bg: Background)
    requires Inv(s, bg)
    requires t == s.(challenges := t.challenges, consumedIds := t.consumedIds, consumedAttestations := t.consumedAttestations)
    requires forall i | i in t.challenges :: i in s.challenges && t.challenges[i] == s.challenges[i]
    requires s.consumedIds <= t.consumedIds && s.consumedAttestations <= t.consumedAttestations
    ensures Inv(t, bg)
  {
    FrameOwning(s, t);
    WeakensKeepsInv(s, t, bg);
  }

  lemma OpenKeepsInv(s: State, bg: Background, inv: InvocationId, sc: ScopeK)
    requires Inv(s, bg) && bg.mode == Enforce
    requires inv !in s.pending && inv in s.consumedIds
    requires sc.agent in s.active && Scoped(s, sc.agent, sc.policy, sc.egress)
    ensures Inv(s.(challenges := s.challenges[inv := sc]), bg)
  {
    hide Admitted, FlowOk;
    var t := s.(challenges := s.challenges[inv := sc]);
    FrameOwning(s, t);
    OpenAdmitted(s, bg, inv, sc);
    assert forall i, k | ContainedPair(t, i, k) :: ContainedPair(s, i, k);
  }

  lemma OpenAdmitted(s: State, bg: Background, inv: InvocationId, sc: ScopeK)
    requires Admitted(s, bg) && bg.mode == Enforce
    requires inv !in s.pending && inv in s.consumedIds && Scoped(s, sc.agent, sc.policy, sc.egress)
    ensures Admitted(s.(challenges := s.challenges[inv := sc]), bg)
  {
  }

  /** The gate reads labels, records and capabilities only. */
  lemma GateFrame(s: State, u: State, bg: Background, a: AgentId, p: PolicyK, egress: set<EgressKind>,
                  authorized: bool, strict: bool)
    requires u.taint == s.taint && u.integ == s.integ && u.pending == s.pending && u.caps == s.caps
    ensures Gate(u, bg, a, p, egress, authorized, strict) == Gate(s, bg, a, p, egress, authorized, strict)
  {
    assert SpecTaint(u, a) == SpecTaint(s, a) && SpecInteg(u, a) == SpecInteg(s, a);
  }

  /** What one arm of admission leaves: a fresh record, or a challenge under enforce mode. */
  ghost predicate Admits(s: State, bg: Background, a: AgentId, inv: InvocationId, chal: ChallengeId, p: PolicyK,
                         egress: set<EgressKind>, ah: ContentHash, authorized: bool, t: State) {
    var u := s.(consumedIds := s.consumedIds + {inv});
    if inv in t.pending
    then Fresh(u, bg, inv, t.pending[inv]) && t == u.(pending := u.pending[inv := t.pending[inv]])
         && !t.pending[inv].Vouched()
    else bg.mode == Enforce && inv in t.challenges && t.challenges[inv].agent in s.active && Scoped(u, a, p, egress)
         && t == u.(challenges := u.challenges[inv := Scope(chal, a, p, egress, ah, authorized)])
  }

  lemma PendAdmits(s: State, bg: Background, inv: InvocationId, chal: ChallengeId, j: PendingK, ah: ContentHash)
    requires bg.rootAgent == ROOT && j.agent in s.active && Scoped(s, j.agent, j.policy, j.egress)
    requires inv !in s.pending && inv !in s.challenges && !j.Vouched() && j.disposition != Blocked
    requires j.Contained() ==> j.admission == Plain && Gate(s, bg, j.agent, j.policy, j.egress, j.authorized, true)
    requires !j.Contained() ==> bg.mode == Monitor
    ensures Admits(s, bg, j.agent, inv, chal, j.policy, j.egress, ah, j.authorized,
                   PendNext(s, inv, j))
  {
    hide Gate, EgressCovers;
    GateFrame(s, s.(consumedIds := s.consumedIds + {inv}), bg, j.agent, j.policy, j.egress, j.authorized, true);
  }

  lemma OpenAdmits(s: State, bg: Background, inv: InvocationId, sc: ScopeK)
    requires bg.rootAgent == ROOT && sc.agent in s.active && Scoped(s, sc.agent, sc.policy, sc.egress)
    requires inv !in s.pending && bg.mode == Enforce
    ensures Admits(s, bg, sc.agent, inv, sc.challenge, sc.policy, sc.egress, sc.argsHash, sc.authorized,
                   OpenNext(s, inv, sc))
  {
    hide EgressCovers, Fresh;
  }

  /** Whatever the verdict, as long as an allow was earned by the strict gate. */
  lemma BeginNextAdmits(s: State, bg: Background, a: AgentId, inv: InvocationId, chal: ChallengeId, p: PolicyK,
                        egress: set<EgressKind>, ah: ContentHash, authorized: bool, verdict: Verdict)
    requires bg.rootAgent == ROOT && a in s.active && Scoped(s, a, p, egress)
    requires inv !in s.pending && inv !in s.challenges
    requires verdict == Allow ==> Gate(s, bg, a, p, egress, authorized, true)
    ensures Admits(s, bg, a, inv, chal, p, egress, ah, authorized, BeginNext(s, bg, a, inv, chal, p, egress, ah, authorized, verdict))
  {
    hide Gate, Scoped, Admits, PendNext, OpenNext;
    if verdict == Allow {
      PendAdmits(s, bg, inv, chal, Pending(a, p, egress, Plain, Permitted, authorized, false), ah);
    } else if bg.mode == Monitor {
      PendAdmits(s, bg, inv, chal, Pending(a, p, egress, Bypassed, MonitorBypassed, authorized, false), ah);
    } else {
      OpenAdmits(s, bg, inv, Scope(chal, a, p, egress, ah, authorized));
    }
  }

  lemma BeginAdmits(s: State, bg: Background, a: AgentId, inv: InvocationId, chal: ChallengeId, p: PolicyK,
                    egress: set<EgressKind>, ah: ContentHash, authorized: bool)
    requires bg.rootAgent == ROOT && BeginStep(s, bg, a, inv, chal, p, egress, ah, authorized).Accepted?
    ensures Admits(s, bg, a, inv, chal, p, egress, ah, authorized, BeginStep(s, bg, a, inv, chal, p, egress, ah, authorized).next)
  {
    hide Gate, BeginNext, Admits, DenialOf;
    BeginNextAdmits(s, bg, a, inv, chal, p, egress, ah, authorized, VerdictOf(s, bg, a, p, egress, authorized));
  }

  lemma AdmitsKeepsInv(s: State, bg: Background, a: AgentId, inv: InvocationId, chal: ChallengeId, p: PolicyK,
                       egress: set<EgressKind>, ah: ContentHash, authorized: bool, t: State)
    requires Inv(s, bg) && Admits(s, bg, a, inv, chal, p, egress, ah, authorized, t)
    requires inv !in s.pending
    ensures Inv(t, bg)
  {
    hide Inv, Fresh, Scoped;
    var u := s.(consumedIds := s.consumedIds + {inv});
    BurnWeakens(s, u, bg);
    if inv in t.pending {
      PendKeepsInv(u, bg, inv, t.pending[inv]);
    } else {
      OpenKeepsInv(u, bg, inv, t.challenges[inv]);
    }
  }

  lemma BeginKeepsInv(s: State, bg: Background, c: CommandK)
    requires bg.rootAgent == ROOT && Inv(s, bg) && c.BeginInvocation? && Step(s, bg, c).Accepted?
    ensures Inv(Step(s, bg, c).next, bg)
  {
    hide Inv, Admits, VerdictOf, DenialOf, BeginNext;
    BeginAdmits(s, bg, c.agent, c.inv, c.challenge, c.policy, c.egress, c.argsHash, c.authorized);
    AdmitsKeepsInv(s, bg, c.agent, c.inv, c.challenge, c.policy, c.egress, c.argsHash, c.authorized, Step(s, bg, c).next);
  }

  lemma AuthorizeFresh(s: State, bg: Background, inv: InvocationId, att: InspectionAttestation)
    requires bg.rootAgent == ROOT && Admitted(s, bg) && AuthorizeStep(s, bg, inv, att).Accepted?
    requires inv in AuthorizeStep(s, bg, inv, att).next.pending
    ensures var t := AuthorizeStep(s, bg, inv, att).next;
            var u := s.(challenges := s.challenges - {inv}, consumedAttestations := s.consumedAttestations + {att.id});
            Fresh(u, bg, inv, t.pending[inv]) && t == u.(pending := u.pending[inv := t.pending[inv]])
            && t.pending[inv].admission == Inspected(att.id)
  {
    var sc := s.challenges[inv];
    var u := s.(challenges := s.challenges - {inv}, consumedAttestations := s.consumedAttestations + {att.id});
    GateFrame(s, u, bg, sc.agent, sc.policy, sc.egress, sc.authorized, false);
  }

  lemma AuthorizeKeepsInv(s: State, bg: Background, inv: InvocationId, att: InspectionAttestation)
    requires bg.rootAgent == ROOT && Inv(s, bg) && AuthorizeStep(s, bg, inv, att).Accepted?
    ensures Inv(AuthorizeStep(s, bg, inv, att).next, bg)
  {
    var t := AuthorizeStep(s, bg, inv, att).next;
    var u := s.(challenges := s.challenges - {inv}, consumedAttestations := s.consumedAttestations + {att.id});
    BurnWeakens(s, u, bg);
    if inv in t.pending {
      AuthorizeFresh(s, bg, inv, att);
      PendKeepsInv(u, bg, inv, t.pending[inv]);
    } else {
      assert t == u;
    }
  }

  // ---- Every command, every run ----

  lemma StructureKeepsInv(s: State, bg: Background, c: CommandK)
    requires Inv(s, bg) && Step(s, bg, c).Accepted?
    requires c.RegisterTool? || c.UnregisterTool? || c.GrantCapability? || c.GrantCrossing?
    ensures Inv(Step(s, bg, c).next, bg)
  {
    var t := Step(s, bg, c).next;
    if c.GrantCapability? {
      GrantCapabilityOwning(s, c.parent, c.child, c.cap);
    } else {
      FrameOwning(s, t);
    }
    StructureWeakens(s, bg, c);
    WeakensKeepsInv(s, t, bg);
  }

  lemma StepKeepsInv(s: State, bg: Background, c: CommandK)
    requires bg.rootAgent == ROOT && Inv(s, bg) && Step(s, bg, c).Accepted?
    ensures Inv(Step(s, bg, c).next, bg)
  {
    hide Inv;
    match c
    case Delegate(grantor, grantee) => DelegateKeepsInv(s, bg, grantor, grantee);
    case Revoke(_, target) => ClearKeepsInv(s, bg, target);
    case CascadeRevoke(child, _) => ClearKeepsInv(s, bg, child);
    case Ingest(a, _, pconf, pinteg) =>
      ReleaseKeepsInv(s, bg, a, {pconf}, {pinteg}, !Holds(s.pending, bg, a, {pconf}, {pinteg}));
    case BeginInvocation(_, _, _, _, _, _, _) => BeginKeepsInv(s, bg, c);
    case AuthorizeInspected(inv, att) => AuthorizeKeepsInv(s, bg, inv, att);
    case SettleInvocation(inv, outcome, att) => SettleKeepsInv(s, bg, inv, outcome, att);
    case CrossOutput(q) => CrossKeepsInv(s, bg, q);
    case _ => StructureKeepsInv(s, bg, c);
  }

  /** The invariant holds after every sequence of commands, accepted or refused. */
  lemma {:induction false} RunInv(bg: Background, cmds: seq<CommandK>)
    requires bg.rootAgent == ROOT
    ensures Inv(Run(bg, cmds), bg)
  {
    if cmds == [] {
      InitialInv(bg);
    } else {
      var before := Run(bg, cmds[..|cmds| - 1]);
      RunInv(bg, cmds[..|cmds| - 1]);
      if Step(before, bg, cmds[|cmds| - 1]).Accepted? {
        StepKeepsInv(before, bg, cmds[|cmds| - 1]);
      }
    }
  }
}
