/**
  The state machine is the protocol: it accepts a command with an outcome exactly if the protocol allows
  that action, and leaves exactly the state the protocol describes. Its runs and the runs of the
  protocol therefore are the same.
*/
module Refinement {
  import opened Types
  import opened Spec
  import opened Invariants
  import opened Accounting
  import P = Protocol

  // ---- Levels, labels and gates ----

  lemma RanksAgree(l: ConfLevel, m: ConfLevel, x: IntegLevel, y: IntegLevel)
    ensures l.Le(m) <==> P.LeConf(l, m)
    ensures x.Le(y) <==> P.LeInteg(x, y)
  {
  }

  lemma AllRanksAgree()
    ensures forall l: ConfLevel, m: ConfLevel :: l.Le(m) <==> P.LeConf(l, m)
    ensures forall x: IntegLevel, y: IntegLevel :: x.Le(y) <==> P.LeInteg(x, y)
  {
  }

  lemma FlowsAgree(bg: Background, l: ConfLevel, egress: set<EgressKind>, vouched: bool)
    ensures FlowOk(bg, l, egress, vouched)
       <==> forall e | e in egress :: P.FlowAllows(bg, l, e) || (P.FlowInspects(bg, l, e) && vouched)
  {
    forall e | e in egress
      ensures bg.FlowAllows(l, e) <==> P.FlowAllows(bg, l, e)
      ensures bg.FlowInspects(l, e) <==> P.FlowInspects(bg, l, e)
    {
    }
  }

  lemma OwnersAgree(s: State, i: InvocationId, a: AgentId)
    ensures Owned(s.pending, i, a) <==> P.Owns(s, i, a)
    ensures P.Owns(s, i, a) ==> P.Record(s, i).value == s.pending[i]
  {
  }

  lemma TaintsAgree(s: State, a: AgentId, l: ConfLevel)
    ensures l in Of(s.taint, a) <==> P.Taint(s, a, l)
    ensures l in SpecTaint(s, a) <==> P.SpeculativeTaint(s, a, l)
  {
    if l in SpecTaint(s, a) && l !in Of(s.taint, a) {
      var i :| i in s.pending && Owned(s.pending, i, a) && s.pending[i].policy.outputConf == l;
      assert P.Owns(s, i, a);
    }
    if P.SpeculativeTaint(s, a, l) && !P.Taint(s, a, l) {
      var i :| P.Owns(s, i, a) && P.Record(s, i).value.policy.outputConf == l;
      assert Owned(s.pending, i, a);
    }
  }

  lemma IntegsAgree(s: State, a: AgentId, l: IntegLevel)
    ensures l in Of(s.integ, a) <==> P.Integ(s, a, l)
    ensures l in SpecInteg(s, a) <==> P.SpeculativeInteg(s, a, l)
  {
    if l in SpecInteg(s, a) && l !in Of(s.integ, a) {
      var i :| i in s.pending && Owned(s.pending, i, a) && s.pending[i].policy.outputInteg == l;
      assert P.Owns(s, i, a);
    }
    if P.SpeculativeInteg(s, a, l) && !P.Integ(s, a, l) {
      var i :| P.Owns(s, i, a) && P.Record(s, i).value.policy.outputInteg == l;
      assert Owned(s.pending, i, a);
    }
  }

  lemma CapabilityAgrees(s: State, a: AgentId, p: PolicyK)
    ensures CheckCapability(s, a, p) <==> P.CheckCapability(s, a, p)
  {
    if P.CheckCapability(s, a, p) {
      forall cap | cap in p.requiredCaps ensures cap in Of(s.caps, a) {
        assert P.Cap(s, a, cap);
      }
    }
  }

  lemma ClearHoldAgrees(s: State, a: AgentId, l: ConfLevel)
    ensures ClearHold(s.pending, a, l) <==> P.ClearHold(s, a, l)
  {
    forall i ensures Owned(s.pending, i, a) <==> P.Owns(s, i, a) {
    }
  }

  lemma ClearanceAgrees(s: State, a: AgentId, p: PolicyK)
    ensures CheckClearance(s, a, p) <==> P.CheckClearance(s, a, p)
  {
    hide SpecTaint, P.SpeculativeTaint;
    forall l ensures l in SpecTaint(s, a) <==> P.SpeculativeTaint(s, a, l) {
      TaintsAgree(s, a, l);
    }
    ClearHoldAgrees(s, a, p.outputConf);
  }

  lemma ConfHoldAgrees(s: State, bg: Background, a: AgentId, l: ConfLevel)
    ensures ConfHold(s.pending, bg, a, l, false) <==> P.ConfHold(s, bg, a, l)
  {
    hide P.FlowAllows, P.FlowInspects, FlowOk;
    forall i | Owned(s.pending, i, a)
      ensures P.Owns(s, i, a)
      ensures FlowOk(bg, l, s.pending[i].egress, s.pending[i].Vouched())
         <==> forall e | e in s.pending[i].egress ::
                P.FlowAllows(bg, l, e) || (P.FlowInspects(bg, l, e) && P.Vouched(s.pending[i]))
    {
      FlowsAgree(bg, l, s.pending[i].egress, s.pending[i].Vouched());
    }
  }

  lemma StrictConfHoldAgrees(s: State, bg: Background, a: AgentId, l: ConfLevel)
    ensures ConfHold(s.pending, bg, a, l, true)
       <==> forall i, e | P.Owns(s, i, a) && e in P.Record(s, i).value.egress :: P.FlowAllows(bg, l, e)
  {
    hide P.FlowAllows, P.FlowInspects, FlowOk;
    forall i | Owned(s.pending, i, a)
      ensures P.Owns(s, i, a)
      ensures FlowOk(bg, l, s.pending[i].egress, false)
         <==> forall e | e in s.pending[i].egress :: P.FlowAllows(bg, l, e)
    {
      FlowsAgree(bg, l, s.pending[i].egress, false);
    }
  }

  lemma FlowAgrees(s: State, bg: Background, a: AgentId, p: PolicyK, egress: set<EgressKind>)
    ensures CheckFlow(s, bg, a, p, egress, true) <==> P.CheckFlowStrict(s, bg, a, p, egress)
    ensures CheckFlow(s, bg, a, p, egress, false) <==> P.CheckFlowAdmissible(s, bg, a, p, egress)
  {
    hide SpecTaint, P.SpeculativeTaint, P.FlowAllows, P.FlowInspects, FlowOk, ConfHold, P.Owns, P.Vouched;
    forall l ensures l in SpecTaint(s, a) <==> P.SpeculativeTaint(s, a, l) {
      TaintsAgree(s, a, l);
    }
    forall l
      ensures FlowOk(bg, l, egress, false) <==> forall e | e in egress :: P.FlowAllows(bg, l, e)
      ensures FlowOk(bg, l, egress, true) <==> forall e | e in egress :: P.FlowAllows(bg, l, e) || P.FlowInspects(bg, l, e)
    {
      FlowsAgree(bg, l, egress, false);
      FlowsAgree(bg, l, egress, true);
    }
    StrictConfHoldAgrees(s, bg, a, p.outputConf);
    ConfHoldAgrees(s, bg, a, p.outputConf);
  }

  lemma IntegHoldAgrees(s: State, a: AgentId, l: IntegLevel)
    ensures IntegHold(s.pending, a, l, false) <==> P.IntegHold(s, a, l)
    ensures IntegHold(s.pending, a, l, true) <==> forall i | P.Owns(s, i, a) :: P.IntegAllows(l, P.Record(s, i).value.policy)
  {
    forall i ensures Owned(s.pending, i, a) <==> P.Owns(s, i, a) {
    }
  }

  lemma IntegAgrees(s: State, a: AgentId, p: PolicyK)
    ensures CheckInteg(s, a, p, true) <==> P.CheckIntegStrict(s, a, p)
    ensures CheckInteg(s, a, p, false) <==> P.CheckIntegAdmissible(s, a, p)
  {
    hide SpecInteg, P.SpeculativeInteg, IntegHold, P.Owns, P.Vouched;
    forall l ensures l in SpecInteg(s, a) <==> P.SpeculativeInteg(s, a, l) {
      IntegsAgree(s, a, l);
    }
    IntegHoldAgrees(s, a, p.outputInteg);
  }

  /** The two gates are the two gates of the protocol. */
  lemma GatesAgree(s: State, bg: Background, a: AgentId, p: PolicyK, egress: set<EgressKind>, authorized: bool)
    ensures Gate(s, bg, a, p, egress, authorized, true) <==> P.BeginAllow(s, bg, a, p, egress, authorized)
    ensures Gate(s, bg, a, p, egress, authorized, false) <==> P.BeginAdmissible(s, bg, a, p, egress, authorized)
  {
    hide CheckCapability, P.CheckCapability, CheckClearance, P.CheckClearance, CheckFlow, P.CheckFlowStrict, P.CheckFlowAdmissible,
         CheckInteg, P.CheckIntegStrict, P.CheckIntegAdmissible;
    CapabilityAgrees(s, a, p);
    ClearanceAgrees(s, a, p);
    FlowAgrees(s, bg, a, p, egress);
    IntegAgrees(s, a, p);
  }

  /** A strict gate is a special admissible one, so the verdict is the one the protocol calls for. */
  lemma VerdictAgrees(s: State, bg: Background, a: AgentId, p: PolicyK, egress: set<EgressKind>, authorized: bool, v: Verdict)
    ensures P.BeginVerdict(s, bg, a, p, egress, authorized, v)
       <==> v == VerdictOf(s, bg, a, p, egress, authorized) && (v == Deny ==> bg.mode == Monitor)
  {
    hide P.BeginAllow, P.BeginAdmissible, Gate;
    GatesAgree(s, bg, a, p, egress, authorized);
    AllowIsAdmissible(s, bg, a, p, egress, authorized);
  }

  lemma AllowIsAdmissible(s: State, bg: Background, a: AgentId, p: PolicyK, egress: set<EgressKind>, authorized: bool)
    ensures P.BeginAllow(s, bg, a, p, egress, authorized) ==> P.BeginAdmissible(s, bg, a, p, egress, authorized)
  {
    hide P.SpeculativeTaint, P.SpeculativeInteg, P.FlowAllows, P.FlowInspects, P.CheckClearance, P.CheckCapability;
  }

  lemma HoldsAgree(s: State, bg: Background, a: AgentId, l: ConfLevel, m: IntegLevel)
    ensures Holds(s.pending, bg, a, {l}, {m}) <==> P.IngestHolds(s, bg, a, l, m)
  {
    hide ConfHold, ClearHold, IntegHold, P.ConfHold, P.ClearHold, P.IntegHold;
    ConfHoldAgrees(s, bg, a, l);
    ClearHoldAgrees(s, a, l);
    IntegHoldAgrees(s, a, m);
  }

  lemma SetHoldsAgree(s: State, bg: Background, a: AgentId, src: AgentId)
    ensures Holds(s.pending, bg, a, Of(s.taint, src), Of(s.integ, src))
       <==> && (forall l | P.Taint(s, src, l) :: P.ConfHold(s, bg, a, l) && P.ClearHold(s, a, l))
            && (forall l | P.Integ(s, src, l) :: P.IntegHold(s, a, l))
  {
    hide ConfHold, ClearHold, IntegHold, P.ConfHold, P.ClearHold, P.IntegHold;
    forall l
      ensures l in Of(s.taint, src) <==> P.Taint(s, src, l)
      ensures ConfHold(s.pending, bg, a, l, false) && ClearHold(s.pending, a, l) <==> P.ConfHold(s, bg, a, l) && P.ClearHold(s, a, l)
    {
      ConfHoldAgrees(s, bg, a, l);
      ClearHoldAgrees(s, a, l);
    }
    forall l
      ensures l in Of(s.integ, src) <==> P.Integ(s, src, l)
      ensures IntegHold(s.pending, a, l, false) <==> P.IntegHold(s, a, l)
    {
      IntegHoldAgrees(s, a, l);
    }
  }

  // ---- Guards ----

  lemma ToolsAgree(s: State, tool: ToolId)
    ensures ToolInUseBy(s, tool) <==> !P.ToolUnused(s, tool)
  {
    if ToolPending(s.pending, tool) {
      var i :| i in s.pending && s.pending[i].policy.tool == tool;
      assert P.Record(s, i).Some?;
    }
    if ToolChallenged(s.challenges, tool) {
      var i :| i in s.challenges && s.challenges[i].policy.tool == tool;
      assert P.Challenge(s, i).Some?;
    }
  }

  lemma ParentsAgree(s: State, a: AgentId)
    ensures IsParent(s, a) <==> exists child :: P.Parent(s, child, a)
  {
    if IsParent(s, a) {
      var c :| c in s.parent && s.parent[c] == a;
      assert P.Parent(s, c, a);
    }
  }

  predicate IsStructural(c: CommandK) {
    c.RegisterTool? || c.UnregisterTool? || c.Delegate? || c.GrantCapability? || c.GrantCrossing? || c.Revoke? || c.CascadeRevoke?
  }

  /** `r` accepts with the action `a`. */
  ghost predicate Accepts(r: StepResult, a: Action) {
    r.Accepted? && r.action == a
  }

  lemma StructureGuard(s: State, bg: Background, c: CommandK, a: Action)
    requires IsStructural(c)
    ensures P.Guard(s, bg, c, a) <==> Accepts(Step(s, bg, c), a)
  {
    hide BeginStep, AuthorizeStep, SettleStep, CrossStep, IngestStep;
    if c.Revoke? || c.CascadeRevoke? || c.Delegate? {
      TreeGuard(s, bg, c, a);
    } else {
      PlainGuard(s, bg, c, a);
    }
  }

  lemma TreeGuard(s: State, bg: Background, c: CommandK, a: Action)
    requires c.Revoke? || c.CascadeRevoke? || c.Delegate?
    ensures P.Guard(s, bg, c, a) <==> Accepts(Step(s, bg, c), a)
  {
    hide IsParent, Clear, BeginStep, AuthorizeStep, SettleStep, CrossStep, IngestStep;
    if c.Delegate? {
      ParentsAgree(s, c.grantee);
    }
  }

  lemma PlainGuard(s: State, bg: Background, c: CommandK, a: Action)
    requires c.RegisterTool? || c.UnregisterTool? || c.GrantCapability? || c.GrantCrossing?
    ensures P.Guard(s, bg, c, a) <==> Accepts(Step(s, bg, c), a)
  {
    hide ToolInUseBy, P.ToolUnused, Extend, BeginStep, AuthorizeStep, SettleStep, CrossStep, IngestStep, DelegateStep, RevokeStep,
         CascadeRevokeStep;
    if c.UnregisterTool? {
      ToolsAgree(s, c.tool);
    }
  }

  lemma DominatesAgrees(s: State, src: AgentId, pconf: ConfLevel, pinteg: IntegLevel)
    ensures Dominates(s, src, pconf, pinteg)
       <==> && (forall l | P.Taint(s, src, l) :: P.LeConf(l, pconf))
            && (forall l | P.Integ(s, src, l) :: P.LeInteg(pinteg, l))
  {
    forall l ensures l in Of(s.taint, src) <==> P.Taint(s, src, l) {
    }
    forall l ensures l in Of(s.integ, src) <==> P.Integ(s, src, l) {
    }
  }

  lemma IngestGuardAgrees(s: State, bg: Background, a: AgentId, src: Option<AgentId>, pconf: ConfLevel, pinteg: IntegLevel, x: Action)
    ensures P.Guard(s, bg, Ingest(a, src, pconf, pinteg), x) <==> Accepts(IngestStep(s, bg, a, src, pconf, pinteg), x)
  {
    hide Holds, P.IngestHolds, Dominates, Release, P.Taint, P.Integ, P.LeConf, P.LeInteg;
    HoldsAgree(s, bg, a, pconf, pinteg);
    if src.Some? {
      DominatesAgrees(s, src.value, pconf, pinteg);
    }
  }

  lemma CoversAgrees(declared: set<EgressKind>, egress: set<EgressKind>)
    ensures EgressCovers(declared, egress) <==> P.EgressCovered(declared, egress)
  {
  }

  lemma BeginGuardAgrees(s: State, bg: Background, a: AgentId, inv: InvocationId, chal: ChallengeId, p: PolicyK,
                         egress: set<EgressKind>, ah: ContentHash, authorized: bool, x: Action)
    ensures P.Guard(s, bg, BeginInvocation(a, inv, chal, p, egress, ah, authorized), x)
       <==> Accepts(BeginStep(s, bg, a, inv, chal, p, egress, ah, authorized), x)
  {
    hide VerdictOf, DenialOf, BeginNext, P.BeginVerdict, EgressCovers, P.EgressCovered;
    forall v
      ensures P.BeginVerdict(s, bg, a, p, egress, authorized, v)
         <==> v == VerdictOf(s, bg, a, p, egress, authorized) && (v == Deny ==> bg.mode == Monitor)
    {
      VerdictAgrees(s, bg, a, p, egress, authorized, v);
    }
    CoversAgrees(p.declaredEgress, egress);
  }

  lemma AdmitsAgrees(s: State, bg: Background, inv: InvocationId, sc: ScopeK)
    ensures AuthorizeAdmits(s, bg, inv, sc) <==> P.AuthorizeAdmits(s, bg, inv, sc)
  {
    hide Gate, P.BeginAdmissible, EgressCovers, P.EgressCovered;
    GatesAgree(s, bg, sc.agent, sc.policy, sc.egress, sc.authorized);
    CoversAgrees(sc.policy.declaredEgress, sc.egress);
  }

  /** The machine omits one requirement of the protocol, that the id of a challenge is spent: where challenges
      are kept well, it always is. */
  lemma AuthorizeGuardAgrees(s: State, bg: Background, inv: InvocationId, att: InspectionAttestation, x: Action)
    ensures P.Guard(s, bg, AuthorizeInspected(inv, att), x)
       <==> Accepts(AuthorizeStep(s, bg, inv, att), x) && inv in s.consumedIds
  {
    hide AuthorizeAdmits, P.AuthorizeAdmits;
    if inv in s.challenges {
      AdmitsAgrees(s, bg, inv, s.challenges[inv]);
    }
  }

  lemma SettleGuardAgrees(s: State, bg: Background, inv: InvocationId, outcome: Outcome, att: Option<ResolutionAttestation>, x: Action)
    ensures P.Guard(s, bg, SettleInvocation(inv, outcome, att), x) <==> Accepts(SettleStep(s, inv, outcome, att), x)
  {
    hide Extend, Demote;
  }

  lemma EndorsedAgrees(s: State, q: CrossInput)
    ensures EndorsedOk(s, q) <==> P.EndorsedOk(s, q)
  {
  }

  lemma BoundsAgree(s: State, q: CrossInput)
    ensures WithinBounds(s, q) <==> P.EndorsedBounds(s, q)
  {
    forall l ensures l in Of(s.taint, q.src) <==> P.Taint(s, q.src, l) {
    }
  }

  lemma CrossHoldsAgree(s: State, bg: Background, q: CrossInput)
    ensures Holds(s.pending, bg, q.rcv, ReleasedConfs(s, q), ReleasedIntegs(s, q)) <==> P.CrossHolds(s, bg, q, BranchOf(s, q))
  {
    hide ConfHold, ClearHold, IntegHold, P.ConfHold, P.ClearHold, P.IntegHold, EndorsedOk;
    match BranchOf(s, q)
    case Endorsed => HoldsAgree(s, bg, q.rcv, q.releasedConf, q.releasedInteg);
    case Unendorsed => SetHoldsAgree(s, bg, q.rcv, q.src);
    case BranchFail =>
  }

  lemma CrossGuardAgrees(s: State, bg: Background, q: CrossInput, x: Action)
    ensures P.Guard(s, bg, CrossOutput(q), x) <==> Accepts(CrossStep(s, bg, q), x)
  {
    hide EndorsedOk, P.EndorsedOk, WithinBounds, P.EndorsedBounds, Holds, P.CrossHolds, Release, SpendGrant, ReleasedConfs, ReleasedIntegs;
    EndorsedAgrees(s, q);
    BoundsAgree(s, q);
    CrossHoldsAgree(s, bg, q);
    InFlightAgrees(s, q.src);
  }

  lemma InFlightAgrees(s: State, a: AgentId)
    ensures InFlight(s.pending, a) <==> !(forall i | P.Record(s, i).Some? :: P.Record(s, i).value.agent != a)
  {
    if InFlight(s.pending, a) {
      var i :| i in s.pending && Owned(s.pending, i, a);
      assert P.Record(s, i).Some?;
    }
  }

  /** The machine accepts a command with an outcome exactly if the protocol allows it. */
  lemma GuardAgrees(s: State, bg: Background, c: CommandK, a: Action)
    requires c.AuthorizeInspected? && c.inv in s.challenges ==> c.inv in s.consumedIds
    ensures P.Guard(s, bg, c, a) <==> Accepts(Step(s, bg, c), a)
  {
    hide P.Guard, BeginStep, AuthorizeStep, SettleStep, CrossStep, IngestStep;
    match c
    case Ingest(agent, src, pconf, pinteg) => IngestGuardAgrees(s, bg, agent, src, pconf, pinteg, a);
    case BeginInvocation(agent, inv, chal, policy, egress, ah, authorized) =>
      BeginGuardAgrees(s, bg, agent, inv, chal, policy, egress, ah, authorized, a);
    case AuthorizeInspected(inv, att) =>
      AuthorizeGuardAgrees(s, bg, inv, att, a);
      OpenIfAccepted(s, bg, inv, att);
    case SettleInvocation(inv, outcome, att) => SettleGuardAgrees(s, bg, inv, outcome, att, a);
    case CrossOutput(q) => CrossGuardAgrees(s, bg, q, a);
    case _ => StructureGuard(s, bg, c, a);
  }

  lemma OpenIfAccepted(s: State, bg: Background, inv: InvocationId, att: InspectionAttestation)
    ensures AuthorizeStep(s, bg, inv, att).Accepted? ==> inv in s.challenges
  {
    hide AuthorizeAdmits;
  }

  // ---- Effects ----

  lemma ExtendIs<T>(m: map<AgentId, set<T>>, a: AgentId, levels: set<T>, x: AgentId, l: T)
    ensures l in Of(Extend(m, a, levels), x) <==> l in Of(m, x) || (x == a && l in levels)
  {
  }

  /** Extending the taint adds exactly the levels, for that agent. */
  lemma TaintExtends(s: State, t: State, a: AgentId, levels: set<ConfLevel>)
    requires t.taint == Extend(s.taint, a, levels)
    ensures forall x, l :: P.Taint(t, x, l) <==> P.Taint(s, x, l) || (x == a && l in levels)
  {
    forall x, l ensures P.Taint(t, x, l) <==> P.Taint(s, x, l) || (x == a && l in levels) {
      ExtendIs(s.taint, a, levels, x, l);
    }
  }

  lemma IntegExtends(s: State, t: State, a: AgentId, levels: set<IntegLevel>)
    requires t.integ == Extend(s.integ, a, levels)
    ensures forall x, l :: P.Integ(t, x, l) <==> P.Integ(s, x, l) || (x == a && l in levels)
  {
    forall x, l ensures P.Integ(t, x, l) <==> P.Integ(s, x, l) || (x == a && l in levels) {
      ExtendIs(s.integ, a, levels, x, l);
    }
  }

  lemma ClearDestroys(s: State, a: AgentId)
    ensures P.RevokeNext(s, a, Clear(s, a))
  {
  }

  lemma DelegateIsNext(s: State, bg: Background, grantor: AgentId, grantee: AgentId)
    requires DelegateStep(s, bg, grantor, grantee).Accepted?
    ensures P.DelegateNext(s, grantor, grantee, DelegateStep(s, bg, grantor, grantee).next)
  {
    hide Clear, P.Destroys, IsParent;
    var t := DelegateStep(s, bg, grantor, grantee).next;
    ClearDestroys(s, grantee);
    assert P.Destroys(s, grantee, Clear(s, grantee));
    DestroysFrame(s, grantee, Clear(s, grantee), t);
    TreeOfDelegate(s, bg, grantor, grantee);
    HistoriesOfClear(s, grantee);
  }

  lemma HistoriesOfClear(s: State, a: AgentId)
    ensures var n := Clear(s, a);
            n.consumedIds == s.consumedIds && n.consumedAttestations == s.consumedAttestations
            && n.consumedCrossings == s.consumedCrossings && n.tools == s.tools
  {
    hide DropPending, DropChallenges, DropGrants;
  }

  lemma DestroysFrame(s: State, a: AgentId, u: State, t: State)
    requires P.Destroys(s, a, u)
    requires t == u.(active := t.active, parent := t.parent)
    ensures P.Destroys(s, a, t)
  {
    assert forall x, cap :: P.Cap(t, x, cap) <==> P.Cap(u, x, cap);
    assert forall x, l :: P.Taint(t, x, l) <==> P.Taint(u, x, l);
    assert forall x, l :: P.Integ(t, x, l) <==> P.Integ(u, x, l);
    assert forall i :: P.Record(t, i) == P.Record(u, i);
    assert forall i :: P.Challenge(t, i) == P.Challenge(u, i);
    assert forall x, d :: P.Grant(t, x, d) == P.Grant(u, x, d);
  }

  lemma TreeOfDelegate(s: State, bg: Background, grantor: AgentId, grantee: AgentId)
    requires DelegateStep(s, bg, grantor, grantee).Accepted?
    ensures var t := DelegateStep(s, bg, grantor, grantee).next;
            && (forall x :: P.Active(t, x) <==> P.Active(s, x) || x == grantee)
            && (forall c, p :: P.Parent(t, c, p)
                  <==> (c == grantee && p == grantor) || (P.Parent(s, c, p) && c != grantee && p != grantee))
  {
    hide DropPending, DropChallenges, DropGrants, IsParent;
  }

  lemma PlainIsNext(s: State, bg: Background, c: CommandK)
    requires c.RegisterTool? || c.UnregisterTool? || c.GrantCapability? || c.GrantCrossing?
    requires Step(s, bg, c).Accepted?
    ensures P.Next(s, bg, c, Step(s, bg, c).action, Step(s, bg, c).next)
  {
    hide ToolInUseBy, BeginStep, AuthorizeStep, SettleStep, CrossStep, IngestStep, DelegateStep, RevokeStep, CascadeRevokeStep;
    if c.GrantCapability? {
      forall x, k ensures P.Cap(Step(s, bg, c).next, x, k) <==> P.Cap(s, x, k) || (x == c.child && k == c.cap) {
        ExtendIs(s.caps, c.child, {c.cap}, x, k);
      }
    }
  }

  lemma StructureIsNext(s: State, bg: Background, c: CommandK)
    requires IsStructural(c) && Step(s, bg, c).Accepted?
    ensures P.Next(s, bg, c, Step(s, bg, c).action, Step(s, bg, c).next)
  {
    hide BeginStep, AuthorizeStep, SettleStep, CrossStep, IngestStep, DelegateStep, Clear, P.RevokeNext, P.DelegateNext;
    match c
    case Delegate(grantor, grantee) => DelegateIsNext(s, bg, grantor, grantee);
    case Revoke(_, target) => ClearDestroys(s, target);
    case CascadeRevoke(child, _) => ClearDestroys(s, child);
    case _ => PlainIsNext(s, bg, c);
  }

  lemma DemoteIsDemoted(s: State, t: State, a: AgentId)
    requires t.pending == Demote(s.pending, a)
    ensures forall i :: P.Record(t, i) == P.Demoted(P.Record(s, i), a)
  {
  }

  lemma IngestIsNext(s: State, bg: Background, a: AgentId, src: Option<AgentId>, pconf: ConfLevel, pinteg: IntegLevel)
    requires IngestStep(s, bg, a, src, pconf, pinteg).Accepted?
    ensures var r := IngestStep(s, bg, a, src, pconf, pinteg);
            r.action.Ingested? && P.IngestNext(s, a, pconf, pinteg, r.action.disposition, r.next)
  {
    hide Holds, Dominates, Extend, Demote, P.Taint, P.Integ, P.Demoted;
    var t := IngestStep(s, bg, a, src, pconf, pinteg).next;
    TaintExtends(s, t, a, {pconf});
    IntegExtends(s, t, a, {pinteg});
    if t.pending == Demote(s.pending, a) {
      DemoteIsDemoted(s, t, a);
    }
  }

  lemma RecordIsNext(s: State, bg: Background, a: AgentId, inv: InvocationId, chal: ChallengeId, p: PolicyK, egress: set<EgressKind>,
                     ah: ContentHash, authorized: bool, v: Verdict, j: PendingK)
    requires P.BeginRecord(bg, a, p, egress, authorized, v) == Some(j) && inv !in s.challenges
    ensures P.BeginNext(s, bg, a, inv, chal, p, egress, ah, authorized, v, PendNext(s, inv, j))
  {
  }

  lemma ChallengeIsNext(s: State, bg: Background, a: AgentId, inv: InvocationId, chal: ChallengeId, p: PolicyK,
                        egress: set<EgressKind>, ah: ContentHash, authorized: bool, v: Verdict)
    requires v == InspectionRequired && bg.mode == Enforce && inv !in s.pending
    ensures P.BeginNext(s, bg, a, inv, chal, p, egress, ah, authorized, v,
                        OpenNext(s, inv, Scope(chal, a, p, egress, ah, authorized)))
  {
  }

  lemma BeginIsNext(s: State, bg: Background, a: AgentId, inv: InvocationId, chal: ChallengeId, p: PolicyK,
                    egress: set<EgressKind>, ah: ContentHash, authorized: bool)
    requires BeginStep(s, bg, a, inv, chal, p, egress, ah, authorized).Accepted?
    ensures var r := BeginStep(s, bg, a, inv, chal, p, egress, ah, authorized);
            r.action.BeganInvocation? && P.BeginNext(s, bg, a, inv, chal, p, egress, ah, authorized, r.action.verdict, r.next)
  {
    hide VerdictOf, DenialOf, PendNext, OpenNext, P.BeginNext, EgressCovers;
    var v := VerdictOf(s, bg, a, p, egress, authorized);
    var o := P.BeginRecord(bg, a, p, egress, authorized, v);
    if o.Some? {
      RecordIsNext(s, bg, a, inv, chal, p, egress, ah, authorized, v, o.value);
    } else {
      ChallengeIsNext(s, bg, a, inv, chal, p, egress, ah, authorized, v);
    }
  }

  lemma AuthorizeIsNext(s: State, bg: Background, inv: InvocationId, att: InspectionAttestation)
    requires AuthorizeStep(s, bg, inv, att).Accepted?
    ensures var r := AuthorizeStep(s, bg, inv, att);
            r.action.AuthorizedInspected? && P.AuthorizeNext(s, inv, att.id, r.action.admitted, r.next)
  {
    hide AuthorizeAdmits;
  }

  lemma SettledRecords(s: State, inv: InvocationId, outcome: Outcome, att: Option<ResolutionAttestation>)
    requires SettleStep(s, inv, outcome, att).Accepted?
    ensures var t := SettleStep(s, inv, outcome, att).next; var j := s.pending[inv];
            forall i :: P.Record(t, i) ==
              var o := if i == inv then P.SettledAt(P.Record(s, i), outcome) else P.Record(s, i);
              if j.disposition == Permitted then o else P.Demoted(o, j.agent)
  {
    hide Extend;
  }

  lemma SettleIsNext(s: State, bg: Background, inv: InvocationId, outcome: Outcome, att: Option<ResolutionAttestation>)
    requires SettleStep(s, inv, outcome, att).Accepted?
    ensures P.SettleNext(s, inv, outcome, att, SettleStep(s, inv, outcome, att).next)
  {
    hide SettleStep, P.Taint, P.Integ, Extend, P.Demoted, P.SettledAt;
    SettleMoves(s, inv, outcome, att);
    SettledRecords(s, inv, outcome, att);
    var t, j := SettleStep(s, inv, outcome, att).next, s.pending[inv];
    if outcome != Ambiguous {
      TaintExtends(s, t, j.agent, {j.policy.outputConf});
      IntegExtends(s, t, j.agent, {j.policy.outputInteg});
    } else {
      TaintKept(s, t);
    }
  }

  lemma TaintKept(s: State, t: State)
    requires t.taint == s.taint && t.integ == s.integ
    ensures P.SameLabels(s, t)
  {
  }

  lemma SpendIsDecrement(s: State, t: State, key: CrossingKey)
    requires t.grants == SpendGrant(s.grants, key)
    ensures forall a, k :: P.Grant(t, a, k) == if CrossingKey(a, k) == key then P.Decremented(P.Grant(s, a, k)) else P.Grant(s, a, k)
  {
  }

  /** What a crossing leaves, part by part. */
  lemma CrossMoves(s: State, bg: Background, q: CrossInput)
    requires CrossStep(s, bg, q).Accepted?
    ensures var r := CrossStep(s, bg, q); var t := r.next; var endorsed := BranchOf(s, q) == Endorsed;
            && r.action.CrossedOutput? && r.action.branch == BranchOf(s, q)
            && (endorsed ==> q.evidence.Some?)
            && t == s.(taint := Extend(s.taint, q.rcv, ReleasedConfs(s, q)),
                       integ := Extend(s.integ, q.rcv, ReleasedIntegs(s, q)),
                       pending := if r.action.disposition == MonitorBypassed then Demote(s.pending, q.rcv) else s.pending,
                       consumedCrossings := s.consumedCrossings + {q.crossing},
                       consumedAttestations := s.consumedAttestations + (if endorsed then {q.evidence.value.id} else {}),
                       grants := if endorsed then SpendGrant(s.grants, CrossingKey(q.rcv, q.assignment)) else s.grants)
  {
    hide Holds, WithinBounds, Extend, Demote, SpendGrant, EndorsedOk, InFlight, ReleasedConfs, ReleasedIntegs;
    if BranchOf(s, q) == Endorsed {
      EndorsedSpends(s, bg, q);
    } else {
      assert s.consumedAttestations + {} == s.consumedAttestations;
    }
  }

  lemma CrossLabels(s: State, t: State, q: CrossInput)
    requires t.taint == Extend(s.taint, q.rcv, ReleasedConfs(s, q)) && t.integ == Extend(s.integ, q.rcv, ReleasedIntegs(s, q))
    ensures forall x, l :: P.Taint(t, x, l) <==>
              || P.Taint(s, x, l)
              || (BranchOf(s, q) == Endorsed && x == q.rcv && l == q.releasedConf)
              || (BranchOf(s, q) == Unendorsed && x == q.rcv && P.Taint(s, q.src, l))
    ensures forall x, l :: P.Integ(t, x, l) <==>
              || P.Integ(s, x, l)
              || (BranchOf(s, q) == Endorsed && x == q.rcv && l == q.releasedInteg)
              || (BranchOf(s, q) == Unendorsed && x == q.rcv && P.Integ(s, q.src, l))
  {
    hide Extend, ReleasedConfs, ReleasedIntegs, BranchOf, P.Taint, P.Integ;
    TaintExtends(s, t, q.rcv, ReleasedConfs(s, q));
    IntegExtends(s, t, q.rcv, ReleasedIntegs(s, q));
    ReleasedAre(s, q);
  }

  lemma CrossIsNext(s: State, bg: Background, q: CrossInput)
    requires CrossStep(s, bg, q).Accepted?
    ensures var r := CrossStep(s, bg, q); r.action.CrossedOutput? && P.CrossNext(s, q, r.action.branch, r.action.disposition, r.next)
  {
    hide CrossStep, Extend, Demote, SpendGrant, P.Taint, P.Integ, P.Demoted, P.Decremented, P.Grant, BranchOf, ReleasedConfs, ReleasedIntegs;
    var t := CrossStep(s, bg, q).next;
    CrossMoves(s, bg, q);
    CrossLabels(s, t, q);
    if t.pending == Demote(s.pending, q.rcv) {
      DemoteIsDemoted(s, t, q.rcv);
    }
    if BranchOf(s, q) == Endorsed {
      SpendIsDecrement(s, t, CrossingKey(q.rcv, q.assignment));
    } else {
      GrantsKept(s, t);
    }
  }

  lemma EndorsedSpends(s: State, bg: Background, q: CrossInput)
    requires BranchOf(s, q) == Endorsed
    ensures q.evidence.Some?
  {
  }

  lemma GrantsKept(s: State, t: State)
    requires t.grants == s.grants
    ensures P.SameGrants(s, t)
  {
  }

  lemma ReleasedAre(s: State, q: CrossInput)
    ensures forall l :: l in ReleasedConfs(s, q) <==>
              (BranchOf(s, q) == Endorsed && l == q.releasedConf) || (BranchOf(s, q) == Unendorsed && P.Taint(s, q.src, l))
    ensures forall l :: l in ReleasedIntegs(s, q) <==>
              (BranchOf(s, q) == Endorsed && l == q.releasedInteg) || (BranchOf(s, q) == Unendorsed && P.Integ(s, q.src, l))
  {
    hide EndorsedOk;
  }

  /** An accepted command leaves the state that the protocol describes. */
  lemma NextAgrees(s: State, bg: Background, c: CommandK)
    requires Step(s, bg, c).Accepted?
    ensures P.Next(s, bg, c, Step(s, bg, c).action, Step(s, bg, c).next)
  {
    hide BeginStep, AuthorizeStep, SettleStep, CrossStep, IngestStep, P.IngestNext, P.BeginNext, P.AuthorizeNext, P.SettleNext, P.CrossNext;
    match c
    case Ingest(agent, src, pconf, pinteg) => IngestIsNext(s, bg, agent, src, pconf, pinteg);
    case BeginInvocation(agent, inv, chal, policy, egress, ah, authorized) =>
      BeginIsNext(s, bg, agent, inv, chal, policy, egress, ah, authorized);
    case AuthorizeInspected(inv, att) => AuthorizeIsNext(s, bg, inv, att);
    case SettleInvocation(inv, outcome, att) => SettleIsNext(s, bg, inv, outcome, att);
    case CrossOutput(q) => CrossIsNext(s, bg, q);
    case _ => StructureIsNext(s, bg, c);
  }

  // ---- The protocol is deterministic, and sees observations only ----

  /** An action leaves at most one observable state. */
  lemma NextDetermines(s: State, bg: Background, c: CommandK, a: Action, t: State, u: State)
    requires P.Next(s, bg, c, a, t) && P.Next(s, bg, c, a, u)
    ensures P.Same(t, u)
  {
    hide P.Next, P.Same;
    if IsStructural(c) {
      StructureNextDetermines(s, bg, c, a, t, u);
    } else {
      InvocationNextDetermines(s, bg, c, a, t, u);
    }
  }

  lemma StructureNextDetermines(s: State, bg: Background, c: CommandK, a: Action, t: State, u: State)
    requires IsStructural(c) && P.Next(s, bg, c, a, t) && P.Next(s, bg, c, a, u)
    ensures P.Same(t, u)
  {
    hide P.Active, P.Parent, P.Cap, P.Taint, P.Integ, P.Record, P.Challenge, P.Grant, P.UsedInvocation, P.UsedAttestation,
         P.UsedCrossing, P.Tool, P.Demoted, P.Unless, P.UnlessScope, P.SettledAt, P.Decremented, P.BeginRecord, P.BeginChallenge,
         P.IngestNext, P.BeginNext, P.AuthorizeNext, P.SettleNext, P.CrossNext;
  }

  lemma InvocationNextDetermines(s: State, bg: Background, c: CommandK, a: Action, t: State, u: State)
    requires !IsStructural(c) && P.Next(s, bg, c, a, t) && P.Next(s, bg, c, a, u)
    ensures P.Same(t, u)
  {
    hide P.Active, P.Parent, P.Cap, P.Taint, P.Integ, P.Record, P.Challenge, P.Grant, P.UsedInvocation, P.UsedAttestation,
         P.UsedCrossing, P.Tool, P.Demoted, P.Unless, P.UnlessScope, P.SettledAt, P.Decremented, P.BeginRecord, P.BeginChallenge,
         P.RevokeNext, P.DelegateNext, P.ToolsNext;
  }

  /** Indistinguishable states are left alike. */
  lemma NextOfSame(s: State, bg: Background, c: CommandK, a: Action, t: State, u: State)
    requires P.Next(s, bg, c, a, t) && P.Same(t, u)
    ensures P.Next(s, bg, c, a, u)
  {
    hide P.Next, P.Same;
    if IsStructural(c) {
      StructureNextOfSame(s, bg, c, a, t, u);
    } else {
      InvocationNextOfSame(s, bg, c, a, t, u);
    }
  }

  lemma StructureNextOfSame(s: State, bg: Background, c: CommandK, a: Action, t: State, u: State)
    requires IsStructural(c) && P.Next(s, bg, c, a, t) && P.Same(t, u)
    ensures P.Next(s, bg, c, a, u)
  {
    hide P.Active, P.Parent, P.Cap, P.Taint, P.Integ, P.Record, P.Challenge, P.Grant, P.UsedInvocation, P.UsedAttestation,
         P.UsedCrossing, P.Tool, P.Demoted, P.Unless, P.UnlessScope, P.SettledAt, P.Decremented, P.BeginRecord, P.BeginChallenge,
         P.IngestNext, P.BeginNext, P.AuthorizeNext, P.SettleNext, P.CrossNext;
  }

  lemma InvocationNextOfSame(s: State, bg: Background, c: CommandK, a: Action, t: State, u: State)
    requires !IsStructural(c) && P.Next(s, bg, c, a, t) && P.Same(t, u)
    ensures P.Next(s, bg, c, a, u)
  {
    hide P.Active, P.Parent, P.Cap, P.Taint, P.Integ, P.Record, P.Challenge, P.Grant, P.UsedInvocation, P.UsedAttestation,
         P.UsedCrossing, P.Tool, P.Demoted, P.Unless, P.UnlessScope, P.SettledAt, P.Decremented, P.BeginRecord, P.BeginChallenge,
         P.RevokeNext, P.DelegateNext, P.ToolsNext;
  }

  /** And indistinguishable states are changed alike. */
  lemma NextFromSame(s: State, u: State, bg: Background, c: CommandK, a: Action, t: State)
    requires P.Next(s, bg, c, a, t) && P.Same(s, u)
    ensures P.Next(u, bg, c, a, t)
  {
    hide P.Next, P.Same;
    if IsStructural(c) {
      StructureNextFromSame(s, u, bg, c, a, t);
    } else {
      InvocationNextFromSame(s, u, bg, c, a, t);
    }
  }

  lemma StructureNextFromSame(s: State, u: State, bg: Background, c: CommandK, a: Action, t: State)
    requires IsStructural(c) && P.Next(s, bg, c, a, t) && P.Same(s, u)
    ensures P.Next(u, bg, c, a, t)
  {
    hide P.Active, P.Parent, P.Cap, P.Taint, P.Integ, P.Record, P.Challenge, P.Grant, P.UsedInvocation, P.UsedAttestation,
         P.UsedCrossing, P.Tool, P.Demoted, P.Unless, P.UnlessScope, P.SettledAt, P.Decremented, P.BeginRecord, P.BeginChallenge,
         P.IngestNext, P.BeginNext, P.AuthorizeNext, P.SettleNext, P.CrossNext;
  }

  lemma InvocationNextFromSame(s: State, u: State, bg: Background, c: CommandK, a: Action, t: State)
    requires !IsStructural(c) && P.Next(s, bg, c, a, t) && P.Same(s, u)
    ensures P.Next(u, bg, c, a, t)
  {
    hide P.Active, P.Parent, P.Cap, P.Taint, P.Integ, P.Record, P.Challenge, P.Grant, P.UsedInvocation, P.UsedAttestation,
         P.UsedCrossing, P.Tool, P.Demoted, P.Unless, P.UnlessScope, P.SettledAt, P.Decremented, P.BeginRecord, P.BeginChallenge,
         P.RevokeNext, P.DelegateNext, P.ToolsNext;
  }

  /** The state machine is the protocol. */
  lemma StepIsTransition(s: State, bg: Background, c: CommandK, a: Action, t: State)
    requires c.AuthorizeInspected? && c.inv in s.challenges ==> c.inv in s.consumedIds
    ensures P.Transition(s, bg, c, a, t) <==> Accepts(Step(s, bg, c), a) && P.Same(Step(s, bg, c).next, t)
  {
    hide P.Guard, P.Next, P.Same, Step;
    GuardAgrees(s, bg, c, a);
    if Accepts(Step(s, bg, c), a) {
      NextAgrees(s, bg, c);
      if P.Next(s, bg, c, a, t) {
        NextDetermines(s, bg, c, a, Step(s, bg, c).next, t);
      }
      if P.Same(Step(s, bg, c).next, t) {
        NextOfSame(s, bg, c, a, Step(s, bg, c).next, t);
      }
    }
  }

  lemma RecordsSeen(s: State, u: State)
    requires P.Same(s, u)
    ensures forall i :: P.Record(u, i) == P.Record(s, i)
    ensures forall i, a :: P.Owns(u, i, a) <==> P.Owns(s, i, a)
  {
    forall i ensures P.Record(u, i) == P.Record(s, i) {
    }
  }

  lemma CapsSeen(s: State, u: State, a: AgentId, x: CapKind)
    requires P.Same(s, u)
    ensures P.Cap(u, a, x) <==> P.Cap(s, a, x)
  {
  }

  lemma TaintSeen(s: State, u: State, a: AgentId, l: ConfLevel)
    requires P.Same(s, u)
    ensures P.SpeculativeTaint(s, a, l) <==> P.SpeculativeTaint(u, a, l)
  {
    hide P.Record, P.Active, P.Parent, P.Cap, P.Taint, P.Integ, P.Challenge, P.Grant;
    RecordsSeen(s, u);
    assert P.Taint(u, a, l) <==> P.Taint(s, a, l);
    if i :| P.Owns(s, i, a) && P.Record(s, i).value.policy.outputConf == l { assert P.Owns(u, i, a); }
    if i :| P.Owns(u, i, a) && P.Record(u, i).value.policy.outputConf == l { assert P.Owns(s, i, a); }
  }

  lemma IntegSeen(s: State, u: State, a: AgentId, l: IntegLevel)
    requires P.Same(s, u)
    ensures P.SpeculativeInteg(s, a, l) <==> P.SpeculativeInteg(u, a, l)
  {
    hide P.Record, P.Active, P.Parent, P.Cap, P.Taint, P.Integ, P.Challenge, P.Grant;
    RecordsSeen(s, u);
    assert P.Integ(u, a, l) <==> P.Integ(s, a, l);
    if i :| P.Owns(s, i, a) && P.Record(s, i).value.policy.outputInteg == l { assert P.Owns(u, i, a); }
    if i :| P.Owns(u, i, a) && P.Record(u, i).value.policy.outputInteg == l { assert P.Owns(s, i, a); }
  }

  /** The gates see observations only. */
  lemma GatesSeen(s: State, u: State, bg: Background, a: AgentId, p: PolicyK, egress: set<EgressKind>, authorized: bool)
    requires P.Same(s, u)
    ensures P.BeginAllow(s, bg, a, p, egress, authorized) <==> P.BeginAllow(u, bg, a, p, egress, authorized)
    ensures P.BeginAdmissible(s, bg, a, p, egress, authorized) <==> P.BeginAdmissible(u, bg, a, p, egress, authorized)
  {
    hide P.FlowAllows, P.FlowInspects, P.IntegAllows, P.IntegInspects, P.ClearanceAdmits, P.SpeculativeTaint, P.SpeculativeInteg,
         P.Vouched, P.Record, P.Owns, P.Cap, P.Same;
    forall l ensures P.SpeculativeTaint(s, a, l) <==> P.SpeculativeTaint(u, a, l) {
      TaintSeen(s, u, a, l);
    }
    forall l ensures P.SpeculativeInteg(s, a, l) <==> P.SpeculativeInteg(u, a, l) {
      IntegSeen(s, u, a, l);
    }
    RecordsSeen(s, u);
    forall x ensures P.Cap(s, a, x) <==> P.Cap(u, a, x) {
      CapsSeen(s, u, a, x);
    }
  }

  lemma HoldsSeen(s: State, u: State, bg: Background, a: AgentId)
    requires P.Same(s, u)
    ensures forall l :: P.ConfHold(s, bg, a, l) <==> P.ConfHold(u, bg, a, l)
    ensures forall l :: P.ClearHold(s, a, l) <==> P.ClearHold(u, a, l)
    ensures forall l :: P.IntegHold(s, a, l) <==> P.IntegHold(u, a, l)
  {
    hide P.FlowAllows, P.FlowInspects, P.IntegAllows, P.IntegInspects, P.ClearanceAdmits, P.Vouched, P.Record, P.Owns, P.Same;
    RecordsSeen(s, u);
  }

  /** Whether an action is allowed depends on observations only. */
  lemma GuardSeen(s: State, u: State, bg: Background, c: CommandK, a: Action)
    requires P.Same(s, u) && P.Guard(s, bg, c, a)
    ensures P.Guard(u, bg, c, a)
  {
    hide P.BeginAllow, P.BeginAdmissible, P.ConfHold, P.ClearHold, P.IntegHold, P.Active, P.Parent, P.Cap, P.Taint, P.Integ,
         P.Record, P.Challenge, P.Grant, P.UsedInvocation, P.UsedAttestation, P.UsedCrossing, P.Tool, P.EgressCovered;
    match c
    case Ingest(agent, _, _, _) => HoldsSeen(s, u, bg, agent);
    case BeginInvocation(agent, _, _, policy, egress, _, authorized) => GatesSeen(s, u, bg, agent, policy, egress, authorized);
    case AuthorizeInspected(inv, _) =>
      var sc := P.Challenge(s, inv).value;
      assert P.Challenge(u, inv) == P.Challenge(s, inv);
      GatesSeen(s, u, bg, sc.agent, sc.policy, sc.egress, sc.authorized);
    case CrossOutput(q) => HoldsSeen(s, u, bg, q.rcv);
    case _ =>
  }

  // ---- Runs ----

  /** A run of the protocol: its actions and the states between them. */
  ghost predicate Trace(bg: Background, h: seq<Entry>, states: seq<State>) {
    && |states| == |h| + 1
    && P.Begins(states[0], bg)
    && forall k | 0 <= k < |h| :: P.Transition(states[k], bg, h[k].command, h[k].action, states[k + 1])
  }

  ghost function CommandsOf(h: seq<Entry>): (cmds: seq<CommandK>)
    ensures |cmds| == |h| && forall k | 0 <= k < |h| :: cmds[k] == h[k].command
  {
    seq(|h|, k requires 0 <= k < |h| => h[k].command)
  }

  lemma InitialBegins(bg: Background)
    requires bg.rootAgent == ROOT
    ensures P.Begins(Initial(), bg)
  {
    forall c: CapKind ensures c in ALL_CAPS {
      AllCapsComplete(c);
    }
  }

  /** The start of the protocol is the initial state. */
  lemma BeginsIsInitial(bg: Background, s: State)
    requires bg.rootAgent == ROOT && P.Begins(s, bg)
    ensures P.Same(Initial(), s)
  {
    InitialBegins(bg);
    BothBegin(bg, Initial(), s);
  }

  lemma BothBegin(bg: Background, s: State, t: State)
    requires P.Begins(s, bg) && P.Begins(t, bg)
    ensures P.Same(s, t)
  {
    hide P.Active, P.Parent, P.Cap, P.Taint, P.Integ, P.Record, P.Challenge, P.Grant, P.UsedInvocation, P.UsedAttestation,
         P.UsedCrossing, P.Tool;
    forall i ensures P.Record(t, i) == P.Record(s, i) && P.Challenge(t, i) == P.Challenge(s, i) {
    }
    forall a, d ensures P.Grant(t, a, d) == P.Grant(s, a, d) {
    }
  }

  lemma ChallengesAreSpent(bg: Background, cmds: seq<CommandK>, inv: InvocationId)
    requires bg.rootAgent == ROOT
    ensures inv in Run(bg, cmds).challenges ==> inv in Run(bg, cmds).consumedIds
  {
    hide Run, Tree, CapTree, Clean, Evidenced, HeldConfined, PairConfined;
    RunInv(bg, cmds);
  }

  /** Every run of the state machine is a run of the protocol. */
  lemma {:induction false} RunIsTrace(bg: Background, cmds: seq<CommandK>) returns (states: seq<State>)
    requires bg.rootAgent == ROOT
    ensures Trace(bg, History(bg, cmds), states) && states[|states| - 1] == Run(bg, cmds)
  {
    hide Step, P.Begins, P.Transition, P.Same;
    if cmds == [] {
      InitialBegins(bg);
      states := [Initial()];
    } else {
      var n := |cmds| - 1;
      var before := Run(bg, cmds[..n]);
      states := RunIsTrace(bg, cmds[..n]);
      var r := Step(before, bg, cmds[n]);
      if r.Accepted? {
        if cmds[n].AuthorizeInspected? {
          ChallengesAreSpent(bg, cmds[..n], cmds[n].inv);
        }
        SameAsItself(r.next);
        StepIsTransition(before, bg, cmds[n], r.action, r.next);
        states := states + [r.next];
      }
    }
  }

  lemma SameAsItself(s: State)
    ensures P.Same(s, s)
  {
  }

  lemma SameIsSymmetric(s: State, t: State)
    requires P.Same(s, t)
    ensures P.Same(t, s)
  {
    hide P.Active, P.Parent, P.Cap, P.Taint, P.Integ, P.Record, P.Challenge, P.Grant, P.UsedInvocation, P.UsedAttestation,
         P.UsedCrossing, P.Tool;
  }

  lemma SameIsTransitive(s: State, t: State, u: State)
    requires P.Same(s, t) && P.Same(t, u)
    ensures P.Same(s, u)
  {
    hide P.Active, P.Parent, P.Cap, P.Taint, P.Integ, P.Record, P.Challenge, P.Grant, P.UsedInvocation, P.UsedAttestation,
         P.UsedCrossing, P.Tool;
  }

  lemma TracePrefix(bg: Background, h: seq<Entry>, states: seq<State>)
    requires Trace(bg, h, states) && h != []
    ensures Trace(bg, h[..|h| - 1], states[..|h|])
    ensures CommandsOf(h)[..|h| - 1] == CommandsOf(h[..|h| - 1])
  {
    hide P.Begins, P.Transition;
  }

  /** Every run of the protocol is a run of the state machine: it accepts every command in order, reports the
      same outcomes, and ends in a state that cannot be told apart. */
  lemma {:induction false} TraceIsRun(bg: Background, h: seq<Entry>, states: seq<State>)
    requires bg.rootAgent == ROOT && Trace(bg, h, states)
    ensures History(bg, CommandsOf(h)) == h && P.Same(Run(bg, CommandsOf(h)), states[|h|])
  {
    hide Step, P.Begins, P.Transition, P.Same;
    if h == [] {
      BeginsIsInitial(bg, states[0]);
    } else {
      var n := |h| - 1;
      TracePrefix(bg, h, states);
      TraceIsRun(bg, h[..n], states[..|h|]);
      var before := Run(bg, CommandsOf(h[..n]));
      SameIsSymmetric(before, states[n]);
      TransitionSeen(states[n], before, bg, h[n], states[n + 1]);
      if h[n].command.AuthorizeInspected? {
        ChallengesAreSpent(bg, CommandsOf(h[..n]), h[n].command.inv);
      }
      StepIsTransition(before, bg, h[n].command, h[n].action, states[n + 1]);
      assert h[..n] + [h[n]] == h;
    }
  }

  lemma TransitionSeen(s: State, u: State, bg: Background, e: Entry, t: State)
    requires P.Same(s, u) && P.Transition(s, bg, e.command, e.action, t)
    ensures P.Transition(u, bg, e.command, e.action, t)
  {
    hide P.Guard, P.Next, P.Same;
    GuardSeen(s, u, bg, e.command, e.action);
    NextFromSame(s, u, bg, e.command, e.action, t);
  }

  /** Replay equivalence: one list of commands has one list of outcomes, and one final state as far as it can
      be observed. */
  lemma TracesAgree(bg: Background, h: seq<Entry>, states: seq<State>, k: seq<Entry>, others: seq<State>)
    requires bg.rootAgent == ROOT && Trace(bg, h, states) && Trace(bg, k, others) && CommandsOf(h) == CommandsOf(k)
    ensures h == k && P.Same(states[|h|], others[|k|])
  {
    hide P.Same, P.Begins, P.Transition, Run, History;
    TraceIsRun(bg, h, states);
    TraceIsRun(bg, k, others);
    SameIsSymmetric(Run(bg, CommandsOf(h)), states[|h|]);
    SameIsTransitive(states[|h|], Run(bg, CommandsOf(h)), others[|k|]);
  }

  /** Knowing only which kinds of actions were taken, and not their parameters, is not enough. */
  lemma KindsDoNotReplay(bg: Background) returns (h: seq<Entry>, states: seq<State>, k: seq<Entry>, others: seq<State>)
    requires bg.rootAgent == ROOT
    ensures Trace(bg, h, states) && Trace(bg, k, others) && states[0] == others[0]
    ensures |h| == |k| == 1 && h[0].command.RegisterTool? && k[0].command.RegisterTool?
    ensures !P.Same(states[1], others[1])
  {
    var tool, other: ToolId := [1], [2];
    var s := Initial();
    h, states := [Entry(RegisterTool(tool), RegisteredTool(tool))], [s, s.(tools := {tool})];
    k, others := [Entry(RegisterTool(other), RegisteredTool(other))], [s, s.(tools := {other})];
    InitialBegins(bg);
    assert P.Tool(states[1], tool) && !P.Tool(others[1], tool);
  }
}
