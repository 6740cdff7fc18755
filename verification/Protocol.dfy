/**
  The authorization protocol as its design states it: what each of the twelve actions requires of a
  state, and how it changes every observation. An action is a command together with the outcome it
  reports; the protocol does not compute outcomes, it constrains them. Nothing here uses the
  definitions of the state machine: only its state is observed, pointwise.
*/
module Protocol {
  import opened Types
  import S = Spec

  // ---- Observations ----

  ghost predicate Active(s: S.State, a: AgentId) {
    a in s.active
  }

  ghost predicate Parent(s: S.State, child: AgentId, parent: AgentId) {
    child in s.parent && s.parent[child] == parent
  }

  ghost predicate Cap(s: S.State, a: AgentId, cap: CapKind) {
    a in s.caps && cap in s.caps[a]
  }

  ghost predicate Taint(s: S.State, a: AgentId, l: ConfLevel) {
    a in s.taint && l in s.taint[a]
  }

  ghost predicate Integ(s: S.State, a: AgentId, l: IntegLevel) {
    a in s.integ && l in s.integ[a]
  }

  ghost function Record(s: S.State, i: InvocationId): Option<PendingK> {
    if i in s.pending then Some(s.pending[i]) else None
  }

  ghost function Challenge(s: S.State, i: InvocationId): Option<ScopeK> {
    if i in s.challenges then Some(s.challenges[i]) else None
  }

  ghost function Grant(s: S.State, a: AgentId, d: AssignmentDigest): Option<CrossingGrant> {
    if CrossingKey(a, d) in s.grants then Some(s.grants[CrossingKey(a, d)]) else None
  }

  ghost predicate UsedInvocation(s: S.State, i: InvocationId) {
    i in s.consumedIds
  }

  ghost predicate UsedAttestation(s: S.State, x: AttestationId) {
    x in s.consumedAttestations
  }

  ghost predicate UsedCrossing(s: S.State, x: CrossingId) {
    x in s.consumedCrossings
  }

  ghost predicate Tool(s: S.State, t: ToolId) {
    t in s.tools
  }

  // ---- Lattices, bands and record predicates ----

  function ConfRank(l: ConfLevel): nat {
    match l
    case Public => 0
    case Internal => 1
    case Sensitive => 2
    case Restricted => 3
  }

  function IntegRank(l: IntegLevel): nat {
    match l
    case Untrusted => 0
    case Standard => 1
    case Trusted => 2
    case Attested => 3
  }

  predicate LeConf(l: ConfLevel, m: ConfLevel) {
    ConfRank(l) <= ConfRank(m)
  }

  predicate LeInteg(l: IntegLevel, m: IntegLevel) {
    IntegRank(l) <= IntegRank(m)
  }

  /** At or below the ceiling of a channel; without a ceiling no level passes, not even public. */
  predicate CeilingAdmits(ceiling: map<EgressKind, ConfLevel>, l: ConfLevel, e: EgressKind) {
    e in ceiling && LeConf(l, ceiling[e])
  }

  predicate FlowAllows(bg: Background, l: ConfLevel, e: EgressKind) {
    CeilingAdmits(bg.allowCeiling, l, e)
  }

  predicate FlowInspects(bg: Background, l: ConfLevel, e: EgressKind) {
    CeilingAdmits(bg.inspectCeiling, l, e)
  }

  predicate IntegAllows(l: IntegLevel, p: PolicyK) {
    LeInteg(p.integFloor, l)
  }

  predicate IntegInspects(l: IntegLevel, p: PolicyK) {
    LeInteg(p.integInspect, l)
  }

  predicate ClearanceAdmits(l: ConfLevel, p: PolicyK) {
    LeConf(l, p.confClearance)
  }

  predicate Vouched(j: PendingK) {
    match j.admission
    case Inspected(_) => true
    case _ => false
  }

  /** The record of `i`, owned by `a`. */
  ghost predicate Owns(s: S.State, i: InvocationId, a: AgentId) {
    Record(s, i).Some? && Record(s, i).value.agent == a
  }

  /** Held taint, and the frozen output of every pending record of the agent. */
  ghost predicate SpeculativeTaint(s: S.State, a: AgentId, l: ConfLevel) {
    Taint(s, a, l) || exists i :: Owns(s, i, a) && Record(s, i).value.policy.outputConf == l
  }

  ghost predicate SpeculativeInteg(s: S.State, a: AgentId, l: IntegLevel) {
    Integ(s, a, l) || exists i :: Owns(s, i, a) && Record(s, i).value.policy.outputInteg == l
  }

  // ---- The nine checks ----

  ghost predicate CheckCapability(s: S.State, a: AgentId, p: PolicyK) {
    forall cap | cap in p.requiredCaps :: Cap(s, a, cap)
  }

  ghost predicate CheckClearance(s: S.State, a: AgentId, p: PolicyK) {
    && (forall l | SpeculativeTaint(s, a, l) :: ClearanceAdmits(l, p))
    && (forall i | Owns(s, i, a) :: ClearanceAdmits(p.outputConf, Record(s, i).value.policy))
    && ClearanceAdmits(p.outputConf, p)
  }

  ghost predicate CheckFlowStrict(s: S.State, bg: Background, a: AgentId, p: PolicyK, egress: set<EgressKind>) {
    && (forall l, e | SpeculativeTaint(s, a, l) && e in egress :: FlowAllows(bg, l, e))
    && (forall i, e | Owns(s, i, a) && e in Record(s, i).value.egress :: FlowAllows(bg, p.outputConf, e))
    && (forall e | e in egress :: FlowAllows(bg, p.outputConf, e))
  }

  ghost predicate CheckFlowAdmissible(s: S.State, bg: Background, a: AgentId, p: PolicyK, egress: set<EgressKind>) {
    && (forall l, e | SpeculativeTaint(s, a, l) && e in egress :: FlowAllows(bg, l, e) || FlowInspects(bg, l, e))
    && (forall i, e | Owns(s, i, a) && e in Record(s, i).value.egress ::
          FlowAllows(bg, p.outputConf, e) || (FlowInspects(bg, p.outputConf, e) && Vouched(Record(s, i).value)))
    && (forall e | e in egress :: FlowAllows(bg, p.outputConf, e) || FlowInspects(bg, p.outputConf, e))
  }

  ghost predicate CheckIntegStrict(s: S.State, a: AgentId, p: PolicyK) {
    && (forall l | SpeculativeInteg(s, a, l) :: IntegAllows(l, p))
    && (forall i | Owns(s, i, a) :: IntegAllows(p.outputInteg, Record(s, i).value.policy))
    && IntegAllows(p.outputInteg, p)
  }

  ghost predicate CheckIntegAdmissible(s: S.State, a: AgentId, p: PolicyK) {
    && (forall l | SpeculativeInteg(s, a, l) :: IntegAllows(l, p) || IntegInspects(l, p))
    && (forall i | Owns(s, i, a) ::
          || IntegAllows(p.outputInteg, Record(s, i).value.policy)
          || (IntegInspects(p.outputInteg, Record(s, i).value.policy) && Vouched(Record(s, i).value)))
    && (IntegAllows(p.outputInteg, p) || IntegInspects(p.outputInteg, p))
  }

  ghost predicate BeginAllow(s: S.State, bg: Background, a: AgentId, p: PolicyK, egress: set<EgressKind>, authorized: bool) {
    && CheckCapability(s, a, p)
    && authorized
    && CheckClearance(s, a, p)
    && CheckFlowStrict(s, bg, a, p, egress)
    && CheckIntegStrict(s, a, p)
  }

  ghost predicate BeginAdmissible(s: S.State, bg: Background, a: AgentId, p: PolicyK, egress: set<EgressKind>, authorized: bool) {
    && CheckCapability(s, a, p)
    && authorized
    && CheckClearance(s, a, p)
    && CheckFlowAdmissible(s, bg, a, p, egress)
    && CheckIntegAdmissible(s, a, p)
  }

  // ---- Holds ----

  ghost predicate ConfHold(s: S.State, bg: Background, a: AgentId, l: ConfLevel) {
    forall i, e | Owns(s, i, a) && e in Record(s, i).value.egress ::
      FlowAllows(bg, l, e) || (FlowInspects(bg, l, e) && Vouched(Record(s, i).value))
  }

  ghost predicate ClearHold(s: S.State, a: AgentId, l: ConfLevel) {
    forall i | Owns(s, i, a) :: ClearanceAdmits(l, Record(s, i).value.policy)
  }

  ghost predicate IntegHold(s: S.State, a: AgentId, l: IntegLevel) {
    forall i | Owns(s, i, a) ::
      || IntegAllows(l, Record(s, i).value.policy)
      || (IntegInspects(l, Record(s, i).value.policy) && Vouched(Record(s, i).value))
  }

  ghost predicate IngestHolds(s: S.State, bg: Background, a: AgentId, l: ConfLevel, m: IntegLevel) {
    ConfHold(s, bg, a, l) && ClearHold(s, a, l) && IntegHold(s, a, m)
  }

  // ---- The outcome an action reports ----

  /** Permitted exactly if the holds pass; otherwise bypassed, under monitor mode only. */
  predicate Disposed(d: Disposition, holds: bool, mode: Mode) {
    match d
    case Permitted => holds
    case MonitorBypassed => !holds && mode == Monitor
    case Blocked => false
  }

  // ---- Crossings ----

  /** Positive, fresh, scope-exact evidence, and a grant of the receiver with a use left. */
  ghost predicate EndorsedOk(s: S.State, q: CrossInput) {
    && (match q.evidence
        case None => false
        case Some(e) =>
          && e.positive && !UsedAttestation(s, e.id)
          && e.output == q.outputHash && e.src == q.src && e.rcv == q.rcv
          && e.descriptor == q.descriptor && e.assignment == q.assignment)
    && Grant(s, q.rcv, q.assignment).Some? && Grant(s, q.rcv, q.assignment).value.remaining > 0
  }

  ghost predicate Branches(s: S.State, q: CrossInput, branch: CrossBranch) {
    match branch
    case Endorsed => EndorsedOk(s, q)
    case Unendorsed => !EndorsedOk(s, q) && q.fallback == ReleaseUnendorsed
    case BranchFail => !EndorsedOk(s, q) && q.fallback == FallbackFail
  }

  ghost predicate EndorsedBounds(s: S.State, q: CrossInput) {
    && LeInteg(q.releasedInteg, q.tInteg)
    && (q.tConf.Some? ==> LeConf(q.releasedConf, q.tConf.value))
    && (q.tConf.None? ==> forall l | Taint(s, q.src, l) :: LeConf(l, q.releasedConf))
  }

  ghost predicate CrossHolds(s: S.State, bg: Background, q: CrossInput, branch: CrossBranch) {
    match branch
    case Endorsed => IngestHolds(s, bg, q.rcv, q.releasedConf, q.releasedInteg)
    case Unendorsed =>
      && (forall l | Taint(s, q.src, l) :: ConfHold(s, bg, q.rcv, l) && ClearHold(s, q.rcv, l))
      && (forall l | Integ(s, q.src, l) :: IntegHold(s, q.rcv, l))
    case BranchFail => true
  }

  // ---- What each action requires ----

  predicate EgressCovered(declared: set<EgressKind>, egress: set<EgressKind>) {
    (exists e :: e in declared) ==> (exists e :: e in egress)
  }

  ghost predicate ToolUnused(s: S.State, tool: ToolId) {
    && (forall i | Record(s, i).Some? :: Record(s, i).value.policy.tool != tool)
    && (forall i | Challenge(s, i).Some? :: Challenge(s, i).value.policy.tool != tool)
  }

  ghost predicate IngestGuard(s: S.State, bg: Background, a: AgentId, src: Option<AgentId>, pconf: ConfLevel,
                              pinteg: IntegLevel, d: Disposition) {
    && Active(s, a)
    && (src.Some? ==>
          && (forall l | Taint(s, src.value, l) :: LeConf(l, pconf))
          && (forall l | Integ(s, src.value, l) :: LeInteg(pinteg, l)))
    && Disposed(d, IngestHolds(s, bg, a, pconf, pinteg), bg.mode)
  }

  /** The structural conditions of an admission, and a fresh id. */
  ghost predicate BeginStructure(s: S.State, bg: Background, a: AgentId, inv: InvocationId, p: PolicyK, egress: set<EgressKind>) {
    && Active(s, a) && a != bg.rootAgent
    && Tool(s, p.tool)
    && LeInteg(p.integInspect, p.integFloor)
    && Record(s, inv).None? && !UsedInvocation(s, inv) && Challenge(s, inv).None?
    && egress <= p.declaredEgress
    && EgressCovered(p.declaredEgress, egress)
  }

  ghost predicate BeginVerdict(s: S.State, bg: Background, a: AgentId, p: PolicyK, egress: set<EgressKind>, authorized: bool,
                               v: Verdict) {
    match v
    case Allow => BeginAllow(s, bg, a, p, egress, authorized)
    case InspectionRequired =>
      BeginAdmissible(s, bg, a, p, egress, authorized) && !BeginAllow(s, bg, a, p, egress, authorized)
    case Deny => !BeginAdmissible(s, bg, a, p, egress, authorized) && bg.mode == Monitor
  }

  ghost predicate AuthorizeAdmits(s: S.State, bg: Background, inv: InvocationId, sc: ScopeK) {
    && Active(s, sc.agent) && sc.agent != bg.rootAgent
    && Tool(s, sc.policy.tool)
    && LeInteg(sc.policy.integInspect, sc.policy.integFloor)
    && Record(s, inv).None?
    && sc.egress <= sc.policy.declaredEgress
    && EgressCovered(sc.policy.declaredEgress, sc.egress)
    && BeginAdmissible(s, bg, sc.agent, sc.policy, sc.egress, sc.authorized)
  }

  /** Exact scope: invocation, challenge, arguments and policy; one use; and an id already spent. */
  ghost predicate AuthorizeGuard(s: S.State, bg: Background, inv: InvocationId, att: InspectionAttestation, admit: bool) {
    && Challenge(s, inv).Some?
    && var sc := Challenge(s, inv).value;
    && att.inv == inv && att.challenge == sc.challenge && att.argsHash == sc.argsHash
    && att.policyDigest == sc.policy.policyDigest
    && !UsedAttestation(s, att.id)
    && UsedInvocation(s, inv)
    && (admit <==> att.positive && AuthorizeAdmits(s, bg, inv, sc))
  }

  /** A quarantined record demands fresh evidence for this invocation and outcome, and no second
      quarantine; any other record forbids evidence. */
  ghost predicate SettleGuard(s: S.State, inv: InvocationId, outcome: Outcome, att: Option<ResolutionAttestation>) {
    && Record(s, inv).Some?
    && var j := Record(s, inv).value;
    && Active(s, j.agent)
    && j.disposition != Blocked
    && (j.quarantined ==>
          && outcome != Ambiguous && att.Some?
          && att.value.inv == inv && att.value.outcome == outcome && !UsedAttestation(s, att.value.id))
    && (!j.quarantined ==> att.None?)
  }

  ghost predicate CrossGuard(s: S.State, bg: Background, q: CrossInput, branch: CrossBranch, d: Disposition) {
    && Active(s, q.src) && Active(s, q.rcv)
    && (forall i | Record(s, i).Some? :: Record(s, i).value.agent != q.src)
    && !UsedCrossing(s, q.crossing)
    && Branches(s, q, branch)
    && (branch == Endorsed ==> EndorsedBounds(s, q))
    && Disposed(d, CrossHolds(s, bg, q, branch), bg.mode)
  }

  /** The action reports the command that caused it, and its outcome is the one the state calls for. */
  ghost predicate Guard(s: S.State, bg: Background, c: CommandK, a: Action) {
    match c
    case RegisterTool(tool) => a == RegisteredTool(tool) && !Tool(s, tool)
    case UnregisterTool(tool) => a == UnregisteredTool(tool) && Tool(s, tool) && ToolUnused(s, tool)
    case Delegate(grantor, grantee) =>
      && a == Delegated(grantor, grantee)
      && Active(s, grantor) && !Active(s, grantee) && grantee != bg.rootAgent
      && (forall child :: !Parent(s, child, grantee))
    case GrantCapability(parent, child, cap) =>
      && a == GrantedCapability(parent, child, cap)
      && Active(s, parent) && Active(s, child) && Parent(s, child, parent) && Cap(s, parent, cap)
    case GrantCrossing(grantor, agent, d, n) =>
      && a == GrantedCrossing(grantor, agent, d, n)
      && grantor == bg.rootAgent && Active(s, grantor) && Active(s, agent)
    case Revoke(parent, target) =>
      && a == Revoked(parent, target)
      && Parent(s, target, parent) && Active(s, parent) && Active(s, target) && target != bg.rootAgent
    case CascadeRevoke(child, parent) =>
      && a == CascadeRevoked(child, parent)
      && Parent(s, child, parent) && !Active(s, parent) && Active(s, child) && child != bg.rootAgent
    case Ingest(agent, src, pconf, pinteg) =>
      && a.Ingested? && a == Ingested(agent, src, pconf, pinteg, a.disposition)
      && IngestGuard(s, bg, agent, src, pconf, pinteg, a.disposition)
    case BeginInvocation(agent, inv, chal, policy, egress, ah, authorized) =>
      && a.BeganInvocation? && a == BeganInvocation(agent, inv, policy.tool, a.verdict, authorized)
      && BeginStructure(s, bg, agent, inv, policy, egress)
      && BeginVerdict(s, bg, agent, policy, egress, authorized, a.verdict)
    case AuthorizeInspected(inv, att) =>
      && a.AuthorizedInspected? && a == AuthorizedInspected(inv, att.id, a.admitted)
      && AuthorizeGuard(s, bg, inv, att, a.admitted)
    case SettleInvocation(inv, outcome, att) =>
      && SettleGuard(s, inv, outcome, att)
      && var j := Record(s, inv).value;
      && a == SettledInvocation(inv, j.agent, j.disposition, outcome, j.policy.outputConf, j.policy.outputInteg,
                                if att.Some? then Some(att.value.id) else None)
    case CrossOutput(q) =>
      && a.CrossedOutput? && a == CrossedOutput(q.src, q.rcv, q.crossing, a.branch, a.disposition)
      && CrossGuard(s, bg, q, a.branch, a.disposition)
  }

  // ---- What each action changes ----

  ghost predicate SameTree(s: S.State, t: S.State) {
    && (forall a :: Active(t, a) <==> Active(s, a))
    && (forall c, p :: Parent(t, c, p) <==> Parent(s, c, p))
  }

  ghost predicate SameCaps(s: S.State, t: S.State) {
    forall a, cap :: Cap(t, a, cap) <==> Cap(s, a, cap)
  }

  ghost predicate SameLabels(s: S.State, t: S.State) {
    && (forall a, l :: Taint(t, a, l) <==> Taint(s, a, l))
    && (forall a, l :: Integ(t, a, l) <==> Integ(s, a, l))
  }

  ghost predicate SameRecords(s: S.State, t: S.State) {
    forall i :: Record(t, i) == Record(s, i)
  }

  ghost predicate SameChallenges(s: S.State, t: S.State) {
    forall i :: Challenge(t, i) == Challenge(s, i)
  }

  ghost predicate SameInvocations(s: S.State, t: S.State) {
    forall i :: UsedInvocation(t, i) <==> UsedInvocation(s, i)
  }

  ghost predicate SameAttestations(s: S.State, t: S.State) {
    forall x :: UsedAttestation(t, x) <==> UsedAttestation(s, x)
  }

  ghost predicate SameCrossings(s: S.State, t: S.State) {
    forall x :: UsedCrossing(t, x) <==> UsedCrossing(s, x)
  }

  ghost predicate SameGrants(s: S.State, t: S.State) {
    forall a, d :: Grant(t, a, d) == Grant(s, a, d)
  }

  ghost predicate SameTools(s: S.State, t: S.State) {
    forall x :: Tool(t, x) <==> Tool(s, x)
  }

  ghost predicate SameHistories(s: S.State, t: S.State) {
    SameInvocations(s, t) && SameAttestations(s, t) && SameCrossings(s, t)
  }

  /** The two states cannot be told apart. */
  ghost predicate Same(s: S.State, t: S.State) {
    && SameTree(s, t) && SameCaps(s, t) && SameLabels(s, t) && SameRecords(s, t) && SameChallenges(s, t)
    && SameHistories(s, t) && SameGrants(s, t) && SameTools(s, t)
  }

  function Unless(o: Option<PendingK>, a: AgentId): Option<PendingK> {
    if o.Some? && o.value.agent == a then None else o
  }

  function UnlessScope(o: Option<ScopeK>, a: AgentId): Option<ScopeK> {
    if o.Some? && o.value.agent == a then None else o
  }

  function Demoted(o: Option<PendingK>, a: AgentId): Option<PendingK> {
    if o.Some? && o.value.agent == a then Some(o.value.(disposition := MonitorBypassed)) else o
  }

  /** Everything `a` owns is destroyed, capabilities, labels, records, challenges and grants. */
  ghost predicate Destroys(s: S.State, a: AgentId, t: S.State) {
    && (forall x, cap :: Cap(t, x, cap) <==> Cap(s, x, cap) && x != a)
    && (forall x, l :: Taint(t, x, l) <==> Taint(s, x, l) && x != a)
    && (forall x, l :: Integ(t, x, l) <==> Integ(s, x, l) && x != a)
    && (forall i :: Record(t, i) == Unless(Record(s, i), a))
    && (forall i :: Challenge(t, i) == UnlessScope(Challenge(s, i), a))
    && (forall x, d :: Grant(t, x, d) == if x == a then None else Grant(s, x, d))
  }

  ghost predicate RevokeNext(s: S.State, a: AgentId, t: S.State) {
    && (forall x :: Active(t, x) <==> Active(s, x) && x != a)
    && (forall c, p :: Parent(t, c, p) <==> Parent(s, c, p) && c != a)
    && Destroys(s, a, t)
    && SameHistories(s, t) && SameTools(s, t)
  }

  ghost predicate DelegateNext(s: S.State, grantor: AgentId, grantee: AgentId, t: S.State) {
    && (forall x :: Active(t, x) <==> Active(s, x) || x == grantee)
    && (forall c, p :: Parent(t, c, p) <==> (c == grantee && p == grantor) || (Parent(s, c, p) && c != grantee && p != grantee))
    && Destroys(s, grantee, t)
    && SameHistories(s, t) && SameTools(s, t)
  }

  ghost predicate IngestNext(s: S.State, a: AgentId, pconf: ConfLevel, pinteg: IntegLevel, d: Disposition, t: S.State) {
    && (forall x, l :: Taint(t, x, l) <==> Taint(s, x, l) || (x == a && l == pconf))
    && (forall x, l :: Integ(t, x, l) <==> Integ(s, x, l) || (x == a && l == pinteg))
    && (forall i :: Record(t, i) == if d == MonitorBypassed then Demoted(Record(s, i), a) else Record(s, i))
    && SameTree(s, t) && SameCaps(s, t) && SameChallenges(s, t) && SameHistories(s, t) && SameGrants(s, t) && SameTools(s, t)
  }

  /** The record that an admission leaves: permitted when allowed, bypassed otherwise under monitor mode;
      an inspection under enforce mode leaves none. */
  function BeginRecord(bg: Background, a: AgentId, p: PolicyK, egress: set<EgressKind>, authorized: bool, v: Verdict): Option<PendingK> {
    match v
    case Allow =>
      Some(Pending(agent := a, policy := p, egress := egress, admission := Plain, disposition := Permitted,
                   authorized := authorized, quarantined := false))
    case InspectionRequired =>
      if bg.mode == Enforce then None
      else Some(Pending(agent := a, policy := p, egress := egress, admission := Bypassed, disposition := MonitorBypassed,
                        authorized := authorized, quarantined := false))
    case Deny =>
      Some(Pending(agent := a, policy := p, egress := egress, admission := Bypassed, disposition := MonitorBypassed,
                   authorized := authorized, quarantined := false))
  }

  function BeginChallenge(bg: Background, a: AgentId, chal: ChallengeId, p: PolicyK, egress: set<EgressKind>, ah: ContentHash,
                          authorized: bool, v: Verdict): Option<ScopeK> {
    if v == InspectionRequired && bg.mode == Enforce
    then Some(Scope(challenge := chal, agent := a, policy := p, egress := egress, argsHash := ah, authorized := authorized))
    else None
  }

  ghost predicate BeginNext(s: S.State, bg: Background, a: AgentId, inv: InvocationId, chal: ChallengeId, p: PolicyK,
                            egress: set<EgressKind>, ah: ContentHash, authorized: bool, v: Verdict, t: S.State) {
    && (forall i :: Record(t, i) == if i == inv then BeginRecord(bg, a, p, egress, authorized, v) else Record(s, i))
    && (forall i :: Challenge(t, i) == if i == inv then BeginChallenge(bg, a, chal, p, egress, ah, authorized, v) else Challenge(s, i))
    && (forall i :: UsedInvocation(t, i) <==> UsedInvocation(s, i) || i == inv)
    && SameTree(s, t) && SameCaps(s, t) && SameLabels(s, t) && SameAttestations(s, t) && SameCrossings(s, t)
    && SameGrants(s, t) && SameTools(s, t)
  }

  ghost predicate AuthorizeNext(s: S.State, inv: InvocationId, id: AttestationId, admit: bool, t: S.State) {
    && Challenge(s, inv).Some?
    && var sc := Challenge(s, inv).value;
    && (forall i :: Record(t, i) ==
          if i == inv && admit
          then Some(Pending(agent := sc.agent, policy := sc.policy, egress := sc.egress, admission := Inspected(id),
                            disposition := Permitted, authorized := sc.authorized, quarantined := false))
          else Record(s, i))
    && (forall i :: Challenge(t, i) == if i == inv then None else Challenge(s, i))
    && (forall x :: UsedAttestation(t, x) <==> UsedAttestation(s, x) || x == id)
    && SameTree(s, t) && SameCaps(s, t) && SameLabels(s, t) && SameInvocations(s, t) && SameCrossings(s, t)
    && SameGrants(s, t) && SameTools(s, t)
  }

  /** The record closed, or flagged. */
  function SettledAt(o: Option<PendingK>, outcome: Outcome): Option<PendingK> {
    if o.Some? && outcome == Ambiguous then Some(o.value.(quarantined := true)) else None
  }

  ghost predicate SettleNext(s: S.State, inv: InvocationId, outcome: Outcome, att: Option<ResolutionAttestation>, t: S.State) {
    && Record(s, inv).Some?
    && var j := Record(s, inv).value;
    && (forall i :: Record(t, i) ==
          var o := if i == inv then SettledAt(Record(s, i), outcome) else Record(s, i);
          if j.disposition == Permitted then o else Demoted(o, j.agent))
    && (forall x, l :: Taint(t, x, l) <==> Taint(s, x, l) || (outcome != Ambiguous && x == j.agent && l == j.policy.outputConf))
    && (forall x, l :: Integ(t, x, l) <==> Integ(s, x, l) || (outcome != Ambiguous && x == j.agent && l == j.policy.outputInteg))
    && (forall x :: UsedAttestation(t, x) <==> UsedAttestation(s, x) || (att.Some? && x == att.value.id))
    && SameTree(s, t) && SameCaps(s, t) && SameChallenges(s, t) && SameInvocations(s, t) && SameCrossings(s, t)
    && SameGrants(s, t) && SameTools(s, t)
  }

  function Decremented(o: Option<CrossingGrant>): Option<CrossingGrant> {
    match o
    case None => None
    case Some(g) => Some(CrossingGrant(if g.remaining > 0 then g.remaining - 1 else 0, g.provisioned))
  }

  ghost predicate CrossNext(s: S.State, q: CrossInput, branch: CrossBranch, d: Disposition, t: S.State) {
    && (forall x, l :: Taint(t, x, l) <==>
          || Taint(s, x, l)
          || (branch == Endorsed && x == q.rcv && l == q.releasedConf)
          || (branch == Unendorsed && x == q.rcv && Taint(s, q.src, l)))
    && (forall x, l :: Integ(t, x, l) <==>
          || Integ(s, x, l)
          || (branch == Endorsed && x == q.rcv && l == q.releasedInteg)
          || (branch == Unendorsed && x == q.rcv && Integ(s, q.src, l)))
    && (forall i :: Record(t, i) == if d == MonitorBypassed then Demoted(Record(s, i), q.rcv) else Record(s, i))
    && (forall x :: UsedCrossing(t, x) <==> UsedCrossing(s, x) || x == q.crossing)
    && (forall x :: UsedAttestation(t, x) <==>
          UsedAttestation(s, x) || (branch == Endorsed && q.evidence.Some? && x == q.evidence.value.id))
    && (forall a, k :: Grant(t, a, k) ==
          if branch == Endorsed && a == q.rcv && k == q.assignment then Decremented(Grant(s, a, k)) else Grant(s, a, k))
    && SameTree(s, t) && SameCaps(s, t) && SameChallenges(s, t) && SameInvocations(s, t) && SameTools(s, t)
  }

  ghost predicate ToolsNext(s: S.State, t: S.State) {
    SameTree(s, t) && SameCaps(s, t) && SameLabels(s, t) && SameRecords(s, t) && SameChallenges(s, t)
    && SameHistories(s, t) && SameGrants(s, t)
  }

  ghost predicate Next(s: S.State, bg: Background, c: CommandK, a: Action, t: S.State) {
    match c
    case RegisterTool(tool) => (forall x :: Tool(t, x) <==> Tool(s, x) || x == tool) && ToolsNext(s, t)
    case UnregisterTool(tool) => (forall x :: Tool(t, x) <==> Tool(s, x) && x != tool) && ToolsNext(s, t)
    case Delegate(grantor, grantee) => DelegateNext(s, grantor, grantee, t)
    case GrantCapability(_, child, cap) =>
      && (forall x, k :: Cap(t, x, k) <==> Cap(s, x, k) || (x == child && k == cap))
      && SameTree(s, t) && SameLabels(s, t) && SameRecords(s, t) && SameChallenges(s, t) && SameHistories(s, t)
      && SameGrants(s, t) && SameTools(s, t)
    case GrantCrossing(_, agent, d, n) =>
      && (forall x, k :: Grant(t, x, k) == if x == agent && k == d then Some(CrossingGrant(n, n)) else Grant(s, x, k))
      && SameTree(s, t) && SameCaps(s, t) && SameLabels(s, t) && SameRecords(s, t) && SameChallenges(s, t)
      && SameHistories(s, t) && SameTools(s, t)
    case Revoke(_, target) => RevokeNext(s, target, t)
    case CascadeRevoke(child, _) => RevokeNext(s, child, t)
    case Ingest(agent, _, pconf, pinteg) => a.Ingested? && IngestNext(s, agent, pconf, pinteg, a.disposition, t)
    case BeginInvocation(agent, inv, chal, policy, egress, ah, authorized) =>
      a.BeganInvocation? && BeginNext(s, bg, agent, inv, chal, policy, egress, ah, authorized, a.verdict, t)
    case AuthorizeInspected(inv, att) => a.AuthorizedInspected? && AuthorizeNext(s, inv, att.id, a.admitted, t)
    case SettleInvocation(inv, outcome, att) => SettleNext(s, inv, outcome, att, t)
    case CrossOutput(q) => a.CrossedOutput? && CrossNext(s, q, a.branch, a.disposition, t)
  }

  /** One transition of the protocol. */
  ghost predicate Transition(s: S.State, bg: Background, c: CommandK, a: Action, t: S.State) {
    Guard(s, bg, c, a) && Next(s, bg, c, a, t)
  }

  /** Only root is active, and it holds every capability; nothing else is there. */
  ghost predicate Begins(s: S.State, bg: Background) {
    && (forall a :: Active(s, a) <==> a == bg.rootAgent)
    && (forall c, p :: !Parent(s, c, p))
    && (forall a, cap :: Cap(s, a, cap) <==> a == bg.rootAgent)
    && (forall a, l :: !Taint(s, a, l))
    && (forall a, l :: !Integ(s, a, l))
    && (forall i :: Record(s, i).None? && Challenge(s, i).None? && !UsedInvocation(s, i))
    && (forall x :: !UsedAttestation(s, x))
    && (forall x :: !UsedCrossing(s, x))
    && (forall a, d :: Grant(s, a, d).None?)
    && (forall t :: !Tool(s, t))
  }
}
