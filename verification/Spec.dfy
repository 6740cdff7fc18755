/**
  The abstract authorization state machine on maps and sets: derived labels, admission gates,
  label holds and the twelve commands.
*/
module Spec {
  import opened Types

  datatype State = State(
    active: set<AgentId>,
    parent: map<AgentId, AgentId>,
    caps: map<AgentId, set<CapKind>>,
    taint: map<AgentId, set<ConfLevel>>,
    integ: map<AgentId, set<IntegLevel>>,
    pending: map<InvocationId, PendingK>,
    challenges: map<InvocationId, ScopeK>,
    consumedIds: set<InvocationId>,
    consumedAttestations: set<AttestationId>,
    consumedCrossings: set<CrossingId>,
    grants: map<CrossingKey, CrossingGrant>,
    tools: set<ToolId>)

  /** The set at key `a`; an absent key means no element: untainted, fully trusted, no capability. */
  ghost function Of<T>(m: map<AgentId, set<T>>, a: AgentId): set<T> {
    if a in m then m[a] else {}
  }

  ghost predicate Owned(pending: map<InvocationId, PendingK>, i: InvocationId, a: AgentId) {
    i in pending && pending[i].agent == a
  }

  /** Worst-case taint: held labels and the output level of every pending record. */
  ghost function SpecTaint(s: State, a: AgentId): set<ConfLevel> {
    Of(s.taint, a) + set i | i in s.pending && Owned(s.pending, i, a) :: s.pending[i].policy.outputConf
  }

  ghost function SpecInteg(s: State, a: AgentId): set<IntegLevel> {
    Of(s.integ, a) + set i | i in s.pending && Owned(s.pending, i, a) :: s.pending[i].policy.outputInteg
  }

  datatype StepResult = Accepted(next: State, action: Action) | Refused(error: KernelError)

  ghost function Initial(): State {
    State({ROOT}, map[], map[ROOT := set c: CapKind | c in ALL_CAPS], map[], map[], map[], map[],
          {}, {}, {}, map[], {})
  }

  // ---- Bands, gates and holds ----

  /** A level may leave on every channel: below the allow ceiling, or below the inspect ceiling for
      a vouched party. */
  ghost predicate FlowOk(bg: Background, level: ConfLevel, egress: set<EgressKind>, vouched: bool) {
    forall e | e in egress :: bg.FlowAllows(level, e) || (bg.FlowInspects(level, e) && vouched)
  }

  /** A level clears a policy's floor, or its inspect floor for a vouched party. */
  predicate IntegOk(level: IntegLevel, p: PolicyK, vouched: bool) {
    p.integFloor.Le(level) || (p.integInspect.Le(level) && vouched)
  }

  /** Every pending record of `a` lets the level leave on its channels; outside the strict arm an
      inspected channel counts for a vouched record. */
  ghost predicate ConfHold(pending: map<InvocationId, PendingK>, bg: Background, a: AgentId, l: ConfLevel, strict: bool) {
    forall i | i in pending && Owned(pending, i, a) ::
      FlowOk(bg, l, pending[i].egress, !strict && pending[i].Vouched())
  }

  /** The level clears the clearance of every pending record of `a`. */
  ghost predicate ClearHold(pending: map<InvocationId, PendingK>, a: AgentId, l: ConfLevel) {
    forall i | i in pending && Owned(pending, i, a) :: l.Le(pending[i].policy.confClearance)
  }

  ghost predicate IntegHold(pending: map<InvocationId, PendingK>, a: AgentId, l: IntegLevel, strict: bool) {
    forall i | i in pending && Owned(pending, i, a) ::
      IntegOk(l, pending[i].policy, !strict && pending[i].Vouched())
  }

  ghost predicate CheckCapability(s: State, a: AgentId, p: PolicyK) {
    p.requiredCaps <= Of(s.caps, a)
  }

  ghost predicate CheckClearance(s: State, a: AgentId, p: PolicyK) {
    && (forall l | l in SpecTaint(s, a) :: l.Le(p.confClearance))
    && ClearHold(s.pending, a, p.outputConf)
    && p.outputConf.Le(p.confClearance)
  }

  ghost predicate CheckFlow(s: State, bg: Background, a: AgentId, p: PolicyK, egress: set<EgressKind>, strict: bool) {
    && (forall l | l in SpecTaint(s, a) :: FlowOk(bg, l, egress, !strict))
    && ConfHold(s.pending, bg, a, p.outputConf, strict)
    && FlowOk(bg, p.outputConf, egress, !strict)
  }

  ghost predicate CheckInteg(s: State, a: AgentId, p: PolicyK, strict: bool) {
    && (forall l | l in SpecInteg(s, a) :: IntegOk(l, p, !strict))
    && IntegHold(s.pending, a, p.outputInteg, strict)
    && IntegOk(p.outputInteg, p, !strict)
  }

  predicate EgressCovers(declared: set<EgressKind>, egress: set<EgressKind>) {
    declared == {} || egress != {}
  }

  /** The nine checks on their allow arm (strict) or on their allow-or-inspect arm. */
  ghost predicate Gate(s: State, bg: Background, a: AgentId, p: PolicyK, egress: set<EgressKind>,
                       authorized: bool, strict: bool) {
    && CheckCapability(s, a, p)
    && authorized
    && CheckClearance(s, a, p)
    && CheckFlow(s, bg, a, p, egress, strict)
    && CheckInteg(s, a, p, strict)
  }

  ghost function VerdictOf(s: State, bg: Background, a: AgentId, p: PolicyK, egress: set<EgressKind>,
                           authorized: bool): Verdict {
    if Gate(s, bg, a, p, egress, authorized, true) then Allow
    else if Gate(s, bg, a, p, egress, authorized, false) then InspectionRequired
    else Deny
  }

  /** The holds for releasing a set of levels into `a`. */
  ghost predicate Holds(pending: map<InvocationId, PendingK>, bg: Background, a: AgentId,
                        confs: set<ConfLevel>, integs: set<IntegLevel>) {
    && (forall l | l in confs :: ConfHold(pending, bg, a, l, false) && ClearHold(pending, a, l))
    && (forall l | l in integs :: IntegHold(pending, a, l, false))
  }

  // ---- State updates ----

  ghost function DropPending(pending: map<InvocationId, PendingK>, a: AgentId): map<InvocationId, PendingK> {
    map i | i in pending && pending[i].agent != a :: pending[i]
  }

  ghost function DropChallenges(challenges: map<InvocationId, ScopeK>, a: AgentId): map<InvocationId, ScopeK> {
    map i | i in challenges && challenges[i].agent != a :: challenges[i]
  }

  ghost function DropGrants(grants: map<CrossingKey, CrossingGrant>, a: AgentId): map<CrossingKey, CrossingGrant> {
    map k | k in grants && k.agent != a :: grants[k]
  }

  ghost function Demote(pending: map<InvocationId, PendingK>, a: AgentId): map<InvocationId, PendingK> {
    map i | i in pending ::
      if pending[i].agent == a then pending[i].(disposition := MonitorBypassed) else pending[i]
  }

  /** Insert every element of `levels` at key `a`; inserting nothing creates no key. */
  ghost function Extend<T>(m: map<AgentId, set<T>>, a: AgentId, levels: set<T>): map<AgentId, set<T>> {
    if levels == {} then m else m[a := Of(m, a) + levels]
  }

  /** Destroy everything the agent owns, and its own parent edge. */
  ghost function Clear(s: State, a: AgentId): State {
    s.(active := s.active - {a},
       parent := s.parent - {a},
       caps := s.caps - {a},
       taint := s.taint - {a},
       integ := s.integ - {a},
       pending := DropPending(s.pending, a),
       challenges := DropChallenges(s.challenges, a),
       grants := DropGrants(s.grants, a))
  }

  // ---- The twelve commands ----

  ghost function RegisterToolStep(s: State, tool: ToolId): StepResult {
    if tool in s.tools then Refused(ToolAlreadyRegistered)
    else Accepted(s.(tools := s.tools + {tool}), RegisteredTool(tool))
  }

  ghost predicate ToolPending(pending: map<InvocationId, PendingK>, tool: ToolId) {
    exists i | i in pending :: pending[i].policy.tool == tool
  }

  ghost predicate ToolChallenged(challenges: map<InvocationId, ScopeK>, tool: ToolId) {
    exists i | i in challenges :: challenges[i].policy.tool == tool
  }

  ghost predicate ToolInUseBy(s: State, tool: ToolId) {
    ToolPending(s.pending, tool) || ToolChallenged(s.challenges, tool)
  }

  ghost function UnregisterToolStep(s: State, tool: ToolId): StepResult {
    if tool !in s.tools then Refused(ToolNotRegistered)
    else if ToolInUseBy(s, tool) then Refused(ToolInUse)
    else Accepted(s.(tools := s.tools - {tool}), UnregisteredTool(tool))
  }

  ghost predicate IsParent(s: State, a: AgentId) {
    exists c | c in s.parent :: s.parent[c] == a
  }

  ghost function DelegateStep(s: State, bg: Background, grantor: AgentId, grantee: AgentId): StepResult {
    if grantor !in s.active then Refused(AgentInactive)
    else if grantee in s.active then Refused(AgentAlreadyActive)
    else if grantee == bg.rootAgent then Refused(RootNotAllowed)
    else if IsParent(s, grantee) then Refused(AgentHasChildren)
    else
      var kept := map c | c in s.parent && c != grantee && s.parent[c] != grantee :: s.parent[c];
      Accepted(
        Clear(s, grantee).(active := s.active + {grantee}, parent := kept[grantee := grantor]),
        Delegated(grantor, grantee))
  }

  predicate IsEdge(s: State, child: AgentId, parent: AgentId) {
    child in s.parent && s.parent[child] == parent
  }

  ghost function GrantCapabilityStep(s: State, parent: AgentId, child: AgentId, cap: CapKind): StepResult {
    if parent !in s.active || child !in s.active then Refused(AgentInactive)
    else if !IsEdge(s, child, parent) then Refused(NotDirectChild)
    else if cap !in Of(s.caps, parent) then Refused(CapabilityMissing)
    else Accepted(s.(caps := Extend(s.caps, child, {cap})), GrantedCapability(parent, child, cap))
  }

  ghost function GrantCrossingStep(s: State, bg: Background, grantor: AgentId, agent: AgentId,
                                   assignment: AssignmentDigest, n: U32): StepResult {
    if grantor != bg.rootAgent then Refused(NotRoot)
    else if grantor !in s.active || agent !in s.active then Refused(AgentInactive)
    else
      Accepted(s.(grants := s.grants[CrossingKey(agent, assignment) := CrossingGrant(n, n)]),
               GrantedCrossing(grantor, agent, assignment, n))
  }

  ghost function RevokeStep(s: State, bg: Background, parent: AgentId, target: AgentId): StepResult {
    if !IsEdge(s, target, parent) then Refused(NotDirectChild)
    else if parent !in s.active || target !in s.active then Refused(AgentInactive)
    else if target == bg.rootAgent then Refused(RootNotAllowed)
    else Accepted(Clear(s, target), Revoked(parent, target))
  }

  ghost function CascadeRevokeStep(s: State, bg: Background, child: AgentId, parent: AgentId): StepResult {
    if !IsEdge(s, child, parent) then Refused(NotDirectChild)
    else if parent in s.active then Refused(ParentStillActive)
    else if child !in s.active then Refused(AgentInactive)
    else if child == bg.rootAgent then Refused(RootNotAllowed)
    else Accepted(Clear(s, child), CascadeRevoked(child, parent))
  }

  /** Agent-to-agent provenance must dominate what the source holds, in both dimensions. */
  ghost predicate Dominates(s: State, src: AgentId, pconf: ConfLevel, pinteg: IntegLevel) {
    && (forall l | l in Of(s.taint, src) :: l.Le(pconf))
    && (forall l | l in Of(s.integ, src) :: pinteg.Le(l))
  }

  /** Release labels into `a`; a bypassed release also demotes every pending record of `a`. */
  ghost function Release(s: State, a: AgentId, confs: set<ConfLevel>, integs: set<IntegLevel>,
                         bypassed: bool): State {
    s.(taint := Extend(s.taint, a, confs),
       integ := Extend(s.integ, a, integs),
       pending := if bypassed then Demote(s.pending, a) else s.pending)
  }

  ghost function IngestStep(s: State, bg: Background, a: AgentId, src: Option<AgentId>,
                            pconf: ConfLevel, pinteg: IntegLevel): StepResult {
    if a !in s.active then Refused(AgentInactive)
    else if src.Some? && !Dominates(s, src.value, pconf, pinteg) then Refused(ProvenanceNotDominated)
    else
      var holds := Holds(s.pending, bg, a, {pconf}, {pinteg});
      if !holds && bg.mode != Monitor then Refused(IngestHoldFailed)
      else
        Accepted(Release(s, a, {pconf}, {pinteg}, !holds),
                 Ingested(a, src, pconf, pinteg, if holds then Permitted else MonitorBypassed))
  }

  ghost function BeginStep(s: State, bg: Background, a: AgentId, inv: InvocationId, chal: ChallengeId,
                           p: PolicyK, egress: set<EgressKind>, ah: ContentHash, authorized: bool): StepResult {
    if a !in s.active then Refused(AgentInactive)
    else if a == bg.rootAgent then Refused(RootNotAllowed)
    else if p.tool !in s.tools then Refused(ToolNotRegistered)
    else if !p.integInspect.Le(p.integFloor) then Refused(IncoherentPolicy)
    else if inv in s.pending then Refused(InvocationExists)
    else if inv in s.consumedIds then Refused(InvocationReplayed)
    else if inv in s.challenges then Refused(ChallengeAlreadyOpen)
    else if !(egress <= p.declaredEgress) then Refused(EgressNotNarrowing)
    else if !EgressCovers(p.declaredEgress, egress) then Refused(EgressNotCovering)
    else
      var verdict := VerdictOf(s, bg, a, p, egress, authorized);
      if verdict == Deny && bg.mode == Enforce
      then Refused(DenialOf(s, bg, a, p, egress, authorized))
      else Accepted(BeginNext(s, bg, a, inv, chal, p, egress, ah, authorized, verdict),
                    BeganInvocation(a, inv, p.tool, verdict, authorized))
  }

  /** The effect that the verdict and the mode select: a permitted record, a challenge, or a record
      that bypasses its gate under monitor mode. The invocation id is burned on every arm. */
  ghost function BeginNext(s: State, bg: Background, a: AgentId, inv: InvocationId, chal: ChallengeId,
                           p: PolicyK, egress: set<EgressKind>, ah: ContentHash, authorized: bool,
                           verdict: Verdict): State {
    if verdict == Allow then PendNext(s, inv, Pending(a, p, egress, Plain, Permitted, authorized, false))
    else if bg.mode == Monitor then PendNext(s, inv, Pending(a, p, egress, Bypassed, MonitorBypassed, authorized, false))
    else OpenNext(s, inv, Scope(chal, a, p, egress, ah, authorized))
  }

  ghost function PendNext(s: State, inv: InvocationId, j: PendingK): State {
    s.(consumedIds := s.consumedIds + {inv}, pending := s.pending[inv := j])
  }

  ghost function OpenNext(s: State, inv: InvocationId, sc: ScopeK): State {
    s.(consumedIds := s.consumedIds + {inv}, challenges := s.challenges[inv := sc])
  }

  /** The most specific admissible check that failed. */
  ghost function DenialOf(s: State, bg: Background, a: AgentId, p: PolicyK, egress: set<EgressKind>,
                          authorized: bool): KernelError {
    if !CheckCapability(s, a, p) then CapabilityMissing
    else if !authorized then AuthorizerDenied
    else if !CheckClearance(s, a, p) then ClearanceDenied
    else if !CheckFlow(s, bg, a, p, egress, false) then FlowGateBlocked
    else IntegrityFloorDenied
  }

  /** The structural conditions and the live gate, re-evaluated for an open challenge. */
  ghost predicate AuthorizeAdmits(s: State, bg: Background, inv: InvocationId, sc: ScopeK) {
    && sc.agent in s.active
    && sc.agent != bg.rootAgent
    && sc.policy.tool in s.tools
    && sc.policy.integInspect.Le(sc.policy.integFloor)
    && inv !in s.pending
    && sc.egress <= sc.policy.declaredEgress
    && EgressCovers(sc.policy.declaredEgress, sc.egress)
    && Gate(s, bg, sc.agent, sc.policy, sc.egress, sc.authorized, false)
  }

  ghost function AuthorizeStep(s: State, bg: Background, inv: InvocationId, att: InspectionAttestation): StepResult {
    if inv !in s.challenges then Refused(ChallengeNotOpen)
    else
      var sc := s.challenges[inv];
      if att.inv != inv || att.challenge != sc.challenge || att.argsHash != sc.argsHash
         || att.policyDigest != sc.policy.policyDigest
      then Refused(ChallengeScopeMismatch)
      else if att.id in s.consumedAttestations then Refused(AttestationConsumed)
      else
        var admit := att.positive && AuthorizeAdmits(s, bg, inv, sc);
        var record := Pending(sc.agent, sc.policy, sc.egress, Inspected(att.id), Permitted, sc.authorized, false);
        Accepted(s.(pending := if admit then s.pending[inv := record] else s.pending,
                    challenges := s.challenges - {inv},
                    consumedAttestations := s.consumedAttestations + {att.id}),
                 AuthorizedInspected(inv, att.id, admit))
  }

  ghost predicate ResolutionValid(s: State, inv: InvocationId, outcome: Outcome, att: Option<ResolutionAttestation>) {
    && att.Some?
    && att.value.inv == inv
    && att.value.outcome == outcome
    && att.value.id !in s.consumedAttestations
  }

  ghost function SettleStep(s: State, inv: InvocationId, outcome: Outcome, att: Option<ResolutionAttestation>): StepResult {
    if inv !in s.pending then Refused(NotPending)
    else
      var j := s.pending[inv];
      if j.agent !in s.active then Refused(AgentInactive)
      else if j.disposition == Blocked then Refused(BlockedPending)
      else if j.quarantined && outcome == Ambiguous then Refused(QuarantineResolutionRequired)
      else if j.quarantined && !ResolutionValid(s, inv, outcome, att) then Refused(ResolutionAttestationInvalid)
      else if !j.quarantined && att.Some? then Refused(NotQuarantined)
      else
        var settled := if outcome == Ambiguous then s.pending[inv := j.(quarantined := true)] else s.pending - {inv};
        var demoted := if j.Contained() then settled else Demote(settled, j.agent);
        Accepted(
          s.(pending := demoted,
             taint := if outcome == Ambiguous then s.taint else Extend(s.taint, j.agent, {j.policy.outputConf}),
             integ := if outcome == Ambiguous then s.integ else Extend(s.integ, j.agent, {j.policy.outputInteg}),
             consumedAttestations := s.consumedAttestations + (if att.Some? then {att.value.id} else {})),
          SettledInvocation(inv, j.agent, j.disposition, outcome, j.policy.outputConf, j.policy.outputInteg,
                            if att.Some? then Some(att.value.id) else None))
  }

  /** What a settlement leaves of records and labels. */
  lemma SettleMoves(s: State, inv: InvocationId, outcome: Outcome, att: Option<ResolutionAttestation>)
    requires SettleStep(s, inv, outcome, att).Accepted?
    ensures var t := SettleStep(s, inv, outcome, att).next;
            && inv in s.pending
            && (inv in t.pending <==> outcome == Ambiguous)
            && (forall i | i in s.pending && i != inv :: i in t.pending)
            && (forall i | i in t.pending ::
                  && i in s.pending
                  && var j, k := s.pending[i], t.pending[i];
                  && k == j.(disposition := k.disposition, quarantined := k.quarantined)
                  && (i != inv ==> k.quarantined == j.quarantined)
                  && k.disposition == (if !s.pending[inv].Contained() && j.agent == s.pending[inv].agent
                                       then MonitorBypassed else j.disposition))
            && var j := s.pending[inv];
            && t == s.(pending := t.pending,
                       taint := if outcome == Ambiguous then s.taint else Extend(s.taint, j.agent, {j.policy.outputConf}),
                       integ := if outcome == Ambiguous then s.integ else Extend(s.integ, j.agent, {j.policy.outputInteg}),
                       consumedAttestations := s.consumedAttestations + (if att.Some? then {att.value.id} else {}))
  {
    hide Extend, ResolutionValid;
  }

  /** Positive, fresh, scope-exact conformance evidence and a grant with a remaining use. */
  ghost predicate EndorsedOk(s: State, q: CrossInput) {
    && q.evidence.Some?
    && var e := q.evidence.value;
    && e.positive
    && e.id !in s.consumedAttestations
    && e.output == q.outputHash
    && e.src == q.src
    && e.rcv == q.rcv
    && e.descriptor == q.descriptor
    && e.assignment == q.assignment
    && CrossingKey(q.rcv, q.assignment) in s.grants
    && s.grants[CrossingKey(q.rcv, q.assignment)].remaining > 0
  }

  ghost function BranchOf(s: State, q: CrossInput): CrossBranch {
    if EndorsedOk(s, q) then Endorsed
    else if q.fallback == ReleaseUnendorsed then Unendorsed
    else BranchFail
  }

  /** The endorsed pair respects the assignment bounds; a non-declassifying assignment must still
      dominate what the source holds. */
  ghost predicate WithinBounds(s: State, q: CrossInput) {
    && q.releasedInteg.Le(q.tInteg)
    && (match q.tConf
        case Some(c) => q.releasedConf.Le(c)
        case None => forall l | l in Of(s.taint, q.src) :: l.Le(q.releasedConf))
  }

  ghost function ReleasedConfs(s: State, q: CrossInput): set<ConfLevel> {
    match BranchOf(s, q)
    case Endorsed => {q.releasedConf}
    case Unendorsed => Of(s.taint, q.src)
    case BranchFail => {}
  }

  ghost function ReleasedIntegs(s: State, q: CrossInput): set<IntegLevel> {
    match BranchOf(s, q)
    case Endorsed => {q.releasedInteg}
    case Unendorsed => Of(s.integ, q.src)
    case BranchFail => {}
  }

  ghost predicate InFlight(pending: map<InvocationId, PendingK>, a: AgentId) {
    exists i | i in pending :: Owned(pending, i, a)
  }

  ghost function SpendGrant(grants: map<CrossingKey, CrossingGrant>, key: CrossingKey): map<CrossingKey, CrossingGrant> {
    if key in grants && grants[key].remaining > 0
    then grants[key := CrossingGrant(grants[key].remaining - 1, grants[key].provisioned)]
    else grants
  }

  ghost function CrossStep(s: State, bg: Background, q: CrossInput): StepResult {
    if q.src !in s.active || q.rcv !in s.active then Refused(AgentInactive)
    else if InFlight(s.pending, q.src) then Refused(SourceInFlight)
    else if q.crossing in s.consumedCrossings then Refused(CrossingReplayed)
    else
      var branch := BranchOf(s, q);
      if branch == Endorsed && !WithinBounds(s, q) then Refused(CrossingBoundViolated)
      else
        var holds := Holds(s.pending, bg, q.rcv, ReleasedConfs(s, q), ReleasedIntegs(s, q));
        if !holds && bg.mode != Monitor then Refused(CrossingHoldFailed)
        else
          var released := Release(s, q.rcv, ReleasedConfs(s, q), ReleasedIntegs(s, q), !holds);
          var next := released.(consumedCrossings := s.consumedCrossings + {q.crossing});
          Accepted(
            if branch != Endorsed then next
            else next.(consumedAttestations := s.consumedAttestations + {q.evidence.value.id},
                       grants := SpendGrant(s.grants, CrossingKey(q.rcv, q.assignment))),
            CrossedOutput(q.src, q.rcv, q.crossing, branch, if holds then Permitted else MonitorBypassed))
  }

  ghost function Step(s: State, bg: Background, c: CommandK): StepResult {
    match c
    case RegisterTool(tool) => RegisterToolStep(s, tool)
    case UnregisterTool(tool) => UnregisterToolStep(s, tool)
    case Delegate(grantor, grantee) => DelegateStep(s, bg, grantor, grantee)
    case GrantCapability(parent, child, cap) => GrantCapabilityStep(s, parent, child, cap)
    case GrantCrossing(grantor, agent, assignment, n) => GrantCrossingStep(s, bg, grantor, agent, assignment, n)
    case Revoke(parent, target) => RevokeStep(s, bg, parent, target)
    case CascadeRevoke(child, parent) => CascadeRevokeStep(s, bg, child, parent)
    case Ingest(agent, src, pconf, pinteg) => IngestStep(s, bg, agent, src, pconf, pinteg)
    case BeginInvocation(agent, inv, chal, policy, egress, ah, authorized) =>
      BeginStep(s, bg, agent, inv, chal, policy, egress, ah, authorized)
    case AuthorizeInspected(inv, att) => AuthorizeStep(s, bg, inv, att)
    case SettleInvocation(inv, outcome, att) => SettleStep(s, inv, outcome, att)
    case CrossOutput(q) => CrossStep(s, bg, q)
  }

  // ---- Runs ----

  /** A refused command leaves the state as it was. */
  ghost function Exec(s: State, bg: Background, c: CommandK): State {
    var r := Step(s, bg, c);
    if r.Accepted? then r.next else s
  }

  ghost function Run(bg: Background, cmds: seq<CommandK>): State {
    if cmds == [] then Initial()
    else Exec(Run(bg, cmds[..|cmds| - 1]), bg, cmds[|cmds| - 1])
  }

  lemma RunNothing(bg: Background)
    ensures Run(bg, []) == Initial()
  {
    hide Exec;
  }

  lemma RunNext(bg: Background, cmds: seq<CommandK>, c: CommandK)
    ensures Run(bg, cmds + [c]) == Exec(Run(bg, cmds), bg, c)
  {
    hide Step;
    assert (cmds + [c])[..|cmds|] == cmds;
  }

  lemma RunOne(bg: Background, c: CommandK)
    ensures Run(bg, [c]) == Exec(Initial(), bg, c)
  {
    hide Run, Exec;
    RunNothing(bg);
    RunNext(bg, [], c);
    assert [] + [c] == [c];
  }
}
