/**
  Which error a refused command reports: the rules of each command in their order, in the terms of the
  protocol, and the fact that a command is accepted exactly if no rule is broken, and otherwise
  reports the first broken one. The same for the commands, links and anchors of an instance.
*/
module Refusals {
  import opened Types
  import opened Spec
  import opened Refinement
  import opened History
  import opened Chain
  import opened HashChains
  import Capacity
  import P = Protocol
  import T = Transitions

  datatype Rule<E> = Rule(holds: bool, error: E)

  predicate AllHold<E>(rules: seq<Rule<E>>) {
    forall k | 0 <= k < |rules| :: rules[k].holds
  }

  /** The first broken rule. */
  predicate BrokenAt<E>(rules: seq<Rule<E>>, k: int) {
    0 <= k < |rules| && !rules[k].holds && forall j | 0 <= j < k :: rules[j].holds
  }

  lemma FirstBroken<E>(rules: seq<Rule<E>>) returns (k: nat)
    ensures k <= |rules|
    ensures if k == |rules| then AllHold(rules) else BrokenAt(rules, k)
  {
    k := 0;
    while k < |rules| && rules[k].holds
      invariant k <= |rules| && forall j | 0 <= j < k :: rules[j].holds
    {
      k := k + 1;
    }
  }

  // ---- The rules of the twelve commands ----

  ghost function IngestRules(s: State, bg: Background, a: AgentId, src: Option<AgentId>, pconf: ConfLevel, pinteg: IntegLevel)
    : seq<Rule<KernelError>>
  {
    [ Rule(P.Active(s, a), AgentInactive),
      Rule(src.Some? ==> (forall l | P.Taint(s, src.value, l) :: P.LeConf(l, pconf))
                         && (forall l | P.Integ(s, src.value, l) :: P.LeInteg(pinteg, l)), ProvenanceNotDominated),
      Rule(bg.mode == Monitor || P.IngestHolds(s, bg, a, pconf, pinteg), IngestHoldFailed) ]
  }

  /** The structural rules of an admission. */
  ghost function BeginStructureRules(s: State, bg: Background, a: AgentId, inv: InvocationId, p: PolicyK, egress: set<EgressKind>)
    : seq<Rule<KernelError>>
  {
    [ Rule(P.Active(s, a), AgentInactive),
      Rule(a != bg.rootAgent, RootNotAllowed),
      Rule(P.Tool(s, p.tool), ToolNotRegistered),
      Rule(P.LeInteg(p.integInspect, p.integFloor), IncoherentPolicy),
      Rule(P.Record(s, inv).None?, InvocationExists),
      Rule(!P.UsedInvocation(s, inv), InvocationReplayed),
      Rule(P.Challenge(s, inv).None?, ChallengeAlreadyOpen),
      Rule(egress <= p.declaredEgress, EgressNotNarrowing),
      Rule(P.EgressCovered(p.declaredEgress, egress), EgressNotCovering) ]
  }

  /** Under enforce mode the admissible gate, from the least to the most specific check. */
  ghost function BeginGateRules(s: State, bg: Background, a: AgentId, p: PolicyK, egress: set<EgressKind>, authorized: bool)
    : seq<Rule<KernelError>>
  {
    [ Rule(bg.mode == Monitor || P.CheckCapability(s, a, p), CapabilityMissing),
      Rule(bg.mode == Monitor || authorized, AuthorizerDenied),
      Rule(bg.mode == Monitor || P.CheckClearance(s, a, p), ClearanceDenied),
      Rule(bg.mode == Monitor || P.CheckFlowAdmissible(s, bg, a, p, egress), FlowGateBlocked),
      Rule(bg.mode == Monitor || P.CheckIntegAdmissible(s, a, p), IntegrityFloorDenied) ]
  }

  ghost function AuthorizeRules(s: State, inv: InvocationId, att: InspectionAttestation): seq<Rule<KernelError>> {
    var o := P.Challenge(s, inv);
    [ Rule(o.Some?, ChallengeNotOpen),
      Rule(o.Some? ==> && att.inv == inv && att.challenge == o.value.challenge && att.argsHash == o.value.argsHash
                       && att.policyDigest == o.value.policy.policyDigest, ChallengeScopeMismatch),
      Rule(!P.UsedAttestation(s, att.id), AttestationConsumed) ]
  }

  ghost function SettleRules(s: State, inv: InvocationId, outcome: Outcome, att: Option<ResolutionAttestation>): seq<Rule<KernelError>> {
    var o := P.Record(s, inv);
    [ Rule(o.Some?, NotPending),
      Rule(o.Some? ==> P.Active(s, o.value.agent), AgentInactive),
      Rule(o.Some? ==> o.value.disposition != Blocked, BlockedPending),
      Rule(o.Some? && o.value.quarantined ==> outcome != Ambiguous, QuarantineResolutionRequired),
      Rule(o.Some? && o.value.quarantined ==>
             att.Some? && att.value.inv == inv && att.value.outcome == outcome && !P.UsedAttestation(s, att.value.id),
           ResolutionAttestationInvalid),
      Rule(o.Some? && !o.value.quarantined ==> att.None?, NotQuarantined) ]
  }

  /** The branch that the evidence, the grant and the fallback select. */
  ghost function BranchFor(s: State, q: CrossInput): CrossBranch {
    if P.EndorsedOk(s, q) then Endorsed else if q.fallback == ReleaseUnendorsed then Unendorsed else BranchFail
  }

  ghost function CrossRules(s: State, bg: Background, q: CrossInput): seq<Rule<KernelError>> {
    [ Rule(P.Active(s, q.src) && P.Active(s, q.rcv), AgentInactive),
      Rule(forall i | P.Record(s, i).Some? :: P.Record(s, i).value.agent != q.src, SourceInFlight),
      Rule(!P.UsedCrossing(s, q.crossing), CrossingReplayed),
      Rule(P.EndorsedOk(s, q) ==> P.EndorsedBounds(s, q), CrossingBoundViolated),
      Rule(bg.mode == Monitor || P.CrossHolds(s, bg, q, BranchFor(s, q)), CrossingHoldFailed) ]
  }

  ghost function Rules(s: State, bg: Background, c: CommandK): seq<Rule<KernelError>> {
    match c
    case RegisterTool(tool) => [Rule(!P.Tool(s, tool), ToolAlreadyRegistered)]
    case UnregisterTool(tool) => [Rule(P.Tool(s, tool), ToolNotRegistered), Rule(P.ToolUnused(s, tool), ToolInUse)]
    case Delegate(grantor, grantee) =>
      [ Rule(P.Active(s, grantor), AgentInactive),
        Rule(!P.Active(s, grantee), AgentAlreadyActive),
        Rule(grantee != bg.rootAgent, RootNotAllowed),
        Rule(forall child :: !P.Parent(s, child, grantee), AgentHasChildren) ]
    case GrantCapability(parent, child, cap) =>
      [ Rule(P.Active(s, parent) && P.Active(s, child), AgentInactive),
        Rule(P.Parent(s, child, parent), NotDirectChild),
        Rule(P.Cap(s, parent, cap), CapabilityMissing) ]
    case GrantCrossing(grantor, agent, _, _) =>
      [Rule(grantor == bg.rootAgent, NotRoot), Rule(P.Active(s, grantor) && P.Active(s, agent), AgentInactive)]
    case Revoke(parent, target) =>
      [ Rule(P.Parent(s, target, parent), NotDirectChild),
        Rule(P.Active(s, parent) && P.Active(s, target), AgentInactive),
        Rule(target != bg.rootAgent, RootNotAllowed) ]
    case CascadeRevoke(child, parent) =>
      [ Rule(P.Parent(s, child, parent), NotDirectChild),
        Rule(!P.Active(s, parent), ParentStillActive),
        Rule(P.Active(s, child), AgentInactive),
        Rule(child != bg.rootAgent, RootNotAllowed) ]
    case Ingest(agent, src, pconf, pinteg) => IngestRules(s, bg, agent, src, pconf, pinteg)
    case BeginInvocation(agent, inv, _, policy, egress, _, authorized) =>
      BeginStructureRules(s, bg, agent, inv, policy, egress) + BeginGateRules(s, bg, agent, policy, egress, authorized)
    case AuthorizeInspected(inv, att) => AuthorizeRules(s, inv, att)
    case SettleInvocation(inv, outcome, att) => SettleRules(s, inv, outcome, att)
    case CrossOutput(q) => CrossRules(s, bg, q)
  }

  // ---- The machine obeys its rules ----

  /** The result that the first broken rule calls for. */
  predicate Obeys(r: StepResult, rules: seq<Rule<KernelError>>, k: nat) {
    if k < |rules| then r == Refused(rules[k].error) else r.Accepted?
  }

  ghost predicate Breaks<E>(rules: seq<Rule<E>>, k: nat) {
    k <= |rules| && (forall j | 0 <= j < k :: rules[j].holds) && (k < |rules| ==> !rules[k].holds)
  }

  /** What is known of the rule `n`. */
  lemma At<E>(rules: seq<Rule<E>>, k: nat, n: nat)
    requires Breaks(rules, k) && n < |rules|
    ensures k <= |rules| && (k > n ==> rules[n].holds) && (k == n ==> !rules[n].holds)
  {
  }

  /** What is known of the first four rules. */
  lemma AtFirst<E>(rules: seq<Rule<E>>, k: nat)
    requires Breaks(rules, k)
    ensures k <= |rules|
    ensures |rules| > 0 ==> (k > 0 ==> rules[0].holds) && (k == 0 ==> !rules[0].holds)
    ensures |rules| > 1 ==> (k > 1 ==> rules[1].holds) && (k == 1 ==> !rules[1].holds)
    ensures |rules| > 2 ==> (k > 2 ==> rules[2].holds) && (k == 2 ==> !rules[2].holds)
    ensures |rules| > 3 ==> (k > 3 ==> rules[3].holds) && (k == 3 ==> !rules[3].holds)
  {
  }

  lemma StructureObeys(s: State, bg: Background, c: CommandK, k: nat)
    requires IsStructural(c) && Breaks(Rules(s, bg, c), k)
    ensures Obeys(Step(s, bg, c), Rules(s, bg, c), k)
  {
    hide ToolInUseBy, P.ToolUnused, IsParent, Clear, Extend, BeginStep, AuthorizeStep, SettleStep, CrossStep, IngestStep;
    AtFirst(Rules(s, bg, c), k);
    if c.UnregisterTool? {
      ToolsAgree(s, c.tool);
    }
    if c.Delegate? {
      ParentsAgree(s, c.grantee);
    }
  }

  lemma IngestObeys(s: State, bg: Background, a: AgentId, src: Option<AgentId>, pconf: ConfLevel, pinteg: IntegLevel, k: nat)
    requires Breaks(IngestRules(s, bg, a, src, pconf, pinteg), k)
    ensures Obeys(IngestStep(s, bg, a, src, pconf, pinteg), IngestRules(s, bg, a, src, pconf, pinteg), k)
  {
    hide Holds, P.IngestHolds, Dominates, Release, P.Taint, P.Integ, P.LeConf, P.LeInteg;
    AtFirst(IngestRules(s, bg, a, src, pconf, pinteg), k);
    HoldsAgree(s, bg, a, pconf, pinteg);
    if src.Some? {
      DominatesAgrees(s, src.value, pconf, pinteg);
    }
  }

  lemma DenialObeys(s: State, bg: Background, a: AgentId, p: PolicyK, egress: set<EgressKind>, authorized: bool, k: nat)
    requires Breaks(BeginGateRules(s, bg, a, p, egress, authorized), k)
    ensures var v := VerdictOf(s, bg, a, p, egress, authorized);
            && (k < 5 <==> v == Deny && bg.mode == Enforce)
            && (k < 5 ==> DenialOf(s, bg, a, p, egress, authorized) == BeginGateRules(s, bg, a, p, egress, authorized)[k].error)
  {
    hide CheckCapability, P.CheckCapability, CheckClearance, P.CheckClearance, CheckFlow, P.CheckFlowStrict, P.CheckFlowAdmissible,
         CheckInteg, P.CheckIntegStrict, P.CheckIntegAdmissible;
    AtFirst(BeginGateRules(s, bg, a, p, egress, authorized), k);
    At(BeginGateRules(s, bg, a, p, egress, authorized), k, 4);
    CapabilityAgrees(s, a, p);
    ClearanceAgrees(s, a, p);
    FlowAgrees(s, bg, a, p, egress);
    IntegAgrees(s, a, p);
    GatesAgree(s, bg, a, p, egress, authorized);
    AllowIsAdmissible(s, bg, a, p, egress, authorized);
  }

  lemma BeginObeys(s: State, bg: Background, a: AgentId, inv: InvocationId, chal: ChallengeId, p: PolicyK,
                   egress: set<EgressKind>, ah: ContentHash, authorized: bool, k: nat)
    requires Breaks(BeginStructureRules(s, bg, a, inv, p, egress) + BeginGateRules(s, bg, a, p, egress, authorized), k)
    ensures Obeys(BeginStep(s, bg, a, inv, chal, p, egress, ah, authorized),
                  BeginStructureRules(s, bg, a, inv, p, egress) + BeginGateRules(s, bg, a, p, egress, authorized), k)
  {
    hide BeginStep, BeginStructureRules, BeginGateRules, DenialOf, VerdictOf;
    var first, gate := BeginStructureRules(s, bg, a, inv, p, egress), BeginGateRules(s, bg, a, p, egress, authorized);
    RuleCounts(s, bg, a, inv, p, egress, authorized);
    if k < 9 {
      assert forall j | 0 <= j < 9 :: (first + gate)[j] == first[j];
      BeginStructureObeys(s, bg, a, inv, chal, p, egress, ah, authorized, k);
    } else {
      assert forall j | 0 <= j < 9 :: (first + gate)[j] == first[j];
      assert forall j | 0 <= j < 5 :: gate[j] == (first + gate)[9 + j];
      BeginStructureObeys(s, bg, a, inv, chal, p, egress, ah, authorized, 9);
      DenialObeys(s, bg, a, p, egress, authorized, k - 9);
    }
  }

  /** The structural rules decide first; past them the verdict does. */
  lemma BeginStructureObeys(s: State, bg: Background, a: AgentId, inv: InvocationId, chal: ChallengeId, p: PolicyK,
                            egress: set<EgressKind>, ah: ContentHash, authorized: bool, k: nat)
    requires Breaks(BeginStructureRules(s, bg, a, inv, p, egress), k)
    ensures var r := BeginStep(s, bg, a, inv, chal, p, egress, ah, authorized); var rules := BeginStructureRules(s, bg, a, inv, p, egress);
            if k < |rules| then r == Refused(rules[k].error)
            else if VerdictOf(s, bg, a, p, egress, authorized) == Deny && bg.mode == Enforce
            then r == Refused(DenialOf(s, bg, a, p, egress, authorized))
            else r.Accepted?
  {
    hide VerdictOf, DenialOf, BeginNext, Spec.EgressCovers, P.EgressCovered;
    var rules := BeginStructureRules(s, bg, a, inv, p, egress);
    CoversAgrees(p.declaredEgress, egress);
    AtFirst(rules, k);
    At(rules, k, 4);
    At(rules, k, 5);
    At(rules, k, 6);
    At(rules, k, 7);
    At(rules, k, 8);
  }

  lemma RuleCounts(s: State, bg: Background, a: AgentId, inv: InvocationId, p: PolicyK, egress: set<EgressKind>, authorized: bool)
    ensures |BeginStructureRules(s, bg, a, inv, p, egress)| == 9
    ensures |BeginGateRules(s, bg, a, p, egress, authorized)| == 5
  {
    hide P.CheckCapability, P.CheckClearance, P.CheckFlowAdmissible, P.CheckIntegAdmissible;
  }

  lemma AuthorizeObeys(s: State, bg: Background, inv: InvocationId, att: InspectionAttestation, k: nat)
    requires Breaks(AuthorizeRules(s, inv, att), k)
    ensures Obeys(AuthorizeStep(s, bg, inv, att), AuthorizeRules(s, inv, att), k)
  {
    hide Spec.AuthorizeAdmits;
    AtFirst(AuthorizeRules(s, inv, att), k);
  }

  lemma SettleObeys(s: State, inv: InvocationId, outcome: Outcome, att: Option<ResolutionAttestation>, k: nat)
    requires Breaks(SettleRules(s, inv, outcome, att), k)
    ensures Obeys(SettleStep(s, inv, outcome, att), SettleRules(s, inv, outcome, att), k)
  {
    hide Extend, Demote;
    AtFirst(SettleRules(s, inv, outcome, att), k);
    At(SettleRules(s, inv, outcome, att), k, 4);
    At(SettleRules(s, inv, outcome, att), k, 5);
  }

  lemma CrossObeys(s: State, bg: Background, q: CrossInput, k: nat)
    requires Breaks(CrossRules(s, bg, q), k)
    ensures Obeys(CrossStep(s, bg, q), CrossRules(s, bg, q), k)
  {
    hide Spec.EndorsedOk, P.EndorsedOk, WithinBounds, P.EndorsedBounds, Holds, P.CrossHolds, Release, SpendGrant, ReleasedConfs,
         ReleasedIntegs, InFlight;
    AtFirst(CrossRules(s, bg, q), k);
    At(CrossRules(s, bg, q), k, 4);
    EndorsedAgrees(s, q);
    BoundsAgree(s, q);
    CrossHoldsAgree(s, bg, q);
    InFlightAgrees(s, q.src);
  }

  lemma StepObeys(s: State, bg: Background, c: CommandK, k: nat)
    requires Breaks(Rules(s, bg, c), k)
    ensures Obeys(Step(s, bg, c), Rules(s, bg, c), k)
  {
    hide Breaks, Obeys, BeginStep, AuthorizeStep, SettleStep, CrossStep, IngestStep, IngestRules, BeginStructureRules, BeginGateRules,
         AuthorizeRules, SettleRules, CrossRules;
    match c
    case Ingest(agent, src, pconf, pinteg) => IngestObeys(s, bg, agent, src, pconf, pinteg, k);
    case BeginInvocation(agent, inv, chal, policy, egress, ah, authorized) =>
      BeginObeys(s, bg, agent, inv, chal, policy, egress, ah, authorized, k);
    case AuthorizeInspected(inv, att) => AuthorizeObeys(s, bg, inv, att, k);
    case SettleInvocation(inv, outcome, att) => SettleObeys(s, inv, outcome, att, k);
    case CrossOutput(q) => CrossObeys(s, bg, q, k);
    case _ => StructureObeys(s, bg, c, k);
  }

  lemma OneBreak<E>(rules: seq<Rule<E>>, k: nat, n: nat)
    requires Breaks(rules, k) && Breaks(rules, n)
    ensures k == n
  {
  }

  /** A command is accepted exactly if no rule is broken, and reports an error exactly if that is the error of
      the first broken rule. */
  lemma RefusedExactly(s: State, bg: Background, c: CommandK, e: KernelError)
    ensures Step(s, bg, c).Accepted? <==> AllHold(Rules(s, bg, c))
    ensures Step(s, bg, c) == Refused(e) <==> exists k :: BrokenAt(Rules(s, bg, c), k) && Rules(s, bg, c)[k].error == e
  {
    hide Step, Rules;
    var rules := Rules(s, bg, c);
    var k := FirstBroken(rules);
    StepObeys(s, bg, c, k);
    if n :| BrokenAt(rules, n) && rules[n].error == e {
      OneBreak(rules, k, n);
    }
  }

  // ---- The rules of an instance ----

  /** A live command: sequence, then capacity, then the kernel. */
  ghost function ApplyRules(bg: Background, current: Replica, c: CommandV): seq<Rule<Error>> {
    var r := Step(current.kernel, bg, T.CommandOf(c));
    [ Rule(current.sequence < 100_000, SequenceExhausted),
      Rule(Capacity.StateOk(current.kernel) && Capacity.CommandFits(c) && Capacity.PostFits(current.kernel, c), CapacityExceeded),
      Rule(r.Accepted?, if r.Refused? then KernelRefusal(r.error) else CapacityExceeded) ]
  }

  lemma ApplyRefusedExactly(hash: Hash, bg: Background, current: Replica, c: CommandV, e: Error)
    ensures ApplyStep(hash, bg, current, c).Ok? <==> AllHold(ApplyRules(bg, current, c))
    ensures ApplyStep(hash, bg, current, c) == Err(e)
       <==> exists k :: BrokenAt(ApplyRules(bg, current, c), k) && ApplyRules(bg, current, c)[k].error == e
  {
    hide Capacity.StateOk, Capacity.CommandFits, Capacity.PostFits, Step, Seal;
    var rules := ApplyRules(bg, current, c);
    var k := FirstBroken(rules);
    ApplyObeys(hash, bg, current, c, k);
    if n :| BrokenAt(rules, n) && rules[n].error == e {
      OneBreak(rules, k, n);
    }
  }

  lemma ApplyObeys(hash: Hash, bg: Background, current: Replica, c: CommandV, k: nat)
    requires Breaks(ApplyRules(bg, current, c), k)
    ensures var rules := ApplyRules(bg, current, c); var r := ApplyStep(hash, bg, current, c);
            if k < |rules| then r == Err(rules[k].error) else r.Ok?
  {
    hide Capacity.StateOk, Capacity.CommandFits, Capacity.PostFits, Step, Seal;
    AtFirst(ApplyRules(bg, current, c), k);
  }

  /** A recorded link: the state, the sequence, then its header, the command and what the command yields. */
  ghost function ReplayRules(hash: Hash, bg: Background, current: Replica, recorded: Envelope): seq<Rule<Error>> {
    var c := T.CommandOf(recorded.command);
    var r := Step(current.kernel, bg, c);
    [ Rule(Capacity.StateOk(current.kernel), CapacityExceeded),
      Rule(current.sequence < 100_000, SequenceExhausted),
      Rule(recorded.version == 5, InvalidVersion),
      Rule(recorded.sequence as int == current.sequence as int + 1, SequenceMismatch),
      Rule(recorded.previous == current.head, PreviousDigestMismatch),
      Rule(Capacity.CommandFits(recorded.command) && Capacity.PostFits(current.kernel, recorded.command), CapacityExceeded),
      Rule(r.Accepted?, if r.Refused? then ReplayRefused(r.error) else ActionMismatch),
      Rule(r.Accepted? ==> recorded.action == r.action, ActionMismatch),
      Rule(r.Accepted? ==> recorded.digest == hash(LinkTranscript(current.head, recorded.sequence, c, r.action)), DigestMismatch) ]
  }

  lemma ReplayObeys(hash: Hash, bg: Background, current: Replica, recorded: Envelope, k: nat)
    requires Breaks(ReplayRules(hash, bg, current, recorded), k)
    ensures var rules := ReplayRules(hash, bg, current, recorded); var r := ReplayStep(hash, bg, current, recorded);
            if k < |rules| then r == Err(rules[k].error) else r.Ok?
  {
    hide Capacity.StateOk, Capacity.CommandFits, Capacity.PostFits, Step, LinkTranscript;
    var rules := ReplayRules(hash, bg, current, recorded);
    AtFirst(rules, k);
    At(rules, k, 4);
    At(rules, k, 5);
    At(rules, k, 6);
    At(rules, k, 7);
    At(rules, k, 8);
  }

  /** A link is accepted exactly if no rule is broken, and otherwise reports the first broken one. */
  lemma ReplayRefusedExactly(hash: Hash, bg: Background, current: Replica, recorded: Envelope, e: Error)
    ensures ReplayStep(hash, bg, current, recorded).Ok? <==> AllHold(ReplayRules(hash, bg, current, recorded))
    ensures var rules := ReplayRules(hash, bg, current, recorded);
            ReplayStep(hash, bg, current, recorded) == Err(e) <==> exists k :: BrokenAt(rules, k) && rules[k].error == e
  {
    hide ReplayRules, ReplayStep;
    var rules := ReplayRules(hash, bg, current, recorded);
    var k := FirstBroken(rules);
    ReplayObeys(hash, bg, current, recorded, k);
    if n :| BrokenAt(rules, n) && rules[n].error == e {
      OneBreak(rules, k, n);
    }
  }

  /** An anchor of another version is reported first, then one of another history. */
  lemma FinalizeRefusedExactly(current: Replica, expected: Anchor)
    ensures FinalizeStep(current, expected) == Fail(InvalidVersion) <==> expected.version != 5
    ensures FinalizeStep(current, expected) == Fail(FinalAnchorMismatch)
       <==> expected.version == 5 && (expected.sequence != current.sequence || expected.head != current.head)
    ensures FinalizeStep(current, expected).Pass?
       <==> expected.version == 5 && expected.sequence == current.sequence && expected.head == current.head
  {
  }
}
