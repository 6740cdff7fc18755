/**
  Identities, label lattices, frozen policies and records of the authorization kernel.

  Records that carry finite sets are generic in the representation of those sets: the wire
  commands and the Vec-backed kernel instantiate them with sequences, the abstract state machine
  with mathematical sets.
*/
module Types {

  newtype Byte = x: int | 0 <= x < 256

  /** Every opaque id is a UTF-8 string, that is, a byte sequence. */
  type Text = seq<Byte>

  type AgentId = Text
  type ToolId = Text
  type InvocationId = Text
  type ChallengeId = Text
  type AttestationId = Text
  type CrossingId = Text
  type AssignmentDigest = Text
  type PolicyDigest = Text
  type ContentHash = Text

  /** The bytes of "root". */
  const ROOT: AgentId := [114, 111, 111, 116]

  newtype U32 = x: int | 0 <= x < 0x1_0000_0000

  const U64_MAX: int := 0xFFFF_FFFF_FFFF_FFFF

  newtype U64 = x: int | 0 <= x <= U64_MAX

  datatype Option<+T> = None | Some(value: T)

  datatype Result<+T, +E> = Ok(value: T) | Err(error: E)

  datatype ConfLevel = Public | Internal | Sensitive | Restricted {
    function Rank(): nat {
      match this
      case Public => 0
      case Internal => 1
      case Sensitive => 2
      case Restricted => 3
    }

    predicate Le(other: ConfLevel) {
      Rank() <= other.Rank()
    }
  }

  datatype IntegLevel = Untrusted | Standard | Trusted | Attested {
    function Rank(): nat {
      match this
      case Untrusted => 0
      case Standard => 1
      case Trusted => 2
      case Attested => 3
    }

    predicate Le(other: IntegLevel) {
      Rank() <= other.Rank()
    }
  }

  datatype EgressKind = NetworkExternal | NetworkInternal | FilesystemWrite | Ipc

  datatype CapKind =
    | CapFilesystemRead | CapFilesystemWrite | CapFilesystemDelete
    | CapNetworkEgress | CapNetworkIngress
    | CapExecutionShell | CapExecutionCode
    | CapCredentials | CapSystemInfo | CapSystemModify
    | CapClipboard | CapBrowserNavigate
    | CapDatabaseRead | CapDatabaseWrite | CapIpc

  /** The fifteen capability kinds, in declaration order. */
  const ALL_CAPS: seq<CapKind> := [
    CapFilesystemRead, CapFilesystemWrite, CapFilesystemDelete, CapNetworkEgress, CapNetworkIngress,
    CapExecutionShell, CapExecutionCode, CapCredentials, CapSystemInfo, CapSystemModify,
    CapClipboard, CapBrowserNavigate, CapDatabaseRead, CapDatabaseWrite, CapIpc
  ]

  /** The canonical tag of a capability kind: its position in the vocabulary. */
  function CapTag(c: CapKind): (tag: Byte)
    ensures tag < 15 && ALL_CAPS[tag] == c
  {
    match c
    case CapFilesystemRead => 0
    case CapFilesystemWrite => 1
    case CapFilesystemDelete => 2
    case CapNetworkEgress => 3
    case CapNetworkIngress => 4
    case CapExecutionShell => 5
    case CapExecutionCode => 6
    case CapCredentials => 7
    case CapSystemInfo => 8
    case CapSystemModify => 9
    case CapClipboard => 10
    case CapBrowserNavigate => 11
    case CapDatabaseRead => 12
    case CapDatabaseWrite => 13
    case CapIpc => 14
  }

  datatype Verdict = Allow | InspectionRequired | Deny
  datatype Disposition = Permitted | Blocked | MonitorBypassed
  datatype Mode = Enforce | Monitor
  datatype Outcome = Success | Failure | Ambiguous
  datatype Fallback = FallbackFail | ReleaseUnendorsed
  datatype CrossBranch = Endorsed | Unendorsed | BranchFail
  datatype Admission = Plain | Inspected(attestation: AttestationId) | Bypassed

  datatype CrossingGrant = CrossingGrant(remaining: U32, provisioned: U32)
  datatype CrossingKey = CrossingKey(agent: AgentId, assignment: AssignmentDigest)

  /** The action policy frozen at admission. */
  datatype Policy<CapSet, EgressSet> = Policy(
    tool: ToolId,
    requiredCaps: CapSet,
    confClearance: ConfLevel,
    integFloor: IntegLevel,
    integInspect: IntegLevel,
    outputConf: ConfLevel,
    outputInteg: IntegLevel,
    declaredEgress: EgressSet,
    policyDigest: PolicyDigest)

  datatype Pending<CapSet, EgressSet> = Pending(
    agent: AgentId,
    policy: Policy<CapSet, EgressSet>,
    egress: EgressSet,
    admission: Admission,
    disposition: Disposition,
    authorized: bool,
    quarantined: bool)
  {
    predicate Contained() {
      disposition == Permitted
    }

    predicate Vouched() {
      admission.Inspected?
    }
  }

  datatype Scope<CapSet, EgressSet> = Scope(
    challenge: ChallengeId,
    agent: AgentId,
    policy: Policy<CapSet, EgressSet>,
    egress: EgressSet,
    argsHash: ContentHash,
    authorized: bool)

  datatype ResolutionAttestation = ResolutionAttestation(id: AttestationId, inv: InvocationId, outcome: Outcome)

  datatype InspectionAttestation = InspectionAttestation(
    id: AttestationId,
    inv: InvocationId,
    challenge: ChallengeId,
    argsHash: ContentHash,
    policyDigest: PolicyDigest,
    positive: bool)

  datatype ConformanceAttestation = ConformanceAttestation(
    id: AttestationId,
    output: ContentHash,
    src: AgentId,
    rcv: AgentId,
    descriptor: ContentHash,
    assignment: AssignmentDigest,
    positive: bool)

  datatype CrossInput = CrossInput(
    src: AgentId,
    rcv: AgentId,
    crossing: CrossingId,
    outputHash: ContentHash,
    descriptor: ContentHash,
    fallback: Fallback,
    tInteg: IntegLevel,
    tConf: Option<ConfLevel>,
    assignment: AssignmentDigest,
    evidence: Option<ConformanceAttestation>,
    releasedConf: ConfLevel,
    releasedInteg: IntegLevel)

  datatype Command<CapSet, EgressSet> =
    | RegisterTool(tool: ToolId)
    | UnregisterTool(tool: ToolId)
    | Delegate(grantor: AgentId, grantee: AgentId)
    | GrantCapability(parent: AgentId, child: AgentId, cap: CapKind)
    | GrantCrossing(grantor: AgentId, agent: AgentId, assignment: AssignmentDigest, n: U32)
    | Revoke(parent: AgentId, target: AgentId)
    | CascadeRevoke(child: AgentId, parent: AgentId)
    | Ingest(agent: AgentId, src: Option<AgentId>, pconf: ConfLevel, pinteg: IntegLevel)
    | BeginInvocation(agent: AgentId, inv: InvocationId, challenge: ChallengeId,
                      policy: Policy<CapSet, EgressSet>, egress: EgressSet,
                      argsHash: ContentHash, authorized: bool)
    | AuthorizeInspected(inv: InvocationId, attestation: InspectionAttestation)
    | SettleInvocation(inv: InvocationId, outcome: Outcome, resolution: Option<ResolutionAttestation>)
    | CrossOutput(input: CrossInput)

  datatype Action =
    | RegisteredTool(tool: ToolId)
    | UnregisteredTool(tool: ToolId)
    | Delegated(grantor: AgentId, grantee: AgentId)
    | GrantedCapability(parent: AgentId, child: AgentId, cap: CapKind)
    | GrantedCrossing(grantor: AgentId, agent: AgentId, assignment: AssignmentDigest, n: U32)
    | Revoked(parent: AgentId, target: AgentId)
    | CascadeRevoked(child: AgentId, parent: AgentId)
    | Ingested(agent: AgentId, provenance: Option<AgentId>, pconf: ConfLevel, pinteg: IntegLevel,
               disposition: Disposition)
    | BeganInvocation(agent: AgentId, inv: InvocationId, tool: ToolId, verdict: Verdict, authorized: bool)
    | AuthorizedInspected(inv: InvocationId, attestation: AttestationId, admitted: bool)
    | SettledInvocation(inv: InvocationId, agent: AgentId, disposition: Disposition, outcome: Outcome,
                        clvl: ConfLevel, ilvl: IntegLevel, resolution: Option<AttestationId>)
    | CrossedOutput(src: AgentId, rcv: AgentId, crossing: CrossingId, branch: CrossBranch,
                    disposition: Disposition)

  datatype KernelError =
    | ToolAlreadyRegistered | ToolNotRegistered | ToolInUse
    | AgentInactive | AgentAlreadyActive | RootNotAllowed | NotDirectChild | ParentStillActive
    | AgentHasChildren | CapabilityMissing | NotRoot
    | InvocationExists | InvocationReplayed | NotPending
    | EgressNotNarrowing | EgressNotCovering | IncoherentPolicy | ChallengeAlreadyOpen
    | ClearanceDenied | FlowGateBlocked | AuthorizerDenied | IntegrityFloorDenied
    | ChallengeNotOpen | ChallengeScopeMismatch | AttestationConsumed
    | BlockedPending | NotQuarantined | QuarantineResolutionRequired | ResolutionAttestationInvalid
    | IngestHoldFailed | ProvenanceNotDominated
    | CrossingReplayed | SourceInFlight | CrossingBoundViolated | CrossingHoldFailed

  /** The refusals of the chained instance. */
  datatype Error =
    | KernelRefusal(cause: KernelError)
    | CapacityExceeded
    | SequenceExhausted
    | InvalidVersion
    | SequenceMismatch
    | PreviousDigestMismatch
    | ActionMismatch
    | DigestMismatch
    | ReplayRefused(reason: KernelError)
    | RecoveryConsumed
    | FinalAnchorMismatch

  /** The answer of a check that yields no value. */
  datatype Check = Pass | Fail(error: Error) {
    predicate IsFailure() {
      Fail?
    }

    function PropagateFailure(): Check {
      this
    }
  }

  /** Immutable background: two optional confidentiality ceilings per egress kind, the enforcement
      mode and the root identity. */
  datatype Background = Background(
    allowCeiling: map<EgressKind, ConfLevel>,
    inspectCeiling: map<EgressKind, ConfLevel>,
    mode: Mode,
    rootAgent: AgentId)
  {
    predicate FlowAllows(level: ConfLevel, egress: EgressKind) {
      egress in allowCeiling && level.Le(allowCeiling[egress])
    }

    predicate FlowInspects(level: ConfLevel, egress: EgressKind) {
      egress in inspectCeiling && level.Le(inspectCeiling[egress])
    }
  }

  /** Every text of a command. */
  function CommandTexts<C, E>(c: Command<C, E>): seq<Text> {
    match c
    case RegisterTool(tool) => [tool]
    case UnregisterTool(tool) => [tool]
    case Delegate(grantor, grantee) => [grantor, grantee]
    case GrantCapability(parent, child, _) => [parent, child]
    case GrantCrossing(grantor, agent, assignment, _) => [grantor, agent, assignment]
    case Revoke(parent, target) => [parent, target]
    case CascadeRevoke(child, parent) => [child, parent]
    case Ingest(agent, src, _, _) => [agent] + (if src.Some? then [src.value] else [])
    case BeginInvocation(agent, inv, chal, policy, _, ah, _) =>
      [agent, inv, chal, policy.tool, policy.policyDigest, ah]
    case AuthorizeInspected(inv, att) =>
      [inv, att.id, att.inv, att.challenge, att.argsHash, att.policyDigest]
    case SettleInvocation(inv, _, res) => [inv] + (if res.Some? then [res.value.id, res.value.inv] else [])
    case CrossOutput(q) =>
      [q.src, q.rcv, q.crossing, q.outputHash, q.descriptor, q.assignment]
      + (if q.evidence.Some? then EvidenceTexts(q.evidence.value) else [])
  }

  function EvidenceTexts(e: ConformanceAttestation): seq<Text> {
    [e.id, e.output, e.src, e.rcv, e.descriptor, e.assignment]
  }

  /** Every text of an action. */
  function ActionTexts(a: Action): seq<Text> {
    match a
    case RegisteredTool(tool) => [tool]
    case UnregisteredTool(tool) => [tool]
    case Delegated(grantor, grantee) => [grantor, grantee]
    case GrantedCapability(parent, child, _) => [parent, child]
    case GrantedCrossing(grantor, agent, assignment, _) => [grantor, agent, assignment]
    case Revoked(parent, target) => [parent, target]
    case CascadeRevoked(child, parent) => [child, parent]
    case Ingested(agent, src, _, _, _) => [agent] + (if src.Some? then [src.value] else [])
    case BeganInvocation(agent, inv, tool, _, _) => [agent, inv, tool]
    case AuthorizedInspected(inv, id, _) => [inv, id]
    case SettledInvocation(inv, agent, _, _, _, _, res) => [inv, agent] + (if res.Some? then [res.value] else [])
    case CrossedOutput(src, rcv, crossing, _, _) => [src, rcv, crossing]
  }

  // The two instances of the set-carrying records.
  type PolicyK = Policy<set<CapKind>, set<EgressKind>>
  type PendingK = Pending<set<CapKind>, set<EgressKind>>
  type ScopeK = Scope<set<CapKind>, set<EgressKind>>
  type CommandK = Command<set<CapKind>, set<EgressKind>>
  type PolicyV = Policy<seq<CapKind>, seq<EgressKind>>
  type PendingV = Pending<seq<CapKind>, seq<EgressKind>>
  type ScopeV = Scope<seq<CapKind>, seq<EgressKind>>
  type CommandV = Command<seq<CapKind>, seq<EgressKind>>
}
