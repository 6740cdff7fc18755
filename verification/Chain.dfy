/**
  The canonical transcript of the hash chain: every field of a background, a command and an action as
  tokens, the writer that puts them on a sink, and the proof that a transcript determines what was
  written, up to order and duplicates in the three set-valued fields.
*/
module Chain {
  import opened Types
  import opened Collections
  import opened Kernel
  import opened Transitions
  import opened Encoding
  import opened HashChains

  const VERSION: U32 := 5

  /** The bytes of "EXARGUS", NUL, "GENESIS", NUL. */
  const GENESIS_DOMAIN: seq<Byte> := [69, 88, 65, 82, 71, 85, 83, 0, 71, 69, 78, 69, 83, 73, 83, 0]

  /** The bytes of "EXARGUS", NUL, "ENVELOPE", NUL. */
  const ENVELOPE_DOMAIN: seq<Byte> := [69, 88, 65, 82, 71, 85, 83, 0, 69, 78, 86, 69, 76, 79, 80, 69, 0]

  // ---- Canonical tags ----

  function ConfTag(l: ConfLevel): Byte { l.Rank() as Byte }

  function IntegTag(l: IntegLevel): Byte { l.Rank() as Byte }

  function EgressTag(e: EgressKind): Byte {
    match e
    case NetworkExternal => 0
    case NetworkInternal => 1
    case FilesystemWrite => 2
    case Ipc => 3
  }

  function VerdictTag(v: Verdict): Byte {
    match v
    case Allow => 0
    case InspectionRequired => 1
    case Deny => 2
  }

  function DispositionTag(d: Disposition): Byte {
    match d
    case Permitted => 0
    case Blocked => 1
    case MonitorBypassed => 2
  }

  function ModeTag(m: Mode): Byte {
    match m
    case Enforce => 0
    case Monitor => 1
  }

  function OutcomeTag(o: Outcome): Byte {
    match o
    case Success => 0
    case Failure => 1
    case Ambiguous => 2
  }

  function FallbackTag(f: Fallback): Byte {
    match f
    case FallbackFail => 0
    case ReleaseUnendorsed => 1
  }

  function BranchTag(b: CrossBranch): Byte {
    match b
    case Endorsed => 0
    case Unendorsed => 1
    case BranchFail => 2
  }

  function BoolTag(b: bool): Byte { if b then 1 else 0 }

  function CommandTag<C, E>(c: Command<C, E>): (tag: Byte)
    ensures tag < 12
  {
    match c
    case RegisterTool(_) => 0
    case UnregisterTool(_) => 1
    case Delegate(_, _) => 2
    case GrantCapability(_, _, _) => 3
    case GrantCrossing(_, _, _, _) => 4
    case Revoke(_, _) => 5
    case CascadeRevoke(_, _) => 6
    case Ingest(_, _, _, _) => 7
    case BeginInvocation(_, _, _, _, _, _, _) => 8
    case AuthorizeInspected(_, _) => 9
    case SettleInvocation(_, _, _) => 10
    case CrossOutput(_) => 11
  }

  function ActionTag(a: Action): (tag: Byte)
    ensures tag < 12
  {
    match a
    case RegisteredTool(_) => 0
    case UnregisteredTool(_) => 1
    case Delegated(_, _) => 2
    case GrantedCapability(_, _, _) => 3
    case GrantedCrossing(_, _, _, _) => 4
    case Revoked(_, _) => 5
    case CascadeRevoked(_, _) => 6
    case Ingested(_, _, _, _, _) => 7
    case BeganInvocation(_, _, _, _, _) => 8
    case AuthorizedInspected(_, _, _) => 9
    case SettledInvocation(_, _, _, _, _, _, _) => 10
    case CrossedOutput(_, _, _, _, _) => 11
  }

  ghost function CapTags(s: set<CapKind>): set<Byte> {
    set c | c in s :: CapTag(c)
  }

  ghost function EgressTags(s: set<EgressKind>): set<Byte> {
    set e | e in s :: EgressTag(e)
  }

  // ---- Tokens ----

  /** Consecutive texts. */
  function Texts(ts: seq<Text>): (r: seq<Token>)
    ensures |r| == |ts| && forall i | 0 <= i < |ts| :: r[i] == Str(ts[i])
  {
    seq(|ts|, i requires 0 <= i < |ts| => Str(ts[i]))
  }

  /** Consecutive single bytes: enumeration tags and Booleans. */
  function Tags(bs: seq<Byte>): (r: seq<Token>)
    ensures |r| == |bs| && forall i | 0 <= i < |bs| :: r[i] == Raw([bs[i]])
  {
    seq(|bs|, i requires 0 <= i < |bs| => Raw([bs[i]]))
  }

  function Number(n: U32): seq<Token> {
    [Raw(BigEndian(n as nat, 4))]
  }

  function OptionalTag(o: Option<Byte>): seq<Token> {
    match o
    case None => Tags([0])
    case Some(tag) => Tags([1]) + Tags([tag])
  }

  function OptionalText(o: Option<Text>): seq<Token> {
    match o
    case None => Tags([0])
    case Some(t) => Tags([1]) + Texts([t])
  }

  function OptionalResolution(o: Option<ResolutionAttestation>): seq<Token> {
    match o
    case None => Tags([0])
    case Some(r) => Tags([1]) + (Texts([r.id, r.inv]) + Tags([OutcomeTag(r.outcome)]))
  }

  function OptionalEvidence(o: Option<ConformanceAttestation>): seq<Token> {
    match o
    case None => Tags([0])
    case Some(e) => Tags([1]) + (Texts(EvidenceTexts(e)) + Tags([BoolTag(e.positive)]))
  }

  function OptionalLevel(o: Option<ConfLevel>): Option<Byte> {
    match o
    case None => None
    case Some(l) => Some(ConfTag(l))
  }

  ghost function PolicyTokens(p: PolicyK): seq<Token> {
    Texts([p.tool, Listing(CapTags(p.requiredCaps))])
    + (Tags([ConfTag(p.confClearance), IntegTag(p.integFloor), IntegTag(p.integInspect), ConfTag(p.outputConf), IntegTag(p.outputInteg)])
       + Texts([Listing(EgressTags(p.declaredEgress)), p.policyDigest]))
  }

  ghost function CrossTokens(q: CrossInput): seq<Token> {
    Texts([q.src, q.rcv, q.crossing, q.outputHash, q.descriptor])
    + (Tags([FallbackTag(q.fallback), IntegTag(q.tInteg)])
       + (OptionalTag(OptionalLevel(q.tConf))
          + (Texts([q.assignment])
             + (OptionalEvidence(q.evidence)
                + Tags([ConfTag(q.releasedConf), IntegTag(q.releasedInteg)])))))
  }

  /** The fields of a command, in their canonical order. */
  ghost function CommandFields(c: CommandK): seq<Token> {
    match c
    case RegisterTool(tool) => Texts([tool])
    case UnregisterTool(tool) => Texts([tool])
    case Delegate(grantor, grantee) => Texts([grantor, grantee])
    case GrantCapability(parent, child, cap) => Texts([parent, child]) + Tags([CapTag(cap)])
    case GrantCrossing(grantor, agent, assignment, n) => Texts([grantor, agent, assignment]) + Number(n)
    case Revoke(parent, target) => Texts([parent, target])
    case CascadeRevoke(child, parent) => Texts([child, parent])
    case Ingest(agent, src, pconf, pinteg) =>
      Texts([agent]) + (OptionalText(src) + Tags([ConfTag(pconf), IntegTag(pinteg)]))
    case BeginInvocation(agent, inv, chal, policy, egress, ah, authorized) =>
      Texts([agent, inv, chal])
      + (PolicyTokens(policy) + (Texts([Listing(EgressTags(egress)), ah]) + Tags([BoolTag(authorized)])))
    case AuthorizeInspected(inv, att) =>
      Texts([inv, att.id, att.inv, att.challenge, att.argsHash, att.policyDigest]) + Tags([BoolTag(att.positive)])
    case SettleInvocation(inv, outcome, res) =>
      Texts([inv]) + (Tags([OutcomeTag(outcome)]) + OptionalResolution(res))
    case CrossOutput(q) => CrossTokens(q)
  }

  function ActionFields(a: Action): seq<Token> {
    match a
    case RegisteredTool(tool) => Texts([tool])
    case UnregisteredTool(tool) => Texts([tool])
    case Delegated(grantor, grantee) => Texts([grantor, grantee])
    case GrantedCapability(parent, child, cap) => Texts([parent, child]) + Tags([CapTag(cap)])
    case GrantedCrossing(grantor, agent, assignment, n) => Texts([grantor, agent, assignment]) + Number(n)
    case Revoked(parent, target) => Texts([parent, target])
    case CascadeRevoked(child, parent) => Texts([child, parent])
    case Ingested(agent, src, pconf, pinteg, disposition) =>
      Texts([agent]) + (OptionalText(src) + Tags([ConfTag(pconf), IntegTag(pinteg), DispositionTag(disposition)]))
    case BeganInvocation(agent, inv, tool, verdict, authorized) =>
      Texts([agent, inv, tool]) + Tags([VerdictTag(verdict), BoolTag(authorized)])
    case AuthorizedInspected(inv, id, admitted) => Texts([inv, id]) + Tags([BoolTag(admitted)])
    case SettledInvocation(inv, agent, disposition, outcome, clvl, ilvl, res) =>
      Texts([inv, agent])
      + (Tags([DispositionTag(disposition), OutcomeTag(outcome), ConfTag(clvl), IntegTag(ilvl)]) + OptionalText(res))
    case CrossedOutput(src, rcv, crossing, branch, disposition) =>
      Texts([src, rcv, crossing]) + Tags([BranchTag(branch), DispositionTag(disposition)])
  }

  ghost function CommandTokens(c: CommandK): seq<Token> {
    Tags([CommandTag(c)]) + CommandFields(c)
  }

  function ActionTokens(a: Action): seq<Token> {
    Tags([ActionTag(a)]) + ActionFields(a)
  }

  /** The optional ceilings of the four egress kinds, in vocabulary order. */
  function CeilingTokens(ceiling: map<EgressKind, ConfLevel>): seq<Token> {
    OptionalTag(CeilingTag(ceiling, NetworkExternal))
    + (OptionalTag(CeilingTag(ceiling, NetworkInternal))
       + (OptionalTag(CeilingTag(ceiling, FilesystemWrite)) + OptionalTag(CeilingTag(ceiling, Ipc))))
  }

  function CeilingTag(ceiling: map<EgressKind, ConfLevel>, e: EgressKind): Option<Byte> {
    if e in ceiling then Some(ConfTag(ceiling[e])) else None
  }

  function GenesisTokens(bg: Background): seq<Token> {
    [Raw(GENESIS_DOMAIN)]
    + (Number(VERSION)
       + (Texts([ROOT]) + (Tags([ModeTag(bg.mode)]) + (CeilingTokens(bg.allowCeiling) + CeilingTokens(bg.inspectCeiling)))))
  }

  function LinkHead(previous: Digest, sequence: U64): seq<Token> {
    [Raw(ENVELOPE_DOMAIN)] + (Number(VERSION) + [Raw(previous), Raw(BigEndian(sequence as nat, 8))])
  }

  ghost function LinkTokens(previous: Digest, sequence: U64, c: CommandK, a: Action): seq<Token> {
    LinkHead(previous, sequence) + (CommandTokens(c) + ActionTokens(a))
  }

  function GenesisTranscript(bg: Background): seq<Byte> {
    Encode(GenesisTokens(bg))
  }

  ghost function LinkTranscript(previous: Digest, sequence: U64, c: CommandK, a: Action): seq<Byte> {
    Encode(LinkTokens(previous, sequence, c, a))
  }

  // ---- Shapes ----

  function TextKinds(n: nat): (r: seq<Kind>)
    ensures |r| == n && forall i | 0 <= i < n :: r[i] == Prefixed
  {
    seq(n, i => Prefixed)
  }

  function TagKinds(n: nat): (r: seq<Kind>)
    ensures |r| == n && forall i | 0 <= i < n :: r[i] == Fixed(1)
  {
    seq(n, i => Fixed(1))
  }

  function OptionKind(some: seq<Kind>): seq<Kind> {
    [Tagged([[], some])]
  }

  function ResolutionKinds(): seq<Kind> {
    TextKinds(2) + TagKinds(1)
  }

  function EvidenceKinds(): seq<Kind> {
    TextKinds(6) + TagKinds(1)
  }

  function PolicyKinds(): seq<Kind> {
    TextKinds(2) + (TagKinds(5) + TextKinds(2))
  }

  function CrossKinds(): seq<Kind> {
    TextKinds(5)
    + (TagKinds(2) + (OptionKind(TagKinds(1)) + (TextKinds(1) + (OptionKind(EvidenceKinds()) + TagKinds(2)))))
  }

  /** What follows the tag of a command. */
  function CommandCase(tag: nat): seq<Kind> {
    match tag
    case 0 => TextKinds(1)
    case 1 => TextKinds(1)
    case 2 => TextKinds(2)
    case 3 => TextKinds(2) + TagKinds(1)
    case 4 => TextKinds(3) + [Fixed(4)]
    case 5 => TextKinds(2)
    case 6 => TextKinds(2)
    case 7 => TextKinds(1) + (OptionKind(TextKinds(1)) + TagKinds(2))
    case 8 => TextKinds(3) + (PolicyKinds() + (TextKinds(2) + TagKinds(1)))
    case 9 => TextKinds(6) + TagKinds(1)
    case 10 => TextKinds(1) + (TagKinds(1) + OptionKind(ResolutionKinds()))
    case _ => CrossKinds()
  }

  function CommandCases(): (cases: seq<seq<Kind>>)
    ensures |cases| == 12 && forall i | 0 <= i < 12 :: cases[i] == CommandCase(i)
  {
    seq(12, i requires 0 <= i < 12 => CommandCase(i))
  }

  /** What follows the tag of an action. */
  function ActionCase(tag: nat): seq<Kind> {
    match tag
    case 0 => TextKinds(1)
    case 1 => TextKinds(1)
    case 2 => TextKinds(2)
    case 3 => TextKinds(2) + TagKinds(1)
    case 4 => TextKinds(3) + [Fixed(4)]
    case 5 => TextKinds(2)
    case 6 => TextKinds(2)
    case 7 => TextKinds(1) + (OptionKind(TextKinds(1)) + TagKinds(3))
    case 8 => TextKinds(3) + TagKinds(2)
    case 9 => TextKinds(2) + TagKinds(1)
    case 10 => TextKinds(2) + (TagKinds(4) + OptionKind(TextKinds(1)))
    case _ => TextKinds(3) + TagKinds(2)
  }

  function ActionCases(): (cases: seq<seq<Kind>>)
    ensures |cases| == 12 && forall i | 0 <= i < 12 :: cases[i] == ActionCase(i)
  {
    seq(12, i requires 0 <= i < 12 => ActionCase(i))
  }

  ghost predicate ShortTexts(ts: seq<Text>) {
    forall t | t in ts :: |t| < TWO_TO_THE_32
  }

  lemma {:induction false} FitTexts(ts: seq<Text>)
    requires ShortTexts(ts)
    ensures Fit(Texts(ts), TextKinds(|ts|))
  {
    if ts == [] {
      assert Texts(ts) == [] && TextKinds(0) == [];
    } else {
      FitTexts(ts[1..]);
      assert Texts(ts)[1..] == Texts(ts[1..]) && TextKinds(|ts|)[1..] == TextKinds(|ts| - 1);
    }
  }

  lemma {:induction false} FitTags(bs: seq<Byte>)
    ensures Fit(Tags(bs), TagKinds(|bs|))
  {
    if bs == [] {
      assert Tags(bs) == [] && TagKinds(0) == [];
    } else {
      FitTags(bs[1..]);
      assert Tags(bs)[1..] == Tags(bs[1..]) && TagKinds(|bs|)[1..] == TagKinds(|bs| - 1);
    }
  }

  lemma FitTagged(tag: Byte, fields: seq<Token>, cases: seq<seq<Kind>>)
    requires tag as int < |cases| && Fit(fields, cases[tag])
    ensures Fit(Tags([tag]) + fields, [Tagged(cases)])
  {
    var ts := Tags([tag]) + fields;
    assert ts[0] == Raw([tag]) && ts[1..] == fields;
    assert cases[tag] + [Tagged(cases)][1..] == cases[tag];
  }

  lemma FitNone(some: seq<Kind>)
    ensures Fit(Tags([0]), OptionKind(some))
  {
    assert Fit([], []);
    FitTagged(0, [], [[], some]);
    assert Tags([0]) + [] == Tags([0]);
  }

  lemma FitSome(fields: seq<Token>, some: seq<Kind>)
    requires Fit(fields, some)
    ensures Fit(Tags([1]) + fields, OptionKind(some))
  {
    FitTagged(1, fields, [[], some]);
  }

  lemma FitOptionalTag(o: Option<Byte>)
    ensures Fit(OptionalTag(o), OptionKind(TagKinds(1)))
  {
    FitNone(TagKinds(1));
    if o.Some? {
      FitTags([o.value]);
      FitSome(Tags([o.value]), TagKinds(1));
    }
  }

  lemma FitOptionalText(o: Option<Text>)
    requires o.Some? ==> |o.value| < TWO_TO_THE_32
    ensures Fit(OptionalText(o), OptionKind(TextKinds(1)))
  {
    FitNone(TextKinds(1));
    if o.Some? {
      FitTexts([o.value]);
      FitSome(Texts([o.value]), TextKinds(1));
    }
  }

  lemma FitTextsThenTags(ts: seq<Text>, bs: seq<Byte>)
    requires ShortTexts(ts)
    ensures Fit(Texts(ts) + Tags(bs), TextKinds(|ts|) + TagKinds(|bs|))
  {
    hide Fit;
    FitTexts(ts);
    FitTags(bs);
    FitAppend(Texts(ts), Tags(bs), TextKinds(|ts|), TagKinds(|bs|));
  }

  lemma FitOptionalResolution(o: Option<ResolutionAttestation>)
    requires o.Some? ==> ShortTexts([o.value.id, o.value.inv])
    ensures Fit(OptionalResolution(o), OptionKind(ResolutionKinds()))
  {
    FitNone(ResolutionKinds());
    if o.Some? {
      var r := o.value;
      FitTextsThenTags([r.id, r.inv], [OutcomeTag(r.outcome)]);
      FitSome(Texts([r.id, r.inv]) + Tags([OutcomeTag(r.outcome)]), ResolutionKinds());
    }
  }

  lemma FitOptionalEvidence(o: Option<ConformanceAttestation>)
    requires o.Some? ==> ShortTexts(EvidenceTexts(o.value))
    ensures Fit(OptionalEvidence(o), OptionKind(EvidenceKinds()))
  {
    FitNone(EvidenceKinds());
    if o.Some? {
      var e := o.value;
      FitTextsThenTags(EvidenceTexts(e), [BoolTag(e.positive)]);
      FitSome(Texts(EvidenceTexts(e)) + Tags([BoolTag(e.positive)]), EvidenceKinds());
    }
  }

  lemma FitPolicy(p: PolicyK)
    requires ShortTexts([p.tool, p.policyDigest])
    ensures Fit(PolicyTokens(p), PolicyKinds())
  {
    hide Fit;
    var caps, egress := Listing(CapTags(p.requiredCaps)), Listing(EgressTags(p.declaredEgress));
    var levels := [ConfTag(p.confClearance), IntegTag(p.integFloor), IntegTag(p.integInspect), ConfTag(p.outputConf), IntegTag(p.outputInteg)];
    assert p.tool in [p.tool, p.policyDigest] && p.policyDigest in [p.tool, p.policyDigest];
    FitTexts([p.tool, caps]);
    FitTags(levels);
    FitTexts([egress, p.policyDigest]);
    FitAppend(Tags(levels), Texts([egress, p.policyDigest]), TagKinds(5), TextKinds(2));
    FitAppend(Texts([p.tool, caps]), Tags(levels) + Texts([egress, p.policyDigest]), TextKinds(2), TagKinds(5) + TextKinds(2));
  }

  lemma FitCross(q: CrossInput)
    requires ShortTexts([q.src, q.rcv, q.crossing, q.outputHash, q.descriptor, q.assignment])
    requires q.evidence.Some? ==> ShortTexts(EvidenceTexts(q.evidence.value))
    ensures Fit(CrossTokens(q), CrossKinds())
  {
    hide Fit;
    var head := [q.src, q.rcv, q.crossing, q.outputHash, q.descriptor];
    var tags := [FallbackTag(q.fallback), IntegTag(q.tInteg)];
    var last := [ConfTag(q.releasedConf), IntegTag(q.releasedInteg)];
    assert forall t | t in head :: t in head + [q.assignment];
    assert head + [q.assignment] == [q.src, q.rcv, q.crossing, q.outputHash, q.descriptor, q.assignment];
    assert q.assignment in head + [q.assignment];
    FitTexts(head);
    FitTags(tags);
    FitOptionalTag(OptionalLevel(q.tConf));
    FitTexts([q.assignment]);
    FitOptionalEvidence(q.evidence);
    FitTags(last);
    var t1, k1 := OptionalEvidence(q.evidence) + Tags(last), OptionKind(EvidenceKinds()) + TagKinds(2);
    FitAppend(OptionalEvidence(q.evidence), Tags(last), OptionKind(EvidenceKinds()), TagKinds(2));
    FitAppend(Texts([q.assignment]), t1, TextKinds(1), k1);
    var t2, k2 := Texts([q.assignment]) + t1, TextKinds(1) + k1;
    FitAppend(OptionalTag(OptionalLevel(q.tConf)), t2, OptionKind(TagKinds(1)), k2);
    var t3, k3 := OptionalTag(OptionalLevel(q.tConf)) + t2, OptionKind(TagKinds(1)) + k2;
    FitAppend(Tags(tags), t3, TagKinds(2), k3);
    FitAppend(Texts(head), Tags(tags) + t3, TextKinds(5), TagKinds(2) + k3);
  }

  lemma FitNumber(n: U32)
    ensures Fit(Number(n), [Fixed(4)])
  {
    assert Number(n)[1..] == [] && [Fixed(4)][1..] == [];
  }

  lemma FitIngest(agent: AgentId, src: Option<AgentId>, tags: seq<Byte>)
    requires ShortTexts([agent]) && (src.Some? ==> |src.value| < TWO_TO_THE_32)
    ensures Fit(Texts([agent]) + (OptionalText(src) + Tags(tags)), TextKinds(1) + (OptionKind(TextKinds(1)) + TagKinds(|tags|)))
  {
    hide Fit;
    FitTexts([agent]);
    FitOptionalText(src);
    FitTags(tags);
    FitAppend(OptionalText(src), Tags(tags), OptionKind(TextKinds(1)), TagKinds(|tags|));
    FitAppend(Texts([agent]), OptionalText(src) + Tags(tags), TextKinds(1), OptionKind(TextKinds(1)) + TagKinds(|tags|));
  }

  lemma FitBeginParts(head: seq<Text>, p: PolicyK, tail: seq<Text>, tags: seq<Byte>)
    requires ShortTexts(head) && ShortTexts([p.tool, p.policyDigest]) && ShortTexts(tail)
    requires |head| == 3 && |tail| == 2 && |tags| == 1
    ensures Fit(Texts(head) + (PolicyTokens(p) + (Texts(tail) + Tags(tags))),
                TextKinds(3) + (PolicyKinds() + (TextKinds(2) + TagKinds(1))))
  {
    hide Fit;
    FitTexts(head);
    FitPolicy(p);
    FitTextsThenTags(tail, tags);
    FitAppend(PolicyTokens(p), Texts(tail) + Tags(tags), PolicyKinds(), TextKinds(2) + TagKinds(1));
    FitAppend(Texts(head), PolicyTokens(p) + (Texts(tail) + Tags(tags)), TextKinds(3), PolicyKinds() + (TextKinds(2) + TagKinds(1)));
  }

  lemma FitBegin(c: CommandK)
    requires c.BeginInvocation? && ShortTexts(CommandTexts(c))
    ensures Fit(CommandFields(c), CommandCase(8))
  {
    hide Fit;
    var p := c.policy;
    var all := CommandTexts(c);
    assert all == [c.agent, c.inv, c.challenge, p.tool, p.policyDigest, c.argsHash];
    assert c.agent in all && c.inv in all && c.challenge in all && p.tool in all && p.policyDigest in all && c.argsHash in all;
    FitBeginParts([c.agent, c.inv, c.challenge], p, [Listing(EgressTags(c.egress)), c.argsHash], [BoolTag(c.authorized)]);
  }

  lemma FitSettle(inv: InvocationId, outcome: Outcome, res: Option<ResolutionAttestation>)
    requires ShortTexts([inv] + (if res.Some? then [res.value.id, res.value.inv] else []))
    ensures Fit(Texts([inv]) + (Tags([OutcomeTag(outcome)]) + OptionalResolution(res)),
                TextKinds(1) + (TagKinds(1) + OptionKind(ResolutionKinds())))
  {
    hide Fit;
    var all := [inv] + (if res.Some? then [res.value.id, res.value.inv] else []);
    assert inv in all;
    if res.Some? {
      assert forall t | t in [res.value.id, res.value.inv] :: t in all;
    }
    FitTexts([inv]);
    FitTags([OutcomeTag(outcome)]);
    FitOptionalResolution(res);
    FitAppend(Tags([OutcomeTag(outcome)]), OptionalResolution(res), TagKinds(1), OptionKind(ResolutionKinds()));
    FitAppend(Texts([inv]), Tags([OutcomeTag(outcome)]) + OptionalResolution(res), TextKinds(1), TagKinds(1) + OptionKind(ResolutionKinds()));
  }

  lemma FitPlainCommand(c: CommandK)
    requires ShortTexts(CommandTexts(c)) && CommandTag(c) <= 6
    ensures Fit(CommandFields(c), CommandCase(CommandTag(c) as nat))
  {
    hide Fit;
    match c
    case RegisterTool(tool) => FitTexts([tool]);
    case UnregisterTool(tool) => FitTexts([tool]);
    case Delegate(grantor, grantee) => FitTexts([grantor, grantee]);
    case GrantCapability(parent, child, cap) => FitTextsThenTags([parent, child], [CapTag(cap)]);
    case GrantCrossing(grantor, agent, assignment, n) =>
      FitTexts([grantor, agent, assignment]);
      FitNumber(n);
      FitAppend(Texts([grantor, agent, assignment]), Number(n), TextKinds(3), [Fixed(4)]);
    case Revoke(parent, target) => FitTexts([parent, target]);
    case CascadeRevoke(child, parent) => FitTexts([child, parent]);
  }

  lemma FitCommandFields(c: CommandK)
    requires ShortTexts(CommandTexts(c))
    ensures Fit(CommandFields(c), CommandCase(CommandTag(c) as nat))
  {
    hide Fit;
    if CommandTag(c) <= 6 {
      FitPlainCommand(c);
    } else {
      match c
      case Ingest(agent, src, pconf, pinteg) =>
        assert agent in CommandTexts(c) && (src.Some? ==> src.value in CommandTexts(c));
        FitIngest(agent, src, [ConfTag(pconf), IntegTag(pinteg)]);
      case BeginInvocation(_, _, _, _, _, _, _) => FitBegin(c);
      case AuthorizeInspected(inv, att) =>
        FitTextsThenTags([inv, att.id, att.inv, att.challenge, att.argsHash, att.policyDigest], [BoolTag(att.positive)]);
      case SettleInvocation(inv, outcome, res) => FitSettle(inv, outcome, res);
      case CrossOutput(q) => FitCrossCommand(c);
    }
  }

  lemma FitCrossCommand(c: CommandK)
    requires c.CrossOutput? && ShortTexts(CommandTexts(c))
    ensures Fit(CommandFields(c), CommandCase(11))
  {
    hide Fit;
    var q := c.input;
    var head := [q.src, q.rcv, q.crossing, q.outputHash, q.descriptor, q.assignment];
    assert forall t | t in head :: t in CommandTexts(c);
    if q.evidence.Some? {
      assert forall t | t in EvidenceTexts(q.evidence.value) :: t in CommandTexts(c);
    }
    FitCross(q);
  }

  lemma FitPlainAction(a: Action)
    requires ShortTexts(ActionTexts(a)) && ActionTag(a) <= 6
    ensures Fit(ActionFields(a), ActionCase(ActionTag(a) as nat))
  {
    hide Fit;
    match a
    case RegisteredTool(tool) => FitTexts([tool]);
    case UnregisteredTool(tool) => FitTexts([tool]);
    case Delegated(grantor, grantee) => FitTexts([grantor, grantee]);
    case GrantedCapability(parent, child, cap) => FitTextsThenTags([parent, child], [CapTag(cap)]);
    case GrantedCrossing(grantor, agent, assignment, n) =>
      FitTexts([grantor, agent, assignment]);
      FitNumber(n);
      FitAppend(Texts([grantor, agent, assignment]), Number(n), TextKinds(3), [Fixed(4)]);
    case Revoked(parent, target) => FitTexts([parent, target]);
    case CascadeRevoked(child, parent) => FitTexts([child, parent]);
  }

  lemma FitActionFields(a: Action)
    requires ShortTexts(ActionTexts(a))
    ensures Fit(ActionFields(a), ActionCase(ActionTag(a) as nat))
  {
    hide Fit;
    if ActionTag(a) <= 6 {
      FitPlainAction(a);
    } else {
      match a
      case Ingested(agent, src, pconf, pinteg, disposition) =>
        assert agent in ActionTexts(a) && (src.Some? ==> src.value in ActionTexts(a));
        FitIngest(agent, src, [ConfTag(pconf), IntegTag(pinteg), DispositionTag(disposition)]);
      case BeganInvocation(agent, inv, tool, verdict, authorized) =>
        FitTextsThenTags([agent, inv, tool], [VerdictTag(verdict), BoolTag(authorized)]);
      case AuthorizedInspected(inv, id, admitted) => FitTextsThenTags([inv, id], [BoolTag(admitted)]);
      case SettledInvocation(inv, agent, disposition, outcome, clvl, ilvl, res) => FitSettledAction(a);
      case CrossedOutput(src, rcv, crossing, branch, disposition) =>
        FitTextsThenTags([src, rcv, crossing], [BranchTag(branch), DispositionTag(disposition)]);
    }
  }

  lemma FitSettledAction(a: Action)
    requires a.SettledInvocation? && ShortTexts(ActionTexts(a))
    ensures Fit(ActionFields(a), ActionCase(10))
  {
    hide Fit;
    var tags := [DispositionTag(a.disposition), OutcomeTag(a.outcome), ConfTag(a.clvl), IntegTag(a.ilvl)];
    var head := [a.inv, a.agent];
    assert forall t | t in head :: t in ActionTexts(a);
    if a.resolution.Some? {
      assert a.resolution.value in [a.resolution.value];
      assert a.resolution.value in ActionTexts(a);
    }
    FitTexts(head);
    FitTags(tags);
    FitOptionalText(a.resolution);
    FitAppend(Tags(tags), OptionalText(a.resolution), TagKinds(4), OptionKind(TextKinds(1)));
    FitAppend(Texts(head), Tags(tags) + OptionalText(a.resolution), TextKinds(2), TagKinds(4) + OptionKind(TextKinds(1)));
  }

  lemma FitOne(bytes: seq<Byte>)
    ensures Fit([Raw(bytes)], [Fixed(|bytes|)])
  {
    assert [Raw(bytes)][1..] == [] && [Fixed(|bytes|)][1..] == [];
  }

  function HeadKinds(): seq<Kind> {
    [Fixed(17)] + ([Fixed(4)] + [Fixed(32), Fixed(8)])
  }

  lemma FitHead(previous: Digest, sequence: U64)
    ensures Fit(LinkHead(previous, sequence), HeadKinds())
  {
    hide Fit;
    var number := BigEndian(sequence as nat, 8);
    FitOne(previous);
    FitOne(number);
    FitAppend([Raw(previous)], [Raw(number)], [Fixed(32)], [Fixed(8)]);
    assert [Raw(previous)] + [Raw(number)] == [Raw(previous), Raw(number)] && [Fixed(32)] + [Fixed(8)] == [Fixed(32), Fixed(8)];
    FitNumber(VERSION);
    FitAppend(Number(VERSION), [Raw(previous), Raw(number)], [Fixed(4)], [Fixed(32), Fixed(8)]);
    FitOne(ENVELOPE_DOMAIN);
    FitAppend([Raw(ENVELOPE_DOMAIN)], Number(VERSION) + [Raw(previous), Raw(number)], [Fixed(17)], [Fixed(4)] + [Fixed(32), Fixed(8)]);
  }

  lemma FitCommand(c: CommandK)
    requires ShortTexts(CommandTexts(c))
    ensures Fit(CommandTokens(c), [Tagged(CommandCases())])
  {
    FitCommandFields(c);
    FitTagged(CommandTag(c), CommandFields(c), CommandCases());
  }

  lemma FitAction(a: Action)
    requires ShortTexts(ActionTexts(a))
    ensures Fit(ActionTokens(a), [Tagged(ActionCases())])
  {
    FitActionFields(a);
    FitTagged(ActionTag(a), ActionFields(a), ActionCases());
  }

  function CeilingKinds(): seq<Kind> {
    var one := OptionKind(TagKinds(1));
    one + (one + (one + one))
  }

  lemma FitCeilings(ceiling: map<EgressKind, ConfLevel>)
    ensures Fit(CeilingTokens(ceiling), CeilingKinds())
  {
    hide Fit;
    var one := OptionKind(TagKinds(1));
    var a, b, c, d := OptionalTag(CeilingTag(ceiling, NetworkExternal)), OptionalTag(CeilingTag(ceiling, NetworkInternal)),
                      OptionalTag(CeilingTag(ceiling, FilesystemWrite)), OptionalTag(CeilingTag(ceiling, Ipc));
    FitOptionalTag(CeilingTag(ceiling, NetworkExternal));
    FitOptionalTag(CeilingTag(ceiling, NetworkInternal));
    FitOptionalTag(CeilingTag(ceiling, FilesystemWrite));
    FitOptionalTag(CeilingTag(ceiling, Ipc));
    FitAppend(c, d, one, one);
    FitAppend(b, c + d, one, one + one);
    FitAppend(a, b + (c + d), one, one + (one + one));
  }

  function GenesisKinds(): seq<Kind> {
    [Fixed(16)] + ([Fixed(4)] + (TextKinds(1) + (TagKinds(1) + (CeilingKinds() + CeilingKinds()))))
  }

  lemma FitGenesis(bg: Background)
    ensures Fit(GenesisTokens(bg), GenesisKinds())
  {
    hide Fit;
    var ceilings, kinds := CeilingTokens(bg.allowCeiling) + CeilingTokens(bg.inspectCeiling), CeilingKinds() + CeilingKinds();
    FitCeilings(bg.allowCeiling);
    FitCeilings(bg.inspectCeiling);
    FitAppend(CeilingTokens(bg.allowCeiling), CeilingTokens(bg.inspectCeiling), CeilingKinds(), CeilingKinds());
    FitTags([ModeTag(bg.mode)]);
    FitAppend(Tags([ModeTag(bg.mode)]), ceilings, TagKinds(1), kinds);
    FitTexts([ROOT]);
    var t1, k1 := Tags([ModeTag(bg.mode)]) + ceilings, TagKinds(1) + kinds;
    FitAppend(Texts([ROOT]), t1, TextKinds(1), k1);
    FitNumber(VERSION);
    FitAppend(Number(VERSION), Texts([ROOT]) + t1, [Fixed(4)], TextKinds(1) + k1);
    FitOne(GENESIS_DOMAIN);
    FitAppend([Raw(GENESIS_DOMAIN)], Number(VERSION) + (Texts([ROOT]) + t1), [Fixed(16)], [Fixed(4)] + (TextKinds(1) + k1));
  }

  // ---- Tokens determine what was written ----

  lemma TextsEqual(ts: seq<Text>, us: seq<Text>, r: seq<Token>, s: seq<Token>)
    requires Texts(ts) + r == Texts(us) + s && |ts| == |us|
    ensures ts == us && r == s
  {
    Split(Texts(ts), r, Texts(us), s);
    forall i | 0 <= i < |ts| ensures ts[i] == us[i] {
      assert Texts(ts)[i] == Texts(us)[i];
    }
  }

  lemma TagsEqual(bs: seq<Byte>, cs: seq<Byte>, r: seq<Token>, s: seq<Token>)
    requires Tags(bs) + r == Tags(cs) + s && |bs| == |cs|
    ensures bs == cs && r == s
  {
    Split(Tags(bs), r, Tags(cs), s);
    forall i | 0 <= i < |bs| ensures bs[i] == cs[i] {
      assert Tags(bs)[i] == Tags(cs)[i];
    }
  }

  lemma OnlyTexts(ts: seq<Text>, us: seq<Text>)
    requires Texts(ts) == Texts(us) && |ts| == |us|
    ensures ts == us
  {
    TextsEqual(ts, us, [], []);
  }

  lemma OnlyTags(bs: seq<Byte>, cs: seq<Byte>)
    requires Tags(bs) == Tags(cs) && |bs| == |cs|
    ensures bs == cs
  {
    TagsEqual(bs, cs, [], []);
  }

  lemma TextsThenTagsEqual(ts: seq<Text>, bs: seq<Byte>, us: seq<Text>, cs: seq<Byte>)
    requires Texts(ts) + Tags(bs) == Texts(us) + Tags(cs) && |ts| == |us| && |bs| == |cs|
    ensures ts == us && bs == cs
  {
    TextsEqual(ts, us, Tags(bs), Tags(cs));
    OnlyTags(bs, cs);
  }

  /** The selecting byte of an option is its first token. */
  lemma SameCase(tag: Byte, fields: seq<Token>, r: seq<Token>, tag': Byte, fields': seq<Token>, s: seq<Token>)
    requires (Tags([tag]) + fields) + r == (Tags([tag']) + fields') + s
    ensures tag == tag' && fields + r == fields' + s
  {
    Associative(Tags([tag]), fields, r);
    Associative(Tags([tag']), fields', s);
    TagsEqual([tag], [tag'], fields + r, fields' + s);
  }

  lemma OptionalTagEqual(o: Option<Byte>, p: Option<Byte>, r: seq<Token>, s: seq<Token>)
    requires OptionalTag(o) + r == OptionalTag(p) + s
    ensures o == p && r == s
  {
    assert Tags([0]) + [] == Tags([0]);
    SameCase(if o.Some? then 1 else 0, if o.Some? then Tags([o.value]) else [], r,
             if p.Some? then 1 else 0, if p.Some? then Tags([p.value]) else [], s);
    if o.Some? {
      TagsEqual([o.value], [p.value], r, s);
      assert [o.value][0] == [p.value][0];
    } else {
      assert [] + r == r && [] + s == s;
    }
  }

  lemma OptionalTextEqual(o: Option<Text>, p: Option<Text>, r: seq<Token>, s: seq<Token>)
    requires OptionalText(o) + r == OptionalText(p) + s
    ensures o == p && r == s
  {
    assert Tags([0]) + [] == Tags([0]);
    SameCase(if o.Some? then 1 else 0, if o.Some? then Texts([o.value]) else [], r,
             if p.Some? then 1 else 0, if p.Some? then Texts([p.value]) else [], s);
    if o.Some? {
      TextsEqual([o.value], [p.value], r, s);
      assert [o.value][0] == [p.value][0];
    } else {
      assert [] + r == r && [] + s == s;
    }
  }

  lemma ResolutionEqual(o: Option<ResolutionAttestation>, p: Option<ResolutionAttestation>)
    requires OptionalResolution(o) == OptionalResolution(p)
    ensures o == p
  {
    assert OptionalResolution(o)[0] == OptionalResolution(p)[0];
    if o.Some? && p.Some? {
      var a, b := o.value, p.value;
      TagsEqual([1], [1], Texts([a.id, a.inv]) + Tags([OutcomeTag(a.outcome)]), Texts([b.id, b.inv]) + Tags([OutcomeTag(b.outcome)]));
      TextsThenTagsEqual([a.id, a.inv], [OutcomeTag(a.outcome)], [b.id, b.inv], [OutcomeTag(b.outcome)]);
      assert a.id == [a.id, a.inv][0] && a.inv == [a.id, a.inv][1];
      assert b.id == [b.id, b.inv][0] && b.inv == [b.id, b.inv][1];
      assert OutcomeTag(a.outcome) == [OutcomeTag(a.outcome)][0] == OutcomeTag(b.outcome);
    }
  }

  lemma EvidenceFieldsEqual(a: ConformanceAttestation, b: ConformanceAttestation)
    requires EvidenceTexts(a) == EvidenceTexts(b) && a.positive == b.positive
    ensures a == b
  {
    var ts, us := EvidenceTexts(a), EvidenceTexts(b);
    assert ts[0] == us[0] && ts[1] == us[1] && ts[2] == us[2] && ts[3] == us[3] && ts[4] == us[4] && ts[5] == us[5];
  }

  lemma EvidenceEqual(o: Option<ConformanceAttestation>, p: Option<ConformanceAttestation>, r: seq<Token>, s: seq<Token>)
    requires OptionalEvidence(o) + r == OptionalEvidence(p) + s
    ensures o == p && r == s
  {
    assert Tags([0]) + [] == Tags([0]);
    var f := if o.Some? then Texts(EvidenceTexts(o.value)) + Tags([BoolTag(o.value.positive)]) else [];
    var g := if p.Some? then Texts(EvidenceTexts(p.value)) + Tags([BoolTag(p.value.positive)]) else [];
    SameCase(if o.Some? then 1 else 0, f, r, if p.Some? then 1 else 0, g, s);
    if o.Some? {
      Split(f, r, g, s);
      TextsThenTagsEqual(EvidenceTexts(o.value), [BoolTag(o.value.positive)], EvidenceTexts(p.value), [BoolTag(p.value.positive)]);
      assert [BoolTag(o.value.positive)][0] == [BoolTag(p.value.positive)][0];
      EvidenceFieldsEqual(o.value, p.value);
    } else {
      assert [] + r == r && [] + s == s;
    }
  }

  lemma CapTagsInjective(s: set<CapKind>, t: set<CapKind>)
    requires Listing(CapTags(s)) == Listing(CapTags(t))
    ensures s == t
  {
    assert CapTags(s) == CapTags(t);
    forall c: CapKind ensures c in s <==> c in t {
      assert ALL_CAPS[CapTag(c)] == c;
      assert c in s ==> CapTag(c) in CapTags(s);
      assert c in t ==> CapTag(c) in CapTags(t);
      assert forall d: CapKind | CapTag(d) == CapTag(c) :: ALL_CAPS[CapTag(d)] == d == c;
    }
  }

  lemma EgressTagsInjective(s: set<EgressKind>, t: set<EgressKind>)
    requires Listing(EgressTags(s)) == Listing(EgressTags(t))
    ensures s == t
  {
    assert EgressTags(s) == EgressTags(t);
    forall c: EgressKind ensures c in s <==> c in t {
      assert c in s ==> EgressTag(c) in EgressTags(s);
      assert c in t ==> EgressTag(c) in EgressTags(t);
      assert forall d: EgressKind | EgressTag(d) == EgressTag(c) :: d == c;
    }
  }

  lemma PolicyEqual(p: PolicyK, q: PolicyK, r: seq<Token>, s: seq<Token>)
    requires PolicyTokens(p) + r == PolicyTokens(q) + s
    ensures p == q && r == s
  {
    Split(PolicyTokens(p), r, PolicyTokens(q), s);
    var h, h' := [p.tool, Listing(CapTags(p.requiredCaps))], [q.tool, Listing(CapTags(q.requiredCaps))];
    var b := [ConfTag(p.confClearance), IntegTag(p.integFloor), IntegTag(p.integInspect), ConfTag(p.outputConf), IntegTag(p.outputInteg)];
    var b' := [ConfTag(q.confClearance), IntegTag(q.integFloor), IntegTag(q.integInspect), ConfTag(q.outputConf), IntegTag(q.outputInteg)];
    var t, t' := [Listing(EgressTags(p.declaredEgress)), p.policyDigest], [Listing(EgressTags(q.declaredEgress)), q.policyDigest];
    TextsEqual(h, h', Tags(b) + Texts(t), Tags(b') + Texts(t'));
    TagsEqual(b, b', Texts(t), Texts(t'));
    OnlyTexts(t, t');
    assert h[0] == h'[0] && h[1] == h'[1] && t[0] == t'[0] && t[1] == t'[1];
    CapTagsInjective(p.requiredCaps, q.requiredCaps);
    EgressTagsInjective(p.declaredEgress, q.declaredEgress);
    LevelsEqual(b, b');
  }

  lemma LevelsEqual(b: seq<Byte>, c: seq<Byte>)
    requires b == c && |b| == 5
    ensures b[0] == c[0] && b[1] == c[1] && b[2] == c[2] && b[3] == c[3] && b[4] == c[4]
  {
  }

  lemma OptionalLevelInjective(o: Option<ConfLevel>, p: Option<ConfLevel>)
    requires OptionalLevel(o) == OptionalLevel(p)
    ensures o == p
  {
  }

  lemma NumberInjective(m: U32, n: U32)
    requires Number(m) == Number(n)
    ensures m == n
  {
    assert Number(m)[0] == Number(n)[0];
    Widths();
    BigEndianInjective(m as nat, n as nat, 4);
  }

  lemma CrossEqual(q: CrossInput, p: CrossInput)
    requires CrossTokens(q) == CrossTokens(p)
    ensures q == p
  {
    var h, h' := [q.src, q.rcv, q.crossing, q.outputHash, q.descriptor], [p.src, p.rcv, p.crossing, p.outputHash, p.descriptor];
    var b, b' := [FallbackTag(q.fallback), IntegTag(q.tInteg)], [FallbackTag(p.fallback), IntegTag(p.tInteg)];
    var e, e' := [ConfTag(q.releasedConf), IntegTag(q.releasedInteg)], [ConfTag(p.releasedConf), IntegTag(p.releasedInteg)];
    var r1, s1 := OptionalEvidence(q.evidence) + Tags(e), OptionalEvidence(p.evidence) + Tags(e');
    var r2, s2 := Texts([q.assignment]) + r1, Texts([p.assignment]) + s1;
    var r3, s3 := OptionalTag(OptionalLevel(q.tConf)) + r2, OptionalTag(OptionalLevel(p.tConf)) + s2;
    TextsEqual(h, h', Tags(b) + r3, Tags(b') + s3);
    TagsEqual(b, b', r3, s3);
    OptionalTagEqual(OptionalLevel(q.tConf), OptionalLevel(p.tConf), r2, s2);
    OptionalLevelInjective(q.tConf, p.tConf);
    TextsEqual([q.assignment], [p.assignment], r1, s1);
    EvidenceEqual(q.evidence, p.evidence, Tags(e), Tags(e'));
    OnlyTags(e, e');
    assert h[0] == h'[0] && h[1] == h'[1] && h[2] == h'[2] && h[3] == h'[3] && h[4] == h'[4];
    assert b[0] == b'[0] && b[1] == b'[1] && e[0] == e'[0] && e[1] == e'[1];
    assert [q.assignment][0] == [p.assignment][0];
  }

  lemma IngestEqual(a: AgentId, src: Option<AgentId>, bs: seq<Byte>, a': AgentId, src': Option<AgentId>, bs': seq<Byte>)
    requires Texts([a]) + (OptionalText(src) + Tags(bs)) == Texts([a']) + (OptionalText(src') + Tags(bs')) && |bs| == |bs'|
    ensures a == a' && src == src' && bs == bs'
  {
    TextsEqual([a], [a'], OptionalText(src) + Tags(bs), OptionalText(src') + Tags(bs'));
    OptionalTextEqual(src, src', Tags(bs), Tags(bs'));
    OnlyTags(bs, bs');
    assert [a][0] == [a'][0];
  }

  lemma BeginEqual(c: CommandK, d: CommandK)
    requires c.BeginInvocation? && d.BeginInvocation? && CommandFields(c) == CommandFields(d)
    ensures c == d
  {
    var h, h' := [c.agent, c.inv, c.challenge], [d.agent, d.inv, d.challenge];
    var t, t' := [Listing(EgressTags(c.egress)), c.argsHash], [Listing(EgressTags(d.egress)), d.argsHash];
    var b, b' := [BoolTag(c.authorized)], [BoolTag(d.authorized)];
    var r, s := Texts(t) + Tags(b), Texts(t') + Tags(b');
    TextsEqual(h, h', PolicyTokens(c.policy) + r, PolicyTokens(d.policy) + s);
    PolicyEqual(c.policy, d.policy, r, s);
    TextsThenTagsEqual(t, b, t', b');
    assert h[0] == h'[0] && h[1] == h'[1] && h[2] == h'[2] && t[0] == t'[0] && t[1] == t'[1] && b[0] == b'[0];
    EgressTagsInjective(c.egress, d.egress);
  }

  lemma AuthorizeEqual(c: CommandK, d: CommandK)
    requires c.AuthorizeInspected? && d.AuthorizeInspected? && CommandFields(c) == CommandFields(d)
    ensures c == d
  {
    var a, a' := c.attestation, d.attestation;
    var h, h' := [c.inv, a.id, a.inv, a.challenge, a.argsHash, a.policyDigest], [d.inv, a'.id, a'.inv, a'.challenge, a'.argsHash, a'.policyDigest];
    TextsThenTagsEqual(h, [BoolTag(a.positive)], h', [BoolTag(a'.positive)]);
    assert h[0] == h'[0] && h[1] == h'[1] && h[2] == h'[2] && h[3] == h'[3] && h[4] == h'[4] && h[5] == h'[5];
    assert [BoolTag(a.positive)][0] == [BoolTag(a'.positive)][0];
  }

  lemma SettleEqual(c: CommandK, d: CommandK)
    requires c.SettleInvocation? && d.SettleInvocation? && CommandFields(c) == CommandFields(d)
    ensures c == d
  {
    var b, b' := [OutcomeTag(c.outcome)], [OutcomeTag(d.outcome)];
    TextsEqual([c.inv], [d.inv], Tags(b) + OptionalResolution(c.resolution), Tags(b') + OptionalResolution(d.resolution));
    TagsEqual(b, b', OptionalResolution(c.resolution), OptionalResolution(d.resolution));
    ResolutionEqual(c.resolution, d.resolution);
    assert [c.inv][0] == [d.inv][0] && b[0] == b'[0];
  }

  lemma GrantsEqual(ts: seq<Text>, us: seq<Text>, m: U32, n: U32)
    requires Texts(ts) + Number(m) == Texts(us) + Number(n) && |ts| == |us| == 3
    ensures ts[0] == us[0] && ts[1] == us[1] && ts[2] == us[2] && m == n
  {
    TextsEqual(ts, us, Number(m), Number(n));
    NumberInjective(m, n);
  }

  lemma PairEqual(ts: seq<Text>, us: seq<Text>)
    requires Texts(ts) == Texts(us) && |ts| == |us| == 2
    ensures ts[0] == us[0] && ts[1] == us[1]
  {
    OnlyTexts(ts, us);
  }

  lemma OneEqual(t: Text, u: Text)
    requires Texts([t]) == Texts([u])
    ensures t == u
  {
    assert Texts([t])[0] == Texts([u])[0];
  }

  lemma GrantedCapEqual(p: AgentId, c: AgentId, k: CapKind, p': AgentId, c': AgentId, k': CapKind)
    requires Texts([p, c]) + Tags([CapTag(k)]) == Texts([p', c']) + Tags([CapTag(k')])
    ensures p == p' && c == c' && k == k'
  {
    TextsThenTagsEqual([p, c], [CapTag(k)], [p', c'], [CapTag(k')]);
    assert [p, c][0] == [p', c'][0] && [p, c][1] == [p', c'][1] && [CapTag(k)][0] == [CapTag(k')][0];
    assert ALL_CAPS[CapTag(k)] == ALL_CAPS[CapTag(k')];
  }

  lemma PlainCommandEqual(c: CommandK, d: CommandK)
    requires CommandTag(c) == CommandTag(d) <= 6 && CommandFields(c) == CommandFields(d)
    ensures c == d
  {
    match c
    case RegisterTool(tool) => OneEqual(tool, d.tool);
    case UnregisterTool(tool) => OneEqual(tool, d.tool);
    case Delegate(grantor, grantee) => PairEqual([grantor, grantee], [d.grantor, d.grantee]);
    case GrantCapability(parent, child, cap) => GrantedCapEqual(parent, child, cap, d.parent, d.child, d.cap);
    case GrantCrossing(grantor, agent, assignment, n) =>
      GrantsEqual([grantor, agent, assignment], [d.grantor, d.agent, d.assignment], n, d.n);
    case Revoke(parent, target) => PairEqual([parent, target], [d.parent, d.target]);
    case CascadeRevoke(child, parent) => PairEqual([child, parent], [d.child, d.parent]);
  }

  lemma CommandEqual(c: CommandK, d: CommandK)
    requires CommandTag(c) == CommandTag(d) && CommandFields(c) == CommandFields(d)
    ensures c == d
  {
    if CommandTag(c) <= 6 {
      PlainCommandEqual(c, d);
    } else {
      match c
      case Ingest(agent, src, pconf, pinteg) =>
        var b, b' := [ConfTag(pconf), IntegTag(pinteg)], [ConfTag(d.pconf), IntegTag(d.pinteg)];
        IngestEqual(agent, src, b, d.agent, d.src, b');
        assert b[0] == b'[0] && b[1] == b'[1];
      case BeginInvocation(_, _, _, _, _, _, _) => BeginEqual(c, d);
      case AuthorizeInspected(_, _) => AuthorizeEqual(c, d);
      case SettleInvocation(_, _, _) => SettleEqual(c, d);
      case CrossOutput(q) => CrossEqual(q, d.input);
    }
  }

  lemma SettledEqual(a: Action, b: Action)
    requires a.SettledInvocation? && b.SettledInvocation? && ActionFields(a) == ActionFields(b)
    ensures a == b
  {
    var h, h' := [a.inv, a.agent], [b.inv, b.agent];
    var t := [DispositionTag(a.disposition), OutcomeTag(a.outcome), ConfTag(a.clvl), IntegTag(a.ilvl)];
    var t' := [DispositionTag(b.disposition), OutcomeTag(b.outcome), ConfTag(b.clvl), IntegTag(b.ilvl)];
    TextsEqual(h, h', Tags(t) + OptionalText(a.resolution), Tags(t') + OptionalText(b.resolution));
    TagsEqual(t, t', OptionalText(a.resolution), OptionalText(b.resolution));
    OptionalTextEqual(a.resolution, b.resolution, [], []);
    assert h[0] == h'[0] && h[1] == h'[1];
    assert t[0] == t'[0] && t[1] == t'[1] && t[2] == t'[2] && t[3] == t'[3];
  }

  lemma PlainActionEqual(a: Action, b: Action)
    requires ActionTag(a) == ActionTag(b) <= 6 && ActionFields(a) == ActionFields(b)
    ensures a == b
  {
    match a
    case RegisteredTool(tool) => OneEqual(tool, b.tool);
    case UnregisteredTool(tool) => OneEqual(tool, b.tool);
    case Delegated(grantor, grantee) => PairEqual([grantor, grantee], [b.grantor, b.grantee]);
    case GrantedCapability(parent, child, cap) => GrantedCapEqual(parent, child, cap, b.parent, b.child, b.cap);
    case GrantedCrossing(grantor, agent, assignment, n) =>
      GrantsEqual([grantor, agent, assignment], [b.grantor, b.agent, b.assignment], n, b.n);
    case Revoked(parent, target) => PairEqual([parent, target], [b.parent, b.target]);
    case CascadeRevoked(child, parent) => PairEqual([child, parent], [b.child, b.parent]);
  }

  lemma ActionEqual(a: Action, b: Action)
    requires ActionTag(a) == ActionTag(b) && ActionFields(a) == ActionFields(b)
    ensures a == b
  {
    if ActionTag(a) <= 6 {
      PlainActionEqual(a, b);
    } else {
      match a
      case Ingested(agent, src, pconf, pinteg, disposition) =>
        var t, t' := [ConfTag(pconf), IntegTag(pinteg), DispositionTag(disposition)],
                     [ConfTag(b.pconf), IntegTag(b.pinteg), DispositionTag(b.disposition)];
        IngestEqual(agent, src, t, b.agent, b.provenance, t');
        assert t[0] == t'[0] && t[1] == t'[1] && t[2] == t'[2];
      case BeganInvocation(agent, inv, tool, verdict, authorized) =>
        var h, h' := [agent, inv, tool], [b.agent, b.inv, b.tool];
        var t, t' := [VerdictTag(verdict), BoolTag(authorized)], [VerdictTag(b.verdict), BoolTag(b.authorized)];
        TextsThenTagsEqual(h, t, h', t');
        assert h[0] == h'[0] && h[1] == h'[1] && h[2] == h'[2] && t[0] == t'[0] && t[1] == t'[1];
      case AuthorizedInspected(inv, id, admitted) =>
        var h, h' := [inv, id], [b.inv, b.attestation];
        TextsThenTagsEqual(h, [BoolTag(admitted)], h', [BoolTag(b.admitted)]);
        assert h[0] == h'[0] && h[1] == h'[1] && [BoolTag(admitted)][0] == [BoolTag(b.admitted)][0];
      case SettledInvocation(_, _, _, _, _, _, _) => SettledEqual(a, b);
      case CrossedOutput(src, rcv, crossing, branch, disposition) =>
        var h, h' := [src, rcv, crossing], [b.src, b.rcv, b.crossing];
        var t, t' := [BranchTag(branch), DispositionTag(disposition)], [BranchTag(b.branch), DispositionTag(b.disposition)];
        TextsThenTagsEqual(h, t, h', t');
        assert h[0] == h'[0] && h[1] == h'[1] && h[2] == h'[2] && t[0] == t'[0] && t[1] == t'[1];
    }
  }

  // ---- Transcripts determine what was written ----

  lemma HeadEqual(p: Digest, m: U64, q: Digest, n: U64)
    requires LinkHead(p, m) == LinkHead(q, n)
    ensures p == q && m == n
  {
    assert LinkHead(p, m)[2] == LinkHead(q, n)[2] && LinkHead(p, m)[3] == LinkHead(q, n)[3];
    Widths();
    BigEndianInjective(m as nat, n as nat, 8);
  }

  /** A link transcript is uniquely decodable: it determines the predecessor, the sequence, the action
      and the command with its lists read as sets. */
  lemma LinkInjective(p: Digest, m: U64, c: CommandK, a: Action, q: Digest, n: U64, d: CommandK, b: Action)
    requires ShortTexts(CommandTexts(c)) && ShortTexts(ActionTexts(a)) && ShortTexts(CommandTexts(d)) && ShortTexts(ActionTexts(b))
    ensures LinkTranscript(p, m, c, a) == LinkTranscript(q, n, d, b) <==> p == q && m == n && c == d && a == b
  {
    if LinkTranscript(p, m, c, a) == LinkTranscript(q, n, d, b) {
      LinkParts(p, m, c, a);
      LinkParts(q, n, d, b);
      FitHead(p, m);
      FitHead(q, n);
      FitCommand(c);
      FitCommand(d);
      FitAction(a);
      FitAction(b);
      var r, s := Encode(ActionTokens(a)) + [], Encode(ActionTokens(b)) + [];
      Decodable(LinkHead(p, m), LinkHead(q, n), HeadKinds(), Encode(CommandTokens(c)) + r, Encode(CommandTokens(d)) + s);
      HeadEqual(p, m, q, n);
      Decodable(CommandTokens(c), CommandTokens(d), [Tagged(CommandCases())], r, s);
      Decodable(ActionTokens(a), ActionTokens(b), [Tagged(ActionCases())], [], []);
      TagsEqual([CommandTag(c)], [CommandTag(d)], CommandFields(c), CommandFields(d));
      TagsEqual([ActionTag(a)], [ActionTag(b)], ActionFields(a), ActionFields(b));
      assert [CommandTag(c)][0] == [CommandTag(d)][0] && [ActionTag(a)][0] == [ActionTag(b)][0];
      CommandEqual(c, d);
      ActionEqual(a, b);
    }
  }

  // ---- Longer texts ----

  function LongGrantor(): CommandK {
    Command.Delegate(Zeros(TWO_TO_THE_32), [])
  }

  function LongGrantee(): CommandK {
    Command.Delegate([], Zeros(TWO_TO_THE_32))
  }

  lemma ZerosAppend(m: nat, n: nat)
    ensures Zeros(m) + Zeros(n) == Zeros(m + n)
  {
  }

  lemma NoLength()
    ensures BigEndian(0, 4) == Zeros(4)
  {
    assert BigEndian(0, 1) == BigEndian(0, 0) + [0];
    assert BigEndian(0, 2) == BigEndian(0, 1) + [0];
    assert BigEndian(0, 3) == BigEndian(0, 2) + [0];
  }

  /** A text of 2^32 bytes wraps its length to that of the empty text. */
  lemma LongTextIsUnmarked(n: nat)
    requires n % TWO_TO_THE_32 == 0
    ensures EncodeToken(Str(Zeros(n))) == Zeros(n + 4)
  {
    NoLength();
    ZerosAppend(4, n);
  }

  /** Beyond the bound two different commands do share a transcript: the length of a text is truncated to
      32 bits, so that a text of that many zeros and an empty one can change places. */
  lemma LongTextsCollide(p: Digest, n: U64, a: Action)
    ensures LongGrantor() != LongGrantee()
    ensures LinkTranscript(p, n, LongGrantor(), a) == LinkTranscript(p, n, LongGrantee(), a)
  {
    hide Zeros, BigEndian;
    var z := Zeros(TWO_TO_THE_32);
    assert z != [] == Zeros(0);
    EncodePair(z, []);
    EncodePair([], z);
    LongTextIsUnmarked(0);
    LongTextIsUnmarked(TWO_TO_THE_32);
    ZerosAppend(4, TWO_TO_THE_32 + 4);
    ZerosAppend(TWO_TO_THE_32 + 4, 4);
    SameFields(p, n, LongGrantor(), LongGrantee(), a);
  }

  lemma EncodeOne(token: Token)
    ensures Encode([token]) == EncodeToken(token)
  {
    assert Encode([token]) == EncodeToken(token) + Encode([]);
  }

  lemma EncodePair(t: Text, u: Text)
    ensures Encode(Texts([t, u])) == EncodeToken(Str(t)) + EncodeToken(Str(u))
  {
    assert Texts([t, u]) == [Str(t)] + [Str(u)];
    EncodeAppend([Str(t)], [Str(u)]);
    EncodeOne(Str(t));
    EncodeOne(Str(u));
  }

  lemma SameFields(p: Digest, n: U64, c: CommandK, d: CommandK, a: Action)
    requires CommandTag(c) == CommandTag(d) && Encode(CommandFields(c)) == Encode(CommandFields(d))
    ensures LinkTranscript(p, n, c, a) == LinkTranscript(p, n, d, a)
  {
    hide CommandFields, LinkHead, ActionTokens;
    EncodeAppend(LinkHead(p, n), CommandTokens(c) + ActionTokens(a));
    EncodeAppend(LinkHead(p, n), CommandTokens(d) + ActionTokens(a));
    EncodeAppend(CommandTokens(c), ActionTokens(a));
    EncodeAppend(CommandTokens(d), ActionTokens(a));
    EncodeAppend(Tags([CommandTag(c)]), CommandFields(c));
    EncodeAppend(Tags([CommandTag(d)]), CommandFields(d));
  }

  lemma LinkParts(p: Digest, m: U64, c: CommandK, a: Action)
    ensures LinkTranscript(p, m, c, a)
         == Encode(LinkHead(p, m)) + (Encode(CommandTokens(c)) + (Encode(ActionTokens(a)) + []))
  {
    EncodeAppend(LinkHead(p, m), CommandTokens(c) + ActionTokens(a));
    EncodeAppend(CommandTokens(c), ActionTokens(a));
    assert Encode(ActionTokens(a)) + [] == Encode(ActionTokens(a));
  }

  lemma CeilingParts(m: map<EgressKind, ConfLevel>, r: seq<Token>)
    ensures CeilingTokens(m) + r
         == OptionalTag(CeilingTag(m, NetworkExternal))
            + (OptionalTag(CeilingTag(m, NetworkInternal))
               + (OptionalTag(CeilingTag(m, FilesystemWrite)) + (OptionalTag(CeilingTag(m, Ipc)) + r)))
  {
    FourParts(OptionalTag(CeilingTag(m, NetworkExternal)), OptionalTag(CeilingTag(m, NetworkInternal)),
              OptionalTag(CeilingTag(m, FilesystemWrite)), OptionalTag(CeilingTag(m, Ipc)), r);
  }

  lemma FourParts<T>(a: seq<T>, b: seq<T>, c: seq<T>, d: seq<T>, r: seq<T>)
    ensures (a + (b + (c + d))) + r == a + (b + (c + (d + r)))
  {
    Associative(a, b + (c + d), r);
    Associative(b, c + d, r);
    Associative(c, d, r);
  }

  lemma FourEqual(a: Option<Byte>, b: Option<Byte>, c: Option<Byte>, d: Option<Byte>, r: seq<Token>,
                  a': Option<Byte>, b': Option<Byte>, c': Option<Byte>, d': Option<Byte>, s: seq<Token>)
    requires OptionalTag(a) + (OptionalTag(b) + (OptionalTag(c) + (OptionalTag(d) + r)))
          == OptionalTag(a') + (OptionalTag(b') + (OptionalTag(c') + (OptionalTag(d') + s)))
    ensures a == a' && b == b' && c == c' && d == d' && r == s
  {
    OptionalTagEqual(a, a', OptionalTag(b) + (OptionalTag(c) + (OptionalTag(d) + r)), OptionalTag(b') + (OptionalTag(c') + (OptionalTag(d') + s)));
    OptionalTagEqual(b, b', OptionalTag(c) + (OptionalTag(d) + r), OptionalTag(c') + (OptionalTag(d') + s));
    OptionalTagEqual(c, c', OptionalTag(d) + r, OptionalTag(d') + s);
    OptionalTagEqual(d, d', r, s);
  }

  lemma CeilingTagsEqual(m: map<EgressKind, ConfLevel>, n: map<EgressKind, ConfLevel>, r: seq<Token>, s: seq<Token>)
    requires CeilingTokens(m) + r == CeilingTokens(n) + s
    ensures m == n && r == s
  {
    CeilingParts(m, r);
    CeilingParts(n, s);
    FourEqual(CeilingTag(m, NetworkExternal), CeilingTag(m, NetworkInternal), CeilingTag(m, FilesystemWrite), CeilingTag(m, Ipc), r,
              CeilingTag(n, NetworkExternal), CeilingTag(n, NetworkInternal), CeilingTag(n, FilesystemWrite), CeilingTag(n, Ipc), s);
    forall e: EgressKind ensures CeilingTag(m, e) == CeilingTag(n, e) {
      match e
      case NetworkExternal =>
      case NetworkInternal =>
      case FilesystemWrite =>
      case Ipc =>
    }
    CeilingsEqual(m, n);
  }

  lemma CeilingsEqual(m: map<EgressKind, ConfLevel>, n: map<EgressKind, ConfLevel>)
    requires forall e: EgressKind :: CeilingTag(m, e) == CeilingTag(n, e)
    ensures m == n
  {
    forall e: EgressKind ensures (e in m <==> e in n) && (e in m ==> m[e] == n[e]) {
      assert CeilingTag(m, e) == CeilingTag(n, e);
    }
  }

  /** A genesis transcript determines the mode and all eight ceilings. */
  lemma GenesisInjective(bg: Background, bh: Background)
    ensures GenesisTranscript(bg) == GenesisTranscript(bh)
       <==> bg.mode == bh.mode && bg.allowCeiling == bh.allowCeiling && bg.inspectCeiling == bh.inspectCeiling
  {
    if GenesisTranscript(bg) == GenesisTranscript(bh) {
      FitGenesis(bg);
      FitGenesis(bh);
      Decodable(GenesisTokens(bg), GenesisTokens(bh), GenesisKinds(), [], []);
      GenesisTokensEqual(bg, bh);
    }
  }

  lemma GenesisTokensEqual(bg: Background, bh: Background)
    requires GenesisTokens(bg) == GenesisTokens(bh)
    ensures bg.mode == bh.mode && bg.allowCeiling == bh.allowCeiling && bg.inspectCeiling == bh.inspectCeiling
  {
    var c, d := CeilingTokens(bg.allowCeiling) + CeilingTokens(bg.inspectCeiling), CeilingTokens(bh.allowCeiling) + CeilingTokens(bh.inspectCeiling);
    var t, u := Tags([ModeTag(bg.mode)]) + c, Tags([ModeTag(bh.mode)]) + d;
    Split([Raw(GENESIS_DOMAIN)], Number(VERSION) + (Texts([ROOT]) + t), [Raw(GENESIS_DOMAIN)], Number(VERSION) + (Texts([ROOT]) + u));
    Split(Number(VERSION), Texts([ROOT]) + t, Number(VERSION), Texts([ROOT]) + u);
    TextsEqual([ROOT], [ROOT], t, u);
    TagsEqual([ModeTag(bg.mode)], [ModeTag(bh.mode)], c, d);
    assert [ModeTag(bg.mode)][0] == [ModeTag(bh.mode)][0];
    CeilingTagsEqual(bg.allowCeiling, bh.allowCeiling, CeilingTokens(bg.inspectCeiling), CeilingTokens(bh.inspectCeiling));
    assert CeilingTokens(bg.inspectCeiling) + [] == CeilingTokens(bg.inspectCeiling);
    assert CeilingTokens(bh.inspectCeiling) + [] == CeilingTokens(bh.inspectCeiling);
    CeilingTagsEqual(bg.inspectCeiling, bh.inspectCeiling, [], []);
  }

  /** The two domains keep a genesis apart from every link. */
  lemma GenesisIsNoLink(bg: Background, p: Digest, m: U64, c: CommandK, a: Action)
    ensures GenesisTranscript(bg) != LinkTranscript(p, m, c, a)
  {
    hide Encode, CommandTokens, ActionTokens, CeilingTokens, BigEndian;
    var g, l := GenesisTokens(bg), LinkTokens(p, m, c, a);
    assert g[0] == Raw(GENESIS_DOMAIN) && l[0] == Raw(ENVELOPE_DOMAIN);
    BeginsWith(g, GENESIS_DOMAIN, 8);
    BeginsWith(l, ENVELOPE_DOMAIN, 8);
  }

  lemma BeginsWith(ts: seq<Token>, bytes: seq<Byte>, i: nat)
    requires ts != [] && ts[0] == Raw(bytes) && i < |bytes|
    ensures i < |Encode(ts)| && Encode(ts)[i] == bytes[i]
  {
    assert Encode(ts) == bytes + Encode(ts[1..]);
  }
}
