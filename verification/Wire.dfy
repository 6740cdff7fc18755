/**
  The bytes that are hashed. The transcript of a genesis and of a link, written out field by field, for every
  input; and the two transcripts that the implementation pins as constants.
*/
module Wire {
  import opened Types
  import opened Encoding
  import opened Chain
  import opened HashChains

  // ---- Fields ----

  /** Four bytes, the most significant first. */
  function Word(n: nat): seq<Byte> {
    [(n / 0x100_0000 % 256) as Byte, (n / 0x1_0000 % 256) as Byte, (n / 0x100 % 256) as Byte, (n % 256) as Byte]
  }

  /** Eight bytes. */
  function LongWord(n: nat): seq<Byte> {
    Word(n / 0x1_0000_0000) + Word(n % 0x1_0000_0000)
  }

  /** A text after its length. */
  function Field(t: seq<Byte>): seq<Byte> {
    Word(|t| % 0x1_0000_0000) + t
  }

  /** Texts one after the other. */
  function Fields(ts: seq<Text>): seq<Byte> {
    if ts == [] then [] else Field(ts[0]) + Fields(ts[1..])
  }

  function Optional<T>(o: Option<T>, bytes: T -> seq<Byte>): seq<Byte> {
    match o
    case None => [0]
    case Some(x) => [1] + bytes(x)
  }

  // ---- Commands, actions, backgrounds ----

  function ResolutionBytes(r: ResolutionAttestation): seq<Byte> {
    Fields([r.id, r.inv]) + [OutcomeTag(r.outcome)]
  }

  function EvidenceBytes(e: ConformanceAttestation): seq<Byte> {
    Fields([e.id, e.output, e.src, e.rcv, e.descriptor, e.assignment]) + [BoolTag(e.positive)]
  }

  function LevelBytes(l: ConfLevel): seq<Byte> {
    [ConfTag(l)]
  }

  /** The set-valued fields are lists of tags in increasing order. */
  ghost function PolicyBytes(p: PolicyK): seq<Byte> {
    Fields([p.tool, Listing(CapTags(p.requiredCaps))])
    + ([ConfTag(p.confClearance), IntegTag(p.integFloor), IntegTag(p.integInspect), ConfTag(p.outputConf), IntegTag(p.outputInteg)]
       + Fields([Listing(EgressTags(p.declaredEgress)), p.policyDigest]))
  }

  ghost function CrossBytes(q: CrossInput): seq<Byte> {
    Fields([q.src, q.rcv, q.crossing, q.outputHash, q.descriptor])
    + ([FallbackTag(q.fallback), IntegTag(q.tInteg)]
       + (Optional(q.tConf, LevelBytes)
          + (Fields([q.assignment])
             + (Optional(q.evidence, EvidenceBytes) + [ConfTag(q.releasedConf), IntegTag(q.releasedInteg)]))))
  }

  ghost function CommandBytes(c: CommandK): seq<Byte> {
    match c
    case RegisterTool(tool) => [0] + Fields([tool])
    case UnregisterTool(tool) => [1] + Fields([tool])
    case Delegate(grantor, grantee) => [2] + Fields([grantor, grantee])
    case GrantCapability(parent, child, cap) => [3] + (Fields([parent, child]) + [CapTag(cap)])
    case GrantCrossing(grantor, agent, assignment, n) => [4] + (Fields([grantor, agent, assignment]) + Word(n as nat))
    case Revoke(parent, target) => [5] + Fields([parent, target])
    case CascadeRevoke(child, parent) => [6] + Fields([child, parent])
    case Ingest(agent, src, pconf, pinteg) => [7] + (Fields([agent]) + (Optional(src, Field) + [ConfTag(pconf), IntegTag(pinteg)]))
    case BeginInvocation(agent, inv, chal, policy, egress, ah, authorized) =>
      [8] + (Fields([agent, inv, chal])
             + (PolicyBytes(policy) + (Fields([Listing(EgressTags(egress)), ah]) + [BoolTag(authorized)])))
    case AuthorizeInspected(inv, att) =>
      [9] + (Fields([inv, att.id, att.inv, att.challenge, att.argsHash, att.policyDigest]) + [BoolTag(att.positive)])
    case SettleInvocation(inv, outcome, res) => [10] + (Fields([inv]) + ([OutcomeTag(outcome)] + Optional(res, ResolutionBytes)))
    case CrossOutput(q) => [11] + CrossBytes(q)
  }

  function ActionBytes(a: Action): seq<Byte> {
    match a
    case RegisteredTool(tool) => [0] + Fields([tool])
    case UnregisteredTool(tool) => [1] + Fields([tool])
    case Delegated(grantor, grantee) => [2] + Fields([grantor, grantee])
    case GrantedCapability(parent, child, cap) => [3] + (Fields([parent, child]) + [CapTag(cap)])
    case GrantedCrossing(grantor, agent, assignment, n) => [4] + (Fields([grantor, agent, assignment]) + Word(n as nat))
    case Revoked(parent, target) => [5] + Fields([parent, target])
    case CascadeRevoked(child, parent) => [6] + Fields([child, parent])
    case Ingested(agent, src, pconf, pinteg, disposition) =>
      [7] + (Fields([agent]) + (Optional(src, Field) + [ConfTag(pconf), IntegTag(pinteg), DispositionTag(disposition)]))
    case BeganInvocation(agent, inv, tool, verdict, authorized) =>
      [8] + (Fields([agent, inv, tool]) + [VerdictTag(verdict), BoolTag(authorized)])
    case AuthorizedInspected(inv, id, admitted) => [9] + (Fields([inv, id]) + [BoolTag(admitted)])
    case SettledInvocation(inv, agent, disposition, outcome, clvl, ilvl, res) =>
      [10] + (Fields([inv, agent])
              + ([DispositionTag(disposition), OutcomeTag(outcome), ConfTag(clvl), IntegTag(ilvl)] + Optional(res, Field)))
    case CrossedOutput(src, rcv, crossing, branch, disposition) =>
      [11] + (Fields([src, rcv, crossing]) + [BranchTag(branch), DispositionTag(disposition)])
  }

  function CeilingOf(ceiling: map<EgressKind, ConfLevel>, e: EgressKind): Option<ConfLevel> {
    if e in ceiling then Some(ceiling[e]) else None
  }

  function CeilingBytes(ceiling: map<EgressKind, ConfLevel>): seq<Byte> {
    Optional(CeilingOf(ceiling, NetworkExternal), LevelBytes)
    + (Optional(CeilingOf(ceiling, NetworkInternal), LevelBytes)
       + (Optional(CeilingOf(ceiling, FilesystemWrite), LevelBytes) + Optional(CeilingOf(ceiling, Ipc), LevelBytes)))
  }

  // ---- Every tag is a position in its vocabulary ----

  lemma TagsEnumerate(v: Verdict, d: Disposition, m: Mode, o: Outcome, f: Fallback, b: CrossBranch)
    ensures [Allow, InspectionRequired, Deny][VerdictTag(v)] == v
    ensures [Permitted, Blocked, MonitorBypassed][DispositionTag(d)] == d
    ensures [Enforce, Monitor][ModeTag(m)] == m
    ensures [Success, Failure, Ambiguous][OutcomeTag(o)] == o
    ensures [FallbackFail, ReleaseUnendorsed][FallbackTag(f)] == f
    ensures [Endorsed, Unendorsed, BranchFail][BranchTag(b)] == b
  {
  }

  lemma LevelTagsEnumerate(l: ConfLevel, m: IntegLevel, e: EgressKind, b: bool)
    ensures [Public, Internal, Sensitive, Restricted][ConfTag(l)] == l
    ensures [Untrusted, Standard, Trusted, Attested][IntegTag(m)] == m
    ensures [NetworkExternal, NetworkInternal, FilesystemWrite, Ipc][EgressTag(e)] == e
    ensures [false, true][BoolTag(b)] == b
  {
  }

  // ---- Encoding the tokens yields these bytes ----

  lemma BigEndianIsWord(n: nat)
    requires n < 0x1_0000_0000
    ensures BigEndian(n, 4) == Word(n)
  {
    assert BigEndian(n / 0x100_0000, 1) == BigEndian(n / 0x100_0000 / 256, 0) + [(n / 0x100_0000 % 256) as Byte];
    assert n / 0x1_0000 / 256 == n / 0x100_0000;
    assert BigEndian(n / 0x1_0000, 2) == BigEndian(n / 0x100_0000, 1) + [(n / 0x1_0000 % 256) as Byte];
    assert n / 0x100 / 256 == n / 0x1_0000;
    assert BigEndian(n / 0x100, 3) == BigEndian(n / 0x1_0000, 2) + [(n / 0x100 % 256) as Byte];
    assert BigEndian(n, 4) == BigEndian(n / 0x100, 3) + [(n % 256) as Byte];
  }

  lemma EncodeTags(bs: seq<Byte>)
    ensures Encode(Tags(bs)) == bs
  {
    if bs != [] {
      assert Tags(bs)[1..] == Tags(bs[1..]);
      EncodeTags(bs[1..]);
      assert bs == [bs[0]] + bs[1..];
    }
  }

  lemma EncodeTexts(ts: seq<Text>)
    ensures Encode(Texts(ts)) == Fields(ts)
  {
    hide BigEndian;
    if ts != [] {
      assert Texts(ts)[1..] == Texts(ts[1..]);
      EncodeTexts(ts[1..]);
      BigEndianIsWord(|ts[0]| % TWO_TO_THE_32);
    }
  }

  lemma EncodeNumber(n: U32)
    ensures Encode(Number(n)) == Word(n as nat)
  {
    EncodeOne(Raw(BigEndian(n as nat, 4)));
    BigEndianIsWord(n as nat);
  }

  lemma OneField(a: Text)
    ensures Fields([a]) == Field(a)
  {
    hide Field;
    assert [a][1..] == [];
  }

  lemma EncodeTextsTags(ts: seq<Text>, bs: seq<Byte>)
    ensures Encode(Texts(ts) + Tags(bs)) == Fields(ts) + bs
  {
    hide Encode, Fields;
    EncodeAppend(Texts(ts), Tags(bs));
    EncodeTexts(ts);
    EncodeTags(bs);
  }

  lemma EncodeOptionalText(o: Option<Text>)
    ensures Encode(OptionalText(o)) == Optional(o, Field)
  {
    hide Encode, Field;
    EncodeTags([0]);
    EncodeTags([1]);
    if o.Some? {
      EncodeAppend(Tags([1]), Texts([o.value]));
      EncodeTexts([o.value]);
      OneField(o.value);
    }
  }

  lemma EncodeOptionalLevel(o: Option<ConfLevel>)
    ensures Encode(OptionalTag(OptionalLevel(o))) == Optional(o, LevelBytes)
  {
    hide Encode;
    EncodeTags([0]);
    EncodeTags([1]);
    if o.Some? {
      EncodeAppend(Tags([1]), Tags([ConfTag(o.value)]));
      EncodeTags([ConfTag(o.value)]);
    }
  }

  lemma EncodeOptionalResolution(o: Option<ResolutionAttestation>)
    ensures Encode(OptionalResolution(o)) == Optional(o, ResolutionBytes)
  {
    hide Encode, Field, Fields;
    EncodeTags([0]);
    EncodeTags([1]);
    if o.Some? {
      var r := o.value;
      EncodeAppend(Tags([1]), Texts([r.id, r.inv]) + Tags([OutcomeTag(r.outcome)]));
      EncodeTextsTags([r.id, r.inv], [OutcomeTag(r.outcome)]);
    }
  }

  lemma EncodeOptionalEvidence(o: Option<ConformanceAttestation>)
    ensures Encode(OptionalEvidence(o)) == Optional(o, EvidenceBytes)
  {
    hide Encode, Field, Fields;
    EncodeTags([0]);
    EncodeTags([1]);
    if o.Some? {
      var e := o.value;
      EncodeAppend(Tags([1]), Texts(EvidenceTexts(e)) + Tags([BoolTag(e.positive)]));
      EncodeTextsTags(EvidenceTexts(e), [BoolTag(e.positive)]);
    }
  }

  lemma EncodePolicy(p: PolicyK)
    ensures Encode(PolicyTokens(p)) == PolicyBytes(p)
  {
    hide Encode, Field, Fields, Listing, CapTags, EgressTags;
    var caps, egress := Listing(CapTags(p.requiredCaps)), Listing(EgressTags(p.declaredEgress));
    var tags := [ConfTag(p.confClearance), IntegTag(p.integFloor), IntegTag(p.integInspect), ConfTag(p.outputConf), IntegTag(p.outputInteg)];
    EncodeAppend(Texts([p.tool, caps]), Tags(tags) + Texts([egress, p.policyDigest]));
    EncodeAppend(Tags(tags), Texts([egress, p.policyDigest]));
    EncodeTexts([p.tool, caps]);
    EncodeTags(tags);
    EncodeTexts([egress, p.policyDigest]);
  }

  lemma EncodeBegin(c: CommandK)
    requires c.BeginInvocation?
    ensures [8] + Encode(CommandFields(c)) == CommandBytes(c)
  {
    hide Encode, Field, Fields, Listing, EgressTags, PolicyTokens, PolicyBytes;
    var egress := Listing(EgressTags(c.egress));
    var rest := Texts([egress, c.argsHash]) + Tags([BoolTag(c.authorized)]);
    EncodeAppend(Texts([c.agent, c.inv, c.challenge]), PolicyTokens(c.policy) + rest);
    EncodeAppend(PolicyTokens(c.policy), rest);
    EncodePolicy(c.policy);
    EncodeTexts([c.agent, c.inv, c.challenge]);
    EncodeTextsTags([egress, c.argsHash], [BoolTag(c.authorized)]);
  }

  lemma EncodeCross(q: CrossInput)
    ensures Encode(CrossTokens(q)) == CrossBytes(q)
  {
    hide Encode, Field, Fields, OptionalTag, OptionalLevel, OptionalEvidence, EvidenceBytes, LevelBytes, Optional;
    var head := [q.src, q.rcv, q.crossing, q.outputHash, q.descriptor];
    var tags, last := [FallbackTag(q.fallback), IntegTag(q.tInteg)], [ConfTag(q.releasedConf), IntegTag(q.releasedInteg)];
    var level, evidence := OptionalTag(OptionalLevel(q.tConf)), OptionalEvidence(q.evidence);
    EncodeAppend(Texts(head), Tags(tags) + (level + (Texts([q.assignment]) + (evidence + Tags(last)))));
    EncodeAppend(Tags(tags), level + (Texts([q.assignment]) + (evidence + Tags(last))));
    EncodeAppend(level, Texts([q.assignment]) + (evidence + Tags(last)));
    EncodeAppend(Texts([q.assignment]), evidence + Tags(last));
    EncodeAppend(evidence, Tags(last));
    EncodeTexts(head);
    EncodeTags(tags);
    EncodeOptionalLevel(q.tConf);
    EncodeTexts([q.assignment]);
    EncodeOptionalEvidence(q.evidence);
    EncodeTags(last);
  }

  lemma EncodePlainCommand(c: CommandK)
    requires c.RegisterTool? || c.UnregisterTool? || c.Delegate? || c.GrantCapability? || c.GrantCrossing? || c.Revoke? || c.CascadeRevoke?
    ensures [CommandTag(c)] + Encode(CommandFields(c)) == CommandBytes(c)
  {
    hide Encode, Field, Fields, Word;
    match c
    case RegisterTool(tool) => EncodeTexts([tool]);
    case UnregisterTool(tool) => EncodeTexts([tool]);
    case Delegate(a, b) => EncodeTexts([a, b]);
    case GrantCapability(a, b, cap) => EncodeTextsTags([a, b], [CapTag(cap)]);
    case GrantCrossing(a, b, d, n) =>
      EncodeAppend(Texts([a, b, d]), Number(n));
      EncodeTexts([a, b, d]);
      EncodeNumber(n);
    case Revoke(a, b) => EncodeTexts([a, b]);
    case CascadeRevoke(a, b) => EncodeTexts([a, b]);
  }

  lemma EncodeCommand(c: CommandK)
    ensures Encode(CommandTokens(c)) == CommandBytes(c)
  {
    hide Encode, Field, Fields, Optional, OptionalResolution, OptionalText, CrossTokens, CrossBytes, PolicyTokens, PolicyBytes, ResolutionBytes;
    EncodeAppend(Tags([CommandTag(c)]), CommandFields(c));
    EncodeTags([CommandTag(c)]);
    match c
    case Ingest(agent, src, pconf, pinteg) =>
      var tags := [ConfTag(pconf), IntegTag(pinteg)];
      EncodeAppend(Texts([agent]), OptionalText(src) + Tags(tags));
      EncodeAppend(OptionalText(src), Tags(tags));
      EncodeTexts([agent]);
      EncodeOptionalText(src);
      EncodeTags(tags);
    case BeginInvocation(_, _, _, _, _, _, _) => EncodeBegin(c);
    case AuthorizeInspected(inv, att) =>
      EncodeTextsTags([inv, att.id, att.inv, att.challenge, att.argsHash, att.policyDigest], [BoolTag(att.positive)]);
    case SettleInvocation(inv, outcome, res) =>
      EncodeAppend(Texts([inv]), Tags([OutcomeTag(outcome)]) + OptionalResolution(res));
      EncodeAppend(Tags([OutcomeTag(outcome)]), OptionalResolution(res));
      EncodeTexts([inv]);
      EncodeTags([OutcomeTag(outcome)]);
      EncodeOptionalResolution(res);
    case CrossOutput(q) => EncodeCross(q);
    case _ => EncodePlainCommand(c);
  }

  lemma EncodePlainAction(a: Action)
    requires ActionTag(a) <= 6
    ensures [ActionTag(a)] + Encode(ActionFields(a)) == ActionBytes(a)
  {
    hide Encode, Field, Fields, Word;
    match a
    case RegisteredTool(tool) => EncodeTexts([tool]);
    case UnregisteredTool(tool) => EncodeTexts([tool]);
    case Delegated(x, y) => EncodeTexts([x, y]);
    case GrantedCapability(x, y, cap) => EncodeTextsTags([x, y], [CapTag(cap)]);
    case GrantedCrossing(x, y, d, n) =>
      EncodeAppend(Texts([x, y, d]), Number(n));
      EncodeTexts([x, y, d]);
      EncodeNumber(n);
    case Revoked(x, y) => EncodeTexts([x, y]);
    case CascadeRevoked(x, y) => EncodeTexts([x, y]);
  }

  lemma EncodeAction(a: Action)
    ensures Encode(ActionTokens(a)) == ActionBytes(a)
  {
    hide Encode, Field, Fields, Optional, OptionalText;
    EncodeAppend(Tags([ActionTag(a)]), ActionFields(a));
    EncodeTags([ActionTag(a)]);
    match a
    case Ingested(agent, src, pconf, pinteg, disposition) =>
      var tags := [ConfTag(pconf), IntegTag(pinteg), DispositionTag(disposition)];
      EncodeAppend(Texts([agent]), OptionalText(src) + Tags(tags));
      EncodeAppend(OptionalText(src), Tags(tags));
      EncodeTexts([agent]);
      EncodeOptionalText(src);
      EncodeTags(tags);
    case BeganInvocation(agent, inv, tool, verdict, authorized) =>
      EncodeTextsTags([agent, inv, tool], [VerdictTag(verdict), BoolTag(authorized)]);
    case AuthorizedInspected(inv, id, admitted) => EncodeTextsTags([inv, id], [BoolTag(admitted)]);
    case SettledInvocation(inv, agent, disposition, outcome, clvl, ilvl, res) =>
      var tags := [DispositionTag(disposition), OutcomeTag(outcome), ConfTag(clvl), IntegTag(ilvl)];
      EncodeAppend(Texts([inv, agent]), Tags(tags) + OptionalText(res));
      EncodeAppend(Tags(tags), OptionalText(res));
      EncodeTexts([inv, agent]);
      EncodeTags(tags);
      EncodeOptionalText(res);
    case CrossedOutput(src, rcv, crossing, branch, disposition) =>
      EncodeTextsTags([src, rcv, crossing], [BranchTag(branch), DispositionTag(disposition)]);
    case _ => EncodePlainAction(a);
  }

  lemma Bytewise(q: nat, r: nat)
    requires r < 256
    ensures (q * 256 + r) / 256 == q && (q * 256 + r) % 256 == r
  {
  }

  lemma Regroup(h: nat, k: nat)
    requires k > 0
    ensures h * Pow256(k) == (h * Pow256(k - 1)) * 256
  {
  }

  /** The digits of a number are those of its high part and then those of its low part. */
  lemma {:induction false} SplitDigits(h: nat, l: nat, w: nat, k: nat)
    requires l < Pow256(k)
    ensures BigEndian(h * Pow256(k) + l, w + k) == BigEndian(h, w) + BigEndian(l, k)
  {
    if k > 0 {
      var m, q, r := h * Pow256(k - 1), l / 256, l % 256;
      Regroup(h, k);
      assert h * Pow256(k) + l == (m + q) * 256 + r;
      Bytewise(m + q, r);
      SplitDigits(h, q, w, k - 1);
    }
  }

  lemma BigEndianIsLongWord(n: nat)
    requires n < 0x1_0000_0000_0000_0000
    ensures BigEndian(n, 8) == LongWord(n)
  {
    hide BigEndian, Word;
    var high, low := n / 0x1_0000_0000, n % 0x1_0000_0000;
    Widths();
    SplitDigits(high, low, 4, 4);
    BigEndianIsWord(high);
    BigEndianIsWord(low);
  }

  /** The transcript of every link: domain, version 5, predecessor, sequence, command, action. */
  lemma LinkIs(previous: Digest, sequence: U64, c: CommandK, a: Action)
    ensures LinkTranscript(previous, sequence, c, a)
         == [69, 88, 65, 82, 71, 85, 83, 0, 69, 78, 86, 69, 76, 79, 80, 69, 0]
            + [0, 0, 0, 5] + previous + LongWord(sequence as nat) + (CommandBytes(c) + ActionBytes(a))
  {
    hide Encode, CommandTokens, ActionTokens, LongWord, CommandBytes, ActionBytes;
    EncodeAppend(LinkHead(previous, sequence), CommandTokens(c) + ActionTokens(a));
    EncodeAppend(CommandTokens(c), ActionTokens(a));
    EncodeCommand(c);
    EncodeAction(a);
    HeadIs(previous, sequence);
  }

  lemma HeadIs(previous: Digest, sequence: U64)
    ensures Encode(LinkHead(previous, sequence))
         == [69, 88, 65, 82, 71, 85, 83, 0, 69, 78, 86, 69, 76, 79, 80, 69, 0] + [0, 0, 0, 5] + previous + LongWord(sequence as nat)
  {
    hide Encode, LongWord, BigEndian;
    var number := BigEndian(sequence as nat, 8);
    EncodeAppend([Raw(ENVELOPE_DOMAIN)], Number(VERSION) + [Raw(previous), Raw(number)]);
    EncodeAppend(Number(VERSION), [Raw(previous), Raw(number)]);
    assert [Raw(previous), Raw(number)] == [Raw(previous)] + [Raw(number)];
    EncodeAppend([Raw(previous)], [Raw(number)]);
    EncodeOne(Raw(ENVELOPE_DOMAIN));
    EncodeOne(Raw(previous));
    EncodeOne(Raw(number));
    EncodeNumber(VERSION);
    BigEndianIsLongWord(sequence as nat);
  }

  lemma CeilingTagOf(ceiling: map<EgressKind, ConfLevel>, e: EgressKind)
    ensures CeilingTag(ceiling, e) == OptionalLevel(CeilingOf(ceiling, e))
    ensures Encode(OptionalTag(CeilingTag(ceiling, e))) == Optional(CeilingOf(ceiling, e), LevelBytes)
  {
    hide Encode;
    EncodeOptionalLevel(CeilingOf(ceiling, e));
  }

  lemma EncodeCeilings(ceiling: map<EgressKind, ConfLevel>)
    ensures Encode(CeilingTokens(ceiling)) == CeilingBytes(ceiling)
  {
    hide Encode, CeilingTag, CeilingOf, OptionalTag, Optional;
    var a, b := OptionalTag(CeilingTag(ceiling, NetworkExternal)), OptionalTag(CeilingTag(ceiling, NetworkInternal));
    var c, d := OptionalTag(CeilingTag(ceiling, FilesystemWrite)), OptionalTag(CeilingTag(ceiling, Ipc));
    EncodeAppend(a, b + (c + d));
    EncodeAppend(b, c + d);
    EncodeAppend(c, d);
    CeilingTagOf(ceiling, NetworkExternal);
    CeilingTagOf(ceiling, NetworkInternal);
    CeilingTagOf(ceiling, FilesystemWrite);
    CeilingTagOf(ceiling, Ipc);
  }

  /** The transcript of every genesis: domain, version 5, "root", mode, and the ceilings of the four channels. */
  lemma GenesisIs(bg: Background)
    ensures GenesisTranscript(bg)
         == [69, 88, 65, 82, 71, 85, 83, 0, 71, 69, 78, 69, 83, 73, 83, 0]
            + [0, 0, 0, 5] + [0, 0, 0, 4, 114, 111, 111, 116] + [ModeTag(bg.mode)]
            + (CeilingBytes(bg.allowCeiling) + CeilingBytes(bg.inspectCeiling))
  {
    hide Encode, CeilingTokens, CeilingBytes;
    var ceilings := CeilingTokens(bg.allowCeiling) + CeilingTokens(bg.inspectCeiling);
    EncodeAppend([Raw(GENESIS_DOMAIN)], Number(VERSION) + (Texts([ROOT]) + (Tags([ModeTag(bg.mode)]) + ceilings)));
    EncodeAppend(Number(VERSION), Texts([ROOT]) + (Tags([ModeTag(bg.mode)]) + ceilings));
    EncodeAppend(Texts([ROOT]), Tags([ModeTag(bg.mode)]) + ceilings);
    EncodeAppend(Tags([ModeTag(bg.mode)]), ceilings);
    EncodeAppend(CeilingTokens(bg.allowCeiling), CeilingTokens(bg.inspectCeiling));
    EncodeOne(Raw(GENESIS_DOMAIN));
    EncodeNumber(VERSION);
    EncodeTexts([ROOT]);
    OneField(ROOT);
    EncodeTags([ModeTag(bg.mode)]);
    EncodeCeilings(bg.allowCeiling);
    EncodeCeilings(bg.inspectCeiling);
  }

  // ---- The pinned transcripts ----

  /** The background whose genesis the implementation pins. */
  lemma PinnedGenesis(bg: Background)
    requires bg.mode == Monitor
    requires bg.allowCeiling == map[NetworkExternal := Internal, FilesystemWrite := Restricted, Ipc := Public]
    requires bg.inspectCeiling == map[NetworkExternal := Sensitive, NetworkInternal := Public, Ipc := Internal]
    ensures GenesisTranscript(bg)
         == [69, 88, 65, 82, 71, 85, 83, 0, 71, 69, 78, 69, 83, 73, 83, 0, 0, 0, 0, 5, 0, 0, 0, 4, 114, 111, 111, 116, 1,
             1, 1, 0, 1, 3, 1, 0, 1, 2, 1, 0, 0, 1, 1]
  {
    hide GenesisTranscript, CeilingBytes;
    GenesisIs(bg);
    FourCeilings(bg.allowCeiling, Some(Internal), None, Some(Restricted), Some(Public));
    FourCeilings(bg.inspectCeiling, Some(Sensitive), Some(Public), None, Some(Internal));
  }

  lemma FourCeilings(ceiling: map<EgressKind, ConfLevel>, a: Option<ConfLevel>, b: Option<ConfLevel>, c: Option<ConfLevel>,
                     d: Option<ConfLevel>)
    requires CeilingOf(ceiling, NetworkExternal) == a && CeilingOf(ceiling, NetworkInternal) == b
    requires CeilingOf(ceiling, FilesystemWrite) == c && CeilingOf(ceiling, Ipc) == d
    ensures CeilingBytes(ceiling) == Optional(a, LevelBytes) + (Optional(b, LevelBytes) + (Optional(c, LevelBytes) + Optional(d, LevelBytes)))
  {
    hide Optional, CeilingOf;
  }

  const INV: Text := [105, 110, 118]
  const OWNER: Text := [97, 103, 101, 110, 116]
  const RES: Text := [114, 101, 115]

  /** The settlement of "inv", owned by "agent", resolved by "res", whose link the implementation pins. */
  const PINNED_COMMAND: CommandK := Command.SettleInvocation(INV, Ambiguous, Some(ResolutionAttestation(RES, INV, Failure)))
  const PINNED_ACTION: Action := SettledInvocation(INV, OWNER, MonitorBypassed, Ambiguous, Sensitive, Trusted, Some(RES))

  lemma PinnedLink(previous: Digest)
    requires forall k | 0 <= k < 32 :: previous[k] as int == k
    ensures LinkTranscript(previous, 42, PINNED_COMMAND, PINNED_ACTION)
         == [69, 88, 65, 82, 71, 85, 83, 0, 69, 78, 86, 69, 76, 79, 80, 69, 0] + [0, 0, 0, 5]
            + [0, 1, 2, 3, 4, 5, 6, 7, 8, 9, 10, 11, 12, 13, 14, 15, 16, 17, 18, 19, 20, 21, 22, 23, 24, 25, 26, 27, 28, 29, 30, 31]
            + [0, 0, 0, 0, 0, 0, 0, 42]
            + ([10, 0, 0, 0, 3, 105, 110, 118, 2, 1, 0, 0, 0, 3, 114, 101, 115, 0, 0, 0, 3, 105, 110, 118, 1]
               + [10, 0, 0, 0, 3, 105, 110, 118, 0, 0, 0, 5, 97, 103, 101, 110, 116, 2, 2, 2, 2, 1, 0, 0, 0, 3, 114, 101, 115])
  {
    hide LinkTranscript, CommandBytes, ActionBytes;
    LinkIs(previous, 42, PINNED_COMMAND, PINNED_ACTION);
    assert previous == [0, 1, 2, 3, 4, 5, 6, 7, 8, 9, 10, 11, 12, 13, 14, 15, 16, 17, 18, 19, 20, 21, 22, 23, 24, 25, 26, 27, 28, 29, 30, 31];
    assert LongWord(42) == [0, 0, 0, 0, 0, 0, 0, 42];
    PinnedCommand();
    PinnedAction();
  }

  lemma PinnedFields()
    ensures Fields([INV]) == [0, 0, 0, 3, 105, 110, 118]
    ensures Fields([RES, INV]) == [0, 0, 0, 3, 114, 101, 115, 0, 0, 0, 3, 105, 110, 118]
    ensures Fields([INV, OWNER]) == [0, 0, 0, 3, 105, 110, 118, 0, 0, 0, 5, 97, 103, 101, 110, 116]
    ensures Field(RES) == [0, 0, 0, 3, 114, 101, 115]
  {
    assert [INV][1..] == [] && [OWNER][1..] == [] && [RES, INV][1..] == [INV] && [INV, OWNER][1..] == [OWNER];
  }

  lemma PinnedCommand()
    ensures CommandBytes(PINNED_COMMAND) == [10, 0, 0, 0, 3, 105, 110, 118, 2, 1, 0, 0, 0, 3, 114, 101, 115, 0, 0, 0, 3, 105, 110, 118, 1]
  {
    hide Fields, Field;
    PinnedFields();
  }

  lemma PinnedAction()
    ensures ActionBytes(PINNED_ACTION)
         == [10, 0, 0, 0, 3, 105, 110, 118, 0, 0, 0, 5, 97, 103, 101, 110, 116, 2, 2, 2, 2, 1, 0, 0, 0, 3, 114, 101, 115]
  {
    hide Fields, Field;
    PinnedFields();
    assert ActionBytes(PINNED_ACTION) == [10] + (Fields([INV, OWNER]) + ([2, 2, 2, 2] + ([1] + Field(RES))));
  }
}
