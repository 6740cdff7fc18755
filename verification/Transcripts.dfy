/**
  The transcript writer: fields appended one after another to a growing sink. Its ghost token list says
  what has been written, and each method is proved to append exactly the canonical tokens.
*/
module Transcripts {
  import opened Types
  import opened Collections
  import opened Kernel
  import opened Transitions
  import opened Encoding
  import opened Chain
  import opened HashChains

  class Transcript {
    var sink: seq<Byte>
    ghost var tokens: seq<Token>

    ghost predicate Valid()
      reads this
    {
      sink == Encode(tokens)
    }

    constructor ()
      ensures Valid() && tokens == []
    {
      sink := [];
      tokens := [];
    }

    method WriteBytes(value: seq<Byte>)
      requires Valid()
      modifies this
      ensures Valid() && tokens == old(tokens) + [Raw(value)]
    {
      EncodeNext(tokens, Raw(value));
      sink := sink + value;
      tokens := tokens + [Raw(value)];
    }

    method WriteU32(value: U32)
      requires Valid()
      modifies this
      ensures Valid() && tokens == old(tokens) + Number(value)
    {
      WriteBytes(BigEndian(value as nat, 4));
    }

    method WriteU64(value: U64)
      requires Valid()
      modifies this
      ensures Valid() && tokens == old(tokens) + [Raw(BigEndian(value as nat, 8))]
    {
      WriteBytes(BigEndian(value as nat, 8));
    }

    method WriteText(value: Text)
      requires Valid()
      modifies this
      ensures Valid() && tokens == old(tokens) + Texts([value])
    {
      EncodeNext(tokens, Str(value));
      sink := sink + BigEndian(|value| % TWO_TO_THE_32, 4);
      sink := sink + value;
      tokens := tokens + [Str(value)];
      assert Texts([value]) == [Str(value)];
    }

    /** Fields that are texts. */
    method WriteTexts(values: seq<Text>)
      requires Valid()
      modifies this
      ensures Valid() && tokens == old(tokens) + Texts(values)
    {
      var i := 0;
      while i < |values|
        invariant 0 <= i <= |values|
        invariant Valid() && tokens == old(tokens) + Texts(values[..i])
      {
        assert Texts(values[..i + 1]) == Texts(values[..i]) + Texts([values[i]]);
        Associative(old(tokens), Texts(values[..i]), Texts([values[i]]));
        WriteText(values[i]);
        i := i + 1;
      }
      assert values[..i] == values;
    }

    /** Fields that are enumeration tags or Booleans. */
    method WriteTags(values: seq<Byte>)
      requires Valid()
      modifies this
      ensures Valid() && tokens == old(tokens) + Tags(values)
    {
      var i := 0;
      while i < |values|
        invariant 0 <= i <= |values|
        invariant Valid() && tokens == old(tokens) + Tags(values[..i])
      {
        assert Tags(values[..i + 1]) == Tags(values[..i]) + [Raw([values[i]])];
        Associative(old(tokens), Tags(values[..i]), [Raw([values[i]])]);
        WriteBytes([values[i]]);
        i := i + 1;
      }
      assert values[..i] == values;
    }

    /** A list: its length, then its tags one by one. */
    method WriteList(tags: seq<Byte>)
      requires Valid()
      modifies this
      ensures Valid() && tokens == old(tokens) + Texts([tags])
    {
      EncodeNext(tokens, Str(tags));
      ghost var prefix := BigEndian(|tags| % TWO_TO_THE_32, 4);
      sink := sink + BigEndian(|tags| % TWO_TO_THE_32, 4);
      ghost var begun := sink;
      var i := 0;
      while i < |tags|
        invariant 0 <= i <= |tags| && sink == begun + tags[..i] && tokens == old(tokens)
      {
        assert tags[..i + 1] == tags[..i] + [tags[i]];
        sink := sink + [tags[i]];
        i := i + 1;
      }
      assert tags[..i] == tags;
      Associative(old(sink), prefix, tags);
      tokens := tokens + [Str(tags)];
      assert Texts([tags]) == [Str(tags)];
    }

    method WriteCaps(values: seq<CapKind>)
      requires Valid()
      modifies this
      ensures Valid() && tokens == old(tokens) + Texts([Listing(CapTags(AsSet(values)))])
    {
      var tags := seq(|values|, i requires 0 <= i < |values| => CapTag(values[i]));
      CapTagsOf(values, tags);
      var normalized := NormalizeTags(tags);
      WriteList(normalized);
    }

    method WriteEgress(values: seq<EgressKind>)
      requires Valid()
      modifies this
      ensures Valid() && tokens == old(tokens) + Texts([Listing(EgressTags(AsSet(values)))])
    {
      var tags := seq(|values|, i requires 0 <= i < |values| => EgressTag(values[i]));
      EgressTagsOf(values, tags);
      var normalized := NormalizeTags(tags);
      WriteList(normalized);
    }

    method WriteOptionalTag(value: Option<Byte>)
      requires Valid()
      modifies this
      ensures Valid() && tokens == old(tokens) + OptionalTag(value)
    {
      ghost var before := tokens;
      if value.Some? {
        WriteTags([1]);
        WriteTags([value.value]);
        Associative(before, Tags([1]), Tags([value.value]));
      } else {
        WriteTags([0]);
      }
    }

    method WriteOptionalText(value: Option<Text>)
      requires Valid()
      modifies this
      ensures Valid() && tokens == old(tokens) + OptionalText(value)
    {
      ghost var before := tokens;
      if value.Some? {
        WriteTags([1]);
        WriteText(value.value);
        Associative(before, Tags([1]), Texts([value.value]));
      } else {
        WriteTags([0]);
      }
    }

    /** Texts, then tags. */
    method WriteTextsThenTags(texts: seq<Text>, tags: seq<Byte>)
      requires Valid()
      modifies this
      ensures Valid() && tokens == old(tokens) + (Texts(texts) + Tags(tags))
    {
      ghost var before := tokens;
      WriteTexts(texts);
      WriteTags(tags);
      Associative(before, Texts(texts), Tags(tags));
    }

    method WriteOptionalResolution(value: Option<ResolutionAttestation>)
      requires Valid()
      modifies this
      ensures Valid() && tokens == old(tokens) + OptionalResolution(value)
    {
      ghost var before := tokens;
      if value.Some? {
        var r := value.value;
        WriteTags([1]);
        WriteTextsThenTags([r.id, r.inv], [OutcomeTag(r.outcome)]);
        Associative(before, Tags([1]), Texts([r.id, r.inv]) + Tags([OutcomeTag(r.outcome)]));
      } else {
        WriteTags([0]);
      }
    }

    method WriteOptionalEvidence(value: Option<ConformanceAttestation>)
      requires Valid()
      modifies this
      ensures Valid() && tokens == old(tokens) + OptionalEvidence(value)
    {
      ghost var before := tokens;
      if value.Some? {
        var e := value.value;
        WriteTags([1]);
        WriteTextsThenTags(EvidenceTexts(e), [BoolTag(e.positive)]);
        Associative(before, Tags([1]), Texts(EvidenceTexts(e)) + Tags([BoolTag(e.positive)]));
      } else {
        WriteTags([0]);
      }
    }

    method WritePolicy(p: PolicyV)
      requires Valid()
      modifies this
      ensures Valid() && tokens == old(tokens) + PolicyTokens(PolicyOf(p))
    {
      ghost var before := tokens;
      ghost var caps, egress := Listing(CapTags(AsSet(p.requiredCaps))), Listing(EgressTags(AsSet(p.declaredEgress)));
      var levels := [ConfTag(p.confClearance), IntegTag(p.integFloor), IntegTag(p.integInspect), ConfTag(p.outputConf), IntegTag(p.outputInteg)];
      WriteText(p.tool);
      WriteCaps(p.requiredCaps);
      TwoTexts(before, p.tool, caps);
      WriteTags(levels);
      ghost var middle := tokens;
      WriteEgress(p.declaredEgress);
      WriteText(p.policyDigest);
      TwoTexts(middle, egress, p.policyDigest);
      ThreeParts(before, Texts([p.tool, caps]), Tags(levels), Texts([egress, p.policyDigest]));
    }

    method WriteBegin(a: AgentId, inv: InvocationId, chal: ChallengeId, p: PolicyV, egress: seq<EgressKind>, ah: ContentHash, authorized: bool)
      requires Valid()
      modifies this
      ensures Valid()
      ensures tokens == old(tokens) + CommandFields(Command.BeginInvocation(a, inv, chal, PolicyOf(p), AsSet(egress), ah, authorized))
    {
      ghost var before := tokens;
      ghost var kinds := Listing(EgressTags(AsSet(egress)));
      WriteTexts([a, inv, chal]);
      WritePolicy(p);
      ghost var middle := tokens;
      WriteEgress(egress);
      WriteText(ah);
      TwoTexts(middle, kinds, ah);
      WriteTags([BoolTag(authorized)]);
      Associative(middle, Texts([kinds, ah]), Tags([BoolTag(authorized)]));
      ThreeParts(before, Texts([a, inv, chal]), PolicyTokens(PolicyOf(p)), Texts([kinds, ah]) + Tags([BoolTag(authorized)]));
    }

    method WriteCross(q: CrossInput)
      requires Valid()
      modifies this
      ensures Valid() && tokens == old(tokens) + CrossTokens(q)
    {
      ghost var before := tokens;
      ghost var a := Texts([q.src, q.rcv, q.crossing, q.outputHash, q.descriptor]);
      ghost var b := Tags([FallbackTag(q.fallback), IntegTag(q.tInteg)]);
      ghost var c := OptionalTag(OptionalLevel(q.tConf));
      ghost var d := Texts([q.assignment]);
      ghost var e := OptionalEvidence(q.evidence);
      ghost var f := Tags([ConfTag(q.releasedConf), IntegTag(q.releasedInteg)]);
      WriteTexts([q.src, q.rcv, q.crossing, q.outputHash, q.descriptor]);
      WriteTags([FallbackTag(q.fallback), IntegTag(q.tInteg)]);
      WriteOptionalTag(OptionalLevel(q.tConf));
      WriteText(q.assignment);
      WriteOptionalEvidence(q.evidence);
      WriteTags([ConfTag(q.releasedConf), IntegTag(q.releasedInteg)]);
      ThreeParts(before + a + b + c, d, e, f);
      ThreeParts(before + a, b, c, d + (e + f));
      Associative(before, a, b + (c + (d + (e + f))));
    }

    method WriteIngest(agent: AgentId, src: Option<AgentId>, tags: seq<Byte>)
      requires Valid()
      modifies this
      ensures Valid() && tokens == old(tokens) + (Texts([agent]) + (OptionalText(src) + Tags(tags)))
    {
      ghost var before := tokens;
      WriteText(agent);
      WriteOptionalText(src);
      WriteTags(tags);
      ThreeParts(before, Texts([agent]), OptionalText(src), Tags(tags));
    }

    method WriteGrant(texts: seq<Text>, n: U32)
      requires Valid()
      modifies this
      ensures Valid() && tokens == old(tokens) + (Texts(texts) + Number(n))
    {
      ghost var before := tokens;
      WriteTexts(texts);
      WriteU32(n);
      Associative(before, Texts(texts), Number(n));
    }

    method WriteSettle(inv: InvocationId, outcome: Outcome, res: Option<ResolutionAttestation>)
      requires Valid()
      modifies this
      ensures Valid()
      ensures tokens == old(tokens) + (Texts([inv]) + (Tags([OutcomeTag(outcome)]) + OptionalResolution(res)))
    {
      ghost var before := tokens;
      WriteText(inv);
      WriteTags([OutcomeTag(outcome)]);
      WriteOptionalResolution(res);
      ThreeParts(before, Texts([inv]), Tags([OutcomeTag(outcome)]), OptionalResolution(res));
    }

    method WriteCommandFields(c: CommandV)
      requires Valid()
      modifies this
      ensures Valid() && tokens == old(tokens) + CommandFields(CommandOf(c))
    {
      match c
      case RegisterTool(tool) => WriteTexts([tool]);
      case UnregisterTool(tool) => WriteTexts([tool]);
      case Delegate(grantor, grantee) => WriteTexts([grantor, grantee]);
      case GrantCapability(parent, child, cap) => WriteTextsThenTags([parent, child], [CapTag(cap)]);
      case GrantCrossing(grantor, agent, assignment, n) => WriteGrant([grantor, agent, assignment], n);
      case Revoke(parent, target) => WriteTexts([parent, target]);
      case CascadeRevoke(child, parent) => WriteTexts([child, parent]);
      case Ingest(agent, src, pconf, pinteg) => WriteIngest(agent, src, [ConfTag(pconf), IntegTag(pinteg)]);
      case BeginInvocation(a, inv, chal, p, egress, ah, authorized) => WriteBegin(a, inv, chal, p, egress, ah, authorized);
      case AuthorizeInspected(inv, att) =>
        WriteTextsThenTags([inv, att.id, att.inv, att.challenge, att.argsHash, att.policyDigest], [BoolTag(att.positive)]);
      case SettleInvocation(inv, outcome, res) => WriteSettle(inv, outcome, res);
      case CrossOutput(q) => WriteCross(q);
    }

    method WriteCommand(c: CommandV)
      requires Valid()
      modifies this
      ensures Valid() && tokens == old(tokens) + CommandTokens(CommandOf(c))
    {
      ghost var before := tokens;
      SameTag(c);
      WriteTags([CommandTag(c)]);
      WriteCommandFields(c);
      Associative(before, Tags([CommandTag(c)]), CommandFields(CommandOf(c)));
    }

    method WriteSettled(texts: seq<Text>, tags: seq<Byte>, res: Option<AttestationId>)
      requires Valid()
      modifies this
      ensures Valid() && tokens == old(tokens) + (Texts(texts) + (Tags(tags) + OptionalText(res)))
    {
      ghost var before := tokens;
      WriteTexts(texts);
      WriteTags(tags);
      WriteOptionalText(res);
      ThreeParts(before, Texts(texts), Tags(tags), OptionalText(res));
    }

    method WriteActionFields(a: Action)
      requires Valid()
      modifies this
      ensures Valid() && tokens == old(tokens) + ActionFields(a)
    {
      match a
      case RegisteredTool(tool) => WriteTexts([tool]);
      case UnregisteredTool(tool) => WriteTexts([tool]);
      case Delegated(grantor, grantee) => WriteTexts([grantor, grantee]);
      case GrantedCapability(parent, child, cap) => WriteTextsThenTags([parent, child], [CapTag(cap)]);
      case GrantedCrossing(grantor, agent, assignment, n) => WriteGrant([grantor, agent, assignment], n);
      case Revoked(parent, target) => WriteTexts([parent, target]);
      case CascadeRevoked(child, parent) => WriteTexts([child, parent]);
      case Ingested(agent, src, pconf, pinteg, disposition) =>
        WriteIngest(agent, src, [ConfTag(pconf), IntegTag(pinteg), DispositionTag(disposition)]);
      case BeganInvocation(agent, inv, tool, verdict, authorized) =>
        WriteTextsThenTags([agent, inv, tool], [VerdictTag(verdict), BoolTag(authorized)]);
      case AuthorizedInspected(inv, id, admitted) => WriteTextsThenTags([inv, id], [BoolTag(admitted)]);
      case SettledInvocation(inv, agent, disposition, outcome, clvl, ilvl, res) =>
        WriteSettled([inv, agent], [DispositionTag(disposition), OutcomeTag(outcome), ConfTag(clvl), IntegTag(ilvl)], res);
      case CrossedOutput(src, rcv, crossing, branch, disposition) =>
        WriteTextsThenTags([src, rcv, crossing], [BranchTag(branch), DispositionTag(disposition)]);
    }

    method WriteAction(a: Action)
      requires Valid()
      modifies this
      ensures Valid() && tokens == old(tokens) + ActionTokens(a)
    {
      ghost var before := tokens;
      WriteTags([ActionTag(a)]);
      WriteActionFields(a);
      Associative(before, Tags([ActionTag(a)]), ActionFields(a));
    }

    method WriteCeilings(ceiling: map<EgressKind, ConfLevel>)
      requires Valid()
      modifies this
      ensures Valid() && tokens == old(tokens) + CeilingTokens(ceiling)
    {
      ghost var before := tokens;
      var a, b, c, d := CeilingTag(ceiling, NetworkExternal), CeilingTag(ceiling, NetworkInternal),
                        CeilingTag(ceiling, FilesystemWrite), CeilingTag(ceiling, Ipc);
      WriteOptionalTag(a);
      WriteOptionalTag(b);
      WriteOptionalTag(c);
      WriteOptionalTag(d);
      ThreeParts(before + OptionalTag(a), OptionalTag(b), OptionalTag(c), OptionalTag(d));
      Associative(before, OptionalTag(a), OptionalTag(b) + (OptionalTag(c) + OptionalTag(d)));
    }

    method WriteGenesis(bg: Background)
      requires Valid()
      modifies this
      ensures Valid() && tokens == old(tokens) + GenesisTokens(bg)
    {
      ghost var before := tokens;
      WriteBytes(GENESIS_DOMAIN);
      WriteU32(VERSION);
      WriteText(ROOT);
      WriteTags([ModeTag(bg.mode)]);
      WriteCeilings(bg.allowCeiling);
      WriteCeilings(bg.inspectCeiling);
      ghost var a, b, c := [Raw(GENESIS_DOMAIN)], Number(VERSION), Texts([ROOT]);
      ghost var d, e, f := Tags([ModeTag(bg.mode)]), CeilingTokens(bg.allowCeiling), CeilingTokens(bg.inspectCeiling);
      ThreeParts(before + a + b + c, d, e, f);
      ThreeParts(before + a, b, c, d + (e + f));
      Associative(before, a, b + (c + (d + (e + f))));
    }

    method WriteLink(previous: Digest, sequence: U64, c: CommandV, a: Action)
      requires Valid()
      modifies this
      ensures Valid() && tokens == old(tokens) + LinkTokens(previous, sequence, CommandOf(c), a)
    {
      ghost var before := tokens;
      ghost var number := [Raw(BigEndian(sequence as nat, 8))];
      WriteBytes(ENVELOPE_DOMAIN);
      WriteU32(VERSION);
      WriteBytes(previous);
      WriteU64(sequence);
      Associative(before + [Raw(ENVELOPE_DOMAIN)] + Number(VERSION), [Raw(previous)], number);
      assert [Raw(previous)] + number == [Raw(previous), Raw(BigEndian(sequence as nat, 8))];
      ThreeParts(before, [Raw(ENVELOPE_DOMAIN)], Number(VERSION), [Raw(previous), Raw(BigEndian(sequence as nat, 8))]);
      WriteCommand(c);
      WriteAction(a);
      ThreeParts(before, LinkHead(previous, sequence), CommandTokens(CommandOf(c)), ActionTokens(a));
    }
  }

  lemma TwoTexts(before: seq<Token>, t: Text, u: Text)
    ensures before + Texts([t]) + Texts([u]) == before + Texts([t, u])
  {
    assert Texts([t]) + Texts([u]) == Texts([t, u]);
    Associative(before, Texts([t]), Texts([u]));
  }

  lemma ThreeParts<T>(before: seq<T>, a: seq<T>, b: seq<T>, c: seq<T>)
    ensures before + a + b + c == before + (a + (b + c))
  {
    Associative(before + a, b, c);
    Associative(before, a, b + c);
  }

  lemma CapTagsOf(values: seq<CapKind>, tags: seq<Byte>)
    requires |tags| == |values| && forall i | 0 <= i < |values| :: tags[i] == CapTag(values[i])
    ensures AsSet(tags) == CapTags(AsSet(values))
  {
    forall x | x in CapTags(AsSet(values)) ensures x in tags {
      var c :| c in values && x == CapTag(c);
      var i :| 0 <= i < |values| && values[i] == c;
      assert tags[i] == x;
    }
    forall x | x in tags ensures x in CapTags(AsSet(values)) {
      var i :| 0 <= i < |tags| && tags[i] == x;
      assert values[i] in AsSet(values);
    }
  }

  lemma EgressTagsOf(values: seq<EgressKind>, tags: seq<Byte>)
    requires |tags| == |values| && forall i | 0 <= i < |values| :: tags[i] == EgressTag(values[i])
    ensures AsSet(tags) == EgressTags(AsSet(values))
  {
    forall x | x in EgressTags(AsSet(values)) ensures x in tags {
      var e :| e in values && x == EgressTag(e);
      var i :| 0 <= i < |values| && values[i] == e;
      assert tags[i] == x;
    }
    forall x | x in tags ensures x in EgressTags(AsSet(values)) {
      var i :| 0 <= i < |tags| && tags[i] == x;
      assert values[i] in AsSet(values);
    }
  }

  lemma SameTag(c: CommandV)
    ensures CommandTag(c) == CommandTag(CommandOf(c))
  {
  }

  /** The genesis digest of a background. */
  method Genesis(hash: Hash, bg: Background) returns (digest: Digest)
    ensures digest == hash(GenesisTranscript(bg))
  {
    var out := new Transcript();
    out.WriteGenesis(bg);
    assert [] + GenesisTokens(bg) == GenesisTokens(bg);
    digest := hash(out.sink);
  }

  /** The digest of one link. */
  method Link(hash: Hash, previous: Digest, sequence: U64, c: CommandV, a: Action) returns (digest: Digest)
    ensures digest == hash(LinkTranscript(previous, sequence, CommandOf(c), a))
  {
    var out := new Transcript();
    out.WriteLink(previous, sequence, c, a);
    assert [] + LinkTokens(previous, sequence, CommandOf(c), a) == LinkTokens(previous, sequence, CommandOf(c), a);
    digest := hash(out.sink);
  }
}
