/**
  What the profile never stops: giving things back. Tools are unregistered and agents revoked whenever
  the kernel allows it, in-flight invocations can always be closed, and every live instance can be
  drained while it has sequence numbers left.
*/
module Releases {
  import opened Types
  import opened Spec
  import opened Collections
  import opened Kernel
  import opened Transitions
  import opened Invariants
  import opened Capacity
  import opened Reservations
  import opened History
  import opened HashChains
  import Excesses
  import Encoding

  ghost function Now(hash: Hash, bg: Background, cmds: seq<CommandV>): Replica {
    Live(hash, bg, cmds).replica
  }

  /** Every live kernel is within the profile and satisfies the invariant. */
  lemma LiveIsSound(hash: Hash, bg: Background, cmds: seq<CommandV>)
    requires bg.rootAgent == ROOT
    ensures StateOk(Now(hash, bg, cmds).kernel) && Inv(Now(hash, bg, cmds).kernel, bg)
  {
    hide StateOk, Inv, Live, Run;
    LiveFits(hash, bg, cmds);
    LiveIsARun(hash, bg, cmds);
    RunInv(bg, KernelCommands(Live(hash, bg, cmds).envelopes));
  }

  /** A live instance accepts what its kernel accepts, as long as it has sequence left, exactly if the
      next state fits and the idle reservations do. */
  lemma LiveAcceptsExactly(hash: Hash, bg: Background, cmds: seq<CommandV>, c: CommandV)
    requires bg.rootAgent == ROOT && CommandFits(c) && SequenceLeft(Now(hash, bg, cmds).sequence)
    requires Step(Now(hash, bg, cmds).kernel, bg, CommandOf(c)).Accepted?
    ensures var s := Now(hash, bg, cmds).kernel;
            ApplyStep(hash, bg, Now(hash, bg, cmds), c).Ok? <==> StateOk(Next(s, bg, c)) && Spare(s, bg, c)
  {
    hide StateOk, Inv, Live, CommandFits, Spare, Step, Capacity.Preflight, NeedsInvariant;
    LiveIsSound(hash, bg, cmds);
    PreflightExact(Now(hash, bg, cmds).kernel, bg, Now(hash, bg, cmds).sequence, c);
  }

  predicate IsRelease(c: CommandV) {
    c.UnregisterTool? || c.Revoke? || c.CascadeRevoke?
  }

  /** The profile never stands in the way of a revocation, cascading or not, or of an unregistration. */
  lemma ReleaseIsNeverBlocked(hash: Hash, bg: Background, cmds: seq<CommandV>, c: CommandV)
    requires bg.rootAgent == ROOT && CommandFits(c) && SequenceLeft(Now(hash, bg, cmds).sequence) && IsRelease(c)
    ensures ApplyStep(hash, bg, Now(hash, bg, cmds), c).Ok? <==> Step(Now(hash, bg, cmds).kernel, bg, CommandOf(c)).Accepted?
  {
    hide StateOk, Inv, Live, CommandFits, PostFits, Step;
    LiveIsSound(hash, bg, cmds);
    ReleaseReservesNothing(Now(hash, bg, cmds).kernel, c);
  }

  // ---- Revoking ----

  /** The command that revokes an agent: by its parent, or by cascade once the parent is gone. */
  ghost function RevocationOf(s: State, a: AgentId): CommandV
    requires a in s.parent
  {
    if s.parent[a] in s.active then Command.Revoke(s.parent[a], a) else Command.CascadeRevoke(a, s.parent[a])
  }

  lemma RevocationStep(s: State, bg: Background, a: AgentId)
    requires bg.rootAgent == ROOT && Inv(s, bg) && a in s.active && a != ROOT
    ensures a in s.parent
    ensures var r := Step(s, bg, CommandOf(RevocationOf(s, a))); r.Accepted? && r.next == Clear(s, a)
  {
    hide Clear, CapTree, Clean, Admitted, Evidenced, HeldConfined, PairConfined, Acyclic;
  }

  lemma RevocationFits(s: State, a: AgentId)
    requires StateOk(s) && a in s.active && a in s.parent
    ensures CommandFits(RevocationOf(s, a))
  {
    hide OuterShape, NestedShape, TextCost;
    assert ParentTexts(a, s.parent[a])[1] == s.parent[a];
    RetainedTextsAreSmall(s, a);
    RetainedTextsAreSmall(s, s.parent[a]);
  }

  /** Every agent but root can be revoked, at any time, and takes its records and challenges along. */
  lemma AgentsCanBeRevoked(hash: Hash, bg: Background, cmds: seq<CommandV>, a: AgentId)
    requires bg.rootAgent == ROOT && SequenceLeft(Now(hash, bg, cmds).sequence)
    requires a in Now(hash, bg, cmds).kernel.active && a != ROOT
    ensures var current := Now(hash, bg, cmds);
            && a in current.kernel.parent
            && var r := ApplyStep(hash, bg, current, RevocationOf(current.kernel, a));
            && r.Ok? && r.value.next.kernel == Clear(current.kernel, a)
  {
    hide StateOk, Inv, Live, CommandFits, Step, CommandOf, Clear, Capacity.Preflight;
    var current := Now(hash, bg, cmds);
    LiveIsSound(hash, bg, cmds);
    RevocationStep(current.kernel, bg, a);
    RevocationFits(current.kernel, a);
    ReleaseIsNeverBlocked(hash, bg, cmds, RevocationOf(current.kernel, a));
  }

  // ---- Settling ----

  /** An attestation id of at most two bytes is always left. */
  lemma FreshAttestation(spent: set<AttestationId>) returns (id: AttestationId)
    requires |spent| <= MAX_CONSUMED_ATTESTATIONS
    ensures id !in spent && |id| <= MAX_OPAQUE_UTF8_BYTES
  {
    hide Excesses.Names;
    var ids := Excesses.Names(MAX_CONSUMED_ATTESTATIONS, 2);
    Excesses.NamesSize(MAX_CONSUMED_ATTESTATIONS, 2);
    Excesses.UnusedName([], MAX_CONSUMED_ATTESTATIONS);
    if ids + {[]} <= spent {
      SubsetCardinality(ids + {[]}, spent);
      assert false;
    }
    id :| id in ids + {[]} && id !in spent;
    if id != [] {
      var i := Excesses.NamesBelow(MAX_CONSUMED_ATTESTATIONS, 2, id);
    }
  }

  /** The evidence that a record's settlement demands: none, unless it is quarantined. */
  function EvidenceFor(j: PendingK, inv: InvocationId, outcome: Outcome, id: AttestationId): Option<ResolutionAttestation> {
    if j.quarantined then Some(ResolutionAttestation(id, inv, outcome)) else None
  }

  /** In a state that satisfies the invariant every record can be settled either way, with fresh evidence
      if it is quarantined, and is gone afterwards. */
  lemma RecordsSettle(s: State, bg: Background, inv: InvocationId, outcome: Outcome, id: AttestationId)
    requires Inv(s, bg) && inv in s.pending && outcome != Ambiguous && id !in s.consumedAttestations
    ensures var r := SettleStep(s, inv, outcome, EvidenceFor(s.pending[inv], inv, outcome, id));
            r.Accepted? && inv !in r.next.pending
  {
    hide Tree, CapTree, Evidenced, HeldConfined, PairConfined, Extend;
  }

  /** Every in-flight invocation of a live instance can be settled as far as its kernel is concerned. */
  lemma InFlightCanBeSettled(hash: Hash, bg: Background, cmds: seq<CommandV>, inv: InvocationId, outcome: Outcome)
    returns (res: Option<ResolutionAttestation>)
    requires bg.rootAgent == ROOT && inv in Now(hash, bg, cmds).kernel.pending && outcome != Ambiguous
    ensures CommandFits(Command.SettleInvocation(inv, outcome, res))
    ensures res.Some? <==> Now(hash, bg, cmds).kernel.pending[inv].quarantined
    ensures var r := SettleStep(Now(hash, bg, cmds).kernel, inv, outcome, res); r.Accepted? && inv !in r.next.pending
  {
    hide Inv, Live, NestedShape, TextCost, SettleStep;
    LiveIsSound(hash, bg, cmds);
    var s := Now(hash, bg, cmds).kernel;
    var id := FreshAttestation(s.consumedAttestations);
    res := EvidenceFor(s.pending[inv], inv, outcome, id);
    RecordsSettle(s, bg, inv, outcome, id);
    assert PendingTexts(inv, s.pending[inv])[0] == inv;
    RetainedTextsAreSmall(s, inv);
  }

  /** The profile blocks a settlement exactly when the attestations are spent that it needs, or when the
      text budget has no room for two keys and the evidence, although the settlement may free text. */
  lemma SettlementIsBlockedExactly(hash: Hash, bg: Background, cmds: seq<CommandV>, inv: InvocationId, outcome: Outcome,
                                   res: Option<ResolutionAttestation>)
    requires bg.rootAgent == ROOT && SequenceLeft(Now(hash, bg, cmds).sequence)
    requires CommandFits(Command.SettleInvocation(inv, outcome, res))
    requires SettleStep(Now(hash, bg, cmds).kernel, inv, outcome, res).Accepted?
    ensures var s := Now(hash, bg, cmds).kernel;
            && inv in s.pending
            && var a := s.pending[inv].agent;
            && (ApplyStep(hash, bg, Now(hash, bg, cmds), Command.SettleInvocation(inv, outcome, res)).Ok?
                <==> && (res.Some? ==> |s.consumedAttestations| < MAX_CONSUMED_ATTESTATIONS)
                     && TextRoom(s, [a, a] + (if res.Some? then [res.value.id] else [])))
  {
    hide StateOk, Inv, Live, CommandFits, TextRoom, SettleStep, Capacity.Preflight;
    LiveIsSound(hash, bg, cmds);
    SettlementPreflight(Now(hash, bg, cmds).kernel, bg, Now(hash, bg, cmds).sequence, inv, outcome, res);
  }

  lemma SettlementPreflight(s: State, bg: Background, sequence: U64, inv: InvocationId, outcome: Outcome,
                            res: Option<ResolutionAttestation>)
    requires StateOk(s) && Inv(s, bg) && SequenceLeft(sequence) && CommandFits(Command.SettleInvocation(inv, outcome, res))
    requires SettleStep(s, inv, outcome, res).Accepted?
    ensures inv in s.pending
    ensures var a := s.pending[inv].agent;
            && (Capacity.Preflight(s, sequence, Command.SettleInvocation(inv, outcome, res)).Pass?
                <==> && (res.Some? ==> |s.consumedAttestations| < MAX_CONSUMED_ATTESTATIONS)
                     && TextRoom(s, [a, a] + (if res.Some? then [res.value.id] else [])))
  {
    hide StateOk, Inv, CommandFits, TextCost, Costs, SettleStep, SettleShape;
    SettlementReserves(s, bg, inv, outcome, res);
  }

  lemma SettlementReserves(s: State, bg: Background, inv: InvocationId, outcome: Outcome, res: Option<ResolutionAttestation>)
    requires StateOk(s) && Inv(s, bg) && SettleStep(s, inv, outcome, res).Accepted?
    ensures inv in s.pending
    ensures SettleShape(s, inv, res.Some?) <==> (res.Some? ==> |s.consumedAttestations| < MAX_CONSUMED_ATTESTATIONS)
  {
    hide NestedShape, TextCost, LabelKeysFit, Tree, CapTree, Admitted, Evidenced, HeldConfined, PairConfined, Extend, Demote;
    LabelKeysAlwaysFit(s, s.pending[inv].agent);
  }

  // ---- Draining ----

  /** Nothing is left but root: no other agent, no record, no challenge, no tool. */
  ghost predicate Drained(s: State) {
    && s.active == {ROOT} && s.parent == map[]
    && s.pending == map[] && s.challenges == map[] && s.tools == {}
    && s.caps.Keys <= {ROOT} && s.taint.Keys <= {ROOT} && s.integ.Keys <= {ROOT}
  }

  lemma OnlyRoot(s: State, bg: Background)
    requires Inv(s, bg) && s.active <= {ROOT}
    ensures s.active == {ROOT} && s.parent == map[] && s.pending == map[] && s.challenges == map[]
    ensures s.caps.Keys <= {ROOT} && s.taint.Keys <= {ROOT} && s.integ.Keys <= {ROOT}
  {
    hide Acyclic, CapTree, Evidenced, HeldConfined, PairConfined, FlowOk;
    assert s.parent.Keys == {};
  }

  lemma RevocationShrinks(s: State, a: AgentId)
    requires a in s.active && a in s.parent
    ensures IsRelease(RevocationOf(s, a)) && |Clear(s, a).active| == |s.active| - 1 && Clear(s, a).tools == s.tools
  {
    hide DropPending, DropChallenges, DropGrants;
    assert s.active == s.active - {a} + {a};
  }

  lemma UnregisterIdle(hash: Hash, bg: Background, cmds: seq<CommandV>, tool: ToolId)
    requires bg.rootAgent == ROOT && SequenceLeft(Now(hash, bg, cmds).sequence)
    requires var s := Now(hash, bg, cmds).kernel; s.pending == map[] && s.challenges == map[] && tool in s.tools
    ensures var r := ApplyStep(hash, bg, Now(hash, bg, cmds), UnregisterTool(tool));
            && r.Ok?
            && r.value.next.kernel == Now(hash, bg, cmds).kernel.(tools := Now(hash, bg, cmds).kernel.tools - {tool})
  {
    hide Inv, Live, OuterShape, NestedShape, TextCost, Capacity.Preflight;
    LiveIsSound(hash, bg, cmds);
    RetainedTextsAreSmall(Now(hash, bg, cmds).kernel, tool);
    ReleaseIsNeverBlocked(hash, bg, cmds, UnregisterTool(tool));
  }

  /** From every live instance with enough sequence left, one release after another is accepted until
      nothing is left but root. */
  lemma {:induction false} LiveDrains(hash: Hash, bg: Background, cmds: seq<CommandV>) returns (more: seq<CommandV>)
    requires bg.rootAgent == ROOT
    requires var current := Now(hash, bg, cmds);
             current.sequence as int + |current.kernel.active| + |current.kernel.tools| <= MAX_ACCEPTED_SEQUENCE
    ensures forall c | c in more :: IsRelease(c)
    ensures |Live(hash, bg, cmds + more).envelopes| == |Live(hash, bg, cmds).envelopes| + |more|
    ensures |more| + 1 == |Now(hash, bg, cmds).kernel.active| + |Now(hash, bg, cmds).kernel.tools|
    ensures Drained(Now(hash, bg, cmds + more).kernel)
    decreases |Now(hash, bg, cmds).kernel.active| + |Now(hash, bg, cmds).kernel.tools|, 1
  {
    hide Inv, Live, StateOk, ApplyStep, Clear, RevocationOf;
    var s := Now(hash, bg, cmds).kernel;
    LiveIsSound(hash, bg, cmds);
    if a :| a in s.active && a != ROOT {
      assert SequenceLeft(Now(hash, bg, cmds).sequence) by { SubsetCardinality({a}, s.active); }
      AgentsCanBeRevoked(hash, bg, cmds, a);
      RevocationShrinks(s, a);
      more := DrainAfter(hash, bg, cmds, RevocationOf(s, a));
    } else {
      OnlyRoot(s, bg);
      if tool :| tool in s.tools {
        UnregisterIdle(hash, bg, cmds, tool);
        more := DrainAfter(hash, bg, cmds, UnregisterTool(tool));
      } else {
        more := [];
        assert cmds + more == cmds;
      }
    }
  }

  /** One accepted release, then the rest. */
  lemma {:induction false} DrainAfter(hash: Hash, bg: Background, cmds: seq<CommandV>, c: CommandV) returns (more: seq<CommandV>)
    requires bg.rootAgent == ROOT && IsRelease(c)
    requires var current := Now(hash, bg, cmds);
             current.sequence as int + |current.kernel.active| + |current.kernel.tools| <= MAX_ACCEPTED_SEQUENCE
    requires var r := ApplyStep(hash, bg, Now(hash, bg, cmds), c);
             && r.Ok?
             && |r.value.next.kernel.active| + |r.value.next.kernel.tools|
                == |Now(hash, bg, cmds).kernel.active| + |Now(hash, bg, cmds).kernel.tools| - 1
    ensures forall d | d in more :: IsRelease(d)
    ensures |Live(hash, bg, cmds + more).envelopes| == |Live(hash, bg, cmds).envelopes| + |more|
    ensures |more| + 1 == |Now(hash, bg, cmds).kernel.active| + |Now(hash, bg, cmds).kernel.tools|
    ensures Drained(Now(hash, bg, cmds + more).kernel)
    decreases |Now(hash, bg, cmds).kernel.active| + |Now(hash, bg, cmds).kernel.tools|, 0
  {
    hide Live, ApplyStep, Drained;
    LiveNext(hash, bg, cmds, c);
    EnvelopeSays(hash, bg, Now(hash, bg, cmds), c);
    var rest := LiveDrains(hash, bg, cmds + [c]);
    more := [c] + rest;
    assert cmds + more == cmds + [c] + rest;
  }
}
