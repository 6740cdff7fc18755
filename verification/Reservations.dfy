/**
  How exact the preflight is. It never lets a command leave the profile; conversely it refuses some
  commands whose next state would have fitted. For every command, here is the exact condition under
  which the two agree, read off the state before the command.
*/
module Reservations {
  import opened Types
  import opened Spec
  import opened Collections
  import opened Kernel
  import opened Transitions
  import opened Invariants
  import opened Capacity

  ghost predicate TextRoom(s: State, ts: seq<Text>) {
    TextCost(s) + Costs(ts) <= MAX_RETAINED_UTF8_BYTES
  }

  /** The admission leaves a record at once: it was allowed, or the gate is only monitored. */
  ghost predicate PendsAtOnce(s: State, bg: Background, a: AgentId, p: PolicyK, egress: set<EgressKind>, authorized: bool) {
    bg.mode == Monitor || Gate(s, bg, a, p, egress, authorized, true)
  }

  /** The resolution of the challenge of `inv` leaves a record. */
  ghost predicate Resolves(s: State, bg: Background, inv: InvocationId, att: InspectionAttestation) {
    inv in s.challenges && att.positive && Spec.AuthorizeAdmits(s, bg, inv, s.challenges[inv])
  }

  /** Room for what the preflight of a command reserves although the command may not use it. Seven
      commands reserve nothing idle. A new balance for a bound key reserves a second key; an admission
      reserves both a record and a challenge; a resolution reserves a record even if it admits nothing;
      a settlement and a crossing reserve two label keys even if they are bound, and a settlement does
      not count the record it frees; a crossing reserves one more level than a receiver holds even if
      it releases none, and its evidence even if it is not endorsed. */
  ghost predicate Spare(s: State, bg: Background, c: CommandV) {
    match c
    case GrantCrossing(_, agent, assignment, _) =>
      CrossingKey(agent, assignment) in s.grants ==>
        |s.grants| < MAX_CROSSING_GRANTS && TextRoom(s, [agent, assignment])
    case BeginInvocation(agent, inv, chal, policy, egress, ah, authorized) =>
      if PendsAtOnce(s, bg, agent, PolicyOf(policy), AsSet(egress), authorized)
      then |s.challenges| < MAX_CHALLENGES && TextRoom(s, [inv, inv, agent, chal, policy.tool, policy.policyDigest, ah])
      else |s.pending| < MAX_PENDING
    case AuthorizeInspected(inv, att) =>
      && (!Resolves(s, bg, inv, att) ==> |s.pending| < MAX_PENDING)
      && TextRoom(s, PostTexts(s, c))
    case SettleInvocation(inv, _, _) => TextRoom(s, PostTexts(s, c))
    case CrossOutput(q) =>
      && |Of(s.taint, q.rcv)| < MAX_CONF_LEVELS
      && |Of(s.integ, q.rcv)| < MAX_INTEG_LEVELS
      && (q.evidence.Some? && !Spec.EndorsedOk(s, q) ==> |s.consumedAttestations| < MAX_CONSUMED_ATTESTATIONS)
      && TextRoom(s, PostTexts(s, c))
    case _ => true
  }

  ghost function Next(s: State, bg: Background, c: CommandV): State
    requires Step(s, bg, CommandOf(c)).Accepted?
  {
    Step(s, bg, CommandOf(c)).next
  }

  // ---- Exact growth of one collection ----

  lemma PutFresh<K, V>(m: map<K, V>, k: K, v: V, texts: (K, V) -> seq<Text>)
    requires k !in m
    ensures |m[k := v]| == |m| + 1
    ensures MapCost(m[k := v], texts) == MapCost(m, texts) + Costs(texts(k, v))
  {
    hide Costs;
    assert m[k := v].Keys == m.Keys + {k};
    MapCostPick(m[k := v], k, texts);
    assert m[k := v] - {k} == m;
  }

  lemma AddFresh(s: set<Text>, x: Text)
    requires x !in s
    ensures |s + {x}| == |s| + 1 && SetCost(s + {x}) == SetCost(s) + Cost(x)
  {
    hide Cost;
    SetCostPick(s + {x}, x);
    assert s + {x} - {x} == s;
  }

  lemma NoText()
    ensures Costs([]) == 0
  {
  }

  /** Inserting something at `a` binds `a`, and nothing else. */
  lemma ExtendExact<T>(m: map<AgentId, set<T>>, a: AgentId, levels: set<T>)
    requires levels != {}
    ensures |Extend(m, a, levels)| == KeysWith(m, a)
    ensures LabelCost(Extend(m, a, levels)) == LabelCost(m) + (if a in m then 0 else Cost(a))
  {
    hide MapCost, Costs;
    var v := Of(m, a) + levels;
    assert KeyTexts(a, v) == [a];
    OneText(a);
    if a in m {
      assert m[a := v].Keys == m.Keys;
      assert KeyTexts(a, m[a]) == [a];
      MapCostLe(m[a := v], KeyTexts, m, KeyTexts);
      MapCostLe(m, KeyTexts, m[a := v], KeyTexts);
    } else {
      PutFresh(m, a, v, KeyTexts);
    }
  }

  // ---- The commands that reserve nothing idle ----

  lemma RegisterExact(s: State, tool: ToolId)
    requires RegisterToolStep(s, tool).Accepted? && StateOk(RegisterToolStep(s, tool).next)
    ensures PostFits(s, RegisterTool(tool))
  {
    hide MapCost, SetCost, Costs, NestedShape;
    AddFresh(s.tools, tool);
    OneText(tool);
  }

  lemma DelegateExact(s: State, bg: Background, grantor: AgentId, grantee: AgentId)
    requires bg.rootAgent == ROOT && Owning(s) && DelegateStep(s, bg, grantor, grantee).Accepted?
    requires StateOk(DelegateStep(s, bg, grantor, grantee).next)
    ensures PostFits(s, Command.Delegate(grantor, grantee))
  {
    hide MapCost, SetCost, Costs, NestedShape, Owning, DelegateStep;
    DelegateOnlyAdds(s, bg, grantor, grantee);
    AddFresh(s.active, grantee);
    PutFresh(s.parent, grantee, grantor, ParentTexts);
    assert ParentTexts(grantee, grantor) == [grantee, grantor];
    assert [grantee, grantee, grantor] == [grantee] + [grantee, grantor];
    CostsCons(grantee, [grantee, grantor]);
  }

  lemma GrantCapabilityExact(s: State, parent: AgentId, child: AgentId, cap: CapKind)
    requires GrantCapabilityStep(s, parent, child, cap).Accepted?
    requires StateOk(GrantCapabilityStep(s, parent, child, cap).next)
    ensures PostFits(s, Command.GrantCapability(parent, child, cap))
  {
    hide MapCost, SetCost, Costs, NestedShape, Extend;
    ExtendExact(s.caps, child, {cap});
    FewCaps(Of(s.caps, child) + {cap});
    assert cap in Of(s.caps, child) ==> Of(s.caps, child) + {cap} == Of(s.caps, child);
    OneText(child);
    NoText();
  }

  lemma ConfsAlwaysFit(m: map<AgentId, set<ConfLevel>>, a: AgentId, l: ConfLevel)
    ensures SizeWith(m, a, l) <= MAX_CONF_LEVELS
  {
    FewConfs(Of(m, a) + {l});
    FewConfs(Of(m, a));
  }

  lemma IntegsAlwaysFit(m: map<AgentId, set<IntegLevel>>, a: AgentId, l: IntegLevel)
    ensures SizeWith(m, a, l) <= MAX_INTEG_LEVELS
  {
    FewIntegs(Of(m, a) + {l});
    FewIntegs(Of(m, a));
  }

  /** Releasing one level in each dimension binds the agent in both. */
  lemma ReleaseExact(s: State, a: AgentId, conf: ConfLevel, integ: IntegLevel, bypassed: bool)
    ensures var n := Release(s, a, {conf}, {integ}, bypassed);
            && |n.taint| == KeysWith(s.taint, a) && |n.integ| == KeysWith(s.integ, a)
            && TextCost(n) == TextCost(s) + (if a in s.taint then 0 else Cost(a)) + (if a in s.integ then 0 else Cost(a))
  {
    hide MapCost, SetCost, Cost, Extend, Demote, KeysWith;
    ExtendExact(s.taint, a, {conf});
    ExtendExact(s.integ, a, {integ});
    DemoteExact(s.pending, a);
  }

  lemma IngestExact(s: State, bg: Background, a: AgentId, src: Option<AgentId>, pconf: ConfLevel, pinteg: IntegLevel)
    requires IngestStep(s, bg, a, src, pconf, pinteg).Accepted?
    requires StateOk(IngestStep(s, bg, a, src, pconf, pinteg).next)
    ensures PostFits(s, Command.Ingest(a, src, pconf, pinteg))
  {
    hide TextCost, Cost, Costs, NestedShape, Release, Holds, Dominates, SizeWith, KeysWith;
    ReleaseExact(s, a, pconf, pinteg, !Holds(s.pending, bg, a, {pconf}, {pinteg}));
    ConfsAlwaysFit(s.taint, a, pconf);
    IntegsAlwaysFit(s.integ, a, pinteg);
    OneText(a);
    NoText();
    CostsAppend(if a in s.taint then [] else [a], if a in s.integ then [] else [a]);
  }

  lemma DemoteExact(pending: map<InvocationId, PendingK>, a: AgentId)
    ensures MapCost(Demote(pending, a), PendingTexts) == MapCost(pending, PendingTexts)
  {
    MapCostLe(Demote(pending, a), PendingTexts, pending, PendingTexts);
    MapCostLe(pending, PendingTexts, Demote(pending, a), PendingTexts);
  }

  // ---- The commands that may reserve more ----

  lemma GrantCrossingExact(s: State, bg: Background, grantor: AgentId, agent: AgentId, assignment: AssignmentDigest, n: U32)
    requires GrantCrossingStep(s, bg, grantor, agent, assignment, n).Accepted?
    requires CrossingKey(agent, assignment) !in s.grants
    requires StateOk(GrantCrossingStep(s, bg, grantor, agent, assignment, n).next)
    ensures PostFits(s, Command.GrantCrossing(grantor, agent, assignment, n))
  {
    hide MapCost, SetCost, Costs, NestedShape;
    PutFresh(s.grants, CrossingKey(agent, assignment), CrossingGrant(n, n), GrantTexts);
  }

  /** Rebinding a key costs nothing at all. */
  lemma RegrantFits(s: State, bg: Background, grantor: AgentId, agent: AgentId, assignment: AssignmentDigest, n: U32)
    requires StateOk(s) && GrantCrossingStep(s, bg, grantor, agent, assignment, n).Accepted?
    requires CrossingKey(agent, assignment) in s.grants
    ensures StateOk(GrantCrossingStep(s, bg, grantor, agent, assignment, n).next)
  {
    hide MapCost, SetCost, Costs;
    var key, g := CrossingKey(agent, assignment), CrossingGrant(n, n);
    assert GrantTexts(key, g) == GrantTexts(key, s.grants[key]);
    Put(s.grants, key, g, GrantTexts);
  }

  lemma PendExact(s: State, inv: InvocationId, j: PendingK)
    requires inv !in s.pending && inv !in s.consumedIds && StateOk(PendNext(s, inv, j))
    ensures |s.pending| + 1 <= MAX_PENDING && |s.consumedIds| + 1 <= MAX_CONSUMED_IDS
  {
    hide MapCost, SetCost, NestedShape;
    PutFresh(s.pending, inv, j, PendingTexts);
    AddFresh(s.consumedIds, inv);
  }

  lemma OpenExact(s: State, inv: InvocationId, sc: ScopeK)
    requires inv !in s.challenges && inv !in s.consumedIds && StateOk(OpenNext(s, inv, sc))
    ensures |s.challenges| + 1 <= MAX_CHALLENGES && |s.consumedIds| + 1 <= MAX_CONSUMED_IDS
    ensures TextRoom(s, [inv, inv, sc.agent, sc.challenge, sc.policy.tool, sc.policy.policyDigest, sc.argsHash])
  {
    hide MapCost, SetCost, Costs, NestedShape;
    PutFresh(s.challenges, inv, sc, ScopeTexts);
    AddFresh(s.consumedIds, inv);
    BeginTexts(sc.agent, inv, sc.challenge, sc.policy, sc.argsHash);
  }

  /** What an accepted admission leaves. */
  lemma BeginLeaves(s: State, bg: Background, a: AgentId, inv: InvocationId, chal: ChallengeId, p: PolicyK,
                    egress: set<EgressKind>, ah: ContentHash, authorized: bool) returns (j: PendingK)
    requires BeginStep(s, bg, a, inv, chal, p, egress, ah, authorized).Accepted?
    ensures inv !in s.pending && inv !in s.challenges && inv !in s.consumedIds
    ensures BeginStep(s, bg, a, inv, chal, p, egress, ah, authorized).next
         == if PendsAtOnce(s, bg, a, p, egress, authorized) then PendNext(s, inv, j)
            else OpenNext(s, inv, Scope(chal, a, p, egress, ah, authorized))
    ensures j.agent == a && j.policy == p && !j.admission.Inspected?
  {
    hide Gate, PendNext, OpenNext, DenialOf, Spec.EgressCovers;
    j := if VerdictOf(s, bg, a, p, egress, authorized) == Allow
         then Pending(a, p, egress, Plain, Permitted, authorized, false)
         else Pending(a, p, egress, Bypassed, MonitorBypassed, authorized, false);
  }

  lemma BeginExact(s: State, bg: Background, a: AgentId, inv: InvocationId, chal: ChallengeId, policy: PolicyV,
                   egress: seq<EgressKind>, ah: ContentHash, authorized: bool)
    requires BeginStep(s, bg, a, inv, chal, PolicyOf(policy), AsSet(egress), ah, authorized).Accepted?
    requires StateOk(BeginStep(s, bg, a, inv, chal, PolicyOf(policy), AsSet(egress), ah, authorized).next)
    requires Spare(s, bg, Command.BeginInvocation(a, inv, chal, policy, egress, ah, authorized))
    ensures PostFits(s, Command.BeginInvocation(a, inv, chal, policy, egress, ah, authorized))
  {
    hide StateOk, TextCost, Costs, BeginStep, PendsAtOnce, PendNext, OpenNext;
    var j := BeginLeaves(s, bg, a, inv, chal, PolicyOf(policy), AsSet(egress), ah, authorized);
    if PendsAtOnce(s, bg, a, PolicyOf(policy), AsSet(egress), authorized) {
      PendExact(s, inv, j);
    } else {
      OpenExact(s, inv, Scope(chal, a, PolicyOf(policy), AsSet(egress), ah, authorized));
    }
  }

  lemma AuthorizeExact(s: State, bg: Background, inv: InvocationId, att: InspectionAttestation)
    requires AuthorizeStep(s, bg, inv, att).Accepted? && StateOk(AuthorizeStep(s, bg, inv, att).next)
    requires Spare(s, bg, Command.AuthorizeInspected(inv, att))
    ensures PostFits(s, Command.AuthorizeInspected(inv, att))
  {
    hide MapCost, SetCost, Costs, NestedShape, TextCost, Gate;
    AddFresh(s.consumedAttestations, att.id);
    if Resolves(s, bg, inv, att) {
      PutFresh(s.pending, inv, AuthorizeStep(s, bg, inv, att).next.pending[inv], PendingTexts);
    }
  }

  lemma KeysAmong<V>(m: map<AgentId, V>, agents: set<AgentId>, a: AgentId)
    requires m.Keys <= agents && a in agents
    ensures KeysWith(m, a) <= |agents|
  {
    SubsetCardinality(m.Keys + {a}, agents);
    if a in m {
      assert m.Keys + {a} == m.Keys;
    } else {
      assert |m.Keys + {a}| == |m.Keys| + 1;
    }
  }

  /** The labelled agents are active, and the active agents are few. */
  lemma LabelKeysAlwaysFit(s: State, a: AgentId)
    requires Clean(s) && a in s.active && |s.active| <= MAX_AGENTS
    ensures LabelKeysFit(s, a)
  {
    KeysAmong(s.taint, s.active, a);
    KeysAmong(s.integ, s.active, a);
  }

  lemma SettleGuards(s: State, inv: InvocationId, outcome: Outcome, res: Option<ResolutionAttestation>)
    requires SettleStep(s, inv, outcome, res).Accepted?
    ensures inv in s.pending && s.pending[inv].agent in s.active
    ensures res.Some? ==> res.value.id !in s.consumedAttestations
  {
    hide Extend, Demote;
  }

  lemma SettleExact(s: State, bg: Background, inv: InvocationId, outcome: Outcome, res: Option<ResolutionAttestation>)
    requires Clean(s) && OuterShape(s) && SettleStep(s, inv, outcome, res).Accepted?
    requires StateOk(SettleStep(s, inv, outcome, res).next)
    requires TextRoom(s, PostTexts(s, Command.SettleInvocation(inv, outcome, res)))
    ensures PostFits(s, Command.SettleInvocation(inv, outcome, res))
  {
    hide MapCost, SetCost, Costs, NestedShape, TextCost, Extend, Clean, LabelKeysFit, PostTexts, SettleStep;
    SettleMoves(s, inv, outcome, res);
    SettleGuards(s, inv, outcome, res);
    LabelKeysAlwaysFit(s, s.pending[inv].agent);
    if res.Some? {
      AddFresh(s.consumedAttestations, res.value.id);
    }
  }

  lemma CrossShapeExact(s: State, bg: Background, q: CrossInput)
    requires Clean(s) && OuterShape(s) && CrossStep(s, bg, q).Accepted? && OuterShape(CrossStep(s, bg, q).next)
    ensures CrossShape(s, q)
       <==> && |Of(s.taint, q.rcv)| < MAX_CONF_LEVELS
            && |Of(s.integ, q.rcv)| < MAX_INTEG_LEVELS
            && (q.evidence.Some? && !Spec.EndorsedOk(s, q) ==> |s.consumedAttestations| < MAX_CONSUMED_ATTESTATIONS)
  {
    hide Release, Holds, WithinBounds, SpendGrant, ReleasedConfs, ReleasedIntegs, LabelKeysFit, SizeWithAll;
    LabelKeysAlwaysFit(s, q.rcv);
    CrossConfRoom(s.taint, q.src, q.rcv);
    CrossIntegRoom(s.integ, q.src, q.rcv);
    CrossGrows(s, bg, q);
  }

  lemma CrossGrows(s: State, bg: Background, q: CrossInput)
    requires CrossStep(s, bg, q).Accepted?
    ensures var n := CrossStep(s, bg, q).next;
            && |n.consumedCrossings| == |s.consumedCrossings| + 1
            && |n.consumedAttestations| == |s.consumedAttestations| + (if Spec.EndorsedOk(s, q) then 1 else 0)
  {
    hide Holds, WithinBounds, SpendGrant, ReleasedConfs, ReleasedIntegs, SetCost;
    AddFresh(s.consumedCrossings, q.crossing);
    if Spec.EndorsedOk(s, q) {
      AddFresh(s.consumedAttestations, q.evidence.value.id);
    }
  }

  // ---- Every command ----

  /** The commands whose reservation is idle only if the bookkeeping is broken. */
  predicate NeedsInvariant(c: CommandV) {
    c.Delegate? || c.SettleInvocation? || c.CrossOutput?
  }

  lemma {:induction false} FitsIfSpare(s: State, bg: Background, c: CommandV)
    requires StateOk(s) && (NeedsInvariant(c) ==> bg.rootAgent == ROOT && Owning(s))
    requires Step(s, bg, CommandOf(c)).Accepted? && StateOk(Next(s, bg, c)) && Spare(s, bg, c)
    ensures PostFits(s, c)
  {
    hide StateOk, OuterShape, TextCost, Costs, Owning, BeginStep, AuthorizeStep, SettleStep, CrossStep, IngestStep,
         DelegateStep, RevokeStep, CascadeRevokeStep, CrossShape, SettleShape;
    match c
    case RegisterTool(tool) => RegisterExact(s, tool);
    case Delegate(grantor, grantee) => DelegateExact(s, bg, grantor, grantee);
    case GrantCapability(parent, child, cap) => GrantCapabilityExact(s, parent, child, cap);
    case GrantCrossing(grantor, agent, assignment, n) =>
      if CrossingKey(agent, assignment) !in s.grants {
        GrantCrossingExact(s, bg, grantor, agent, assignment, n);
      }
    case Ingest(agent, src, pconf, pinteg) => IngestExact(s, bg, agent, src, pconf, pinteg);
    case BeginInvocation(agent, inv, chal, policy, egress, ah, authorized) =>
      BeginExact(s, bg, agent, inv, chal, policy, egress, ah, authorized);
    case AuthorizeInspected(inv, att) => AuthorizeExact(s, bg, inv, att);
    case SettleInvocation(inv, outcome, res) => SettleIfSpare(s, bg, inv, outcome, res);
    case CrossOutput(q) => CrossIfSpare(s, bg, q);
    case _ => ReleaseReservesNothing(s, c);
  }

  lemma ReleaseReservesNothing(s: State, c: CommandV)
    requires StateOk(s) && (c.UnregisterTool? || c.Revoke? || c.CascadeRevoke?)
    ensures PostFits(s, c)
  {
    hide MapCost, SetCost, NestedShape;
  }

  lemma SettleIfSpare(s: State, bg: Background, inv: InvocationId, outcome: Outcome, res: Option<ResolutionAttestation>)
    requires StateOk(s) && Owning(s) && SettleStep(s, inv, outcome, res).Accepted?
    requires StateOk(SettleStep(s, inv, outcome, res).next)
    requires TextRoom(s, PostTexts(s, Command.SettleInvocation(inv, outcome, res)))
    ensures PostFits(s, Command.SettleInvocation(inv, outcome, res))
  {
    hide OuterShape, NestedShape, TextCost, Clean, Tree, CapTree, SettleStep;
    SettleExact(s, bg, inv, outcome, res);
  }

  lemma CrossIfSpare(s: State, bg: Background, q: CrossInput)
    requires StateOk(s) && Owning(s) && CrossStep(s, bg, q).Accepted? && StateOk(CrossStep(s, bg, q).next)
    requires Spare(s, bg, Command.CrossOutput(q))
    ensures PostFits(s, Command.CrossOutput(q))
  {
    hide OuterShape, NestedShape, TextCost, Clean, Tree, CapTree, CrossStep, CrossShape, Costs;
    CrossShapeExact(s, bg, q);
  }

  lemma SpareIfFits(s: State, bg: Background, c: CommandV)
    requires StateOk(s) && (NeedsInvariant(c) ==> bg.rootAgent == ROOT && Owning(s))
    requires Step(s, bg, CommandOf(c)).Accepted? && StateOk(Next(s, bg, c)) && PostFits(s, c)
    ensures Spare(s, bg, c)
  {
    hide StateOk, TextCost, Costs, Owning, BeginStep, AuthorizeStep, SettleStep, CrossStep, CrossShape,
         PendsAtOnce, Resolves;
    match c
    case CrossOutput(q) => SpareCrossIfFits(s, bg, q);
    case _ =>
  }

  lemma SpareCrossIfFits(s: State, bg: Background, q: CrossInput)
    requires StateOk(s) && Owning(s) && CrossStep(s, bg, q).Accepted? && StateOk(CrossStep(s, bg, q).next)
    requires PostFits(s, Command.CrossOutput(q))
    ensures Spare(s, bg, Command.CrossOutput(q))
  {
    hide OuterShape, NestedShape, TextCost, Clean, Tree, CapTree, CrossStep, CrossShape, Costs;
    CrossShapeExact(s, bg, q);
  }

  /** The exact strength of the preflight: of a command the kernel accepts it passes those whose next
      state fits and whose idle reservations fit too. */
  lemma PreflightExact(s: State, bg: Background, sequence: U64, c: CommandV)
    requires StateOk(s) && CommandFits(c) && SequenceLeft(sequence)
    requires NeedsInvariant(c) ==> bg.rootAgent == ROOT && Inv(s, bg)
    requires Step(s, bg, CommandOf(c)).Accepted?
    ensures Capacity.Preflight(s, sequence, c).Pass? <==> StateOk(Next(s, bg, c)) && Spare(s, bg, c)
  {
    hide StateOk, CommandFits, PostFits, Spare, Step, Owning;
    if NeedsInvariant(c) {
      InvOwning(s, bg);
    }
    if Capacity.Preflight(s, sequence, c).Pass? {
      PreflightSound(s, bg, sequence, c);
      SpareIfFits(s, bg, c);
    } else if StateOk(Next(s, bg, c)) && Spare(s, bg, c) {
      FitsIfSpare(s, bg, c);
    }
  }

  /** Seven commands are refused for capacity exactly when their next state would leave the profile. */
  lemma PreflightTight(s: State, bg: Background, sequence: U64, c: CommandV)
    requires StateOk(s) && CommandFits(c) && SequenceLeft(sequence)
    requires c.Delegate? ==> bg.rootAgent == ROOT && Inv(s, bg)
    requires Step(s, bg, CommandOf(c)).Accepted?
    requires c.RegisterTool? || c.UnregisterTool? || c.Revoke? || c.CascadeRevoke? || c.Delegate? || c.GrantCapability? || c.Ingest?
    ensures Capacity.Preflight(s, sequence, c).Pass? <==> StateOk(Next(s, bg, c))
  {
    hide StateOk, CommandFits, PostFits, Step;
    PreflightExact(s, bg, sequence, c);
  }

  lemma InvOwning(s: State, bg: Background)
    requires Inv(s, bg)
    ensures Owning(s)
  {
    hide Tree, CapTree, Clean, Admitted, Evidenced, HeldConfined, PairConfined;
  }
}
