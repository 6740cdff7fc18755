/**
  The kernel's label sets carry more than any decision reads. A kernel that kept, per agent, only the
  maximum taint and the minimum integrity would answer every command of every run in the same way.
*/
module Summary {
  import opened Types
  import opened Spec

  /** The maximum of a set of levels, as a set of at most one element. */
  ghost function Top(levels: set<ConfLevel>): set<ConfLevel> {
    if Restricted in levels then {Restricted}
    else if Sensitive in levels then {Sensitive}
    else if Internal in levels then {Internal}
    else if Public in levels then {Public}
    else {}
  }

  /** The minimum of a set of levels, as a set of at most one element. */
  ghost function Bottom(levels: set<IntegLevel>): set<IntegLevel> {
    if Untrusted in levels then {Untrusted}
    else if Standard in levels then {Standard}
    else if Trusted in levels then {Trusted}
    else if Attested in levels then {Attested}
    else {}
  }

  ghost function Summarize(s: State): State {
    s.(taint := Tops(s.taint), integ := Bottoms(s.integ))
  }

  ghost function Tops(m: map<AgentId, set<ConfLevel>>): map<AgentId, set<ConfLevel>> {
    map a | a in m :: Top(m[a])
  }

  ghost function Bottoms(m: map<AgentId, set<IntegLevel>>): map<AgentId, set<IntegLevel>> {
    map a | a in m :: Bottom(m[a])
  }

  // ---- Maxima and minima ----

  /** A summary keeps exactly the extreme level, and nothing for an agent without labels. */
  lemma TopIsMaximum(confs: set<ConfLevel>, integs: set<IntegLevel>)
    ensures |Top(confs)| <= 1 && (Top(confs) == {} <==> confs == {})
    ensures forall l :: l in Top(confs) <==> l in confs && forall m | m in confs :: m.Le(l)
    ensures |Bottom(integs)| <= 1 && (Bottom(integs) == {} <==> integs == {})
    ensures forall l :: l in Bottom(integs) <==> l in integs && forall m | m in integs :: l.Le(m)
  {
    if confs != {} {
      var l :| l in confs;
      assert l == Public || l == Internal || l == Sensitive || l == Restricted;
    }
    if integs != {} {
      var l :| l in integs;
      assert l == Untrusted || l == Standard || l == Trusted || l == Attested;
    }
  }

  lemma TopJoin(a: set<ConfLevel>, b: set<ConfLevel>)
    ensures Top(Top(a) + b) == Top(a + b)
    ensures Top(a + Top(b)) == Top(a + b)
  {
  }

  lemma BottomJoin(a: set<IntegLevel>, b: set<IntegLevel>)
    ensures Bottom(Bottom(a) + b) == Bottom(a + b)
    ensures Bottom(a + Bottom(b)) == Bottom(a + b)
  {
  }

  lemma AllTop(levels: set<ConfLevel>, ok: ConfLevel -> bool)
    requires forall l: ConfLevel, m: ConfLevel | l.Le(m) && ok(m) :: ok(l)
    ensures (forall l | l in levels :: ok(l)) <==> (forall l | l in Top(levels) :: ok(l))
  {
    if levels != {} {
      TopIsMaximum(levels, {});
      var top :| top in Top(levels);
    }
  }

  lemma AllBottom(levels: set<IntegLevel>, ok: IntegLevel -> bool)
    requires forall l: IntegLevel, m: IntegLevel | l.Le(m) && ok(l) :: ok(m)
    ensures (forall l | l in levels :: ok(l)) <==> (forall l | l in Bottom(levels) :: ok(l))
  {
    if levels != {} {
      TopIsMaximum({}, levels);
      var bottom :| bottom in Bottom(levels);
    }
  }

  // ---- Gates and holds read the summary only ----

  lemma SummaryHeld(m: map<AgentId, set<ConfLevel>>, n: map<AgentId, set<IntegLevel>>, a: AgentId)
    ensures Of(Tops(m), a) == Top(Of(m, a)) && Of(Bottoms(n), a) == Bottom(Of(n, a))
  {
  }

  lemma SummarySpec(s: State, a: AgentId, ok: ConfLevel -> bool, okInteg: IntegLevel -> bool)
    requires forall l: ConfLevel, m: ConfLevel | l.Le(m) && ok(m) :: ok(l)
    requires forall l: IntegLevel, m: IntegLevel | l.Le(m) && okInteg(l) :: okInteg(m)
    ensures (forall l | l in SpecTaint(Summarize(s), a) :: ok(l)) <==> (forall l | l in SpecTaint(s, a) :: ok(l))
    ensures (forall l | l in SpecInteg(Summarize(s), a) :: okInteg(l)) <==> (forall l | l in SpecInteg(s, a) :: okInteg(l))
  {
    hide Top, Bottom, Tops, Bottoms;
    var u := Summarize(s);
    SummaryHeld(s.taint, s.integ, a);
    AllTop(Of(s.taint, a), ok);
    AllBottom(Of(s.integ, a), okInteg);
    var outs := set i | i in s.pending && Owned(s.pending, i, a) :: s.pending[i].policy.outputConf;
    var outsInteg := set i | i in s.pending && Owned(s.pending, i, a) :: s.pending[i].policy.outputInteg;
    assert SpecTaint(s, a) == Of(s.taint, a) + outs && SpecTaint(u, a) == Top(Of(s.taint, a)) + outs;
    assert SpecInteg(s, a) == Of(s.integ, a) + outsInteg && SpecInteg(u, a) == Bottom(Of(s.integ, a)) + outsInteg;
  }

  lemma SummaryClearance(s: State, a: AgentId, p: PolicyK)
    ensures CheckClearance(Summarize(s), a, p) == CheckClearance(s, a, p)
  {
    SummarySpec(s, a, (l: ConfLevel) => l.Le(p.confClearance), l => true);
  }

  lemma SummaryFlow(s: State, bg: Background, a: AgentId, p: PolicyK, egress: set<EgressKind>, strict: bool)
    ensures CheckFlow(Summarize(s), bg, a, p, egress, strict) == CheckFlow(s, bg, a, p, egress, strict)
  {
    SummarySpec(s, a, l => FlowOk(bg, l, egress, !strict), l => true);
  }

  lemma SummaryInteg(s: State, a: AgentId, p: PolicyK, strict: bool)
    ensures CheckInteg(Summarize(s), a, p, strict) == CheckInteg(s, a, p, strict)
  {
    SummarySpec(s, a, l => true, l => IntegOk(l, p, !strict));
  }

  lemma SummaryGate(s: State, bg: Background, a: AgentId, p: PolicyK, egress: set<EgressKind>, authorized: bool, strict: bool)
    ensures Gate(Summarize(s), bg, a, p, egress, authorized, strict) == Gate(s, bg, a, p, egress, authorized, strict)
  {
    hide Top, Bottom, Tops, Bottoms, CheckClearance, CheckFlow, CheckInteg;
    SummaryClearance(s, a, p);
    SummaryFlow(s, bg, a, p, egress, strict);
    SummaryInteg(s, a, p, strict);
  }

  lemma SummaryHolds(pending: map<InvocationId, PendingK>, bg: Background, a: AgentId,
                     confs: set<ConfLevel>, integs: set<IntegLevel>)
    ensures forall fewer, fewerInteg | (fewer == confs || fewer == Top(confs)) && (fewerInteg == integs || fewerInteg == Bottom(integs)) ::
              Holds(pending, bg, a, fewer, fewerInteg) == Holds(pending, bg, a, confs, integs)
  {
    AllTop(confs, l => ConfHold(pending, bg, a, l, false) && ClearHold(pending, a, l));
    AllBottom(integs, l => IntegHold(pending, a, l, false));
  }

  // ---- Every command ----

  ghost predicate Agree(r: StepResult, q: StepResult) {
    match (r, q)
    case (Refused(e), Refused(f)) => e == f
    case (Accepted(t, a), Accepted(u, b)) => a == b && Summarize(t) == Summarize(u)
    case _ => false
  }

  lemma TopsExtend(m: map<AgentId, set<ConfLevel>>, a: AgentId, x: set<ConfLevel>, y: set<ConfLevel>)
    requires y == x || y == Top(x)
    ensures Tops(Extend(Tops(m), a, y)) == Tops(Extend(m, a, x))
  {
    TopIsMaximum(x, {});
    TopJoin(Of(m, a), x);
    TopJoin(Top(Of(m, a)), y);
    TopJoin(Of(m, a), y);
    TopsTwice(m);
    var l, r := Tops(Extend(Tops(m), a, y)), Tops(Extend(m, a, x));
    assert l.Keys == r.Keys;
    forall b | b in r ensures l[b] == r[b] {
      if b != a {
        assert b in m && Tops(Tops(m))[b] == Tops(m)[b];
      }
    }
  }

  lemma TopsTwice(m: map<AgentId, set<ConfLevel>>)
    ensures Tops(Tops(m)) == Tops(m)
  {
  }

  lemma BottomsTwice(m: map<AgentId, set<IntegLevel>>)
    ensures Bottoms(Bottoms(m)) == Bottoms(m)
  {
  }

  lemma BottomsExtend(m: map<AgentId, set<IntegLevel>>, a: AgentId, x: set<IntegLevel>, y: set<IntegLevel>)
    requires y == x || y == Bottom(x)
    ensures Bottoms(Extend(Bottoms(m), a, y)) == Bottoms(Extend(m, a, x))
  {
    TopIsMaximum({}, x);
    BottomJoin(Of(m, a), x);
    BottomJoin(Bottom(Of(m, a)), y);
    BottomJoin(Of(m, a), y);
    BottomsTwice(m);
    var l, r := Bottoms(Extend(Bottoms(m), a, y)), Bottoms(Extend(m, a, x));
    assert l.Keys == r.Keys;
    forall b | b in r ensures l[b] == r[b] {
      if b != a {
        assert b in m && Bottoms(Bottoms(m))[b] == Bottoms(m)[b];
      }
    }
  }

  lemma SummaryIdempotent(s: State)
    ensures Summarize(Summarize(s)) == Summarize(s)
  {
    hide Top, Bottom;
    TopsTwice(s.taint);
    BottomsTwice(s.integ);
  }

  lemma SummaryRelease(s: State, a: AgentId, confs: set<ConfLevel>, integs: set<IntegLevel>,
                       fewer: set<ConfLevel>, fewerInteg: set<IntegLevel>, bypassed: bool)
    requires fewer == confs || fewer == Top(confs)
    requires fewerInteg == integs || fewerInteg == Bottom(integs)
    ensures Summarize(Release(Summarize(s), a, fewer, fewerInteg, bypassed)) == Summarize(Release(s, a, confs, integs, bypassed))
  {
    hide Top, Bottom, Tops, Bottoms, Extend;
    TopsExtend(s.taint, a, confs, fewer);
    BottomsExtend(s.integ, a, integs, fewerInteg);
  }

  lemma SummaryDominates(s: State, src: AgentId, pconf: ConfLevel, pinteg: IntegLevel)
    ensures Dominates(Summarize(s), src, pconf, pinteg) == Dominates(s, src, pconf, pinteg)
  {
    AllTop(Of(s.taint, src), (l: ConfLevel) => l.Le(pconf));
    AllBottom(Of(s.integ, src), l => pinteg.Le(l));
  }

  lemma SummaryIngest(s: State, bg: Background, a: AgentId, src: Option<AgentId>, pconf: ConfLevel, pinteg: IntegLevel)
    ensures Agree(IngestStep(s, bg, a, src, pconf, pinteg), IngestStep(Summarize(s), bg, a, src, pconf, pinteg))
  {
    hide Top, Bottom, Tops, Bottoms, Release, Holds;
    if src.Some? {
      SummaryDominates(s, src.value, pconf, pinteg);
    }
    SummaryRelease(s, a, {pconf}, {pinteg}, {pconf}, {pinteg}, !Holds(s.pending, bg, a, {pconf}, {pinteg}));
  }

  lemma SummarySettle(s: State, inv: InvocationId, outcome: Outcome, att: Option<ResolutionAttestation>)
    ensures Agree(SettleStep(s, inv, outcome, att), SettleStep(Summarize(s), inv, outcome, att))
  {
    hide Top, Bottom, Tops, Bottoms, Extend, Demote;
    SummaryIdempotent(s);
    if inv in s.pending {
      var j := s.pending[inv];
      TopsExtend(s.taint, j.agent, {j.policy.outputConf}, {j.policy.outputConf});
      BottomsExtend(s.integ, j.agent, {j.policy.outputInteg}, {j.policy.outputInteg});
    }
  }

  lemma SummaryVerdict(s: State, bg: Background, a: AgentId, p: PolicyK, egress: set<EgressKind>, authorized: bool)
    ensures VerdictOf(Summarize(s), bg, a, p, egress, authorized) == VerdictOf(s, bg, a, p, egress, authorized)
    ensures DenialOf(Summarize(s), bg, a, p, egress, authorized) == DenialOf(s, bg, a, p, egress, authorized)
  {
    hide Top, Bottom, Tops, Bottoms, Gate, CheckClearance, CheckFlow, CheckInteg;
    SummaryGate(s, bg, a, p, egress, authorized, true);
    SummaryGate(s, bg, a, p, egress, authorized, false);
    SummaryClearance(s, a, p);
    SummaryFlow(s, bg, a, p, egress, false);
  }

  /** Admission touches no label. */
  lemma PendNextOfSummary(s: State, inv: InvocationId, j: PendingK)
    ensures PendNext(Summarize(s), inv, j) == Summarize(PendNext(s, inv, j))
  {
    hide Tops, Bottoms;
  }

  lemma OpenNextOfSummary(s: State, inv: InvocationId, sc: ScopeK)
    ensures OpenNext(Summarize(s), inv, sc) == Summarize(OpenNext(s, inv, sc))
  {
    hide Tops, Bottoms;
  }

  lemma BeginNextOfSummary(s: State, bg: Background, a: AgentId, inv: InvocationId, chal: ChallengeId, p: PolicyK,
                           egress: set<EgressKind>, ah: ContentHash, authorized: bool, verdict: Verdict)
    ensures BeginNext(Summarize(s), bg, a, inv, chal, p, egress, ah, authorized, verdict)
         == Summarize(BeginNext(s, bg, a, inv, chal, p, egress, ah, authorized, verdict))
  {
    hide Summarize, PendNext, OpenNext;
    PendNextOfSummary(s, inv, Pending(a, p, egress, Plain, Permitted, authorized, false));
    PendNextOfSummary(s, inv, Pending(a, p, egress, Bypassed, MonitorBypassed, authorized, false));
    OpenNextOfSummary(s, inv, Scope(chal, a, p, egress, ah, authorized));
  }

  lemma SummaryBeginNext(s: State, bg: Background, c: CommandK, verdict: Verdict)
    requires c.BeginInvocation?
    ensures Summarize(BeginNext(Summarize(s), bg, c.agent, c.inv, c.challenge, c.policy, c.egress, c.argsHash, c.authorized, verdict))
         == Summarize(BeginNext(s, bg, c.agent, c.inv, c.challenge, c.policy, c.egress, c.argsHash, c.authorized, verdict))
  {
    hide Summarize, BeginNext;
    BeginNextOfSummary(s, bg, c.agent, c.inv, c.challenge, c.policy, c.egress, c.argsHash, c.authorized, verdict);
    SummaryIdempotent(BeginNext(s, bg, c.agent, c.inv, c.challenge, c.policy, c.egress, c.argsHash, c.authorized, verdict));
  }

  lemma SummaryBegin(s: State, bg: Background, c: CommandK)
    requires c.BeginInvocation?
    ensures Agree(Step(s, bg, c), Step(Summarize(s), bg, c))
  {
    hide Top, Bottom, Tops, Bottoms, VerdictOf, DenialOf, BeginNext, Gate;
    SummaryVerdict(s, bg, c.agent, c.policy, c.egress, c.authorized);
    SummaryBeginNext(s, bg, c, VerdictOf(s, bg, c.agent, c.policy, c.egress, c.authorized));
  }

  lemma SummaryAuthorize(s: State, bg: Background, inv: InvocationId, att: InspectionAttestation)
    ensures Agree(AuthorizeStep(s, bg, inv, att), AuthorizeStep(Summarize(s), bg, inv, att))
  {
    SummaryIdempotent(s);
    if inv in s.challenges {
      var sc := s.challenges[inv];
      SummaryGate(s, bg, sc.agent, sc.policy, sc.egress, sc.authorized, false);
    }
  }

  lemma SummaryReleased(s: State, q: CrossInput)
    ensures BranchOf(Summarize(s), q) == BranchOf(s, q)
    ensures WithinBounds(Summarize(s), q) == WithinBounds(s, q)
    ensures ReleasedConfs(Summarize(s), q) == ReleasedConfs(s, q) || ReleasedConfs(Summarize(s), q) == Top(ReleasedConfs(s, q))
    ensures ReleasedIntegs(Summarize(s), q) == ReleasedIntegs(s, q) || ReleasedIntegs(Summarize(s), q) == Bottom(ReleasedIntegs(s, q))
  {
    AllTop(Of(s.taint, q.src), (l: ConfLevel) => l.Le(q.releasedConf));
  }

  lemma SummaryCross(s: State, bg: Background, q: CrossInput)
    ensures Agree(CrossStep(s, bg, q), CrossStep(Summarize(s), bg, q))
  {
    hide Top, Bottom, Tops, Bottoms, Release, Holds, SpendGrant, WithinBounds, Spec.EndorsedOk;
    var u := Summarize(s);
    SummaryReleased(s, q);
    var confs, integs := ReleasedConfs(s, q), ReleasedIntegs(s, q);
    var fewer, fewerInteg := ReleasedConfs(u, q), ReleasedIntegs(u, q);
    SummaryHolds(s.pending, bg, q.rcv, confs, integs);
    SummaryHolds(s.pending, bg, q.rcv, fewer, fewerInteg);
    SummaryHolds(s.pending, bg, q.rcv, confs, {});
    SummaryHolds(s.pending, bg, q.rcv, {}, integs);
    SummaryRelease(s, q.rcv, confs, integs, fewer, fewerInteg, !Holds(s.pending, bg, q.rcv, confs, integs));
  }

  lemma SummaryClear(s: State, a: AgentId)
    ensures Summarize(Clear(Summarize(s), a)) == Summarize(Clear(s, a))
  {
    assert Tops(Tops(s.taint) - {a}) == Tops(s.taint - {a});
    assert Bottoms(Bottoms(s.integ) - {a}) == Bottoms(s.integ - {a});
  }

  lemma SummaryDelegate(s: State, bg: Background, grantor: AgentId, grantee: AgentId)
    ensures Agree(DelegateStep(s, bg, grantor, grantee), DelegateStep(Summarize(s), bg, grantor, grantee))
  {
    hide Top, Bottom, Tops, Bottoms, Clear;
    SummaryClear(s, grantee);
  }

  lemma SummaryRevokes(s: State, bg: Background, a: AgentId, b: AgentId)
    ensures Agree(RevokeStep(s, bg, a, b), RevokeStep(Summarize(s), bg, a, b))
    ensures Agree(CascadeRevokeStep(s, bg, a, b), CascadeRevokeStep(Summarize(s), bg, a, b))
  {
    hide Top, Bottom, Tops, Bottoms, Clear;
    SummaryClear(s, a);
    SummaryClear(s, b);
  }

  lemma SummaryStructure(s: State, bg: Background, c: CommandK)
    requires c.RegisterTool? || c.UnregisterTool? || c.GrantCapability? || c.GrantCrossing?
    ensures Agree(Step(s, bg, c), Step(Summarize(s), bg, c))
  {
    SummaryIdempotent(s);
  }

  lemma SummaryStep(s: State, bg: Background, c: CommandK)
    ensures Agree(Step(s, bg, c), Step(Summarize(s), bg, c))
  {
    match c
    case Delegate(grantor, grantee) => SummaryDelegate(s, bg, grantor, grantee);
    case Revoke(parent, target) => SummaryRevokes(s, bg, parent, target);
    case CascadeRevoke(child, parent) => SummaryRevokes(s, bg, child, parent);
    case Ingest(a, src, pconf, pinteg) => SummaryIngest(s, bg, a, src, pconf, pinteg);
    case BeginInvocation(_, _, _, _, _, _, _) => SummaryBegin(s, bg, c);
    case AuthorizeInspected(inv, att) => SummaryAuthorize(s, bg, inv, att);
    case SettleInvocation(inv, outcome, att) => SummarySettle(s, inv, outcome, att);
    case CrossOutput(q) => SummaryCross(s, bg, q);
    case _ => SummaryStructure(s, bg, c);
  }

  // ---- Every run ----

  /** The run of a kernel that forgets everything but the summary after each command. */
  ghost function SummaryRun(bg: Background, cmds: seq<CommandK>): State {
    if cmds == [] then Initial()
    else Summarize(Exec(SummaryRun(bg, cmds[..|cmds| - 1]), bg, cmds[|cmds| - 1]))
  }

  lemma {:induction false} SummaryRunIs(bg: Background, cmds: seq<CommandK>)
    ensures SummaryRun(bg, cmds) == Summarize(Run(bg, cmds))
  {
    hide Step;
    if cmds != [] {
      var prefix := cmds[..|cmds| - 1];
      SummaryRunIs(bg, prefix);
      SummaryStep(Run(bg, prefix), bg, cmds[|cmds| - 1]);
      SummaryIdempotent(Run(bg, prefix));
    }
  }

  /** After every run the forgetful kernel refuses with the same error, or accepts with the same
      action, whatever the full kernel does with the next command. */
  lemma SummaryBisimulates(bg: Background, cmds: seq<CommandK>, c: CommandK)
    ensures var r, q := Step(Run(bg, cmds), bg, c), Step(SummaryRun(bg, cmds), bg, c);
            && r.Accepted? == q.Accepted?
            && (r.Accepted? ==> r.action == q.action)
            && (r.Refused? ==> r.error == q.error)
  {
    SummaryRunIs(bg, cmds);
    SummaryStep(Run(bg, cmds), bg, c);
  }

  /** The forgetful kernel is small: it never keeps more than one level a dimension and agent. */
  lemma SummaryRunIsSmall(bg: Background, cmds: seq<CommandK>, a: AgentId)
    ensures |Of(SummaryRun(bg, cmds).taint, a)| <= 1 && |Of(SummaryRun(bg, cmds).integ, a)| <= 1
  {
    SummaryRunIs(bg, cmds);
    var s := Run(bg, cmds);
    TopIsMaximum(Of(s.taint, a), Of(s.integ, a));
  }
}
