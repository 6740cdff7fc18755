/**
  Labels over whole runs: worst-case labels never shrink while an agent lives, and a level survives
  every chain of deliveries between agents.
*/
module Provenance {
  import opened Types
  import opened Spec
  import opened Invariants

  ghost function RunFrom(s: State, bg: Background, cmds: seq<CommandK>): State
    decreases |cmds|
  {
    if cmds == [] then s else RunFrom(Exec(s, bg, cmds[0]), bg, cmds[1..])
  }

  lemma ExecKeepsInv(s: State, bg: Background, c: CommandK)
    requires bg.rootAgent == ROOT && Inv(s, bg)
    ensures Inv(Exec(s, bg, c), bg)
  {
    if Step(s, bg, c).Accepted? {
      StepKeepsInv(s, bg, c);
    }
  }

  // ---- Worst-case labels ----

  lemma SpecTaintIs(s: State, a: AgentId, l: ConfLevel)
    ensures l in SpecTaint(s, a) <==>
            l in Of(s.taint, a) || exists i :: Owned(s.pending, i, a) && s.pending[i].policy.outputConf == l
  {
  }

  lemma SpecIntegIs(s: State, a: AgentId, l: IntegLevel)
    ensures l in SpecInteg(s, a) <==>
            l in Of(s.integ, a) || exists i :: Owned(s.pending, i, a) && s.pending[i].policy.outputInteg == l
  {
  }

  /** The held labels of `a` only grew, and each of its records survived or left its output behind. */
  ghost predicate Accrues(s: State, t: State, a: AgentId) {
    && Of(s.taint, a) <= Of(t.taint, a)
    && Of(s.integ, a) <= Of(t.integ, a)
    && forall i | Owned(s.pending, i, a) ::
         || (Owned(t.pending, i, a) && t.pending[i].policy == s.pending[i].policy)
         || (s.pending[i].policy.outputConf in Of(t.taint, a) && s.pending[i].policy.outputInteg in Of(t.integ, a))
  }

  lemma AccruesGrows(s: State, t: State, a: AgentId)
    requires Accrues(s, t, a)
    ensures SpecTaint(s, a) <= SpecTaint(t, a) && SpecInteg(s, a) <= SpecInteg(t, a)
  {
    forall l | l in SpecTaint(s, a) ensures l in SpecTaint(t, a) {
      SpecTaintIs(s, a, l);
      SpecTaintIs(t, a, l);
    }
    forall l | l in SpecInteg(s, a) ensures l in SpecInteg(t, a) {
      SpecIntegIs(s, a, l);
      SpecIntegIs(t, a, l);
    }
  }

  lemma SettleAccrues(s: State, inv: InvocationId, outcome: Outcome, att: Option<ResolutionAttestation>, a: AgentId)
    requires SettleStep(s, inv, outcome, att).Accepted?
    ensures Accrues(s, SettleStep(s, inv, outcome, att).next, a)
  {
    hide SettleStep;
    SettleMoves(s, inv, outcome, att);
  }

  lemma ReleaseAccrues(s: State, x: AgentId, confs: set<ConfLevel>, integs: set<IntegLevel>, bypassed: bool, a: AgentId)
    ensures Accrues(s, Release(s, x, confs, integs, bypassed), a)
  {
  }

  lemma ClearAccrues(s: State, x: AgentId, a: AgentId)
    requires x != a
    ensures Accrues(s, Clear(s, x), a)
  {
  }

  lemma DelegateAccrues(s: State, bg: Background, grantor: AgentId, grantee: AgentId, a: AgentId)
    requires DelegateStep(s, bg, grantor, grantee).Accepted? && a in s.active
    ensures Accrues(s, DelegateStep(s, bg, grantor, grantee).next, a)
  {
    ClearAccrues(s, grantee, a);
  }

  lemma CrossAccrues(s: State, bg: Background, q: CrossInput, a: AgentId)
    requires CrossStep(s, bg, q).Accepted?
    ensures Accrues(s, CrossStep(s, bg, q).next, a)
  {
    var confs, integs := ReleasedConfs(s, q), ReleasedIntegs(s, q);
    ReleaseAccrues(s, q.rcv, confs, integs, !Holds(s.pending, bg, q.rcv, confs, integs), a);
  }

  lemma PendAccrues(s: State, t: State, a: AgentId)
    requires t.taint == s.taint && t.integ == s.integ
    requires forall i | i in s.pending :: i in t.pending && t.pending[i] == s.pending[i]
    ensures Accrues(s, t, a)
  {
  }

  lemma RecordAccrues(s: State, inv: InvocationId, j: PendingK, a: AgentId)
    requires inv !in s.pending
    ensures Accrues(s, PendNext(s, inv, j), a)
  {
    hide Accrues;
    PendAccrues(s, PendNext(s, inv, j), a);
  }

  lemma ChallengeAccrues(s: State, inv: InvocationId, sc: ScopeK, a: AgentId)
    ensures Accrues(s, OpenNext(s, inv, sc), a)
  {
    hide Accrues;
    PendAccrues(s, OpenNext(s, inv, sc), a);
  }

  lemma BeginNextAccrues(s: State, bg: Background, c: CommandK, verdict: Verdict, a: AgentId)
    requires c.BeginInvocation? && c.inv !in s.pending
    ensures Accrues(s, BeginNext(s, bg, c.agent, c.inv, c.challenge, c.policy, c.egress, c.argsHash, c.authorized, verdict), a)
  {
    hide Accrues, PendNext, OpenNext;
    RecordAccrues(s, c.inv, Pending(c.agent, c.policy, c.egress, Plain, Permitted, c.authorized, false), a);
    RecordAccrues(s, c.inv, Pending(c.agent, c.policy, c.egress, Bypassed, MonitorBypassed, c.authorized, false), a);
    ChallengeAccrues(s, c.inv, Scope(c.challenge, c.agent, c.policy, c.egress, c.argsHash, c.authorized), a);
  }

  lemma BeginAccrues(s: State, bg: Background, c: CommandK, a: AgentId)
    requires c.BeginInvocation? && Step(s, bg, c).Accepted?
    ensures Accrues(s, Step(s, bg, c).next, a)
  {
    hide Accrues, BeginNext, VerdictOf, DenialOf, Spec.EgressCovers;
    BeginNextAccrues(s, bg, c, VerdictOf(s, bg, c.agent, c.policy, c.egress, c.authorized), a);
  }

  lemma AuthorizePends(s: State, bg: Background, c: CommandK)
    requires c.AuthorizeInspected? && Step(s, bg, c).Accepted?
    ensures var t := Step(s, bg, c).next;
            && t.taint == s.taint && t.integ == s.integ
            && forall i | i in s.pending :: i in t.pending && t.pending[i] == s.pending[i]
  {
  }

  lemma StepAccrues(s: State, bg: Background, c: CommandK, a: AgentId)
    requires Step(s, bg, c).Accepted?
    requires a in s.active && a in Step(s, bg, c).next.active
    ensures Accrues(s, Step(s, bg, c).next, a)
  {
    hide Accrues, BeginStep, AuthorizeStep, SettleStep, CrossStep, DelegateStep, Release;
    match c
    case Delegate(grantor, grantee) => DelegateAccrues(s, bg, grantor, grantee, a);
    case Revoke(_, target) => ClearAccrues(s, target, a);
    case CascadeRevoke(child, _) => ClearAccrues(s, child, a);
    case Ingest(x, _, pconf, pinteg) =>
      ReleaseAccrues(s, x, {pconf}, {pinteg}, !Holds(s.pending, bg, x, {pconf}, {pinteg}), a);
    case SettleInvocation(inv, outcome, att) => SettleAccrues(s, inv, outcome, att, a);
    case CrossOutput(q) => CrossAccrues(s, bg, q, a);
    case BeginInvocation(_, _, _, _, _, _, _) =>
      BeginAccrues(s, bg, c, a);
    case AuthorizeInspected(_, _) =>
      AuthorizePends(s, bg, c);
      PendAccrues(s, Step(s, bg, c).next, a);
    case _ => PendAccrues(s, Step(s, bg, c).next, a);
  }

  /** `a` is active before and after every command. */
  ghost predicate StaysActive(s: State, bg: Background, cmds: seq<CommandK>, a: AgentId)
    decreases |cmds|
  {
    a in s.active && (cmds == [] || StaysActive(Exec(s, bg, cmds[0]), bg, cmds[1..], a))
  }

  /** Over any run segment in which an agent stays active, the labels that admission must assume it
      has only grow: dispatch, settlement, failure, quarantine and demotion never wash one off. */
  lemma {:induction false} SpeculativeLabelsNeverShrink(s: State, bg: Background, cmds: seq<CommandK>, a: AgentId)
    requires StaysActive(s, bg, cmds, a)
    ensures var t := RunFrom(s, bg, cmds);
            SpecTaint(s, a) <= SpecTaint(t, a) && SpecInteg(s, a) <= SpecInteg(t, a)
    decreases |cmds|
  {
    if cmds != [] {
      var t := Exec(s, bg, cmds[0]);
      SpeculativeLabelsNeverShrink(t, bg, cmds[1..], a);
      if Step(s, bg, cmds[0]).Accepted? {
        StepAccrues(s, bg, cmds[0], a);
        AccruesGrows(s, t, a);
      }
    }
  }

  /** Settlement moves labels without creating any: whatever the outcome, the worst case of every
      agent is exactly what it was; an ordinary outcome makes the output a held label. */
  lemma SettlementExact(s: State, inv: InvocationId, outcome: Outcome, att: Option<ResolutionAttestation>, a: AgentId)
    requires SettleStep(s, inv, outcome, att).Accepted?
    ensures var t := SettleStep(s, inv, outcome, att).next;
            && SpecTaint(t, a) == SpecTaint(s, a)
            && SpecInteg(t, a) == SpecInteg(s, a)
            && (outcome != Ambiguous ==>
                  && inv !in t.pending
                  && s.pending[inv].policy.outputConf in Of(t.taint, s.pending[inv].agent)
                  && s.pending[inv].policy.outputInteg in Of(t.integ, s.pending[inv].agent))
  {
    hide SettleStep, Accrues, SpecTaint, SpecInteg;
    var t := SettleStep(s, inv, outcome, att).next;
    SettleMoves(s, inv, outcome, att);
    SettleAccrues(s, inv, outcome, att, a);
    AccruesGrows(s, t, a);
    forall l | l in SpecTaint(t, a) ensures l in SpecTaint(s, a) {
      SettlementAddsNoTaint(s, inv, outcome, att, a, l);
    }
    forall l | l in SpecInteg(t, a) ensures l in SpecInteg(s, a) {
      SettlementAddsNoInteg(s, inv, outcome, att, a, l);
    }
  }

  lemma SettlementAddsNoTaint(s: State, inv: InvocationId, outcome: Outcome, att: Option<ResolutionAttestation>,
                              a: AgentId, l: ConfLevel)
    requires SettleStep(s, inv, outcome, att).Accepted? && l in SpecTaint(SettleStep(s, inv, outcome, att).next, a)
    ensures l in SpecTaint(s, a)
  {
    hide SettleStep, SpecTaint, SpecInteg;
    var t := SettleStep(s, inv, outcome, att).next;
    SettleMoves(s, inv, outcome, att);
    SpecTaintIs(s, a, l);
    SpecTaintIs(t, a, l);
    if l in Of(t.taint, a) {
      assert l in Of(s.taint, a) || Owned(s.pending, inv, a);
    } else {
      var i :| Owned(t.pending, i, a) && t.pending[i].policy.outputConf == l;
      assert Owned(s.pending, i, a);
    }
  }

  lemma SettlementAddsNoInteg(s: State, inv: InvocationId, outcome: Outcome, att: Option<ResolutionAttestation>,
                              a: AgentId, l: IntegLevel)
    requires SettleStep(s, inv, outcome, att).Accepted? && l in SpecInteg(SettleStep(s, inv, outcome, att).next, a)
    ensures l in SpecInteg(s, a)
  {
    hide SettleStep, SpecTaint, SpecInteg;
    var t := SettleStep(s, inv, outcome, att).next;
    SettleMoves(s, inv, outcome, att);
    SpecIntegIs(s, a, l);
    SpecIntegIs(t, a, l);
    if l in Of(t.integ, a) {
      assert l in Of(s.integ, a) || Owned(s.pending, inv, a);
    } else {
      var i :| Owned(t.pending, i, a) && t.pending[i].policy.outputInteg == l;
      assert Owned(s.pending, i, a);
    }
  }

  // ---- Chains of deliveries ----

  /** The agent's maximum taint is at least `l`. */
  ghost predicate Carries(s: State, a: AgentId, l: ConfLevel) {
    exists m :: m in Of(s.taint, a) && l.Le(m)
  }

  /** The agent's minimum integrity is at most `l`. */
  ghost predicate Sinks(s: State, a: AgentId, l: IntegLevel) {
    exists m :: m in Of(s.integ, a) && m.Le(l)
  }

  /** An accepted command delivers content of `x` to `y`: an ingest that names its source, or a
      crossing. An endorsed crossing may raise integrity, and may declassify when its assignment says so. */
  ghost predicate Delivers(s: State, bg: Background, c: CommandK, x: AgentId, y: AgentId, endorsed: bool) {
    && Step(s, bg, c).Accepted?
    && ((c.Ingest? && c.agent == y && c.src == Some(x))
        || (c.CrossOutput? && c.input.src == x && c.input.rcv == y
            && (BranchOf(s, c.input) == Unendorsed || (endorsed && BranchOf(s, c.input) == Endorsed && c.input.tConf == None))))
  }

  /** At each command the content stays with an agent that stays active, or is delivered on. */
  ghost predicate Course(s: State, bg: Background, cmds: seq<CommandK>, holders: seq<AgentId>, endorsed: bool)
    decreases |cmds|
  {
    && |holders| == |cmds| + 1
    && (cmds == [] ||
        (&& ((holders[1] == holders[0] && holders[0] in Exec(s, bg, cmds[0]).active)
             || Delivers(s, bg, cmds[0], holders[0], holders[1], endorsed))
         && Course(Exec(s, bg, cmds[0]), bg, cmds[1..], holders[1..], endorsed)))
  }

  lemma DeliveryCarries(s: State, bg: Background, c: CommandK, x: AgentId, y: AgentId, l: ConfLevel)
    requires Delivers(s, bg, c, x, y, true) && Carries(s, x, l)
    ensures Carries(Exec(s, bg, c), y, l)
  {
    var m :| m in Of(s.taint, x) && l.Le(m);
    var t := Step(s, bg, c).next;
    if c.Ingest? {
      assert c.pconf in Of(t.taint, y);
    } else if BranchOf(s, c.input) == Unendorsed {
      assert m in Of(t.taint, y);
    } else {
      assert c.input.releasedConf in Of(t.taint, y);
    }
  }

  lemma DeliverySinks(s: State, bg: Background, c: CommandK, x: AgentId, y: AgentId, l: IntegLevel)
    requires Delivers(s, bg, c, x, y, false) && Sinks(s, x, l)
    ensures Sinks(Exec(s, bg, c), y, l)
  {
    var m :| m in Of(s.integ, x) && m.Le(l);
    var t := Step(s, bg, c).next;
    if c.Ingest? {
      assert c.pinteg in Of(t.integ, y);
    } else {
      assert m in Of(t.integ, y);
    }
  }

  lemma StayingKeepsLabels(s: State, bg: Background, c: CommandK, a: AgentId)
    requires Inv(s, bg) && a in Exec(s, bg, c).active
    ensures Of(s.taint, a) <= Of(Exec(s, bg, c).taint, a) && Of(s.integ, a) <= Of(Exec(s, bg, c).integ, a)
  {
    if Step(s, bg, c).Accepted? && a in s.active {
      StepAccrues(s, bg, c, a);
    }
  }

  /** What enters a chain is carried to its last agent, whose contained invocations all tolerate it. */
  ghost predicate CarriedAlong(t: State, bg: Background, a: AgentId, l: ConfLevel) {
    && Carries(t, a, l)
    && forall i | Owned(t.pending, i, a) && t.pending[i].Contained() ::
         && l.Le(t.pending[i].policy.confClearance)
         && FlowOk(bg, l, t.pending[i].egress, t.pending[i].Vouched())
  }

  ghost predicate SunkAlong(t: State, a: AgentId, l: IntegLevel) {
    && Sinks(t, a, l)
    && forall i | Owned(t.pending, i, a) && t.pending[i].Contained() ::
         t.pending[i].policy.integFloor.Le(l) || (t.pending[i].policy.integInspect.Le(l) && t.pending[i].Vouched())
  }

  /** A level that enters a chain of deliveries is never lost: the last agent's taint is at least that
      level, and every contained invocation it has in flight is allowed to see it: it clears the
      clearance, and each egress channel allows it, or inspects it with the invocation vouched. */
  lemma {:induction false} ChainCarries(s: State, bg: Background, cmds: seq<CommandK>, holders: seq<AgentId>, l: ConfLevel)
    requires bg.rootAgent == ROOT && Inv(s, bg)
    requires Course(s, bg, cmds, holders, true) && Carries(s, holders[0], l)
    ensures CarriedAlong(RunFrom(s, bg, cmds), bg, holders[|cmds|], l)
    decreases |cmds|
  {
    hide Inv, Exec, Delivers;
    if cmds == [] {
      CarriedIsTolerated(s, bg, holders[0], l);
    } else {
      var t := Exec(s, bg, cmds[0]);
      ExecKeepsInv(s, bg, cmds[0]);
      if Delivers(s, bg, cmds[0], holders[0], holders[1], true) {
        DeliveryCarries(s, bg, cmds[0], holders[0], holders[1], l);
      } else {
        StayingKeepsLabels(s, bg, cmds[0], holders[0]);
      }
      ChainCarries(t, bg, cmds[1..], holders[1..], l);
    }
  }

  lemma CarriedIsTolerated(s: State, bg: Background, a: AgentId, l: ConfLevel)
    requires Inv(s, bg) && Carries(s, a, l)
    ensures forall i | Owned(s.pending, i, a) && s.pending[i].Contained() :: Tolerates(bg, s.pending[i], l)
  {
    hide Tree, CapTree, Clean, Admitted, Evidenced, PairConfined;
    var m :| m in Of(s.taint, a) && l.Le(m);
    forall i | Owned(s.pending, i, a) && s.pending[i].Contained() ensures Tolerates(bg, s.pending[i], l) {
      assert Tolerates(bg, s.pending[i], m);
    }
  }

  /** Dually, without endorsement integrity never rises along a chain: the last agent's integrity is
      at most the level that entered, and every contained invocation it has in flight accepts it. */
  lemma {:induction false} ChainSinks(s: State, bg: Background, cmds: seq<CommandK>, holders: seq<AgentId>, l: IntegLevel)
    requires bg.rootAgent == ROOT && Inv(s, bg)
    requires Course(s, bg, cmds, holders, false) && Sinks(s, holders[0], l)
    ensures SunkAlong(RunFrom(s, bg, cmds), holders[|cmds|], l)
    decreases |cmds|
  {
    hide Inv, Exec, Delivers;
    if cmds == [] {
      SunkIsTolerated(s, bg, holders[0], l);
    } else {
      ExecKeepsInv(s, bg, cmds[0]);
      if Delivers(s, bg, cmds[0], holders[0], holders[1], false) {
        DeliverySinks(s, bg, cmds[0], holders[0], holders[1], l);
      } else {
        StayingKeepsLabels(s, bg, cmds[0], holders[0]);
      }
      ChainSinks(Exec(s, bg, cmds[0]), bg, cmds[1..], holders[1..], l);
    }
  }

  lemma SunkIsTolerated(s: State, bg: Background, a: AgentId, l: IntegLevel)
    requires Inv(s, bg) && Sinks(s, a, l)
    ensures forall i | Owned(s.pending, i, a) && s.pending[i].Contained() :: ToleratesInteg(s.pending[i], l)
  {
    hide Tree, CapTree, Clean, Admitted, Evidenced, PairConfined;
    var m :| m in Of(s.integ, a) && m.Le(l);
    forall i | Owned(s.pending, i, a) && s.pending[i].Contained() ensures ToleratesInteg(s.pending[i], l) {
      assert ToleratesInteg(s.pending[i], m);
    }
  }

  /** Both, for a chain that starts in any reachable state: every label that its first agent held is
      dominated by what its last agent holds and accepted by what that agent has in flight. */
  lemma RunProvenance(bg: Background, before: seq<CommandK>, cmds: seq<CommandK>, holders: seq<AgentId>, endorsed: bool)
    requires bg.rootAgent == ROOT && Course(Run(bg, before), bg, cmds, holders, endorsed)
    ensures var s := Run(bg, before); var t := RunFrom(s, bg, cmds);
            && (forall l | l in Of(s.taint, holders[0]) :: CarriedAlong(t, bg, holders[|cmds|], l))
            && (!endorsed ==> forall l | l in Of(s.integ, holders[0]) :: SunkAlong(t, holders[|cmds|], l))
  {
    hide Inv, CarriedAlong, SunkAlong, Run, Delivers, Exec;
    var s := Run(bg, before);
    RunInv(bg, before);
    if !endorsed {
      WeakerCourse(s, bg, cmds, holders);
    }
    forall l | l in Of(s.taint, holders[0]) ensures CarriedAlong(RunFrom(s, bg, cmds), bg, holders[|cmds|], l) {
      ChainCarries(s, bg, cmds, holders, l);
    }
    forall l | !endorsed && l in Of(s.integ, holders[0]) ensures SunkAlong(RunFrom(s, bg, cmds), holders[|cmds|], l) {
      ChainSinks(s, bg, cmds, holders, l);
    }
  }

  lemma {:induction false} WeakerCourse(s: State, bg: Background, cmds: seq<CommandK>, holders: seq<AgentId>)
    requires Course(s, bg, cmds, holders, false)
    ensures Course(s, bg, cmds, holders, true)
    decreases |cmds|
  {
    if cmds != [] {
      WeakerCourse(Exec(s, bg, cmds[0]), bg, cmds[1..], holders[1..]);
    }
  }
}
