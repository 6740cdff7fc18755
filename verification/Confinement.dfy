/**
  What the invariant means for an operator: confinement of every in-flight invocation in every
  reachable state, honesty of the records, and guards that reachable states make redundant.
*/
module Confinement {
  import opened Types
  import opened Spec
  import opened Invariants

  /** The worst label settlement can still give an agent: held, or the output of a contained record. */
  ghost predicate MayHold(s: State, a: AgentId, l: ConfLevel) {
    l in Of(s.taint, a) || exists i :: Owned(s.pending, i, a) && s.pending[i].Contained() && s.pending[i].policy.outputConf == l
  }

  ghost predicate MayHoldInteg(s: State, a: AgentId, l: IntegLevel) {
    l in Of(s.integ, a) || exists i :: Owned(s.pending, i, a) && s.pending[i].Contained() && s.pending[i].policy.outputInteg == l
  }

  /** In every reachable state, every label a contained invocation's owner holds, or would absorb by
      settling any contained invocation, may leave on each of its egress channels, clears its
      clearance, and clears its floor. The inspect bands count only for a vouched record. */
  lemma RunConfined(bg: Background, cmds: seq<CommandK>, i: InvocationId)
    requires bg.rootAgent == ROOT
    requires i in Run(bg, cmds).pending && Run(bg, cmds).pending[i].Contained()
    ensures var s := Run(bg, cmds); var j := s.pending[i];
            && (forall l | MayHold(s, j.agent, l) ::
                  && l.Le(j.policy.confClearance)
                  && forall e | e in j.egress ::
                       || (e in bg.allowCeiling && l.Rank() <= bg.allowCeiling[e].Rank())
                       || (e in bg.inspectCeiling && l.Rank() <= bg.inspectCeiling[e].Rank() && j.admission.Inspected?))
            && (forall l | MayHoldInteg(s, j.agent, l) ::
                  || j.policy.integFloor.Rank() <= l.Rank()
                  || (j.policy.integInspect.Rank() <= l.Rank() && j.admission.Inspected?))
            && j.authorized
            && (forall c | c in j.policy.requiredCaps :: c in Of(s.caps, j.agent))
            && j.agent in s.active
            && j.policy.tool in s.tools
  {
    hide Run;
    var s := Run(bg, cmds);
    var j := s.pending[i];
    RunInv(bg, cmds);
    forall l | MayHold(s, j.agent, l)
      ensures Tolerates(bg, j, l)
    {
      if l !in Of(s.taint, j.agent) {
        var k :| Owned(s.pending, k, j.agent) && s.pending[k].Contained() && s.pending[k].policy.outputConf == l;
        assert ContainedPair(s, i, k);
      }
    }
    forall l | MayHoldInteg(s, j.agent, l)
      ensures ToleratesInteg(j, l)
    {
      if l !in Of(s.integ, j.agent) {
        var k :| Owned(s.pending, k, j.agent) && s.pending[k].Contained() && s.pending[k].policy.outputInteg == l;
        assert ContainedPair(s, i, k);
      }
    }
  }

  /** Enforce mode never lets an unchecked effect pend, and monitor mode never opens a challenge. */
  lemma RunModeHonest(bg: Background, cmds: seq<CommandK>)
    requires bg.rootAgent == ROOT
    ensures var s := Run(bg, cmds);
            if bg.mode == Enforce
            then forall i | i in s.pending :: s.pending[i].disposition == Permitted && s.pending[i].admission != Bypassed
            else s.challenges == map[]
  {
    RunInv(bg, cmds);
  }

  /** Two pending records never rest on one inspection, and each inspection was spent. */
  lemma RunInspectionsDistinct(bg: Background, cmds: seq<CommandK>, i: InvocationId, k: InvocationId)
    requires bg.rootAgent == ROOT
    requires i in Run(bg, cmds).pending && Run(bg, cmds).pending[i].admission.Inspected?
    requires k in Run(bg, cmds).pending && Run(bg, cmds).pending[k].admission == Run(bg, cmds).pending[i].admission
    ensures i == k && Run(bg, cmds).pending[i].admission.attestation in Run(bg, cmds).consumedAttestations
  {
    RunInv(bg, cmds);
    var s := Run(bg, cmds);
    assert s.pending[i].Vouched() && s.pending[k].Vouched();
  }

  /** An open challenge already meets every structural condition: resolving it admits the record
      exactly when the inspector is positive and the live gate still passes on the frozen scope. */
  lemma RunChallengeGuardsRedundant(bg: Background, cmds: seq<CommandK>, inv: InvocationId, att: InspectionAttestation)
    requires bg.rootAgent == ROOT && inv in Run(bg, cmds).challenges
    ensures var s := Run(bg, cmds); var sc := s.challenges[inv];
            && inv in s.consumedIds
            && AuthorizeAdmits(s, bg, inv, sc) == Gate(s, bg, sc.agent, sc.policy, sc.egress, sc.authorized, false)
            && (AuthorizeStep(s, bg, inv, att).Accepted? ==>
                  (AuthorizeStep(s, bg, inv, att).action.admitted
                   <==> att.positive && Gate(s, bg, sc.agent, sc.policy, sc.egress, sc.authorized, false)))
  {
    hide Run, Gate;
    RunInv(bg, cmds);
  }

  lemma NeverAlreadyOpen(s: State, bg: Background, c: CommandK)
    requires Admitted(s, bg)
    ensures Step(s, bg, c) != Refused(ChallengeAlreadyOpen)
  {
    hide Gate, CheckCapability, CheckClearance, CheckFlow, VerdictOf, BeginNext, Release, Demote, Clear, Holds;
  }

  lemma NeverBlocked(s: State, bg: Background, c: CommandK)
    requires Admitted(s, bg)
    ensures Step(s, bg, c) != Refused(BlockedPending)
  {
    hide Gate, CheckCapability, CheckClearance, CheckFlow, VerdictOf, BeginNext, Release, Demote, Clear, Holds;
  }

  /** Two refusals of the code are dead on reachable states: the consumed-id check fires before an
      already open challenge, and no record is ever stored as blocked. */
  lemma RunDeadErrors(bg: Background, cmds: seq<CommandK>, c: CommandK)
    requires bg.rootAgent == ROOT
    ensures Step(Run(bg, cmds), bg, c) != Refused(ChallengeAlreadyOpen)
    ensures Step(Run(bg, cmds), bg, c) != Refused(BlockedPending)
  {
    hide Run, Step, Tree, CapTree, Clean, Admitted, Evidenced, HeldConfined, PairConfined;
    RunInv(bg, cmds);
    NeverAlreadyOpen(Run(bg, cmds), bg, c);
    NeverBlocked(Run(bg, cmds), bg, c);
  }

  // ---- The gate as an order ----

  predicate Worse(v: Verdict, w: Verdict) {
    v == w || v == Allow || w == Deny
  }

  /** The strict arm implies the admissible arm, so the verdict is a three-way partition; and a
      verdict only worsens as the agent loses capabilities or gains labels or records. */
  lemma VerdictWorsens(s: State, t: State, bg: Background, a: AgentId, p: PolicyK, egress: set<EgressKind>, authorized: bool)
    requires Of(t.caps, a) <= Of(s.caps, a)
    requires Of(s.taint, a) <= Of(t.taint, a) && Of(s.integ, a) <= Of(t.integ, a)
    requires forall i | Owned(s.pending, i, a) :: i in t.pending && t.pending[i] == s.pending[i]
    ensures Gate(s, bg, a, p, egress, authorized, true) ==> Gate(s, bg, a, p, egress, authorized, false)
    ensures Worse(VerdictOf(s, bg, a, p, egress, authorized), VerdictOf(t, bg, a, p, egress, authorized))
  {
    GateWorsens(s, t, bg, a, p, egress, authorized, true);
    GateWorsens(s, t, bg, a, p, egress, authorized, false);
    StrictIsAdmissible(s, bg, a, p, egress, authorized);
    StrictIsAdmissible(t, bg, a, p, egress, authorized);
  }

  lemma StrictIsAdmissible(s: State, bg: Background, a: AgentId, p: PolicyK, egress: set<EgressKind>, authorized: bool)
    ensures Gate(s, bg, a, p, egress, authorized, true) ==> Gate(s, bg, a, p, egress, authorized, false)
  {
  }

  lemma GateWorsens(s: State, t: State, bg: Background, a: AgentId, p: PolicyK, egress: set<EgressKind>,
                    authorized: bool, strict: bool)
    requires Of(t.caps, a) <= Of(s.caps, a)
    requires Of(s.taint, a) <= Of(t.taint, a) && Of(s.integ, a) <= Of(t.integ, a)
    requires forall i | Owned(s.pending, i, a) :: i in t.pending && t.pending[i] == s.pending[i]
    ensures Gate(t, bg, a, p, egress, authorized, strict) ==> Gate(s, bg, a, p, egress, authorized, strict)
  {
    if Gate(t, bg, a, p, egress, authorized, strict) {
      assert SpecTaint(s, a) <= SpecTaint(t, a) by {
        forall l | l in SpecTaint(s, a) && l !in Of(s.taint, a) ensures l in SpecTaint(t, a) {
          var i :| i in s.pending && Owned(s.pending, i, a) && s.pending[i].policy.outputConf == l;
          assert Owned(t.pending, i, a);
        }
      }
      assert SpecInteg(s, a) <= SpecInteg(t, a) by {
        forall l | l in SpecInteg(s, a) && l !in Of(s.integ, a) ensures l in SpecInteg(t, a) {
          var i :| i in s.pending && Owned(s.pending, i, a) && s.pending[i].policy.outputInteg == l;
          assert Owned(t.pending, i, a);
        }
      }
      assert forall i | Owned(s.pending, i, a) :: Owned(t.pending, i, a);
    }
  }
}
