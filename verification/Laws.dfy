/**
  What one accepted command means, field by field: when it is accepted, what its outcome says, and what
  it stores.
*/
module Laws {
  import opened Types
  import opened Spec
  import opened Refinement
  import opened Collections
  import P = Protocol
  import T = Transitions

  // ---- Admission ----

  /** The record holds what was asked for, and nothing has happened to it yet. */
  predicate Stores(j: PendingK, agent: AgentId, policy: PolicyK, egress: set<EgressKind>, authorized: bool) {
    j.agent == agent && j.policy == policy && j.egress == egress && j.authorized == authorized && !j.quarantined
  }

  /** An accepted admission stores exactly what the command carries, under its id: a permitted record if the
      verdict allows, a bypassed record under monitor mode, and otherwise a challenge bound to the
      challenge id and to the arguments. Every other entry stays. */
  lemma BeginStores(s: State, bg: Background, agent: AgentId, inv: InvocationId, chal: ChallengeId, policy: PolicyK,
                    egress: set<EgressKind>, ah: ContentHash, authorized: bool)
    requires Step(s, bg, BeginInvocation(agent, inv, chal, policy, egress, ah, authorized)).Accepted?
    ensures var r := Step(s, bg, BeginInvocation(agent, inv, chal, policy, egress, ah, authorized)); var t := r.next;
            && r.action.BeganInvocation?
            && inv !in s.pending && inv !in s.challenges && inv !in s.consumedIds
            && t.consumedIds == s.consumedIds + {inv}
            && (if r.action.verdict == Allow || bg.mode == Monitor
                then && inv in t.pending && Stores(t.pending[inv], agent, policy, egress, authorized)
                     && (if r.action.verdict == Allow
                         then t.pending[inv].admission == Plain && t.pending[inv].disposition == Permitted
                         else t.pending[inv].admission == Bypassed && t.pending[inv].disposition == MonitorBypassed)
                     && t.challenges == s.challenges
                else && inv in t.challenges && t.pending == s.pending
                     && t.challenges[inv].agent == agent && t.challenges[inv].policy == policy
                     && t.challenges[inv].egress == egress && t.challenges[inv].authorized == authorized
                     && t.challenges[inv].challenge == chal && t.challenges[inv].argsHash == ah)
            && t.pending - {inv} == s.pending && t.challenges - {inv} == s.challenges
  {
    hide BeginStep, PendNext, OpenNext;
    var v := BeginVerdictOf(s, bg, agent, inv, chal, policy, egress, ah, authorized);
    if v == Allow {
      PendStores(s, inv, Pending(agent, policy, egress, Plain, Permitted, authorized, false));
    } else if bg.mode == Monitor {
      PendStores(s, inv, Pending(agent, policy, egress, Bypassed, MonitorBypassed, authorized, false));
    } else {
      OpenStores(s, inv, Scope(chal, agent, policy, egress, ah, authorized));
    }
  }

  lemma BeginVerdictOf(s: State, bg: Background, agent: AgentId, inv: InvocationId, chal: ChallengeId, policy: PolicyK,
                       egress: set<EgressKind>, ah: ContentHash, authorized: bool) returns (v: Verdict)
    requires BeginStep(s, bg, agent, inv, chal, policy, egress, ah, authorized).Accepted?
    ensures var r := BeginStep(s, bg, agent, inv, chal, policy, egress, ah, authorized);
            && r.action.BeganInvocation? && r.action.verdict == v
            && inv !in s.pending && inv !in s.challenges && inv !in s.consumedIds
            && r.next == (if v == Allow then PendNext(s, inv, Pending(agent, policy, egress, Plain, Permitted, authorized, false))
                          else if bg.mode == Monitor
                          then PendNext(s, inv, Pending(agent, policy, egress, Bypassed, MonitorBypassed, authorized, false))
                          else OpenNext(s, inv, Scope(chal, agent, policy, egress, ah, authorized)))
  {
    hide VerdictOf, DenialOf, EgressCovers, PendNext, OpenNext;
    v := VerdictOf(s, bg, agent, policy, egress, authorized);
  }

  lemma PutRemoved<K, V>(m: map<K, V>, k: K, v: V)
    requires k !in m
    ensures m[k := v] - {k} == m && m - {k} == m
  {
  }

  lemma PendStores(s: State, inv: InvocationId, j: PendingK)
    requires inv !in s.pending && inv !in s.challenges
    ensures var t := PendNext(s, inv, j);
            && inv in t.pending && t.pending[inv] == j && t.pending - {inv} == s.pending
            && t.challenges == s.challenges == t.challenges - {inv}
            && t.consumedIds == s.consumedIds + {inv}
  {
    PutRemoved(s.pending, inv, j);
  }

  lemma OpenStores(s: State, inv: InvocationId, sc: ScopeK)
    requires inv !in s.pending && inv !in s.challenges
    ensures var t := OpenNext(s, inv, sc);
            && inv in t.challenges && t.challenges[inv] == sc && t.challenges - {inv} == s.challenges
            && t.pending == s.pending == t.pending - {inv}
            && t.consumedIds == s.consumedIds + {inv}
  {
    PutRemoved(s.challenges, inv, sc);
  }

  // ---- Inspection ----

  /** An attestation resolves a challenge exactly if it is about this invocation, this challenge, these
      arguments and this policy, and was never used. */
  lemma AuthorizeAccepts(s: State, bg: Background, inv: InvocationId, att: InspectionAttestation)
    ensures Step(s, bg, AuthorizeInspected(inv, att)).Accepted?
       <==> && inv in s.challenges
            && att.inv == inv
            && att.challenge == s.challenges[inv].challenge
            && att.argsHash == s.challenges[inv].argsHash
            && att.policyDigest == s.challenges[inv].policy.policyDigest
            && att.id !in s.consumedAttestations
  {
    hide AuthorizeAdmits;
  }

  /** The challenge is closed and the attestation spent; the record is admitted exactly if the inspector is
      positive and the agent, the tool, the bands and the live gate still allow it, and then holds what the
      challenge was bound to, vouched by the attestation. */
  lemma AuthorizeStores(s: State, bg: Background, inv: InvocationId, att: InspectionAttestation)
    requires Step(s, bg, AuthorizeInspected(inv, att)).Accepted?
    ensures var r := Step(s, bg, AuthorizeInspected(inv, att)); var t := r.next;
            && inv in s.challenges && r.action.AuthorizedInspected?
            && t.challenges == s.challenges - {inv}
            && t.consumedAttestations == s.consumedAttestations + {att.id}
            && var sc := s.challenges[inv];
            && (r.action.admitted <==> att.positive && P.AuthorizeAdmits(s, bg, inv, sc))
            && (if r.action.admitted
                then && inv in t.pending && Stores(t.pending[inv], sc.agent, sc.policy, sc.egress, sc.authorized)
                     && t.pending[inv].admission == Inspected(att.id) && t.pending[inv].disposition == Permitted
                     && t.pending - {inv} == s.pending
                else t.pending == s.pending)
  {
    hide AuthorizeAdmits, P.AuthorizeAdmits;
    if inv in s.challenges {
      AdmitsAgrees(s, bg, inv, s.challenges[inv]);
      OpenSlot(s, bg, inv);
      if inv !in s.pending {
        var sc := s.challenges[inv];
        PutRemoved(s.pending, inv, Pending(sc.agent, sc.policy, sc.egress, Inspected(att.id), Permitted, sc.authorized, false));
      }
    }
  }

  lemma OpenSlot(s: State, bg: Background, inv: InvocationId)
    requires inv in s.challenges
    ensures P.AuthorizeAdmits(s, bg, inv, s.challenges[inv]) ==> inv !in s.pending
  {
    hide P.BeginAdmissible;
  }

  // ---- Settlement ----

  /** A quarantined record settles exactly with unspent evidence for this invocation and this outcome, and
      never as ambiguous; any other record exactly without evidence. */
  lemma SettleAccepts(s: State, bg: Background, inv: InvocationId, outcome: Outcome, att: Option<ResolutionAttestation>)
    ensures Step(s, bg, SettleInvocation(inv, outcome, att)).Accepted?
       <==> && inv in s.pending
            && s.pending[inv].agent in s.active
            && s.pending[inv].disposition != Blocked
            && (if s.pending[inv].quarantined
                then && outcome != Ambiguous
                     && att.Some? && att.value.inv == inv && att.value.outcome == outcome
                     && att.value.id !in s.consumedAttestations
                else att.None?)
  {
    hide Extend, Demote;
  }

  // ---- Crossing ----

  /** Positive and unspent, for exactly this output, source, receiver, descriptor and assignment. */
  ghost predicate Proves(s: State, e: ConformanceAttestation, q: CrossInput) {
    && e.positive && e.id !in s.consumedAttestations
    && e.output == q.outputHash
    && e.src == q.src
    && e.rcv == q.rcv
    && e.descriptor == q.descriptor
    && e.assignment == q.assignment
  }

  /** The branch of an accepted crossing: endorsed exactly on proof and a grant with a use left; otherwise what
      the fallback says. An endorsed pair respects the assignment, and without declassification dominates
      what the source holds. */
  lemma CrossBranches(s: State, bg: Background, q: CrossInput)
    requires Step(s, bg, CrossOutput(q)).Accepted?
    ensures var r := Step(s, bg, CrossOutput(q));
            && r.action.CrossedOutput?
            && (r.action.branch == Endorsed
                <==> && q.evidence.Some? && Proves(s, q.evidence.value, q)
                     && CrossingKey(q.rcv, q.assignment) in s.grants
                     && s.grants[CrossingKey(q.rcv, q.assignment)].remaining > 0)
            && (r.action.branch != Endorsed ==> (r.action.branch == Unendorsed <==> q.fallback == ReleaseUnendorsed))
            && (r.action.branch == Endorsed ==>
                  && q.releasedInteg.Rank() <= q.tInteg.Rank()
                  && (q.tConf.Some? ==> q.releasedConf.Rank() <= q.tConf.value.Rank())
                  && (q.tConf.None? ==> forall l | P.Taint(s, q.src, l) :: l.Rank() <= q.releasedConf.Rank()))
  {
    hide Holds, Release, SpendGrant, ReleasedConfs, ReleasedIntegs, InFlight, P.Taint;
    forall l ensures l in Of(s.taint, q.src) <==> P.Taint(s, q.src, l) {
      TaintsAgree(s, q.src, l);
    }
  }

  /** What each branch releases to the receiver, and that nobody else's labels change: the endorsed pair, all
      labels of the source, or nothing. */
  lemma CrossReleases(s: State, bg: Background, q: CrossInput, x: AgentId, l: ConfLevel, m: IntegLevel)
    requires Step(s, bg, CrossOutput(q)).Accepted?
    ensures var r := Step(s, bg, CrossOutput(q));
            && r.action.CrossedOutput?
            && (P.Taint(r.next, x, l) && !P.Taint(s, x, l)
                <==> && x == q.rcv && !P.Taint(s, x, l)
                     && ((r.action.branch == Endorsed && l == q.releasedConf)
                         || (r.action.branch == Unendorsed && P.Taint(s, q.src, l))))
            && (P.Integ(r.next, x, m) && !P.Integ(s, x, m)
                <==> && x == q.rcv && !P.Integ(s, x, m)
                     && ((r.action.branch == Endorsed && m == q.releasedInteg)
                         || (r.action.branch == Unendorsed && P.Integ(s, q.src, m))))
            && (P.Taint(s, x, l) ==> P.Taint(r.next, x, l)) && (P.Integ(s, x, m) ==> P.Integ(r.next, x, m))
  {
    hide CrossStep, P.Taint, P.Integ, P.Record, P.Challenge, P.Grant;
    CrossIsNext(s, bg, q);
  }

  // ---- Capabilities ----

  /** A grant gives the child this capability, and changes nothing else that anyone holds. */
  lemma GrantCapabilityAdds(s: State, bg: Background, parent: AgentId, child: AgentId, cap: CapKind, b: AgentId)
    requires Step(s, bg, GrantCapability(parent, child, cap)).Accepted?
    ensures var t := Step(s, bg, GrantCapability(parent, child, cap)).next;
            && Of(t.caps, b) == Of(s.caps, b) + (if b == child then {cap} else {})
            && t == s.(caps := t.caps)
  {
  }

  // ---- Dispositions ----

  /** A level may enter the context of a record in flight: it clears the clearance, and every attested channel
      lets it pass, or inspects it for a record that was inspected. */
  ghost predicate ConfTolerated(bg: Background, j: PendingK, l: ConfLevel) {
    && l.Rank() <= j.policy.confClearance.Rank()
    && forall e | e in j.egress ::
         || (e in bg.allowCeiling && l.Rank() <= bg.allowCeiling[e].Rank())
         || (e in bg.inspectCeiling && l.Rank() <= bg.inspectCeiling[e].Rank() && j.admission.Inspected?)
  }

  predicate IntegTolerated(j: PendingK, l: IntegLevel) {
    j.policy.integFloor.Rank() <= l.Rank() || (j.policy.integInspect.Rank() <= l.Rank() && j.admission.Inspected?)
  }

  ghost predicate Tolerated(s: State, bg: Background, a: AgentId, l: ConfLevel, m: IntegLevel) {
    forall i | i in s.pending && s.pending[i].agent == a :: ConfTolerated(bg, s.pending[i], l) && IntegTolerated(s.pending[i], m)
  }

  lemma ToleratedIsHeld(s: State, bg: Background, a: AgentId, l: ConfLevel, m: IntegLevel)
    ensures Tolerated(s, bg, a, l, m) <==> Holds(s.pending, bg, a, {l}, {m})
  {
    forall i | i in s.pending
      ensures ConfTolerated(bg, s.pending[i], l)
         <==> l.Le(s.pending[i].policy.confClearance) && FlowOk(bg, l, s.pending[i].egress, s.pending[i].Vouched())
      ensures IntegTolerated(s.pending[i], m) <==> IntegOk(m, s.pending[i].policy, s.pending[i].Vouched())
      ensures Owned(s.pending, i, a) <==> s.pending[i].agent == a
    {
    }
    TolerationSplits(s, bg, a, l, m);
  }

  lemma TolerationSplits(s: State, bg: Background, a: AgentId, l: ConfLevel, m: IntegLevel)
    ensures Holds(s.pending, bg, a, {l}, {m})
       <==> forall i | i in s.pending && Owned(s.pending, i, a) ::
              && l.Le(s.pending[i].policy.confClearance) && FlowOk(bg, l, s.pending[i].egress, s.pending[i].Vouched())
              && IntegOk(m, s.pending[i].policy, s.pending[i].Vouched())
  {
    hide FlowOk, IntegOk;
  }

  /** An ingest reports that it was permitted exactly if every record of the agent tolerates what comes in; it
      is refused or bypassed, by mode, exactly if not. */
  lemma IngestReports(s: State, bg: Background, a: AgentId, src: Option<AgentId>, l: ConfLevel, m: IntegLevel)
    ensures var r := Step(s, bg, Ingest(a, src, l, m));
            && (r.Accepted? ==>
                  && r.action.Ingested?
                  && (r.action.disposition == Permitted <==> Tolerated(s, bg, a, l, m))
                  && (r.action.disposition == MonitorBypassed <==> !Tolerated(s, bg, a, l, m) && bg.mode == Monitor)
                  && (r.action.disposition == Permitted ==> r.next.pending == s.pending))
            && (r == Refused(IngestHoldFailed) ==> !Tolerated(s, bg, a, l, m) && bg.mode == Enforce)
  {
    hide Holds, Tolerated, Demote, Extend, Dominates;
    ToleratedIsHeld(s, bg, a, l, m);
  }

  // ---- Wire commands ----

  /** Two policies that differ in the order and the repetitions of their lists only. */
  ghost predicate SamePolicy(p: PolicyV, q: PolicyV) {
    p.(requiredCaps := [], declaredEgress := []) == q.(requiredCaps := [], declaredEgress := [])
    && AsSet(p.requiredCaps) == AsSet(q.requiredCaps) && AsSet(p.declaredEgress) == AsSet(q.declaredEgress)
  }

  ghost predicate SameCommand(c: CommandV, d: CommandV) {
    if c.BeginInvocation? && d.BeginInvocation?
    then && SamePolicy(c.policy, d.policy) && AsSet(c.egress) == AsSet(d.egress)
         && c.(policy := d.policy, egress := d.egress) == d
    else c == d
  }

  /** Of a wire command the kernel reads everything but the order and the repetitions of three lists. */
  lemma CommandsReadAlike(c: CommandV, d: CommandV)
    ensures T.CommandOf(c) == T.CommandOf(d) <==> SameCommand(c, d)
  {
  }
}
