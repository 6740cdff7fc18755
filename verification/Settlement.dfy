/** Settlements of different invocations commute. */
module Settlement {
  import opened Types
  import opened Spec

  datatype Settle = Settle(inv: InvocationId, outcome: Outcome, att: Option<ResolutionAttestation>)

  ghost function Do(s: State, x: Settle): StepResult {
    SettleStep(s, x.inv, x.outcome, x.att)
  }

  type Records = map<InvocationId, PendingK>

  /** What settling a record does to another record: nothing, or a demotion. */
  ghost function Bystander(settled: PendingK, j: PendingK): PendingK {
    j.(disposition := if j.agent == settled.agent && !settled.Contained() then MonitorBypassed else j.disposition)
  }

  /** `after` is the pending table once `x` is settled in the table `before`. */
  ghost predicate Settled(before: Records, x: Settle, after: Records) {
    && x.inv in before
    && after.Keys == (if x.outcome == Ambiguous then before.Keys else before.Keys - {x.inv})
    && forall i | i in after ::
         after[i] == Bystander(before[x.inv], if i == x.inv then before[i].(quarantined := true) else before[i])
  }

  lemma SettlePending(s: State, x: Settle)
    requires Do(s, x).Accepted?
    ensures Settled(s.pending, x, Do(s, x).next.pending)
  {
    hide Extend;
  }

  /** When a settlement is accepted, in terms of its record, of the active agents and of the spent evidence. */
  ghost predicate Acceptable(s: State, y: Settle) {
    && y.inv in s.pending
    && var j := s.pending[y.inv];
    && j.agent in s.active && j.disposition != Blocked
    && (if j.quarantined then y.outcome != Ambiguous && ResolutionValid(s, y.inv, y.outcome, y.att) else y.att.None?)
  }

  lemma AcceptedIff(s: State, y: Settle)
    ensures Do(s, y).Accepted? <==> Acceptable(s, y)
  {
    hide Extend, Demote, ResolutionValid;
  }

  /** Settling `x` leaves `y` acceptable: same owner, still active, neither blocked nor newly
      quarantined, and its evidence unspent. */
  lemma SettleStillAccepted(s: State, x: Settle, y: Settle)
    requires x.inv != y.inv && Do(s, x).Accepted? && Do(s, y).Accepted?
    requires x.att.Some? && y.att.Some? ==> x.att.value.id != y.att.value.id
    ensures Do(Do(s, x).next, y).Accepted?
  {
    hide SettleStep, Extend;
    AcceptedIff(s, y);
    AcceptedIff(Do(s, x).next, y);
    SettleMoves(s, x.inv, x.outcome, x.att);
  }

  ghost function Spent(x: Settle): set<AttestationId> {
    if x.att.Some? then {x.att.value.id} else {}
  }

  /** The labels of the settled record, absorbed unless the outcome is ambiguous. */
  ghost function Absorb<T>(m: map<AgentId, set<T>>, x: Settle, a: AgentId, level: T): map<AgentId, set<T>> {
    if x.outcome == Ambiguous then m else Extend(m, a, {level})
  }

  lemma SettleShape(s: State, x: Settle)
    requires Do(s, x).Accepted?
    ensures var j := s.pending[x.inv];
            Do(s, x).next == s.(pending := Do(s, x).next.pending,
                                taint := Absorb(s.taint, x, j.agent, j.policy.outputConf),
                                integ := Absorb(s.integ, x, j.agent, j.policy.outputInteg),
                                consumedAttestations := s.consumedAttestations + Spent(x))
  {
  }

  lemma ExtendCommutes<T>(m: map<AgentId, set<T>>, a: AgentId, x: set<T>, b: AgentId, y: set<T>)
    ensures Extend(Extend(m, a, x), b, y) == Extend(Extend(m, b, y), a, x)
  {
    assert Of(m, a) + x + y == Of(m, a) + y + x;
  }

  lemma AbsorbCommutes<T>(m: map<AgentId, set<T>>, x: Settle, a: AgentId, l: T, y: Settle, b: AgentId, k: T)
    ensures Absorb(Absorb(m, x, a, l), y, b, k) == Absorb(Absorb(m, y, b, k), x, a, l)
  {
    ExtendCommutes(m, a, {l}, b, {k});
  }

  /** Two settlements of different invocations that are each accepted are accepted in either order
      and reach the same state, even when one of them was bypassed and demotes the other's record,
      or is ambiguous and quarantines. Only the disposition that the second action reports may depend
      on the order. */
  lemma SettlementsCommute(s: State, x: Settle, y: Settle)
    requires x.inv != y.inv && Do(s, x).Accepted? && Do(s, y).Accepted?
    requires x.att.Some? && y.att.Some? ==> x.att.value.id != y.att.value.id
    ensures Do(Do(s, x).next, y).Accepted? && Do(Do(s, y).next, x).Accepted?
    ensures Do(Do(s, x).next, y).next == Do(Do(s, y).next, x).next
  {
    SettleStillAccepted(s, x, y);
    SettleStillAccepted(s, y, x);
    Order(s, x, y);
    Order(s, y, x);
    OrdersAgree(s, x, y, Do(s, x).next, Do(Do(s, x).next, y).next, Do(s, y).next, Do(Do(s, y).next, x).next);
  }

  /** `xy` is the state after settling `x`, through `sx`, and then `y`, in terms of the two records at
      the start. */
  ghost predicate InOrder(s: State, x: Settle, y: Settle, sx: State, xy: State) {
    && Settled(s.pending, x, sx.pending)
    && Settled(sx.pending, y, xy.pending)
    && y.inv in s.pending
    && var jx, jy := s.pending[x.inv], s.pending[y.inv];
    && xy == s.(pending := xy.pending,
                taint := Absorb(Absorb(s.taint, x, jx.agent, jx.policy.outputConf), y, jy.agent, jy.policy.outputConf),
                integ := Absorb(Absorb(s.integ, x, jx.agent, jx.policy.outputInteg), y, jy.agent, jy.policy.outputInteg),
                consumedAttestations := s.consumedAttestations + Spent(x) + Spent(y))
  }

  lemma Order(s: State, x: Settle, y: Settle)
    requires x.inv != y.inv && Do(s, x).Accepted? && Do(s, y).Accepted? && Do(Do(s, x).next, y).Accepted?
    ensures InOrder(s, x, y, Do(s, x).next, Do(Do(s, x).next, y).next)
  {
    SettleShape(s, x);
    SettlePending(s, x);
    SettleShape(Do(s, x).next, y);
    SettlePending(Do(s, x).next, y);
  }

  lemma OrdersAgree(s: State, x: Settle, y: Settle, sx: State, xy: State, sy: State, yx: State)
    requires x.inv != y.inv && InOrder(s, x, y, sx, xy) && InOrder(s, y, x, sy, yx)
    ensures xy == yx
  {
    var jx, jy := s.pending[x.inv], s.pending[y.inv];
    PendingCommutes(s.pending, sx.pending, sy.pending, xy.pending, yx.pending, x, y);
    AbsorbCommutes(s.taint, x, jx.agent, jx.policy.outputConf, y, jy.agent, jy.policy.outputConf);
    AbsorbCommutes(s.integ, x, jx.agent, jx.policy.outputInteg, y, jy.agent, jy.policy.outputInteg);
    assert s.consumedAttestations + Spent(x) + Spent(y) == s.consumedAttestations + Spent(y) + Spent(x);
  }

  lemma PendingCommutes(s: Records, sx: Records, sy: Records, xy: Records, yx: Records, x: Settle, y: Settle)
    requires x.inv != y.inv
    requires Settled(s, x, sx) && Settled(sx, y, xy)
    requires Settled(s, y, sy) && Settled(sy, x, yx)
    ensures xy == yx
  {
    assert xy.Keys == yx.Keys;
    forall i | i in xy ensures xy[i] == yx[i] {
      RecordCommutes(s, sx, sy, xy, yx, x, y, i);
    }
  }

  /** A record after both settlements, in the order `x`, `y`. */
  lemma RecordAfter(s: Records, sx: Records, xy: Records, x: Settle, y: Settle, i: InvocationId)
    requires x.inv != y.inv && i in xy && Settled(s, x, sx) && Settled(sx, y, xy)
    ensures i in s && y.inv in s
    ensures xy[i] == Bystander(Bystander(s[x.inv], s[y.inv]),
                               Bystander(s[x.inv], if i == x.inv || i == y.inv then s[i].(quarantined := true) else s[i]))
  {
    hide Bystander;
    QuarantineCommutes(s[x.inv], s[i]);
    assert sx[y.inv] == Bystander(s[x.inv], s[y.inv]);
  }

  lemma QuarantineCommutes(settled: PendingK, j: PendingK)
    ensures Bystander(settled, j.(quarantined := true)) == Bystander(settled, j).(quarantined := true)
  {
  }

  lemma RecordCommutes(s: Records, sx: Records, sy: Records, xy: Records, yx: Records, x: Settle, y: Settle,
                       i: InvocationId)
    requires x.inv != y.inv && i in xy && i in yx
    requires Settled(s, x, sx) && Settled(sx, y, xy)
    requires Settled(s, y, sy) && Settled(sy, x, yx)
    ensures xy[i] == yx[i]
  {
    hide Bystander, Settled;
    RecordAfter(s, sx, xy, x, y, i);
    RecordAfter(s, sy, yx, y, x, i);
    BystandersCommute(s[x.inv], s[y.inv], if i == x.inv || i == y.inv then s[i].(quarantined := true) else s[i]);
  }

  /** Demotions by two settled records reach a third alike in either order, whether or not one of the two
      was itself demoted first. */
  lemma BystandersCommute(jx: PendingK, jy: PendingK, j: PendingK)
    ensures Bystander(Bystander(jx, jy), Bystander(jx, j)) == Bystander(Bystander(jy, jx), Bystander(jy, j))
  {
  }
}
