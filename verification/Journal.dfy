/**
  The journal. Every accepted command leaves an entry, the command and the outcome it reported; the whole
  state can be recomputed from the entries alone, without evaluating a single gate again. What any part
  of a reachable state rests on can therefore be found in the journal.
*/
module Journal {
  import opened Types
  import opened Spec
  import opened Accounting
  import opened Invariants
  import opened Refinement
  import opened Laws
  import P = Protocol

  // ---- Recomputing the state ----

  /** The entry destroys everything `a` owns: it is delegated anew, or revoked. */
  predicate Ends(e: Entry, a: AgentId) {
    Destroys(e, CrossingKey(a, []))
  }

  function ParentIn(h: seq<Entry>, a: AgentId): Option<AgentId> {
    if h == [] then None
    else
      var e, before := h[|h| - 1], ParentIn(h[..|h| - 1], a);
      if !Ends(e, a) then before
      else if e.action.Delegated? then Some(e.action.grantor)
      else None
  }

  /** Root has everything; anyone else what was granted to it since it was last delegated or revoked. */
  predicate CapIn(h: seq<Entry>, a: AgentId, cap: CapKind) {
    if h == [] then a == ROOT
    else
      var e := h[|h| - 1];
      if Ends(e, a) then false
      else CapIn(h[..|h| - 1], a, cap) || (e.action.GrantedCapability? && e.action.child == a && e.action.cap == cap)
  }

  /** The level entered by an ingest, by a settled output, or by a crossing: the endorsed one, or whatever the
      source held. */
  predicate TaintIn(h: seq<Entry>, a: AgentId, l: ConfLevel) {
    if h == [] then false
    else
      var e, before := h[|h| - 1], h[..|h| - 1];
      if Ends(e, a) then false
      else
        || TaintIn(before, a, l)
        || (match e.action
            case Ingested(agent, _, pconf, _, _) => agent == a && pconf == l
            case SettledInvocation(_, agent, _, outcome, clvl, _, _) => outcome != Ambiguous && agent == a && clvl == l
            case CrossedOutput(src, rcv, _, branch, _) =>
              rcv == a && ((branch == Endorsed && e.command.CrossOutput? && e.command.input.releasedConf == l)
                           || (branch == Unendorsed && TaintIn(before, src, l)))
            case _ => false)
  }

  predicate IntegIn(h: seq<Entry>, a: AgentId, l: IntegLevel) {
    if h == [] then false
    else
      var e, before := h[|h| - 1], h[..|h| - 1];
      if Ends(e, a) then false
      else
        || IntegIn(before, a, l)
        || (match e.action
            case Ingested(agent, _, _, pinteg, _) => agent == a && pinteg == l
            case SettledInvocation(_, agent, _, outcome, _, ilvl, _) => outcome != Ambiguous && agent == a && ilvl == l
            case CrossedOutput(src, rcv, _, branch, _) =>
              rcv == a && ((branch == Endorsed && e.command.CrossOutput? && e.command.input.releasedInteg == l)
                           || (branch == Unendorsed && IntegIn(before, src, l)))
            case _ => false)
  }

  /** The entry begins the invocation `i`. */
  predicate Begins(e: Entry, i: InvocationId) {
    && e.action.BeganInvocation? && e.action.inv == i
    && e.command.BeginInvocation? && e.command.inv == i
  }

  /** The scope of a challenge, from the command that opened it. */
  function ScopeOf(c: CommandK): ScopeK
    requires c.BeginInvocation?
  {
    Scope(c.challenge, c.agent, c.policy, c.egress, c.argsHash, c.authorized)
  }

  function ChallengeIn(mode: Mode, h: seq<Entry>, i: InvocationId): Option<ScopeK> {
    if h == [] then None
    else
      var e, before := h[|h| - 1], ChallengeIn(mode, h[..|h| - 1], i);
      match e.action
      case BeganInvocation(_, _, _, verdict, _) =>
        if !Begins(e, i) then before
        else if verdict == InspectionRequired && mode == Enforce then Some(ScopeOf(e.command))
        else None
      case AuthorizedInspected(inv, _, _) => if inv == i then None else before
      case _ => if before.Some? && Ends(e, before.value.agent) then None else before
  }

  /** The record that an admission leaves at once. */
  function RecordOf(mode: Mode, c: CommandK, verdict: Verdict): Option<PendingK>
    requires c.BeginInvocation?
  {
    if verdict == Allow then Some(Pending(c.agent, c.policy, c.egress, Plain, Permitted, c.authorized, false))
    else if verdict == InspectionRequired && mode == Enforce then None
    else Some(Pending(c.agent, c.policy, c.egress, Bypassed, MonitorBypassed, c.authorized, false))
  }

  function VouchedRecord(sc: ScopeK, id: AttestationId): PendingK {
    Pending(sc.agent, sc.policy, sc.egress, Inspected(id), Permitted, sc.authorized, false)
  }

  function RecordIn(mode: Mode, h: seq<Entry>, i: InvocationId): Option<PendingK> {
    if h == [] then None
    else
      var e, front := h[|h| - 1], h[..|h| - 1];
      var before := RecordIn(mode, front, i);
      match e.action
      case BeganInvocation(_, _, _, verdict, _) => if Begins(e, i) then RecordOf(mode, e.command, verdict) else before
      case AuthorizedInspected(inv, id, admitted) =>
        if inv == i && admitted && ChallengeIn(mode, front, i).Some?
        then Some(VouchedRecord(ChallengeIn(mode, front, i).value, id))
        else before
      case SettledInvocation(inv, agent, disposition, outcome, _, _, _) =>
        var o := if inv == i then P.SettledAt(before, outcome) else before;
        if disposition == Permitted then o else P.Demoted(o, agent)
      case Ingested(agent, _, _, _, disposition) => if disposition == MonitorBypassed then P.Demoted(before, agent) else before
      case CrossedOutput(_, rcv, _, _, disposition) => if disposition == MonitorBypassed then P.Demoted(before, rcv) else before
      case _ => if before.Some? && Ends(e, before.value.agent) then None else before
  }

  predicate ToolIn(h: seq<Entry>, tool: ToolId) {
    if h == [] then false
    else
      match h[|h| - 1].action
      case RegisteredTool(x) => x == tool || ToolIn(h[..|h| - 1], tool)
      case UnregisteredTool(x) => x != tool && ToolIn(h[..|h| - 1], tool)
      case _ => ToolIn(h[..|h| - 1], tool)
  }

  // ---- The books balance ----

  ghost predicate TreeBooks(h: seq<Entry>, s: State) {
    && (forall a :: P.Active(s, a) <==> a == ROOT || ParentIn(h, a).Some?)
    && (forall c, p :: P.Parent(s, c, p) <==> ParentIn(h, c) == Some(p))
  }

  ghost predicate CapBooks(h: seq<Entry>, s: State) {
    forall a, cap :: P.Cap(s, a, cap) <==> CapIn(h, a, cap)
  }

  ghost predicate TaintBooks(h: seq<Entry>, s: State) {
    forall a, l :: P.Taint(s, a, l) <==> TaintIn(h, a, l)
  }

  ghost predicate IntegBooks(h: seq<Entry>, s: State) {
    forall a, l :: P.Integ(s, a, l) <==> IntegIn(h, a, l)
  }

  ghost predicate RecordBooks(mode: Mode, h: seq<Entry>, s: State) {
    forall i :: P.Record(s, i) == RecordIn(mode, h, i)
  }

  ghost predicate ChallengeBooks(mode: Mode, h: seq<Entry>, s: State) {
    forall i :: P.Challenge(s, i) == ChallengeIn(mode, h, i)
  }

  ghost predicate ToolBooks(h: seq<Entry>, s: State) {
    forall t :: P.Tool(s, t) <==> ToolIn(h, t)
  }

  /** The state is what the journal says. */
  ghost predicate Books(mode: Mode, h: seq<Entry>, s: State) {
    && TreeBooks(h, s) && CapBooks(h, s) && TaintBooks(h, s) && IntegBooks(h, s)
    && RecordBooks(mode, h, s) && ChallengeBooks(mode, h, s) && ToolBooks(h, s)
  }

  lemma Front(h: seq<Entry>, e: Entry)
    ensures h + [e] != [] && (h + [e])[|h + [e]| - 1] == e && (h + [e])[..|h + [e]| - 1] == h
  {
  }

  lemma StepTree(h: seq<Entry>, s: State, bg: Background, e: Entry, t: State)
    requires bg.rootAgent == ROOT && TreeBooks(h, s) && P.Transition(s, bg, e.command, e.action, t)
    ensures TreeBooks(h + [e], t)
  {
    hide P.Transition;
    if IsStructural(e.command) {
      StepTreeStructure(h, s, bg, e, t);
    } else {
      StepTreeInvocation(h, s, bg, e, t);
    }
  }

  lemma StepTreeStructure(h: seq<Entry>, s: State, bg: Background, e: Entry, t: State)
    requires IsStructural(e.command)
    requires bg.rootAgent == ROOT && TreeBooks(h, s) && P.Transition(s, bg, e.command, e.action, t)
    ensures TreeBooks(h + [e], t)
  {
    hide P.Active, P.Parent, P.Cap, P.Taint, P.Integ, P.Record, P.Challenge, P.Grant, P.Tool, P.IngestGuard, P.BeginStructure, P.BeginVerdict, P.CrossGuard, P.AuthorizeGuard,
         P.SettleGuard, P.IngestNext, P.BeginNext, P.AuthorizeNext, P.SettleNext, P.CrossNext;
    Front(h, e);
    forall a ensures ParentIn(h + [e], a) == (if !Ends(e, a) then ParentIn(h, a)
                                              else if e.action.Delegated? then Some(e.action.grantor) else None) {
    }
  }

  lemma StepTreeInvocation(h: seq<Entry>, s: State, bg: Background, e: Entry, t: State)
    requires !IsStructural(e.command)
    requires bg.rootAgent == ROOT && TreeBooks(h, s) && P.Transition(s, bg, e.command, e.action, t)
    ensures TreeBooks(h + [e], t)
  {
    hide P.Active, P.Parent, P.Cap, P.Taint, P.Integ, P.Record, P.Challenge, P.Grant, P.Tool, P.IngestGuard, P.BeginStructure, P.BeginVerdict, P.CrossGuard,
         P.AuthorizeGuard, P.SettleGuard, P.RevokeNext, P.DelegateNext, P.ToolsNext;
    Front(h, e);
  }

  lemma StepCaps(h: seq<Entry>, s: State, bg: Background, e: Entry, t: State)
    requires CapBooks(h, s) && P.Transition(s, bg, e.command, e.action, t)
    ensures CapBooks(h + [e], t)
  {
    hide P.Transition;
    if IsStructural(e.command) {
      StepCapsStructure(h, s, bg, e, t);
    } else {
      StepCapsInvocation(h, s, bg, e, t);
    }
  }

  lemma StepCapsStructure(h: seq<Entry>, s: State, bg: Background, e: Entry, t: State)
    requires IsStructural(e.command)
    requires CapBooks(h, s) && P.Transition(s, bg, e.command, e.action, t)
    ensures CapBooks(h + [e], t)
  {
    hide P.Active, P.Parent, P.Cap, P.Taint, P.Integ, P.Record, P.Challenge, P.Grant, P.Tool, P.IngestGuard, P.BeginStructure, P.BeginVerdict, P.CrossGuard, P.AuthorizeGuard,
         P.SettleGuard, P.IngestNext, P.BeginNext, P.AuthorizeNext, P.SettleNext, P.CrossNext;
    Front(h, e);
  }

  lemma StepCapsInvocation(h: seq<Entry>, s: State, bg: Background, e: Entry, t: State)
    requires !IsStructural(e.command)
    requires CapBooks(h, s) && P.Transition(s, bg, e.command, e.action, t)
    ensures CapBooks(h + [e], t)
  {
    hide P.Active, P.Parent, P.Cap, P.Taint, P.Integ, P.Record, P.Challenge, P.Grant, P.Tool, P.IngestGuard, P.BeginStructure, P.BeginVerdict, P.CrossGuard,
         P.AuthorizeGuard, P.SettleGuard, P.RevokeNext, P.DelegateNext, P.ToolsNext;
    Front(h, e);
  }

  lemma StepTaint(h: seq<Entry>, s: State, bg: Background, e: Entry, t: State)
    requires TaintBooks(h, s) && P.Transition(s, bg, e.command, e.action, t)
    ensures TaintBooks(h + [e], t)
  {
    hide P.Transition;
    if IsStructural(e.command) {
      StepTaintStructure(h, s, bg, e, t);
    } else {
      StepTaintInvocation(h, s, bg, e, t);
    }
  }

  lemma StepTaintStructure(h: seq<Entry>, s: State, bg: Background, e: Entry, t: State)
    requires IsStructural(e.command)
    requires TaintBooks(h, s) && P.Transition(s, bg, e.command, e.action, t)
    ensures TaintBooks(h + [e], t)
  {
    hide P.Active, P.Parent, P.Cap, P.Taint, P.Integ, P.Record, P.Challenge, P.Grant, P.Tool, P.IngestGuard, P.BeginStructure, P.BeginVerdict, P.CrossGuard, P.AuthorizeGuard,
         P.SettleGuard, P.IngestNext, P.BeginNext, P.AuthorizeNext, P.SettleNext, P.CrossNext;
    Front(h, e);
  }

  lemma StepTaintInvocation(h: seq<Entry>, s: State, bg: Background, e: Entry, t: State)
    requires !IsStructural(e.command)
    requires TaintBooks(h, s) && P.Transition(s, bg, e.command, e.action, t)
    ensures TaintBooks(h + [e], t)
  {
    hide P.Active, P.Parent, P.Cap, P.Taint, P.Integ, P.Record, P.Challenge, P.Grant, P.Tool, P.IngestGuard, P.BeginStructure, P.BeginVerdict, P.CrossGuard,
         P.AuthorizeGuard, P.RevokeNext, P.DelegateNext, P.ToolsNext;
    Front(h, e);
  }

  lemma StepInteg(h: seq<Entry>, s: State, bg: Background, e: Entry, t: State)
    requires IntegBooks(h, s) && P.Transition(s, bg, e.command, e.action, t)
    ensures IntegBooks(h + [e], t)
  {
    hide P.Transition;
    if IsStructural(e.command) {
      StepIntegStructure(h, s, bg, e, t);
    } else {
      StepIntegInvocation(h, s, bg, e, t);
    }
  }

  lemma StepIntegStructure(h: seq<Entry>, s: State, bg: Background, e: Entry, t: State)
    requires IsStructural(e.command)
    requires IntegBooks(h, s) && P.Transition(s, bg, e.command, e.action, t)
    ensures IntegBooks(h + [e], t)
  {
    hide P.Active, P.Parent, P.Cap, P.Taint, P.Integ, P.Record, P.Challenge, P.Grant, P.Tool, P.IngestGuard, P.BeginStructure, P.BeginVerdict, P.CrossGuard, P.AuthorizeGuard,
         P.SettleGuard, P.IngestNext, P.BeginNext, P.AuthorizeNext, P.SettleNext, P.CrossNext;
    Front(h, e);
  }

  lemma StepIntegInvocation(h: seq<Entry>, s: State, bg: Background, e: Entry, t: State)
    requires !IsStructural(e.command)
    requires IntegBooks(h, s) && P.Transition(s, bg, e.command, e.action, t)
    ensures IntegBooks(h + [e], t)
  {
    hide P.Active, P.Parent, P.Cap, P.Taint, P.Integ, P.Record, P.Challenge, P.Grant, P.Tool, P.IngestGuard, P.BeginStructure, P.BeginVerdict, P.CrossGuard,
         P.AuthorizeGuard, P.RevokeNext, P.DelegateNext, P.ToolsNext;
    Front(h, e);
  }

  lemma StepChallenges(mode: Mode, h: seq<Entry>, s: State, bg: Background, e: Entry, t: State)
    requires ChallengeBooks(mode, h, s) && P.Transition(s, bg, e.command, e.action, t) && mode == bg.mode
    ensures ChallengeBooks(mode, h + [e], t)
  {
    hide P.Transition;
    if IsStructural(e.command) {
      StepChallengesStructure(mode, h, s, bg, e, t);
    } else {
      StepChallengesInvocation(mode, h, s, bg, e, t);
    }
  }

  lemma StepChallengesStructure(mode: Mode, h: seq<Entry>, s: State, bg: Background, e: Entry, t: State)
    requires IsStructural(e.command)
    requires ChallengeBooks(mode, h, s) && P.Transition(s, bg, e.command, e.action, t) && mode == bg.mode
    ensures ChallengeBooks(mode, h + [e], t)
  {
    hide P.Active, P.Parent, P.Cap, P.Taint, P.Integ, P.Record, P.Challenge, P.Grant, P.Tool, P.IngestGuard, P.BeginStructure, P.BeginVerdict, P.CrossGuard, P.AuthorizeGuard,
         P.SettleGuard, P.IngestNext, P.BeginNext, P.AuthorizeNext, P.SettleNext, P.CrossNext;
    Front(h, e);
  }

  lemma StepChallengesInvocation(mode: Mode, h: seq<Entry>, s: State, bg: Background, e: Entry, t: State)
    requires !IsStructural(e.command)
    requires ChallengeBooks(mode, h, s) && P.Transition(s, bg, e.command, e.action, t) && mode == bg.mode
    ensures ChallengeBooks(mode, h + [e], t)
  {
    hide P.Active, P.Parent, P.Cap, P.Taint, P.Integ, P.Record, P.Challenge, P.Grant, P.Tool, P.IngestGuard, P.BeginStructure, P.BeginVerdict, P.CrossGuard,
         P.SettleGuard, P.RevokeNext, P.DelegateNext, P.ToolsNext;
    Front(h, e);
  }

  lemma StepRecords(mode: Mode, h: seq<Entry>, s: State, bg: Background, e: Entry, t: State)
    requires RecordBooks(mode, h, s) && ChallengeBooks(mode, h, s)
    requires P.Transition(s, bg, e.command, e.action, t) && mode == bg.mode
    ensures RecordBooks(mode, h + [e], t)
  {
    hide P.Transition;
    if IsStructural(e.command) {
      StepRecordsStructure(mode, h, s, bg, e, t);
    } else {
      StepRecordsInvocation(mode, h, s, bg, e, t);
    }
  }

  lemma StepRecordsStructure(mode: Mode, h: seq<Entry>, s: State, bg: Background, e: Entry, t: State)
    requires IsStructural(e.command)
    requires RecordBooks(mode, h, s) && ChallengeBooks(mode, h, s)
    requires P.Transition(s, bg, e.command, e.action, t) && mode == bg.mode
    ensures RecordBooks(mode, h + [e], t)
  {
    hide P.Active, P.Parent, P.Cap, P.Taint, P.Integ, P.Record, P.Challenge, P.Grant, P.Tool, P.IngestGuard, P.BeginStructure, P.BeginVerdict, P.CrossGuard, P.AuthorizeGuard,
         P.SettleGuard, P.IngestNext, P.BeginNext, P.AuthorizeNext, P.SettleNext, P.CrossNext;
    Front(h, e);
  }

  lemma StepRecordsInvocation(mode: Mode, h: seq<Entry>, s: State, bg: Background, e: Entry, t: State)
    requires !IsStructural(e.command)
    requires RecordBooks(mode, h, s) && ChallengeBooks(mode, h, s)
    requires P.Transition(s, bg, e.command, e.action, t) && mode == bg.mode
    ensures RecordBooks(mode, h + [e], t)
  {
    hide P.Active, P.Parent, P.Cap, P.Taint, P.Integ, P.Record, P.Challenge, P.Grant, P.Tool, P.IngestGuard, P.BeginStructure, P.BeginVerdict, P.CrossGuard,
         P.RevokeNext, P.DelegateNext, P.ToolsNext;
    Front(h, e);
  }

  lemma StepTools(h: seq<Entry>, s: State, bg: Background, e: Entry, t: State)
    requires ToolBooks(h, s) && P.Transition(s, bg, e.command, e.action, t)
    ensures ToolBooks(h + [e], t)
  {
    hide P.Active, P.Parent, P.Cap, P.Taint, P.Integ, P.Tool, P.IngestGuard, P.BeginStructure, P.BeginVerdict, P.AuthorizeGuard,
         P.SettleGuard, P.CrossGuard;
    Front(h, e);
  }

  lemma StepBooks(h: seq<Entry>, s: State, bg: Background, e: Entry, t: State)
    requires bg.rootAgent == ROOT && Books(bg.mode, h, s) && P.Transition(s, bg, e.command, e.action, t)
    ensures Books(bg.mode, h + [e], t)
  {
    hide P.Transition, TreeBooks, CapBooks, TaintBooks, IntegBooks, RecordBooks, ChallengeBooks, ToolBooks;
    StepTree(h, s, bg, e, t);
    StepCaps(h, s, bg, e, t);
    StepTaint(h, s, bg, e, t);
    StepInteg(h, s, bg, e, t);
    StepRecords(bg.mode, h, s, bg, e, t);
    StepChallenges(bg.mode, h, s, bg, e, t);
    StepTools(h, s, bg, e, t);
  }

  lemma BeginBooks(bg: Background, s: State)
    requires bg.rootAgent == ROOT && P.Begins(s, bg)
    ensures Books(bg.mode, [], s)
  {
    hide P.Active, P.Parent, P.Cap, P.Taint, P.Integ, P.Record, P.Challenge, P.Grant, P.Tool;
  }

  /** Along every run of the protocol the books balance at each moment. */
  lemma {:induction false} TraceBooks(bg: Background, h: seq<Entry>, states: seq<State>, k: nat)
    requires bg.rootAgent == ROOT && Trace(bg, h, states) && k <= |h|
    ensures Books(bg.mode, h[..k], states[k])
  {
    hide P.Transition, P.Begins, Books;
    if k == 0 {
      BeginBooks(bg, states[0]);
    } else {
      TraceBooks(bg, h, states, k - 1);
      StepBooks(h[..k - 1], states[k - 1], bg, h[k - 1], states[k]);
      assert h[..k] == h[..k - 1] + [h[k - 1]];
    }
  }

  /** Every reachable state is what its journal says: the tree, what everyone may do, every label, every record
      and challenge with all their fields, and the tools. */
  lemma RunIsJournal(bg: Background, cmds: seq<CommandK>)
    requires bg.rootAgent == ROOT
    ensures Books(bg.mode, History(bg, cmds), Run(bg, cmds))
  {
    hide P.Transition, P.Begins, Books, Run, History;
    var states := RunIsTrace(bg, cmds);
    var h := History(bg, cmds);
    TraceBooks(bg, h, states, |h|);
    assert h[..|h|] == h;
  }

  /** The journal alone determines the state: two runs that leave the same entries, even under different
      ceilings and after different refused commands, end in states that cannot be told apart. */
  lemma JournalDetermines(bg: Background, cmds: seq<CommandK>, other: Background, others: seq<CommandK>)
    requires bg.rootAgent == other.rootAgent == ROOT && bg.mode == other.mode
    requires History(bg, cmds) == History(other, others)
    ensures P.Same(Run(bg, cmds), Run(other, others))
  {
    hide Run, History, P.Active, P.Parent, P.Cap, P.Taint, P.Integ, P.Record, P.Challenge, P.Tool, P.Grant, Gather, Elements, Distinct,
         Matches, Ledger, EndorsedCount, ProvisionedTotal;
    RunIsJournal(bg, cmds);
    RunIsJournal(other, others);
    RunSpendsOnce(bg, cmds);
    RunSpendsOnce(other, others);
    forall a, d ensures P.Grant(Run(bg, cmds), a, d) == P.Grant(Run(other, others), a, d) {
      RunGrantsBalance(bg, cmds, CrossingKey(a, d));
      RunGrantsBalance(other, others, CrossingKey(a, d));
      OneGrant(Run(bg, cmds), Run(other, others), a, d, Ledger(History(bg, cmds), CrossingKey(a, d)));
    }
  }

  lemma OneGrant(s: State, t: State, a: AgentId, d: AssignmentDigest, account: Option<Account>)
    requires Matches(s.grants, CrossingKey(a, d), account) && Matches(t.grants, CrossingKey(a, d), account)
    ensures P.Grant(s, a, d) == P.Grant(t, a, d)
  {
  }

  // ---- What a record rests on ----

  /** An open challenge has the scope of the entry that opened it. */
  lemma {:induction false} ChallengeFrom(mode: Mode, h: seq<Entry>, i: InvocationId) returns (n: nat)
    requires ChallengeIn(mode, h, i).Some?
    ensures n < |h| && Begins(h[n], i) && mode == Enforce && h[n].action.verdict == InspectionRequired
    ensures ChallengeIn(mode, h, i) == Some(ScopeOf(h[n].command))
  {
    var e, front := h[|h| - 1], h[..|h| - 1];
    if Begins(e, i) {
      n := |h| - 1;
    } else {
      n := ChallengeFrom(mode, front, i);
    }
  }

  /** What of a record never changes. */
  predicate SameOrigin(j: PendingK, k: PendingK) {
    j.agent == k.agent && j.policy == k.policy && j.egress == k.egress && j.authorized == k.authorized && j.admission == k.admission
  }

  /** The record of `c`, as admitted at once, or vouched by an inspection. */
  predicate CarriedBy(j: PendingK, c: CommandK) {
    && c.BeginInvocation?
    && j.agent == c.agent && j.policy == c.policy && j.egress == c.egress && j.authorized == c.authorized
  }

  /** A record rests on the entry `n` that began it; if an inspection vouches for it, also on a later entry `m`
      that resolved the challenge of that very admission. */
  lemma {:induction false} RecordFrom(mode: Mode, h: seq<Entry>, i: InvocationId) returns (n: nat, m: nat)
    requires RecordIn(mode, h, i).Some?
    ensures n <= m < |h| && Begins(h[n], i) && CarriedBy(RecordIn(mode, h, i).value, h[n].command)
    ensures match RecordIn(mode, h, i).value.admission
            case Plain => m == n && h[n].action.verdict == Allow
            case Bypassed => m == n && h[n].action.verdict != Allow && (h[n].action.verdict == InspectionRequired ==> mode == Monitor)
            case Inspected(id) =>
              && n < m && h[m].action == AuthorizedInspected(i, id, true)
              && mode == Enforce && h[n].action.verdict == InspectionRequired
              && ChallengeIn(mode, h[..m], i) == Some(ScopeOf(h[n].command))
  {
    var e, front := h[|h| - 1], h[..|h| - 1];
    if Begins(e, i) {
      n, m := |h| - 1, |h| - 1;
    } else if e.action.AuthorizedInspected? && e.action.inv == i && e.action.admitted && ChallengeIn(mode, front, i).Some? {
      n := ChallengeFrom(mode, front, i);
      m := |h| - 1;
    } else {
      assert RecordIn(mode, front, i).Some? && SameOrigin(RecordIn(mode, h, i).value, RecordIn(mode, front, i).value);
      n, m := RecordFrom(mode, front, i);
      assert h[..m] == front[..m];
    }
  }

  lemma {:induction false} UsedStays(bg: Background, h: seq<Entry>, states: seq<State>, i: InvocationId, n: nat, m: nat)
    requires Trace(bg, h, states) && n <= m <= |h| && P.UsedInvocation(states[n], i)
    ensures P.UsedInvocation(states[m], i)
    decreases m - n
  {
    hide P.Begins, P.Guard;
    if n < m {
      UsedStays(bg, h, states, i, n, m - 1);
      UsedOnce(states[m - 1], bg, h[m - 1], states[m], i);
    }
  }

  lemma UsedOnce(s: State, bg: Background, e: Entry, t: State, i: InvocationId)
    requires P.Transition(s, bg, e.command, e.action, t)
    ensures P.UsedInvocation(s, i) ==> P.UsedInvocation(t, i) && !Begins(e, i)
    ensures Begins(e, i) ==> P.UsedInvocation(t, i)
  {
    hide P.BeginVerdict, P.AuthorizeGuard, P.SettleGuard, P.CrossGuard, P.IngestGuard, P.UsedInvocation, P.Destroys;
  }

  /** No id begins twice. */
  lemma BeginsOnce(bg: Background, h: seq<Entry>, states: seq<State>, i: InvocationId, n: nat, m: nat)
    requires Trace(bg, h, states) && n < m < |h| && Begins(h[n], i)
    ensures !Begins(h[m], i)
  {
    hide P.Begins, P.Transition;
    UsedOnce(states[n], bg, h[n], states[n + 1], i);
    UsedStays(bg, h, states, i, n + 1, m);
    UsedOnce(states[m], bg, h[m], states[m + 1], i);
  }

  lemma OnlyBegin(bg: Background, h: seq<Entry>, states: seq<State>, i: InvocationId, n: nat)
    requires Trace(bg, h, states) && n < |h| && Begins(h[n], i)
    ensures forall k | 0 <= k < |h| && Begins(h[k], i) :: k == n
  {
    hide P.Begins, P.Transition, Begins, Trace;
    forall k | 0 <= k < |h| && Begins(h[k], i) ensures k == n {
      if k < n {
        BeginsOnce(bg, h, states, i, k, n);
      } else if n < k {
        BeginsOnce(bg, h, states, i, n, k);
      }
    }
  }

  /** Every record in flight carries exactly what the one command with its id asked for: agent, frozen policy,
      attested channels and authorization. It was admitted by the verdict of that command, unless an
      inspection vouches for it. */
  lemma RecordOrigin(bg: Background, cmds: seq<CommandK>, i: InvocationId) returns (n: nat)
    requires bg.rootAgent == ROOT && i in Run(bg, cmds).pending
    ensures var h := History(bg, cmds); var j := Run(bg, cmds).pending[i];
            && n < |h| && Begins(h[n], i)
            && (forall k | 0 <= k < |h| && Begins(h[k], i) :: k == n)
            && j.agent == h[n].command.agent && j.policy == h[n].command.policy && j.egress == h[n].command.egress
            && j.authorized == h[n].command.authorized
            && (j.admission == Plain <==> h[n].action.verdict == Allow)
            && (j.admission == Bypassed <==> h[n].action.verdict != Allow && bg.mode == Monitor)
  {
    hide Run, History, P.Begins, P.Transition, RecordIn;
    var states := RunIsTrace(bg, cmds);
    RunIsJournal(bg, cmds);
    var h, s := History(bg, cmds), Run(bg, cmds);
    assert P.Record(s, i) == RecordIn(bg.mode, h, i);
    var m;
    n, m := RecordFrom(bg.mode, h, i);
    OnlyBegin(bg, h, states, i, n);
    DenialIsMonitored(bg, h, states, n, i);
  }

  lemma DenialIsMonitored(bg: Background, h: seq<Entry>, states: seq<State>, n: nat, i: InvocationId)
    requires Trace(bg, h, states) && n < |h| && Begins(h[n], i)
    ensures h[n].action.verdict == Deny ==> bg.mode == Monitor
  {
    hide P.Begins, P.BeginStructure, P.BeginAllow, P.BeginAdmissible, P.Next;
    assert P.Transition(states[n], bg, h[n].command, h[n].action, states[n + 1]);
  }

  /** Every open challenge is bound to exactly what the one command with its id asked for, its challenge id and
      its arguments included. */
  lemma ChallengeOrigin(bg: Background, cmds: seq<CommandK>, i: InvocationId) returns (n: nat)
    requires bg.rootAgent == ROOT && i in Run(bg, cmds).challenges
    ensures var h := History(bg, cmds); var sc := Run(bg, cmds).challenges[i];
            && n < |h| && Begins(h[n], i)
            && (forall k | 0 <= k < |h| && Begins(h[k], i) :: k == n)
            && sc.challenge == h[n].command.challenge && sc.argsHash == h[n].command.argsHash
            && sc.agent == h[n].command.agent && sc.policy == h[n].command.policy && sc.egress == h[n].command.egress
            && sc.authorized == h[n].command.authorized
            && h[n].action.verdict == InspectionRequired && bg.mode == Enforce
  {
    hide Run, History, P.Begins, P.Transition, ChallengeIn;
    var states := RunIsTrace(bg, cmds);
    RunIsJournal(bg, cmds);
    var h, s := History(bg, cmds), Run(bg, cmds);
    assert P.Challenge(s, i) == ChallengeIn(bg.mode, h, i);
    n := ChallengeFrom(bg.mode, h, i);
    OnlyBegin(bg, h, states, i, n);
  }

  /** Every vouched record rests on an accepted resolution with a positive attestation, which names the
      invocation, the challenge id, the arguments and the policy of the command that began it. */
  lemma VouchOrigin(bg: Background, cmds: seq<CommandK>, i: InvocationId) returns (n: nat, m: nat)
    requires bg.rootAgent == ROOT && i in Run(bg, cmds).pending && Run(bg, cmds).pending[i].admission.Inspected?
    ensures var h := History(bg, cmds); var j := Run(bg, cmds).pending[i];
            && n < m < |h| && Begins(h[n], i) && CarriedBy(j, h[n].command)
            && (forall k | 0 <= k < |h| && Begins(h[k], i) :: k == n)
            && h[m].command.AuthorizeInspected? && h[m].command.inv == i
            && h[m].action == AuthorizedInspected(i, j.admission.attestation, true)
            && var att := h[m].command.attestation;
            && att.positive && att.id == j.admission.attestation && att.inv == i
            && att.challenge == h[n].command.challenge
            && att.argsHash == h[n].command.argsHash
            && att.policyDigest == h[n].command.policy.policyDigest
  {
    hide Run, History, P.Begins, P.Transition, RecordIn, ChallengeIn;
    var states := RunIsTrace(bg, cmds);
    RunIsJournal(bg, cmds);
    var h, s := History(bg, cmds), Run(bg, cmds);
    assert P.Record(s, i) == RecordIn(bg.mode, h, i);
    n, m := RecordFrom(bg.mode, h, i);
    OnlyBegin(bg, h, states, i, n);
    TraceBooks(bg, h, states, m);
    assert P.Challenge(states[m], i) == ChallengeIn(bg.mode, h[..m], i);
    InspectionMatches(bg, states[m], h[m], states[m + 1], i, s.pending[i].admission.attestation);
  }

  lemma InspectionMatches(bg: Background, s: State, e: Entry, t: State, i: InvocationId, id: AttestationId)
    requires P.Transition(s, bg, e.command, e.action, t) && e.action == AuthorizedInspected(i, id, true)
    ensures e.command.AuthorizeInspected? && e.command.inv == i && P.Challenge(s, i).Some?
    ensures var att, sc := e.command.attestation, P.Challenge(s, i).value;
            && att.positive && att.id == id && att.inv == i
            && att.challenge == sc.challenge && att.argsHash == sc.argsHash && att.policyDigest == sc.policy.policyDigest
  {
    hide P.AuthorizeAdmits, P.Next, P.BeginVerdict, P.BeginStructure, P.CrossGuard, P.IngestGuard, P.SettleGuard;
  }

  // ---- How a quarantine ends ----

  ghost predicate Quarantined(s: State, i: InvocationId, owner: AgentId) {
    i in s.pending && s.pending[i].quarantined && s.pending[i].agent == owner
  }

  /** `c` destroys the owner, or closes the record on fresh evidence for this invocation and this outcome. */
  predicate Resolves(s: State, c: CommandK, i: InvocationId, owner: AgentId) {
    || (c.Revoke? && c.target == owner)
    || (c.CascadeRevoke? && c.child == owner)
    || (c.SettleInvocation? && c.inv == i && c.outcome != Ambiguous
        && c.resolution.Some? && c.resolution.value.inv == i && c.resolution.value.outcome == c.outcome
        && c.resolution.value.id !in s.consumedAttestations)
  }

  /** A quarantined record stays as it is, unless the command resolves it. */
  lemma QuarantineStep(s: State, bg: Background, c: CommandK, i: InvocationId, owner: AgentId)
    requires bg.rootAgent == ROOT && Inv(s, bg) && Quarantined(s, i, owner) && Step(s, bg, c).Accepted?
    ensures Quarantined(Step(s, bg, c).next, i, owner) || (i !in Step(s, bg, c).next.pending && Resolves(s, c, i, owner))
  {
    hide Inv, Step, P.Guard, P.Next;
    var r := Step(s, bg, c);
    if c.AuthorizeInspected? && c.inv in s.challenges {
      OpenIsSpent(s, bg, c.inv);
    }
    OwnerIsActive(s, bg, i);
    GuardAgrees(s, bg, c, r.action);
    NextAgrees(s, bg, c);
    QuarantineMoves(s, bg, c, r.action, r.next, i, owner);
  }

  lemma OpenIsSpent(s: State, bg: Background, inv: InvocationId)
    requires Inv(s, bg) && inv in s.challenges
    ensures inv in s.consumedIds
  {
    hide Tree, CapTree, Clean, Evidenced, HeldConfined, PairConfined;
  }

  lemma OwnerIsActive(s: State, bg: Background, i: InvocationId)
    requires Inv(s, bg) && i in s.pending
    ensures s.pending[i].agent in s.active
  {
    hide Tree, CapTree, Admitted, Evidenced, HeldConfined, PairConfined;
  }

  lemma QuarantineMoves(s: State, bg: Background, c: CommandK, a: Action, t: State, i: InvocationId, owner: AgentId)
    requires P.Guard(s, bg, c, a) && P.Next(s, bg, c, a, t)
    requires Quarantined(s, i, owner) && owner in s.active
    ensures Quarantined(t, i, owner) || (i !in t.pending && Resolves(s, c, i, owner))
  {
    hide P.IngestGuard, P.BeginVerdict, P.BeginAdmissible, P.CrossGuard, P.Parent, P.Cap, P.Taint, P.Integ, P.Grant, P.Tool;
    assert P.Record(s, i) == Some(s.pending[i]);
    assert P.Record(t, i).Some? <==> i in t.pending;
  }

  /** Once quarantined, a record leaves only when its owner is revoked, or is settled on fresh evidence that
      names the invocation and the outcome it is settled with; until then it stays quarantined. */
  lemma {:induction false} QuarantineEnds(bg: Background, before: seq<CommandK>, after: seq<CommandK>, i: InvocationId, owner: AgentId)
    returns (k: nat)
    requires bg.rootAgent == ROOT && Quarantined(Run(bg, before), i, owner) && !Quarantined(Run(bg, before + after), i, owner)
    ensures k < |after|
    ensures var s := Run(bg, before + after[..k]);
            && Quarantined(s, i, owner)
            && Step(s, bg, after[k]).Accepted?
            && i !in Step(s, bg, after[k]).next.pending
            && Resolves(s, after[k], i, owner)
  {
    hide Run, Step, Inv, Quarantined, Resolves;
    assert before + [] == before;
    if after != [] {
      var n := |after| - 1;
      assert before + after == before + after[..n] + [after[n]];
      RunNext(bg, before + after[..n], after[n]);
      if Quarantined(Run(bg, before + after[..n]), i, owner) {
        k := n;
        RunInv(bg, before + after[..n]);
        QuarantineStep(Run(bg, before + after[..n]), bg, after[n], i, owner);
      } else {
        k := QuarantineEnds(bg, before, after[..n], i, owner);
        assert after[..n][..k] == after[..k];
      }
    }
  }

  // ---- What an agent may do ----

  /** What an agent other than root may do was granted to it, by an accepted grant of its parent after which it
      was neither revoked nor delegated anew; and whatever was granted so, it may still do. */
  lemma CapabilityOrigin(bg: Background, cmds: seq<CommandK>, a: AgentId, cap: CapKind)
    requires bg.rootAgent == ROOT && a != ROOT
    ensures cap in Of(Run(bg, cmds).caps, a) <==> exists n :: GrantedAt(History(bg, cmds), a, cap, n)
  {
    hide Run, History, P.Active, P.Parent, GrantedAt;
    RunIsJournal(bg, cmds);
    assert cap in Of(Run(bg, cmds).caps, a) <==> P.Cap(Run(bg, cmds), a, cap);
    CapFrom(History(bg, cmds), a, cap);
  }

  /** The entry `n` grants the capability to `a`, and no later entry takes everything from `a`. */
  predicate GrantedAt(h: seq<Entry>, a: AgentId, cap: CapKind, n: int) {
    && 0 <= n < |h|
    && h[n].action.GrantedCapability? && h[n].action.child == a && h[n].action.cap == cap
    && forall k | n < k < |h| :: !Ends(h[k], a)
  }

  lemma {:induction false} CapFrom(h: seq<Entry>, a: AgentId, cap: CapKind)
    requires a != ROOT
    ensures CapIn(h, a, cap) <==> exists n :: GrantedAt(h, a, cap, n)
  {
    if h != [] {
      var last := |h| - 1;
      CapFrom(h[..last], a, cap);
      if n :| GrantedAt(h[..last], a, cap, n) && !Ends(h[last], a) {
        assert GrantedAt(h, a, cap, n);
      }
      if n :| GrantedAt(h, a, cap, n) {
        if n < last {
          assert !Ends(h[last], a) && GrantedAt(h[..last], a, cap, n);
        }
      }
      if CapIn(h, a, cap) && !CapIn(h[..last], a, cap) {
        assert GrantedAt(h, a, cap, last);
      }
    }
  }
}
